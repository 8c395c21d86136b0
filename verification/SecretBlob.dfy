// The secret a config store is written as: one JSON object assembled by hand, so that the
// substitutions inside its values survive until deployment.
module SecretBlob {
  import opened Text
  import opened Json
  import opened Ordering
  import opened Sequences

  // A piece of assembled text: literal, or a substitution resolved at deploy time.
  datatype Part = LiteralPart(text: string) | SubstitutionPart(id: string)

  // number holds the text the encoder writes for an integer or a float.
  datatype ConfigValue =
    | StringValue(text: string)
    | NumberValue(lexeme: string)
    | BoolValue(value: bool)
    | SubstitutedValue(parts: seq<Part>)

  type Environment = string -> string

  // ---- Encoding ----

  const HEX := "0123456789abcdef"

  function FourHex(n: nat): string
    requires n < 0x10000
  {
    var a, b := n / 16, n / 16 / 16;
    [HEX[b / 16], HEX[b % 16], HEX[a % 16], HEX[n % 16]]
  }

  function UnicodeEscape(c: char): string
    requires c as int < 0x10000
  {
    "\\u" + FourHex(c as int)
  }

  // The encoder also escapes what is unsafe inside HTML and JavaScript.
  function EscapeChar(c: char): string {
    match c
    case '"' => "\\\""
    case '\\' => "\\\\"
    case '\U{8}' => "\\b"
    case '\U{C}' => "\\f"
    case '\n' => "\\n"
    case '\r' => "\\r"
    case '\t' => "\\t"
    case '<' => UnicodeEscape(c)
    case '>' => UnicodeEscape(c)
    case '&' => UnicodeEscape(c)
    case '\U{2028}' => UnicodeEscape(c)
    case '\U{2029}' => UnicodeEscape(c)
    case _ => if c < ' ' then UnicodeEscape(c) else [c]
  }

  function Escaped(s: string): string {
    if s == "" then "" else EscapeChar(s[0]) + Escaped(s[1..])
  }

  function Quoted(body: string): string {
    "\"" + body + "\""
  }

  function EncodedValue(v: ConfigValue): string
    requires !v.SubstitutedValue?
  {
    match v
    case StringValue(text) => Quoted(Escaped(text))
    case NumberValue(lexeme) => lexeme
    case BoolValue(value) => if value then "true" else "false"
  }

  // ---- Assembly ----

  function ValueParts(v: ConfigValue): seq<Part> {
    if v.SubstitutedValue? then [LiteralPart("\"")] + v.parts + [LiteralPart("\"")] else [LiteralPart(EncodedValue(v))]
  }

  function MemberParts(key: string, v: ConfigValue): seq<Part> {
    [LiteralPart(Quoted(Escaped(key)) + ":")] + ValueParts(v)
  }

  function Separator(n: nat): seq<Part> {
    if n > 0 then [LiteralPart(",")] else []
  }

  function NextParts(n: nat, key: string, v: ConfigValue): seq<Part> {
    Separator(n) + MemberParts(key, v)
  }

  function MembersParts(values: map<string, ConfigValue>, keys: seq<string>): seq<Part>
    requires forall k :: k in keys ==> k in values
  {
    if keys == [] then []
    else
      var n := |keys| - 1;
      MembersParts(values, keys[..n]) + NextParts(n, keys[n], values[keys[n]])
  }

  ghost function Blob(values: map<string, ConfigValue>): seq<Part> {
    SortedSetMembers(values.Keys);
    [LiteralPart("{")] + MembersParts(values, SortedSet(values.Keys)) + [LiteralPart("}")]
  }

  method PushMember(parts: seq<Part>, key: string, v: ConfigValue) returns (r: seq<Part>)
    ensures r == parts + MemberParts(key, v)
  {
    r := parts + [LiteralPart(Quoted(Escaped(key)) + ":")];
    if v.SubstitutedValue? {
      r := r + [LiteralPart("\"")];
      r := r + v.parts;
      r := r + [LiteralPart("\"")];
      assert r == parts + ([LiteralPart(Quoted(Escaped(key)) + ":")] + ([LiteralPart("\"")] + v.parts + [LiteralPart("\"")]));
    } else {
      r := r + [LiteralPart(EncodedValue(v))];
    }
  }

  lemma MembersPartsLast(values: map<string, ConfigValue>, keys: seq<string>, i: nat)
    requires i < |keys| && forall k :: k in keys ==> k in values
    ensures MembersParts(values, keys[..i + 1]) ==
            MembersParts(values, keys[..i]) + NextParts(i, keys[i], values[keys[i]])
  {
    assert keys[..i + 1][..i] == keys[..i];
  }

  // What one turn of the loop adds.
  method PushNext(parts: seq<Part>, n: nat, key: string, v: ConfigValue) returns (r: seq<Part>)
    ensures r == parts + NextParts(n, key, v)
  {
    r := parts;
    if n > 0 {
      r := r + [LiteralPart(",")];
    }
    assert r == parts + Separator(n);
    r := PushMember(r, key, v);
    Reassociate(parts, Separator(n), MemberParts(key, v));
  }

  method PushMembers(open: seq<Part>, values: map<string, ConfigValue>, keys: seq<string>) returns (parts: seq<Part>)
    requires forall k :: k in keys ==> k in values
    ensures parts == open + MembersParts(values, keys)
  {
    parts := open;
    for i := 0 to |keys|
      invariant parts == open + MembersParts(values, keys[..i])
    {
      MembersPartsLast(values, keys, i);
      Reassociate(open, MembersParts(values, keys[..i]), NextParts(i, keys[i], values[keys[i]]));
      parts := PushNext(parts, i, keys[i], values[keys[i]]);
    }
    assert keys[..|keys|] == keys;
  }

  // Whatever order the map yields its keys in, the parts come out the same.
  method BuildSecretString(values: map<string, ConfigValue>) returns (parts: seq<Part>)
    ensures parts == Blob(values)
  {
    var keys := SortedKeys(values.Keys);
    SortedSetMembers(values.Keys);
    parts := PushMembers([LiteralPart("{")], values, keys);
    parts := parts + [LiteralPart("}")];
  }

  // ---- What is deployed ----

  function PartText(env: Environment): Part -> string {
    (p: Part) => if p.LiteralPart? then p.text else env(p.id)
  }

  function Resolve(parts: seq<Part>, env: Environment): string {
    FlatMap(parts, PartText(env))
  }

  // The value a reader should find.
  function Meaning(v: ConfigValue, env: Environment): Json {
    match v
    case StringValue(text) => JString(text)
    case NumberValue(lexeme) => JNumber(lexeme)
    case BoolValue(value) => JBool(value)
    case SubstitutedValue(parts) => JString(Resolve(parts, env))
  }

  predicate Safe(text: string) {
    forall i :: 0 <= i < |text| ==> text[i] >= ' ' && text[i] != '"' && text[i] != '\\'
  }

  predicate SafelySpliced(v: ConfigValue, env: Environment) {
    v.SubstitutedValue? ==> Safe(Resolve(v.parts, env))
  }

  predicate Encodable(v: ConfigValue) {
    v.NumberValue? ==> IsNumber(v.lexeme)
  }

  function ValueText(v: ConfigValue, env: Environment): string {
    if v.SubstitutedValue? then Quoted(Resolve(v.parts, env)) else EncodedValue(v)
  }

  function MemberText(key: string, v: ConfigValue, env: Environment): string {
    Quoted(Escaped(key)) + ":" + ValueText(v, env)
  }

  // ---- Reading strings back ----

  lemma HexDigits(n: nat)
    requires n < 16
    ensures IsHex(HEX[n]) && HexValue(HEX[n]) == n
  {
  }

  lemma FourHexRead(n: nat)
    requires n < 0x10000
    ensures |FourHex(n)| == 4 && StartsWithCodeUnit(FourHex(n)) && CodeUnit(FourHex(n)) == n
  {
    var a, b := n / 16, n / 16 / 16;
    HexDigits(b / 16);
    HexDigits(b % 16);
    HexDigits(a % 16);
    HexDigits(n % 16);
  }

  lemma CodeUnitEscapeParses(c: char, hex: string, rest: string)
    requires |hex| == 4 && StartsWithCodeUnit(hex) && CodeUnit(hex) == c as int
    ensures ParseEscape("u" + hex + rest) == Parsed(c, rest)
  {
    var s := "u" + hex + rest;
    assert s[1..5] == hex && s[5..] == rest;
    assert s[1..][..4] == hex;
  }

  lemma UnicodeEscapeParses(c: char, rest: string)
    requires c as int < 0x10000
    ensures ParseString(UnicodeEscape(c) + rest) == Prepend(c, ParseString(rest))
  {
    var hex := FourHex(c as int);
    FourHexRead(c as int);
    CodeUnitEscapeParses(c, hex, rest);
    var s := UnicodeEscape(c) + rest;
    assert s[0] == '\\' && s[1..] == "u" + hex + rest;
  }

  lemma SimpleEscapeParses(letter: char, c: char, rest: string)
    requires SimpleEscape(letter) == Parsed(c, "")
    ensures ParseEscape([letter] + rest) == Parsed(c, rest)
  {
    assert letter != 'u';
    assert ([letter] + rest)[1..] == rest;
  }

  lemma ShortEscapeParses(letter: char, c: char, rest: string)
    requires SimpleEscape(letter) == Parsed(c, "")
    ensures ParseString(['\\', letter] + rest) == Prepend(c, ParseString(rest))
  {
    var s := ['\\', letter] + rest;
    assert s[0] == '\\' && s[1..] == [letter] + rest;
    SimpleEscapeParses(letter, c, rest);
  }

  lemma EscapeCharParses(c: char, rest: string)
    ensures ParseString(EscapeChar(c) + rest) == Prepend(c, ParseString(rest))
  {
    match c
    case '"' => ShortEscapeParses('"', c, rest);
    case '\\' => ShortEscapeParses('\\', c, rest);
    case '\U{8}' => ShortEscapeParses('b', c, rest);
    case '\U{C}' => ShortEscapeParses('f', c, rest);
    case '\n' => ShortEscapeParses('n', c, rest);
    case '\r' => ShortEscapeParses('r', c, rest);
    case '\t' => ShortEscapeParses('t', c, rest);
    case _ =>
      if EscapeChar(c) == [c] {
        assert ([c] + rest)[1..] == rest;
      } else {
        UnicodeEscapeParses(c, rest);
      }
  }

  lemma {:induction false} EscapedParses(s: string, rest: string)
    ensures ParseString(Escaped(s) + "\"" + rest) == Parsed(s, rest)
  {
    if s == "" {
      assert Escaped(s) + "\"" + rest == "\"" + rest;
      assert ("\"" + rest)[1..] == rest;
    } else {
      EscapedParses(s[1..], rest);
      assert Escaped(s) + "\"" + rest == EscapeChar(s[0]) + (Escaped(s[1..]) + "\"" + rest);
      EscapeCharParses(s[0], Escaped(s[1..]) + "\"" + rest);
      assert s == [s[0]] + s[1..];
    }
  }

  lemma {:induction false} SafeParses(t: string, rest: string)
    requires Safe(t)
    ensures ParseString(t + "\"" + rest) == Parsed(t, rest)
  {
    if t == "" {
      assert t + "\"" + rest == "\"" + rest;
      assert ("\"" + rest)[1..] == rest;
    } else {
      SafeParses(t[1..], rest);
      assert (t + "\"" + rest)[1..] == t[1..] + "\"" + rest;
      assert t == [t[0]] + t[1..];
    }
  }

  // ---- A text spliced in raw ----

  function Quotes(s: string): nat {
    if s == "" then 0 else (if s[0] == '"' then 1 else 0) + Quotes(s[1..])
  }

  lemma {:induction false} QuotesConcat(s: string, t: string)
    ensures Quotes(s + t) == Quotes(s) + Quotes(t)
  {
    if s == "" {
      assert s + t == t;
    } else {
      assert (s + t)[1..] == s[1..] + t;
      QuotesConcat(s[1..], t);
    }
  }

  lemma NoQuotes(s: string)
    requires forall i :: 0 <= i < |s| ==> s[i] != '"'
    ensures Quotes(s) == 0
  {
  }

  lemma EscapeHasNoQuote(s: string)
    requires ParseEscape(s).Parsed? && s[0] != '"'
    ensures forall i :: 0 <= i < |s| - |ParseEscape(s).rest| ==> s[i] != '"'
  {
    EscapeShortens(s);
    var n := |s| - |ParseEscape(s).rest|;
    assert n == 1 || n == 5 || n == 11;
    if n >= 5 {
      assert s[1..][0] == s[1] && s[1..][1] == s[2] && s[1..][2] == s[3] && s[1..][3] == s[4];
    }
    if n == 11 {
      assert s[5..][0] == s[5] && s[5..][1] == s[6];
      assert s[7..][0] == s[7] && s[7..][1] == s[8] && s[7..][2] == s[9] && s[7..][3] == s[10];
    }
  }

  // An escape yields a quote for the quote it consumes.
  lemma EscapeKeepsQuotes(s: string)
    ensures ParseEscape(s).Parsed? ==>
              Quotes(s) <= (if ParseEscape(s).value == '"' then 1 else 0) + Quotes(ParseEscape(s).rest)
  {
    EscapeShortens(s);
    var e := ParseEscape(s);
    if e.Parsed? {
      var n := |s| - |e.rest|;
      assert s == s[..n] + e.rest;
      QuotesConcat(s[..n], e.rest);
      if s[0] == '"' {
        assert n == 1 && s[..1][1..] == "";
      } else {
        EscapeHasNoQuote(s);
        NoQuotes(s[..n]);
      }
    }
  }

  // What reading a string consumes: at least its value and the closing quote, no more only
  // if nothing was escaped; and no quote is consumed without being read or closing.
  ghost predicate Accounted(s: string, v: string, rest: string) {
    |v| + 1 + |rest| <= |s| &&
    rest == s[|s| - |rest|..] && s[|s| - |rest| - 1] == '"' &&
    Quotes(s) <= Quotes(v) + 1 + Quotes(rest) &&
    (|v| + 1 + |rest| == |s| ==> Safe(v))
  }

  lemma {:induction false} StringAccounts(s: string)
    ensures ParseString(s).Parsed? ==> Accounted(s, ParseString(s).value, ParseString(s).rest)
    decreases |s|
  {
    if s != "" && s[0] >= ' ' && s[0] != '"' {
      if s[0] != '\\' {
        StringAccounts(s[1..]);
        if ParseString(s).Parsed? {
          PrependAccounts(s, s[0], s[1..], ParseString(s[1..]).value, ParseString(s[1..]).rest);
        }
      } else {
        EscapeShortens(s[1..]);
        EscapeKeepsQuotes(s[1..]);
        var e := ParseEscape(s[1..]);
        if e.Parsed? {
          StringAccounts(e.rest);
          if ParseString(s).Parsed? {
            PrependAccounts(s, e.value, e.rest, ParseString(e.rest).value, ParseString(e.rest).rest);
          }
        }
      }
    }
  }

  lemma PrependAccounts(s: string, c: char, after: string, v: string, rest: string)
    requires |after| < |s| && after == s[|s| - |after|..]
    requires Quotes(s) <= (if c == '"' then 1 else 0) + Quotes(after)
    requires |after| + 1 == |s| ==> c >= ' ' && c != '"' && c != '\\'
    requires Accounted(after, v, rest)
    ensures Accounted(s, [c] + v, rest)
  {
    assert ([c] + v)[1..] == v;
    assert s[|s| - |rest| - 1] == after[|after| - |rest| - 1];
    assert s[|s| - |rest|..] == after[|after| - |rest|..];
  }

  // A text that is not safe is never read back, whatever follows it: either the string is
  // malformed, or it ends early, or an escape shortens it, or it runs past its closing
  // quote and then holds one quote too many.
  lemma UnsafeIsNotReadBack(t: string, rest: string)
    requires !Safe(t)
    ensures var p := ParseString(t + "\"" + rest); p.Parsed? ==> p.value != t
  {
    var s := t + "\"" + rest;
    var p := ParseString(s);
    StringAccounts(s);
    assert s == t + ("\"" + rest) && ("\"" + rest)[1..] == rest;
    QuotesConcat(t, "\"" + rest);
    if p.Parsed? && p.value == t {
      LateQuote(s, rest, p.rest);
      assert false;
    }
  }

  lemma LateQuote(s: string, rest: string, after: string)
    requires |after| < |rest| <= |s| && rest == s[|s| - |rest|..] && after == s[|s| - |after|..]
    requires s[|s| - |after| - 1] == '"'
    ensures Quotes(rest) >= 1 + Quotes(after)
  {
    var j := |rest| - |after| - 1;
    assert rest == rest[..j] + (['"'] + after);
    QuotesConcat(rest[..j], ['"'] + after);
    assert (['"'] + after)[1..] == after;
  }

  // ---- Reading values back ----

  lemma {:induction false} SkipDigitsSplit(s: string)
    ensures var r := SkipDigits(s);
            r == s[|s| - |r|..] && forall i :: 0 <= i < |s| - |r| ==> s[i] in DIGITS
  {
    if s != "" && s[0] in DIGITS {
      SkipDigitsSplit(s[1..]);
      var n := |s| - |SkipDigits(s)|;
      assert forall i :: 0 < i < n ==> s[i] == s[1..][i - 1];
    }
  }

  ghost predicate SkipsNumberChars(s: string, r: string) {
    |r| <= |s| && r == s[|s| - |r|..] && forall i :: 0 <= i < |s| - |r| ==> NumberChar(s[i])
  }

  lemma SkipsCompose(s: string, m: string, r: string)
    requires SkipsNumberChars(s, m) && SkipsNumberChars(m, r)
    ensures SkipsNumberChars(s, r)
  {
    forall i | |s| - |m| <= i < |s| - |r| ensures NumberChar(s[i]) {
      assert s[i] == m[i - (|s| - |m|)];
    }
  }

  lemma DigitsSkip(s: string)
    ensures SkipsNumberChars(s, SkipDigits(s))
  {
    SkipDigitsSplit(s);
  }

  lemma FractionSkips(s: string)
    ensures SkipFraction(s).Parsed? ==> SkipsNumberChars(s, SkipFraction(s).rest)
  {
    if SkipFraction(s).Parsed? && s != "" && s[0] == '.' {
      DigitsSkip(s[1..]);
      SkipsCompose(s, s[1..], SkipFraction(s).rest);
    }
  }

  lemma ExponentSkips(s: string)
    ensures SkipExponent(s).Parsed? ==> SkipsNumberChars(s, SkipExponent(s).rest)
  {
    if SkipExponent(s).Parsed? && s != "" && (s[0] == 'e' || s[0] == 'E') {
      var from := if |s| > 1 && (s[1] == '+' || s[1] == '-') then s[2..] else s[1..];
      DigitsSkip(from);
      SkipsCompose(s, from, SkipExponent(s).rest);
    }
  }

  // The number after its sign, and after its integer part.
  function Magnitude(s: string): string {
    if s != "" && s[0] == '-' then s[1..] else s
  }

  function AfterInteger(magnitude: string): Parsed<()> {
    if magnitude != "" && magnitude[0] == '0' then Parsed((), magnitude[1..]) else SkipDigits1(magnitude)
  }

  lemma IntegerSkips(s: string)
    requires AfterInteger(Magnitude(s)).Parsed?
    ensures SkipsNumberChars(s, AfterInteger(Magnitude(s)).rest)
    ensures s != "" && (s[0] == '-' || s[0] in DIGITS)
  {
    var magnitude := Magnitude(s);
    DigitsSkip(magnitude);
    SkipsCompose(s, magnitude, AfterInteger(magnitude).rest);
  }

  lemma NumberChars(s: string)
    requires IsNumber(s)
    ensures s != "" && (s[0] == '-' || s[0] in DIGITS) && forall i :: 0 <= i < |s| ==> NumberChar(s[i])
  {
    var whole := AfterInteger(Magnitude(s)).rest;
    var fraction := SkipFraction(whole).rest;
    IntegerSkips(s);
    FractionSkips(whole);
    ExponentSkips(fraction);
    SkipsCompose(s, whole, fraction);
    SkipsCompose(s, fraction, "");
  }

  lemma {:induction false} RunStopsAt(s: string, rest: string)
    requires forall i :: 0 <= i < |s| ==> NumberChar(s[i])
    requires rest != "" && !NumberChar(rest[0])
    ensures NumberRun(s + rest) == |s|
  {
    if s == "" {
      assert s + rest == rest;
    } else {
      assert (s + rest)[1..] == s[1..] + rest;
      RunStopsAt(s[1..], rest);
    }
  }

  predicate Ends(rest: string) {
    rest != "" && (rest[0] == ',' || rest[0] == '}')
  }

  lemma OtherStart(s: string, word: string)
    requires s != "" && word != "" && s[0] != word[0]
    ensures !HasPrefix(s, word)
  {
  }

  lemma NumberReadBack(lexeme: string, rest: string)
    requires IsNumber(lexeme) && Ends(rest)
    ensures ParseValue(lexeme + rest) == Parsed(JNumber(lexeme), rest)
  {
    var s := lexeme + rest;
    NumberChars(lexeme);
    RunStopsAt(lexeme, rest);
    assert s[0] == lexeme[0] && s[0] != 't' && s[0] != 'f' && s[0] != 'n' && s[0] != '"';
    OtherStart(s, "true");
    OtherStart(s, "false");
    OtherStart(s, "null");
    assert s[..|lexeme|] == lexeme && s[|lexeme|..] == rest;
  }

  lemma BoolReadBack(value: bool, rest: string)
    ensures ParseValue((if value then "true" else "false") + rest) == Parsed(JBool(value), rest)
  {
    if value {
      PrefixOfConcat("true", rest);
    } else {
      PrefixOfConcat("false", rest);
      OtherStart("false" + rest, "true");
    }
  }

  lemma OpenedString(x: string)
    ensures ParseValue(['"'] + x) ==
            if ParseString(x).Failed? then Failed else Parsed(JString(ParseString(x).value), ParseString(x).rest)
  {
    assert (['"'] + x)[1..] == x;
  }

  lemma QuotedOpens(body: string, rest: string)
    ensures Quoted(body) + rest == ['"'] + (body + "\"" + rest)
  {
  }

  lemma StringReadBack(text: string, rest: string)
    ensures ParseValue(Quoted(Escaped(text)) + rest) == Parsed(JString(text), rest)
  {
    EscapedParses(text, rest);
    QuotedOpens(Escaped(text), rest);
    OpenedString(Escaped(text) + "\"" + rest);
  }

  lemma LiteralReadBack(v: ConfigValue, env: Environment, rest: string)
    requires !v.SubstitutedValue? && Encodable(v) && Ends(rest)
    ensures ParseValue(EncodedValue(v) + rest) == Parsed(Meaning(v, env), rest)
  {
    match v
    case StringValue(text) => StringReadBack(text, rest);
    case NumberValue(lexeme) => NumberReadBack(lexeme, rest);
    case BoolValue(value) => BoolReadBack(value, rest);
  }

  lemma ValueReadBackIff(v: ConfigValue, env: Environment, rest: string)
    requires Encodable(v) && Ends(rest)
    ensures var p := ParseValue(ValueText(v, env) + rest);
            if SafelySpliced(v, env) then p == Parsed(Meaning(v, env), rest) else p.Parsed? ==> p.value != Meaning(v, env)
  {
    if v.SubstitutedValue? {
      var text := Resolve(v.parts, env);
      QuotedOpens(text, rest);
      OpenedString(text + "\"" + rest);
      if Safe(text) {
        SafeParses(text, rest);
      } else {
        UnsafeIsNotReadBack(text, rest);
      }
    } else {
      LiteralReadBack(v, env, rest);
    }
  }

  lemma OpenedMember(after: string, key: string, value: string)
    requires ParseString(after) == Parsed(key, [':'] + value) && SkipSpace(value) == value
    ensures ParseMember(['"'] + after) ==
            var p := ParseValue(value); if p.Failed? then Failed else Parsed(Member(key, p.value), SkipSpace(p.rest))
  {
    assert (['"'] + after)[1..] == after;
    assert ([':'] + value)[1..] == value;
  }

  // A member reads as its key and whatever its value reads as.
  lemma KeyReadBack(key: string, value: string)
    requires SkipSpace(value) == value
    ensures ParseMember(Quoted(Escaped(key)) + ([':'] + value)) ==
            var p := ParseValue(value); if p.Failed? then Failed else Parsed(Member(key, p.value), SkipSpace(p.rest))
  {
    EscapedParses(key, [':'] + value);
    QuotedOpens(Escaped(key), [':'] + value);
    OpenedMember(Escaped(key) + "\"" + ([':'] + value), key, value);
  }

  lemma MemberReadBackIff(key: string, v: ConfigValue, env: Environment, rest: string)
    requires Encodable(v) && Ends(rest)
    ensures var p := ParseMember(MemberText(key, v, env) + rest);
            if SafelySpliced(v, env) then p == Parsed(Member(key, Meaning(v, env)), rest)
            else p.Parsed? ==> p.value != Member(key, Meaning(v, env))
  {
    var value := ValueText(v, env) + rest;
    ValueStart(v, env, rest);
    KeyReadBack(key, value);
    var name := Quoted(Escaped(key));
    Reassociate(name + ":", ValueText(v, env), rest);
    Reassociate(name, ":", value);
    ValueReadBackIff(v, env, rest);
  }

  lemma ValueStart(v: ConfigValue, env: Environment, rest: string)
    requires Encodable(v)
    ensures SkipSpace(ValueText(v, env) + rest) == ValueText(v, env) + rest
  {
    if v.NumberValue? {
      NumberChars(v.lexeme);
    }
  }

  // ---- The whole object ----

  function TextOf(values: map<string, ConfigValue>, env: Environment): string -> string {
    (key: string) => if key in values then MemberText(key, values[key], env) else ""
  }

  function MeaningOf(values: map<string, ConfigValue>, env: Environment): string -> Member {
    (key: string) => Member(key, if key in values then Meaning(values[key], env) else JNull)
  }

  function MembersOf(values: map<string, ConfigValue>, keys: seq<string>, env: Environment): seq<Member> {
    Map(keys, MeaningOf(values, env))
  }

  function MembersText(values: map<string, ConfigValue>, keys: seq<string>, env: Environment): string {
    Join(Map(keys, TextOf(values, env)), ',')
  }

  lemma MembersTextFirst(values: map<string, ConfigValue>, keys: seq<string>, env: Environment)
    requires keys != []
    ensures MembersText(values, keys, env) ==
            TextOf(values, env)(keys[0]) + if |keys| == 1 then "" else [','] + MembersText(values, keys[1..], env)
  {
    MapFirst(keys, TextOf(values, env));
    JoinFirst(TextOf(values, env)(keys[0]), Map(keys[1..], TextOf(values, env)), ',');
  }

  // Reading the last member, and reading one that others follow.
  lemma LastMember(text: string, m: Member)
    requires text != "" && text[0] == '"'
    ensures var p := ParseMember(text + "}");
            (p == Parsed(m, "}") ==> ParseMembers(text + "}") == Object([m])) &&
            ((p.Parsed? ==> p.value != m) ==> ParseMembers(text + "}") != Object([m]))
  {
    var s := text + "}";
    assert SkipSpace(s) == s;
    assert "}"[1..] == "" && ObjectEnd("") == Object([]);
    assert [m] + [] == [m];
    if ParseMembers(s) == Object([m]) {
      assert Object([m]).members[0] == ParseMember(s).value;
    }
  }

  lemma OtherMember(text: string, m: Member, more: string, members: seq<Member>)
    requires text != "" && text[0] == '"'
    ensures var p := ParseMember(text + ([','] + more));
            (p == Parsed(m, [','] + more) ==>
               (ParseMembers(text + ([','] + more)) == Object([m] + members) <==> ParseMembers(more) == Object(members))) &&
            ((p.Parsed? ==> p.value != m) ==> ParseMembers(text + ([','] + more)) != Object([m] + members))
  {
    var s := text + ([','] + more);
    assert SkipSpace(s) == s;
    assert ([','] + more)[1..] == more;
    var out := ParseMembers(s);
    if out == Object([m] + members) {
      assert out.members[0] == ParseMember(s).value && out.members[1..] == members;
    }
    if ParseMember(s) == Parsed(m, [','] + more) && ParseMembers(more).Object? {
      assert out == Object([m] + ParseMembers(more).members);
    }
  }

  predicate AllSafelySpliced(values: map<string, ConfigValue>, keys: seq<string>, env: Environment)
    requires forall k :: k in keys ==> k in values
  {
    forall i :: 0 <= i < |keys| ==> SafelySpliced(values[keys[i]], env)
  }

  lemma AllSafeFirst(values: map<string, ConfigValue>, keys: seq<string>, env: Environment)
    requires keys != [] && forall k :: k in keys ==> k in values
    ensures AllSafelySpliced(values, keys, env) <==>
            SafelySpliced(values[keys[0]], env) && AllSafelySpliced(values, keys[1..], env)
  {
    assert forall i :: 0 < i < |keys| ==> keys[i] == keys[1..][i - 1];
    assert forall i :: 0 <= i < |keys| - 1 ==> keys[1..][i] == keys[i + 1];
  }

  lemma TextOpens(values: map<string, ConfigValue>, key: string, env: Environment)
    requires key in values
    ensures TextOf(values, env)(key) != "" && TextOf(values, env)(key)[0] == '"'
  {
  }

  lemma FirstReadBackIff(values: map<string, ConfigValue>, key: string, env: Environment, rest: string)
    requires key in values && Encodable(values[key]) && Ends(rest)
    ensures var p := ParseMember(TextOf(values, env)(key) + rest);
            if SafelySpliced(values[key], env) then p == Parsed(MeaningOf(values, env)(key), rest)
            else p.Parsed? ==> p.value != MeaningOf(values, env)(key)
  {
    MemberReadBackIff(key, values[key], env, rest);
  }

  ghost predicate ReadsBack(values: map<string, ConfigValue>, keys: seq<string>, env: Environment) {
    ParseMembers(MembersText(values, keys, env) + "}") == Object(MembersOf(values, keys, env))
  }

  lemma LastReadBackIff(values: map<string, ConfigValue>, keys: seq<string>, env: Environment)
    requires |keys| == 1 && keys[0] in values && Encodable(values[keys[0]])
    ensures ReadsBack(values, keys, env) <==> SafelySpliced(values[keys[0]], env)
  {
    var text, m := TextOf(values, env)(keys[0]), MeaningOf(values, env)(keys[0]);
    FirstReadBackIff(values, keys[0], env, "}");
    TextOpens(values, keys[0], env);
    LastMember(text, m);
    MembersTextFirst(values, keys, env);
    assert MembersOf(values, keys, env) == [m];
    assert MembersText(values, keys, env) == text;
  }

  lemma MoreReadBackIff(values: map<string, ConfigValue>, keys: seq<string>, env: Environment)
    requires |keys| > 1 && keys[0] in values && Encodable(values[keys[0]])
    ensures ReadsBack(values, keys, env) <==> SafelySpliced(values[keys[0]], env) && ReadsBack(values, keys[1..], env)
  {
    var text, m := TextOf(values, env)(keys[0]), MeaningOf(values, env)(keys[0]);
    var more := MembersText(values, keys[1..], env) + "}";
    FirstReadBackIff(values, keys[0], env, [','] + more);
    TextOpens(values, keys[0], env);
    OtherMember(text, m, more, MembersOf(values, keys[1..], env));
    MembersTextFirst(values, keys, env);
    MapFirst(keys, MeaningOf(values, env));
    var rest := MembersText(values, keys[1..], env);
    Reassociate(text, [','] + rest, "}");
    Reassociate([','], rest, "}");
  }

  lemma {:induction false} MembersReadBackIff(values: map<string, ConfigValue>, keys: seq<string>, env: Environment)
    requires forall k :: k in keys ==> k in values && Encodable(values[k])
    requires keys != []
    ensures ReadsBack(values, keys, env) <==> AllSafelySpliced(values, keys, env)
  {
    AllSafeFirst(values, keys, env);
    if |keys| == 1 {
      LastReadBackIff(values, keys, env);
    } else {
      MoreReadBackIff(values, keys, env);
      MembersReadBackIff(values, keys[1..], env);
    }
  }

  lemma MemberPartsText(key: string, v: ConfigValue, env: Environment)
    ensures Resolve(MemberParts(key, v), env) == MemberText(key, v, env)
  {
    var name := [LiteralPart(Quoted(Escaped(key)) + ":")];
    FlatMapConcat(name, ValueParts(v), PartText(env));
    One(name[0], env);
    if v.SubstitutedValue? {
      FlatMapConcat([LiteralPart("\"")] + v.parts, [LiteralPart("\"")], PartText(env));
      FlatMapConcat([LiteralPart("\"")], v.parts, PartText(env));
      One(LiteralPart("\""), env);
    } else {
      One(LiteralPart(EncodedValue(v)), env);
    }
  }

  lemma One(p: Part, env: Environment)
    ensures Resolve([p], env) == PartText(env)(p)
  {
    assert FlatMap([p][..0], PartText(env)) == [];
  }

  lemma NextPartsText(n: nat, key: string, v: ConfigValue, env: Environment)
    ensures Resolve(NextParts(n, key, v), env) == (if n > 0 then [','] else "") + MemberText(key, v, env)
  {
    FlatMapConcat(Separator(n), MemberParts(key, v), PartText(env));
    MemberPartsText(key, v, env);
    One(LiteralPart(","), env);
  }

  lemma MembersTextLast(values: map<string, ConfigValue>, keys: seq<string>, env: Environment)
    requires keys != [] && keys[|keys| - 1] in values
    ensures var n := |keys| - 1;
            MembersText(values, keys, env) ==
            MembersText(values, keys[..n], env) + ((if n > 0 then [','] else "") + MemberText(keys[n], values[keys[n]], env))
  {
    var n := |keys| - 1;
    var texts := Map(keys, TextOf(values, env));
    JoinLast(texts, ',');
    assert texts[..n] == Map(keys[..n], TextOf(values, env));
    Reassociate(Join(texts[..n], ','), if n > 0 then [','] else "", texts[n]);
  }

  lemma {:induction false} MembersPartsText(values: map<string, ConfigValue>, keys: seq<string>, env: Environment)
    requires forall k :: k in keys ==> k in values
    ensures Resolve(MembersParts(values, keys), env) == MembersText(values, keys, env)
  {
    if keys != [] {
      var n := |keys| - 1;
      MembersPartsText(values, keys[..n], env);
      FlatMapConcat(MembersParts(values, keys[..n]), NextParts(n, keys[n], values[keys[n]]), PartText(env));
      NextPartsText(n, keys[n], values[keys[n]], env);
      MembersTextLast(values, keys, env);
    }
  }

  lemma Braced(parts: seq<Part>, env: Environment)
    ensures Resolve([LiteralPart("{")] + parts + [LiteralPart("}")], env) == "{" + (Resolve(parts, env) + "}")
  {
    var open, close := [LiteralPart("{")], [LiteralPart("}")];
    FlatMapConcat(open + parts, close, PartText(env));
    FlatMapConcat(open, parts, PartText(env));
    One(open[0], env);
    One(close[0], env);
  }

  lemma BlobText(values: map<string, ConfigValue>, keys: seq<string>, env: Environment)
    requires keys == SortedSet(values.Keys) && forall k :: k in keys ==> k in values
    ensures Resolve(Blob(values), env) == "{" + (MembersText(values, keys, env) + "}")
  {
    Braced(MembersParts(values, keys), env);
    MembersPartsText(values, keys, env);
  }

  lemma ObjectOpens(inside: string)
    requires inside != "" && inside[0] == '"'
    ensures ParseObject("{" + inside) == ParseMembers(inside)
  {
    assert ("{" + inside)[1..] == inside;
  }

  lemma MembersOpen(values: map<string, ConfigValue>, keys: seq<string>, env: Environment)
    requires keys != [] && forall k :: k in keys ==> k in values
    ensures MembersText(values, keys, env) != "" && MembersText(values, keys, env)[0] == '"'
  {
    MembersTextFirst(values, keys, env);
    TextOpens(values, keys[0], env);
  }

  lemma SafeKeys(values: map<string, ConfigValue>, keys: seq<string>, env: Environment)
    requires forall k :: k in keys <==> k in values
    ensures AllSafelySpliced(values, keys, env) <==> forall k :: k in values ==> SafelySpliced(values[k], env)
  {
    if AllSafelySpliced(values, keys, env) {
      forall k | k in values ensures SafelySpliced(values[k], env) {
        var i := IndexOf(keys, k);
      }
    }
  }

  // Reading the deployed blob gives back every entry, in key order, exactly when each
  // substituted value resolves to a text free of quotes, backslashes and control characters.
  lemma BlobReadBackIff(values: map<string, ConfigValue>, env: Environment)
    requires forall k :: k in values ==> Encodable(values[k])
    ensures var keys := SortedSet(values.Keys);
            (forall k :: k in keys <==> k in values) &&
            (ParseObject(Resolve(Blob(values), env)) == Object(MembersOf(values, keys, env)) <==>
             forall k :: k in values ==> SafelySpliced(values[k], env))
  {
    var keys := SortedSet(values.Keys);
    SortedSetMembers(values.Keys);
    BlobText(values, keys, env);
    SafeKeys(values, keys, env);
    if keys == [] {
      EmptyObject();
      assert MembersText(values, keys, env) == "";
    } else {
      MembersOpen(values, keys, env);
      ObjectOpens(MembersText(values, keys, env) + "}");
      MembersReadBackIff(values, keys, env);
    }
  }

  // One value with a quote beside its substitution, whatever that resolves to.
  lemma QuoteIsNotReadBack(env: Environment)
    ensures var values := map["greeting" := SubstitutedValue([LiteralPart("say \"hi\" to "), SubstitutionPart("name")])];
            ParseObject(Resolve(Blob(values), env)) != Object(MembersOf(values, SortedSet(values.Keys), env))
  {
    var parts := [LiteralPart("say \"hi\" to "), SubstitutionPart("name")];
    var values := map["greeting" := SubstitutedValue(parts)];
    assert parts[..1] == [parts[0]];
    FlatMapOne(parts[0], PartText(env));
    assert Resolve(parts, env) == "say \"hi\" to " + PartText(env)(parts[1]);
    assert Resolve(parts, env)[4] == '"';
    assert !SafelySpliced(values["greeting"], env);
    BlobReadBackIff(values, env);
  }

  lemma EmptyObject()
    ensures ParseObject("{" + ("" + "}")) == Object([])
  {
    var s := "{" + ("" + "}");
    assert s[1..] == "}" && "}"[1..] == "" && ObjectEnd("") == Object([]);
  }

  // ---- Integers ----

  function IntText(n: int): string {
    if n < 0 then "-" + Decimal(-n) else Decimal(n)
  }

  lemma {:induction false} DecimalLeads(n: nat)
    ensures Decimal(n)[0] == '0' <==> n == 0
    ensures n == 0 ==> Decimal(n) == "0"
  {
    if n >= 10 {
      DecimalLeads(n / 10);
    }
  }

  lemma {:induction false} AllDigitsSkip(s: string)
    requires forall i :: 0 <= i < |s| ==> s[i] in DIGITS
    ensures SkipDigits(s) == ""
  {
    if s != "" {
      AllDigitsSkip(s[1..]);
    }
  }

  // What the encoder writes for an integer is a JSON number.
  lemma IntegersAreEncodable(n: int)
    ensures Encodable(NumberValue(IntText(n)))
  {
    var magnitude := Decimal(if n < 0 then -n else n);
    DecimalLeads(if n < 0 then -n else n);
    AllDigitsSkip(magnitude);
    assert magnitude[0] in DIGITS && magnitude[0] != '-';
    assert n < 0 ==> IntText(n)[1..] == magnitude;
    assert "0"[1..] == "";
  }
}
