// A reader for JSON objects of scalars, following sections 2, 4, 6 and 7 of RFC 8259. It
// knows nothing of how the transformer writes them.
module Json {
  import opened Text

  datatype Json = JString(text: string) | JNumber(lexeme: string) | JBool(value: bool) | JNull

  datatype Member = Member(key: string, value: Json)

  datatype Parsed<+T> = Failed | Parsed(value: T, rest: string)

  function SkipSpace(s: string): (r: string)
    ensures |r| <= |s|
    ensures s != "" && s[0] !in " \t\n\r" ==> r == s
  {
    if s != "" && s[0] in " \t\n\r" then SkipSpace(s[1..]) else s
  }

  // ---- Strings (section 7) ----

  predicate IsHex(c: char) {
    '0' <= c <= '9' || 'a' <= c <= 'f' || 'A' <= c <= 'F'
  }

  function HexValue(c: char): (n: nat)
    requires IsHex(c)
    ensures n < 16
  {
    if c <= '9' then (c - '0') as nat else if c <= 'F' then (c - 'A') as nat + 10 else (c - 'a') as nat + 10
  }

  function CodeUnit(s: string): (n: nat)
    requires |s| == 4 && forall i :: 0 <= i < 4 ==> IsHex(s[i])
    ensures n < 0x10000
  {
    HexValue(s[0]) * 0x1000 + HexValue(s[1]) * 0x100 + HexValue(s[2]) * 0x10 + HexValue(s[3])
  }

  predicate StartsWithCodeUnit(s: string) {
    |s| >= 4 && IsHex(s[0]) && IsHex(s[1]) && IsHex(s[2]) && IsHex(s[3])
  }

  function SimpleEscape(c: char): Parsed<char> {
    match c
    case '"' => Parsed('"', "")
    case '\\' => Parsed('\\', "")
    case '/' => Parsed('/', "")
    case 'b' => Parsed('\U{8}', "")
    case 'f' => Parsed('\U{C}', "")
    case 'n' => Parsed('\n', "")
    case 'r' => Parsed('\r', "")
    case 't' => Parsed('\t', "")
    case _ => Failed
  }

  // What follows a backslash. A code point outside the basic plane is two escapes.
  function ParseEscape(s: string): Parsed<char> {
    if s == "" then Failed
    else if s[0] != 'u' then
      var c := SimpleEscape(s[0]);
      if c.Failed? then Failed else Parsed(c.value, s[1..])
    else if !StartsWithCodeUnit(s[1..]) then Failed
    else
      var high := CodeUnit(s[1..5]);
      if high < 0xD800 || high > 0xDFFF then Parsed(high as char, s[5..])
      else if high <= 0xDBFF && HasPrefix(s[5..], "\\u") && StartsWithCodeUnit(s[7..]) then
        var low := CodeUnit(s[7..11]);
        if 0xDC00 <= low <= 0xDFFF then Parsed((0x10000 + (high - 0xD800) * 0x400 + (low - 0xDC00)) as char, s[11..])
        else Failed
      else Failed
  }

  lemma EscapeShortens(s: string)
    ensures ParseEscape(s).Parsed? ==>
              var rest := ParseEscape(s).rest; |rest| < |s| && rest == s[|s| - |rest|..]
  {
  }

  function Prepend(c: char, p: Parsed<string>): Parsed<string> {
    if p.Failed? then Failed else Parsed([c] + p.value, p.rest)
  }

  // What follows an opening quote, up to and including the closing one.
  function ParseString(s: string): Parsed<string>
    decreases |s|
  {
    if s == "" || s[0] < ' ' then Failed
    else if s[0] == '"' then Parsed("", s[1..])
    else if s[0] != '\\' then Prepend(s[0], ParseString(s[1..]))
    else
      EscapeShortens(s[1..]);
      var e := ParseEscape(s[1..]);
      if e.Failed? then Failed else Prepend(e.value, ParseString(e.rest))
  }

  // ---- Numbers (section 6) ----

  function SkipDigits(s: string): (r: string)
    ensures |r| <= |s|
  {
    if s != "" && s[0] in DIGITS then SkipDigits(s[1..]) else s
  }

  // One or more digits.
  function SkipDigits1(s: string): Parsed<()> {
    if s != "" && s[0] in DIGITS then Parsed((), SkipDigits(s)) else Failed
  }

  function SkipFraction(s: string): Parsed<()> {
    if s != "" && s[0] == '.' then SkipDigits1(s[1..]) else Parsed((), s)
  }

  function SkipExponent(s: string): Parsed<()> {
    if s == "" || (s[0] != 'e' && s[0] != 'E') then Parsed((), s)
    else if |s| > 1 && (s[1] == '+' || s[1] == '-') then SkipDigits1(s[2..])
    else SkipDigits1(s[1..])
  }

  predicate IsNumber(s: string) {
    var magnitude := if s != "" && s[0] == '-' then s[1..] else s;
    var whole := if magnitude != "" && magnitude[0] == '0' then Parsed((), magnitude[1..]) else SkipDigits1(magnitude);
    if whole.Failed? then false
    else
      var fraction := SkipFraction(whole.rest);
      if fraction.Failed? then false else SkipExponent(fraction.rest) == Parsed((), "")
  }

  predicate NumberChar(c: char) {
    c in DIGITS || c == '-' || c == '+' || c == '.' || c == 'e' || c == 'E'
  }

  function NumberRun(s: string): (n: nat)
    ensures n <= |s|
    ensures forall i :: 0 <= i < n ==> NumberChar(s[i])
    ensures n < |s| ==> !NumberChar(s[n])
  {
    if s != "" && NumberChar(s[0]) then 1 + NumberRun(s[1..]) else 0
  }

  // ---- Values and objects (sections 3 and 4) ----

  function ParseValue(s: string): Parsed<Json> {
    if s == "" then Failed
    else if s[0] == '"' then
      var p := ParseString(s[1..]);
      if p.Failed? then Failed else Parsed(JString(p.value), p.rest)
    else if HasPrefix(s, "true") then Parsed(JBool(true), s[4..])
    else if HasPrefix(s, "false") then Parsed(JBool(false), s[5..])
    else if HasPrefix(s, "null") then Parsed(JNull, s[4..])
    else
      var n := NumberRun(s);
      if IsNumber(s[..n]) then Parsed(JNumber(s[..n]), s[n..]) else Failed
  }

  function ParseMember(s: string): Parsed<Member> {
    if s == "" || s[0] != '"' then Failed
    else
      var key := ParseString(s[1..]);
      if key.Failed? then Failed
      else
        var colon := SkipSpace(key.rest);
        if colon == "" || colon[0] != ':' then Failed
        else
          var value := ParseValue(SkipSpace(colon[1..]));
          if value.Failed? then Failed else Parsed(Member(key.value, value.value), SkipSpace(value.rest))
  }

  datatype Outcome = Malformed | Object(members: seq<Member>)

  function ObjectEnd(s: string): Outcome {
    if SkipSpace(s) == "" then Object([]) else Malformed
  }

  // The members of an object that has at least one, up to the end of the text.
  function ParseMembers(s: string): Outcome
    decreases |s|
  {
    var m := ParseMember(SkipSpace(s));
    if m.Failed? || m.rest == "" then Malformed
    else
      MemberShortens(SkipSpace(s));
      var tail := if m.rest[0] == ',' then ParseMembers(m.rest[1..])
                  else if m.rest[0] == '}' then ObjectEnd(m.rest[1..])
                  else Malformed;
      if tail.Malformed? then Malformed else Object([m.value] + tail.members)
  }

  function ParseObject(s: string): Outcome {
    var open := SkipSpace(s);
    if open == "" || open[0] != '{' then Malformed
    else
      var inside := SkipSpace(open[1..]);
      if inside != "" && inside[0] == '}' then ObjectEnd(inside[1..]) else ParseMembers(inside)
  }

  lemma {:induction false} StringShortens(s: string)
    ensures ParseString(s).Parsed? ==> |ParseString(s).rest| < |s|
    decreases |s|
  {
    if s != "" && s[0] >= ' ' && s[0] != '"' {
      if s[0] != '\\' {
        StringShortens(s[1..]);
      } else {
        EscapeShortens(s[1..]);
        var e := ParseEscape(s[1..]);
        if e.Parsed? {
          StringShortens(e.rest);
        }
      }
    }
  }

  lemma MemberShortens(s: string)
    ensures ParseMember(s).Parsed? ==> |ParseMember(s).rest| < |s|
  {
    if ParseMember(s).Parsed? {
      StringShortens(s[1..]);
      var value := SkipSpace(SkipSpace(ParseString(s[1..]).rest)[1..]);
      StringShortens(value[1..]);
    }
  }
}
