// String helpers the transformer relies on: the standard library's cut and prefix
// functions, decimal rendering and joining, with the facts that make the generated
// names and keys unambiguous.
module Text {

  datatype CutResult = CutResult(before: string, after: string, found: bool)

  // Splits at the first occurrence of c, as Go's strings.Cut does.
  function Cut(s: string, c: char): (r: CutResult)
    ensures r.found <==> c in s
    ensures r.found ==> s == r.before + [c] + r.after && c !in r.before
    ensures !r.found ==> r.before == s && r.after == ""
  {
    if s == "" then CutResult("", "", false)
    else if s[0] == c then CutResult("", s[1..], true)
    else
      var rest := Cut(s[1..], c);
      CutResult([s[0]] + rest.before, rest.after, rest.found)
  }

  // A text has at most one split at a first separator.
  lemma {:induction false} FirstSplitUnique(a: string, b: string, a': string, b': string, c: char)
    requires c !in a && c !in a'
    requires a + [c] + b == a' + [c] + b'
    ensures a == a' && b == b'
  {
    var s := a + [c] + b;
    assert s[|a|] == c && s[|a'|] == c;
    assert |a| == |a'|;
    assert s[..|a|] == a && s[..|a'|] == a';
    assert s[|a| + 1..] == b && s[|a'| + 1..] == b';
  }

  // A text has at most one split at a last separator.
  lemma {:induction false} LastSplitUnique(a: string, b: string, a': string, b': string, c: char)
    requires c !in b && c !in b'
    requires a + [c] + b == a' + [c] + b'
    ensures a == a' && b == b'
  {
    var s := a + [c] + b;
    assert s[|a|] == c && s[|a'|] == c;
    assert |a| == |a'|;
    assert s[..|a|] == a && s[..|a'|] == a';
    assert s[|a| + 1..] == b && s[|a'| + 1..] == b';
  }

  lemma CutAtFirst(a: string, b: string, c: char)
    requires c !in a
    ensures Cut(a + [c] + b, c) == CutResult(a, b, true)
  {
    var s := a + [c] + b;
    assert s[|a|] == c;
    var r := Cut(s, c);
    FirstSplitUnique(a, b, r.before, r.after, c);
  }

  predicate HasPrefix(s: string, prefix: string) {
    |prefix| <= |s| && s[..|prefix|] == prefix
  }

  lemma PrefixOfConcat(prefix: string, rest: string)
    ensures HasPrefix(prefix + rest, prefix)
    ensures (prefix + rest)[|prefix|..] == rest
  {
  }

  // Two texts with a common prefix agree exactly when their remainders do.
  lemma PrefixCancel(prefix: string, a: string, b: string)
    ensures prefix + a == prefix + b <==> a == b
  {
    if prefix + a == prefix + b {
      assert (prefix + a)[|prefix|..] == a;
      assert (prefix + b)[|prefix|..] == b;
    }
  }

  lemma SuffixCancel(suffix: string, a: string, b: string)
    ensures a + suffix == b + suffix <==> a == b
  {
    if a + suffix == b + suffix {
      assert (a + suffix)[..|a|] == a;
      assert (b + suffix)[..|b|] == b;
    }
  }

  const DIGITS := "0123456789"

  // Decimal rendering of a non-negative integer.
  function Decimal(n: nat): (s: string)
    ensures |s| > 0
    ensures forall i :: 0 <= i < |s| ==> s[i] in DIGITS
  {
    if n < 10 then [DIGITS[n]] else Decimal(n / 10) + [DIGITS[n % 10]]
  }

  function DigitValue(c: char): nat
    requires c in DIGITS
  {
    (c - '0') as nat
  }

  function DecimalValue(s: string): nat
    requires forall i :: 0 <= i < |s| ==> s[i] in DIGITS
  {
    if s == "" then 0 else 10 * DecimalValue(s[..|s| - 1]) + DigitValue(s[|s| - 1])
  }

  lemma {:induction false} DecimalRoundTrip(n: nat)
    ensures DecimalValue(Decimal(n)) == n
  {
    assert DigitValue(DIGITS[n % 10]) == n % 10;
    if n < 10 {
      assert Decimal(n)[..0] == "";
    } else {
      DecimalRoundTrip(n / 10);
      assert Decimal(n)[..|Decimal(n)| - 1] == Decimal(n / 10);
    }
  }

  lemma DecimalInjective(m: nat, n: nat)
    ensures Decimal(m) == Decimal(n) <==> m == n
  {
    DecimalRoundTrip(m);
    DecimalRoundTrip(n);
  }

  function Join(parts: seq<string>, c: char): string {
    if parts == [] then ""
    else if |parts| == 1 then parts[0]
    else parts[0] + [c] + Join(parts[1..], c)
  }

  lemma {:induction false} JoinLast(parts: seq<string>, c: char)
    requires parts != []
    ensures var n := |parts| - 1; Join(parts, c) == Join(parts[..n], c) + (if n > 0 then [c] else "") + parts[n]
  {
    var n := |parts| - 1;
    if n > 0 {
      JoinLast(parts[1..], c);
      assert parts[1..][..n - 1] == parts[..n][1..];
    }
  }

  lemma JoinFirst(first: string, rest: seq<string>, c: char)
    ensures Join([first] + rest, c) == first + if rest == [] then "" else [c] + Join(rest, c)
  {
    var parts := [first] + rest;
    assert parts[1..] == rest;
  }

  predicate SeparatorFree(parts: seq<string>, c: char) {
    forall i :: 0 <= i < |parts| ==> parts[i] != "" && c !in parts[i]
  }

  // Joining non-empty parts without the separator loses nothing.
  lemma {:induction false} JoinInjective(a: seq<string>, b: seq<string>, c: char)
    requires SeparatorFree(a, c) && SeparatorFree(b, c)
    requires Join(a, c) == Join(b, c)
    ensures a == b
  {
    if a == [] || b == [] {
      JoinNonEmpty(a, c);
      JoinNonEmpty(b, c);
    } else {
      JoinHead(a, c);
      JoinHead(b, c);
      if |a| > 1 && |b| > 1 {
        FirstSplitUnique(a[0], Join(a[1..], c), b[0], Join(b[1..], c), c);
        JoinInjective(a[1..], b[1..], c);
        assert a == [a[0]] + a[1..] && b == [b[0]] + b[1..];
      }
    }
  }

  lemma JoinNonEmpty(a: seq<string>, c: char)
    requires SeparatorFree(a, c)
    ensures Join(a, c) == "" <==> a == []
  {
  }

  lemma JoinHead(a: seq<string>, c: char)
    requires a != [] && SeparatorFree(a, c)
    ensures c in Join(a, c) <==> |a| > 1
  {
    if |a| > 1 {
      assert Join(a, c)[|a[0]|] == c;
    }
  }
}
