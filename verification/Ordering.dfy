// Sorting as the transformer uses it: byte-wise string order and a sort whose result
// depends only on the multiset of its input.
module Ordering {
  import opened Sequences

  // Go compares strings byte by byte, which for UTF-8 text is code point order.
  predicate LexLe(a: string, b: string) {
    a == "" || (b != "" && (a[0] < b[0] || (a[0] == b[0] && LexLe(a[1..], b[1..]))))
  }

  // A total preorder.
  ghost predicate Preorder<T(!new)>(le: (T, T) -> bool) {
    (forall x, y :: le(x, y) || le(y, x)) &&
    (forall x, y, z :: le(x, y) && le(y, z) ==> le(x, z))
  }

  // No two different elements of s are equivalent under le.
  ghost predicate DistinguishedBy<T(!new)>(s: seq<T>, le: (T, T) -> bool) {
    forall x, y :: x in s && y in s && le(x, y) && le(y, x) ==> x == y
  }

  ghost predicate SortedBy<T>(s: seq<T>, le: (T, T) -> bool) {
    forall i, j :: 0 <= i < j < |s| ==> le(s[i], s[j])
  }

  lemma {:induction false} LexTotal(a: string, b: string)
    ensures LexLe(a, b) || LexLe(b, a)
    decreases |a|
  {
    if a != "" && b != "" {
      LexTotal(a[1..], b[1..]);
    }
  }

  lemma {:induction false} LexTransitive(a: string, b: string, c: string)
    requires LexLe(a, b) && LexLe(b, c)
    ensures LexLe(a, c)
    decreases |a|
  {
    if a != "" && a[0] == b[0] && b[0] == c[0] {
      LexTransitive(a[1..], b[1..], c[1..]);
    }
  }

  lemma {:induction false} LexAntisymmetric(a: string, b: string)
    requires LexLe(a, b) && LexLe(b, a)
    ensures a == b
    decreases |a|
  {
    if a != "" && b != "" {
      LexAntisymmetric(a[1..], b[1..]);
      assert a == [a[0]] + a[1..] && b == [b[0]] + b[1..];
    }
  }

  lemma LexPreorder()
    ensures Preorder(LexLe)
    ensures forall a, b :: LexLe(a, b) && LexLe(b, a) ==> a == b
  {
    forall a, b ensures LexLe(a, b) || LexLe(b, a) { LexTotal(a, b); }
    forall a, b, c | LexLe(a, b) && LexLe(b, c) ensures LexLe(a, c) { LexTransitive(a, b, c); }
    forall a, b | LexLe(a, b) && LexLe(b, a) ensures a == b { LexAntisymmetric(a, b); }
  }

  function Insert<T>(x: T, s: seq<T>, le: (T, T) -> bool): (r: seq<T>)
    ensures multiset(r) == multiset(s) + multiset{x}
  {
    if s == [] then [x]
    else if le(x, s[0]) then [x] + s
    else
      assert s == [s[0]] + s[1..];
      [s[0]] + Insert(x, s[1..], le)
  }

  function Sort<T>(s: seq<T>, le: (T, T) -> bool): (r: seq<T>)
    ensures multiset(r) == multiset(s)
  {
    if s == [] then []
    else
      assert s == [s[0]] + s[1..];
      Insert(s[0], Sort(s[1..], le), le)
  }

  // Sorting commutes with any map that keeps the order.
  lemma {:induction false} InsertMapped<T(!new)>(x: T, s: seq<T>, g: T -> T, le: (T, T) -> bool)
    requires forall y, z :: le(g(y), g(z)) == le(y, z)
    ensures Insert(g(x), Map(s, g), le) == Map(Insert(x, s, le), g)
  {
    MapFirst([x] + s, g);
    if s != [] {
      MapFirst(s, g);
      if !le(x, s[0]) {
        InsertMapped(x, s[1..], g, le);
        MapFirst(Insert(x, s, le), g);
      }
    }
  }

  lemma {:induction false} SortMapped<T(!new)>(s: seq<T>, g: T -> T, le: (T, T) -> bool)
    requires forall y, z :: le(g(y), g(z)) == le(y, z)
    ensures Sort(Map(s, g), le) == Map(Sort(s, le), g)
  {
    if s != [] {
      MapFirst(s, g);
      SortMapped(s[1..], g, le);
      InsertMapped(s[0], Sort(s[1..], le), g, le);
    }
  }

  lemma {:induction false} InsertSorted<T(!new)>(x: T, s: seq<T>, le: (T, T) -> bool)
    requires Preorder(le) && SortedBy(s, le)
    ensures SortedBy(Insert(x, s, le), le)
  {
    if s != [] && !le(x, s[0]) {
      var rest := Insert(x, s[1..], le);
      InsertSorted(x, s[1..], le);
      forall y | y in rest ensures le(s[0], y) {
        assert y in multiset(rest);
        assert y == x || y in s[1..];
      }
      assert forall j :: 0 <= j < |rest| ==> rest[j] in rest;
    }
  }

  lemma {:induction false} SortSorted<T(!new)>(s: seq<T>, le: (T, T) -> bool)
    requires Preorder(le)
    ensures SortedBy(Sort(s, le), le)
  {
    if s != [] {
      SortSorted(s[1..], le);
      InsertSorted(s[0], Sort(s[1..], le), le);
    }
  }

  // Sorted arrangements of one multiset are equal, so any correct sort gives the same list.
  lemma {:induction false} SortedUnique<T(!new)>(a: seq<T>, b: seq<T>, le: (T, T) -> bool)
    requires Preorder(le) && DistinguishedBy(a, le)
    requires SortedBy(a, le) && SortedBy(b, le)
    requires multiset(a) == multiset(b)
    ensures a == b
    decreases |a|
  {
    SameMembers(a, b);
    if a != [] {
      SameHead(a, b, le);
      TailOf(a);
      TailOf(b);
      SortedUnique(a[1..], b[1..], le);
    }
  }

  lemma SameHead<T(!new)>(a: seq<T>, b: seq<T>, le: (T, T) -> bool)
    requires Preorder(le) && DistinguishedBy(a, le) && SortedBy(a, le) && SortedBy(b, le)
    requires a != [] && b != [] && forall x :: x in a <==> x in b
    ensures a[0] == b[0]
  {
    assert b[0] in a && a[0] in b;
    assert le(a[0], b[0]) && le(b[0], a[0]);
  }

  lemma TailOf<T>(s: seq<T>)
    requires s != []
    ensures s == [s[0]] + s[1..] && multiset(s[1..]) == multiset(s) - multiset{s[0]}
    ensures forall x :: x in s[1..] ==> x in s
  {
    assert s == [s[0]] + s[1..];
  }

  // Sorting forgets the input order.
  lemma SortCanonical<T(!new)>(a: seq<T>, b: seq<T>, le: (T, T) -> bool)
    requires Preorder(le) && DistinguishedBy(a, le)
    requires multiset(a) == multiset(b)
    ensures Sort(a, le) == Sort(b, le)
  {
    SortSorted(a, le);
    SortSorted(b, le);
    SameMembers(a, Sort(a, le));
    SortedUnique(Sort(a, le), Sort(b, le), le);
  }

  lemma SortStringsCanonical(a: seq<string>, b: seq<string>)
    ensures Sort(a, LexLe) == Sort(b, LexLe) <==> multiset(a) == multiset(b)
  {
    LexPreorder();
    if multiset(a) == multiset(b) {
      SortCanonical(a, b, LexLe);
    }
  }

  // ---- The sorted keys of a map ----

  ghost function Listed(s: set<string>): (r: seq<string>)
    ensures multiset(r) == multiset(s)
  {
    if s == {} then []
    else
      var x :| x in s;
      [x] + Listed(s - {x})
  }

  ghost function SortedSet(s: set<string>): seq<string> {
    Sort(Listed(s), LexLe)
  }

  lemma SortedSetMembers(s: set<string>)
    ensures multiset(SortedSet(s)) == multiset(s)
    ensures forall x :: x in SortedSet(s) <==> x in s
    ensures SortedBy(SortedSet(s), LexLe)
  {
    LexPreorder();
    SortSorted(Listed(s), LexLe);
    forall x ensures x in SortedSet(s) <==> x in s {
      assert x in SortedSet(s) <==> x in multiset(SortedSet(s));
    }
  }

  // Map iteration gives the keys in any order; sorting them forgets it.
  lemma SortedKeysUnique(keys: seq<string>, s: set<string>)
    requires multiset(keys) == multiset(s)
    ensures Sort(keys, LexLe) == SortedSet(s)
  {
    SortStringsCanonical(keys, Listed(s));
  }

  method SortedKeys(s: set<string>) returns (keys: seq<string>)
    ensures keys == SortedSet(s)
  {
    keys := [];
    var remaining := s;
    while remaining != {}
      invariant remaining <= s
      invariant multiset(keys) + multiset(remaining) == multiset(s)
    {
      var key :| key in remaining;
      remaining := remaining - {key};
      keys := keys + [key];
    }
    SortedKeysUnique(keys, s);
    keys := Sort(keys, LexLe);
  }
}
