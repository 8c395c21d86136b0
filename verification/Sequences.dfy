// Facts about lists that several collectors need: what survives reordering, what a
// seen-set sees, and what first-occurrence filtering keeps.
module Sequences {

  lemma SameMembers<T>(a: seq<T>, b: seq<T>)
    requires multiset(a) == multiset(b)
    ensures |a| == |b|
    ensures forall x :: x in a <==> x in b
  {
    assert |multiset(a)| == |multiset(b)|;
    forall x ensures x in a <==> x in b {
      assert x in a <==> x in multiset(a);
      assert x in b <==> x in multiset(b);
    }
  }

  lemma SameMember<T>(a: seq<T>, b: seq<T>, x: T)
    requires multiset(a) == multiset(b)
    ensures x in a <==> x in b
  {
    assert x in a <==> x in multiset(a);
    assert x in b <==> x in multiset(b);
  }

  // Removes one occurrence of an element known to be present.
  function Without<T>(s: seq<T>, k: nat): (r: seq<T>)
    requires k < |s|
    ensures multiset(r) == multiset(s) - multiset{s[k]}
  {
    assert s == s[..k] + [s[k]] + s[k + 1..];
    s[..k] + s[k + 1..]
  }

  lemma Reassociate<T>(a: seq<T>, b: seq<T>, c: seq<T>)
    ensures a + b + c == a + (b + c)
  {
  }

  function FlatMap<T, U>(s: seq<T>, f: T -> seq<U>): seq<U> {
    if s == [] then [] else FlatMap(s[..|s| - 1], f) + f(s[|s| - 1])
  }

  lemma {:induction false} FlatMapConcat<T, U>(s: seq<T>, t: seq<T>, f: T -> seq<U>)
    ensures FlatMap(s + t, f) == FlatMap(s, f) + FlatMap(t, f)
  {
    if t == [] {
      assert s + t == s;
    } else {
      FlatMapConcat(s, t[..|t| - 1], f);
      assert (s + t)[..|s + t| - 1] == s + t[..|t| - 1];
    }
  }

  lemma FlatMapLast<T, U>(before: seq<U>, s: seq<T>, i: nat, f: T -> seq<U>)
    requires i < |s|
    ensures before + FlatMap(s[..i + 1], f) == before + FlatMap(s[..i], f) + f(s[i])
  {
    assert s[..i + 1][..i] == s[..i];
  }

  lemma {:induction false} FlatMapMember<T, U>(s: seq<T>, f: T -> seq<U>, u: U)
    ensures u in FlatMap(s, f) <==> exists x :: x in s && u in f(x)
  {
    if s != [] {
      var n := |s| - 1;
      FlatMapMember(s[..n], f, u);
      assert s == s[..n] + [s[n]];
    }
  }

  // Reordering the input only permutes the output.
  lemma {:induction false} FlatMapPermutes<T, U>(s: seq<T>, t: seq<T>, f: T -> seq<U>)
    requires multiset(s) == multiset(t)
    ensures multiset(FlatMap(s, f)) == multiset(FlatMap(t, f))
    decreases |s|
  {
    SameMembers(s, t);
    if s != [] {
      var n := |s| - 1;
      assert s[n] in t;
      var k :| 0 <= k < |t| && t[k] == s[n];
      assert s == s[..n] + [s[n]];
      FlatMapPermutes(s[..n], Without(t, k), f);
      FlatMapSplit(t, k, f);
    }
  }

  lemma FlatMapOne<T, U>(x: T, f: T -> seq<U>)
    ensures FlatMap([x], f) == f(x)
  {
    assert [x][..0] == [];
    assert FlatMap([x][..0], f) == [];
  }

  lemma FlatMapBetween<T, U>(before: seq<T>, x: T, after: seq<T>, f: T -> seq<U>)
    ensures FlatMap(before + ([x] + after), f) == FlatMap(before, f) + f(x) + FlatMap(after, f)
  {
    FlatMapConcat(before, [x] + after, f);
    FlatMapConcat([x], after, f);
    FlatMapOne(x, f);
    Reassociate(FlatMap(before, f), f(x), FlatMap(after, f));
  }

  lemma AroundIndex<T>(t: seq<T>, k: nat)
    requires k < |t|
    ensures t == t[..k] + ([t[k]] + t[k + 1..])
  {
  }

  lemma FlatMapSplit<T, U>(t: seq<T>, k: nat, f: T -> seq<U>)
    requires k < |t|
    ensures multiset(FlatMap(t, f)) == multiset(FlatMap(Without(t, k), f)) + multiset(f(t[k]))
  {
    AroundIndex(t, k);
    FlatMapBetween(t[..k], t[k], t[k + 1..], f);
    FlatMapConcat(t[..k], t[k + 1..], f);
  }

  function Map<T, U>(s: seq<T>, f: T -> U): (r: seq<U>)
    ensures |r| == |s|
    ensures forall i :: 0 <= i < |s| ==> r[i] == f(s[i])
  {
    if s == [] then [] else Map(s[..|s| - 1], f) + [f(s[|s| - 1])]
  }

  lemma MapConcat<T, U>(s: seq<T>, t: seq<T>, f: T -> U)
    ensures Map(s + t, f) == Map(s, f) + Map(t, f)
  {
  }

  lemma MapFirst<T, U>(s: seq<T>, f: T -> U)
    requires s != []
    ensures Map(s, f) == [f(s[0])] + Map(s[1..], f)
  {
    var mapped, split := Map(s, f), [f(s[0])] + Map(s[1..], f);
    forall i | 0 <= i < |s| ensures mapped[i] == split[i] {
    }
  }

  lemma MapLast<T, U>(before: seq<U>, s: seq<T>, i: nat, f: T -> U)
    requires i < |s|
    ensures before + Map(s[..i + 1], f) == before + Map(s[..i], f) + [f(s[i])]
  {
    assert s[..i + 1][..i] == s[..i];
  }

  lemma MapMember<T, U>(s: seq<T>, f: T -> U, u: U)
    ensures u in Map(s, f) <==> exists i :: 0 <= i < |s| && f(s[i]) == u
  {
  }

  lemma MapWithout<T, U>(s: seq<T>, k: nat, f: T -> U)
    requires k < |s|
    ensures Map(Without(s, k), f) == Without(Map(s, f), k)
  {
    var l, r := Map(Without(s, k), f), Without(Map(s, f), k);
    forall i | 0 <= i < |l| ensures l[i] == r[i] {
      WithoutAt(s, k, i);
      WithoutAt(Map(s, f), k, i);
    }
  }

  lemma WithoutAt<T>(s: seq<T>, k: nat, i: nat)
    requires k < |s| && i < |s| - 1
    ensures |Without(s, k)| == |s| - 1
    ensures Without(s, k)[i] == if i < k then s[i] else s[i + 1]
  {
  }

  lemma IndexOf<T>(s: seq<T>, x: T) returns (k: nat)
    requires x in s
    ensures k < |s| && s[k] == x
  {
    k :| 0 <= k < |s| && s[k] == x;
  }

  // Under an injective function, two images are permutations exactly when the lists are.
  lemma {:induction false} InjectiveMapPermutes<T(!new), U>(a: seq<T>, b: seq<T>, f: T -> U)
    requires forall x, y :: f(x) == f(y) ==> x == y
    ensures multiset(Map(a, f)) == multiset(Map(b, f)) <==> multiset(a) == multiset(b)
    decreases |a|
  {
    if multiset(Map(a, f)) == multiset(Map(b, f)) {
      ImagesPermute(a, b, f);
    }
    if multiset(a) == multiset(b) {
      PermutesImages(a, b, f);
    }
  }

  // Under an injective function, an element's image occurs as often as the element.
  lemma {:induction false} InjectiveMapCount<T(!new), U>(s: seq<T>, f: T -> U, x: T)
    requires forall y, z :: f(y) == f(z) ==> y == z
    ensures multiset(Map(s, f))[f(x)] == multiset(s)[x]
  {
    if s != [] {
      var n := |s| - 1;
      InjectiveMapCount(s[..n], f, x);
      assert s == s[..n] + [s[n]];
    }
  }

  lemma {:induction false} ImagesPermute<T(!new), U>(a: seq<T>, b: seq<T>, f: T -> U)
    requires forall x, y :: f(x) == f(y) ==> x == y
    requires multiset(Map(a, f)) == multiset(Map(b, f))
    ensures multiset(a) == multiset(b)
    decreases |a|
  {
    SameMembers(Map(a, f), Map(b, f));
    if a != [] {
      var n := |a| - 1;
      var image := f(a[n]);
      assert Map(a, f)[n] == image;
      SameMember(Map(a, f), Map(b, f), image);
      var k := IndexOf(Map(b, f), image);
      MapWithout(a, n, f);
      MapWithout(b, k, f);
      ImagesPermute(Without(a, n), Without(b, k), f);
      WithoutRestored(a, n);
      WithoutRestored(b, k);
    }
  }

  lemma WithoutRestored<T>(s: seq<T>, k: nat)
    requires k < |s|
    ensures multiset(s) == multiset(Without(s, k)) + multiset{s[k]}
  {
    assert s[k] in multiset(s);
  }

  lemma {:induction false} PermutesImages<T, U>(a: seq<T>, b: seq<T>, f: T -> U)
    requires multiset(a) == multiset(b)
    ensures multiset(Map(a, f)) == multiset(Map(b, f))
    decreases |a|
  {
    SameMembers(a, b);
    if a != [] {
      var n := |a| - 1;
      assert a[n] in b;
      var k :| 0 <= k < |b| && b[k] == a[n];
      PermutesImages(Without(a, n), Without(b, k), f);
      MapWithout(a, n, f);
      MapWithout(b, k, f);
      WithoutRestored(Map(a, f), n);
      WithoutRestored(Map(b, f), k);
    }
  }

  lemma PickTwo<T>(s: set<T>) returns (x: T, y: T)
    requires |s| >= 2
    ensures x in s && y in s && x != y
  {
    x :| x in s;
    assert |s - {x}| >= 1;
    y :| y in s - {x};
  }

  lemma SetHasTwo<T>(s: set<T>)
    ensures |s| >= 2 <==> exists x, y :: x in s && y in s && x != y
  {
    if |s| >= 2 {
      var x, y := PickTwo(s);
    }
    if x, y :| x in s && y in s && x != y {
      assert {x, y} <= s;
      assert |s - {x, y}| == |s| - |{x, y}|;
    }
  }

  // image is the set of values f takes on s.
  ghost predicate IsImage<T, U>(image: set<U>, s: seq<T>, f: T -> U) {
    (forall i :: 0 <= i < |s| ==> f(s[i]) in image) &&
    (forall u :: u in image ==> exists i :: 0 <= i < |s| && f(s[i]) == u)
  }

  lemma ImageExtends<T, U>(image: set<U>, s: seq<T>, i: nat, f: T -> U)
    requires i < |s| && IsImage(image, s[..i], f)
    ensures IsImage(image + {f(s[i])}, s[..i + 1], f)
  {
    var longer := s[..i + 1];
    forall u | u in image ensures exists j :: 0 <= j < |longer| && f(longer[j]) == u {
      var j :| 0 <= j < i && f(s[..i][j]) == u;
      assert f(longer[j]) == u;
    }
    assert f(longer[i]) == f(s[i]);
  }

  ghost predicate Differ<T, U>(s: seq<T>, f: T -> U) {
    exists i, j :: 0 <= i < |s| && 0 <= j < |s| && f(s[i]) != f(s[j])
  }

  // Counting the distinct values seen tells whether two elements differ.
  lemma ImageHasTwo<T, U>(image: set<U>, s: seq<T>, f: T -> U)
    requires IsImage(image, s, f)
    ensures |image| >= 2 <==> Differ(s, f)
  {
    SetHasTwo(image);
  }
}
