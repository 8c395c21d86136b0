// Whether the store shows the order in which a handler lists its links. Handlers are
// sorted, lists are not: of two links of a list that claim one key, the first is stored.
module StoreLinkOrder {
  import opened Blueprint
  import opened Ordering
  import opened Sequences
  import opened Store
  import opened StoreLaws
  import opened StoreWrites
  import opened ReferenceGraph
  import opened ConcreteNames

  // ---- The lists of claims the store is filled from ----

  datatype LinkList = SingleLinks(kind: SingleKind) | CacheLinks | SqlLinks

  function ListAt(j: nat): LinkList
    requires j < 6
  {
    if j == 0 then SingleLinks(QueueBacking)
    else if j == 1 then SingleLinks(TopicBacking)
    else if j == 2 then SingleLinks(DatastoreBacking)
    else if j == 3 then SingleLinks(BucketBacking)
    else if j == 4 then CacheLinks
    else SqlLinks
  }

  function Links(h: ResolvedHandler, list: LinkList): seq<Linked> {
    match list
    case SingleLinks(QueueBacking) => h.queues
    case SingleLinks(TopicBacking) => h.topics
    case SingleLinks(DatastoreBacking) => h.datastores
    case SingleLinks(BucketBacking) => h.buckets
    case CacheLinks => h.caches
    case SqlLinks => h.sqlDatabases
  }

  function WithLinks(h: ResolvedHandler, list: LinkList, links: seq<Linked>): ResolvedHandler {
    match list
    case SingleLinks(QueueBacking) => h.(queues := links)
    case SingleLinks(TopicBacking) => h.(topics := links)
    case SingleLinks(DatastoreBacking) => h.(datastores := links)
    case SingleLinks(BucketBacking) => h.(buckets := links)
    case CacheLinks => h.(caches := links)
    case SqlLinks => h.(sqlDatabases := links)
  }

  function ClaimFor(list: LinkList): Linked -> Claim {
    match list
    case SingleLinks(kind) => SingleOf(kind)
    case CacheLinks => CacheClaim
    case SqlLinks => SqlClaim
  }

  function ListClaims(h: ResolvedHandler, list: LinkList): seq<Claim> {
    Map(Links(h, list), ClaimFor(list))
  }

  // Six lists a handler, in the order the store is filled.
  function ClaimLists(handlers: seq<ResolvedHandler>): (lists: seq<seq<Claim>>)
    ensures |lists| == 6 * |handlers|
  {
    if handlers == [] then []
    else
      var n := |handlers| - 1;
      ClaimLists(handlers[..n]) + HandlerLists(handlers[n])
  }

  function HandlerLists(h: ResolvedHandler): (lists: seq<seq<Claim>>)
    ensures |lists| == 6
  {
    seq(6, j requires 0 <= j < 6 => ListClaims(h, ListAt(j)))
  }

  lemma {:induction false} ClaimListAt(handlers: seq<ResolvedHandler>, m: nat)
    requires m < 6 * |handlers|
    ensures ClaimLists(handlers)[m] == ListClaims(handlers[m / 6], ListAt(m % 6))
  {
    var n := |handlers| - 1;
    var before, last := ClaimLists(handlers[..n]), HandlerLists(handlers[n]);
    assert ClaimLists(handlers) == before + last;
    if m < 6 * n {
      ClaimListAt(handlers[..n], m);
      SixthBelow(n, m);
      assert handlers[..n][m / 6] == handlers[m / 6];
    } else {
      LastSix(n, m);
      assert ClaimLists(handlers)[m] == last[m - 6 * n];
    }
  }

  lemma SixthBelow(n: nat, m: nat)
    requires m < 6 * n
    ensures m / 6 < n
  {
  }

  lemma LastSix(n: nat, m: nat)
    requires 6 * n <= m < 6 * n + 6
    ensures m / 6 == n && m % 6 == m - 6 * n
  {
  }

  function Whole(claims: seq<Claim>): seq<Claim> {
    claims
  }

  function Flat(lists: seq<seq<Claim>>): seq<Claim> {
    FlatMap(lists, Whole)
  }

  function Stored(lists: seq<seq<Claim>>): map<string, StoreValue> {
    ApplyAll(map[], Flat(lists))
  }

  lemma FlatLast(lists: seq<seq<Claim>>, last: seq<Claim>)
    ensures Flat(lists + [last]) == Flat(lists) + last
  {
    assert (lists + [last])[..|lists|] == lists;
  }

  lemma FlatThree(a: seq<Claim>, b: seq<Claim>, c: seq<Claim>)
    ensures Flat([a, b, c]) == a + b + c
  {
    assert [a, b, c] == [a, b] + [c] && [a, b] == [a] + [b];
    FlatLast([a, b], c);
    FlatLast([a], b);
    FlatMapOne(a, Whole);
  }

  lemma FlatSix(a: seq<Claim>, b: seq<Claim>, c: seq<Claim>, d: seq<Claim>, e: seq<Claim>, f: seq<Claim>)
    ensures Flat([a, b, c, d, e, f]) == (a + b + c + d) + e + f
  {
    assert [a, b, c, d, e, f] == [a, b, c] + [d, e, f];
    FlatMapConcat([a, b, c], [d, e, f], Whole);
    FlatThree(a, b, c);
    FlatThree(d, e, f);
  }

  lemma SingleListed(h: ResolvedHandler, kind: SingleKind)
    ensures ListClaims(h, SingleLinks(kind)) == Map(Links(h, SingleLinks(kind)), SingleOf(kind))
  {
  }

  lemma SinglesListed(h: ResolvedHandler)
    ensures SingleClaims(h) == ListClaims(h, SingleLinks(QueueBacking)) + ListClaims(h, SingleLinks(TopicBacking))
                               + ListClaims(h, SingleLinks(DatastoreBacking)) + ListClaims(h, SingleLinks(BucketBacking))
  {
    SingleListed(h, QueueBacking);
    SingleListed(h, TopicBacking);
    SingleListed(h, DatastoreBacking);
    SingleListed(h, BucketBacking);
  }

  lemma GroupsListed(h: ResolvedHandler)
    ensures Map(h.caches, CacheClaim) == ListClaims(h, CacheLinks)
    ensures Map(h.sqlDatabases, SqlClaim) == ListClaims(h, SqlLinks)
  {
  }

  lemma FlatHandler(h: ResolvedHandler)
    ensures Flat(HandlerLists(h)) == ClaimsOf(h)
  {
    FlatSix(ListClaims(h, SingleLinks(QueueBacking)), ListClaims(h, SingleLinks(TopicBacking)),
            ListClaims(h, SingleLinks(DatastoreBacking)), ListClaims(h, SingleLinks(BucketBacking)),
            ListClaims(h, CacheLinks), ListClaims(h, SqlLinks));
    SixLists(h);
    SinglesListed(h);
    GroupsListed(h);
  }

  lemma SixLists(h: ResolvedHandler)
    ensures HandlerLists(h) ==
            [ListClaims(h, SingleLinks(QueueBacking)), ListClaims(h, SingleLinks(TopicBacking)),
             ListClaims(h, SingleLinks(DatastoreBacking)), ListClaims(h, SingleLinks(BucketBacking)),
             ListClaims(h, CacheLinks), ListClaims(h, SqlLinks)]
  {
    SixElements(HandlerLists(h));
  }

  lemma SixElements<T>(s: seq<T>)
    requires |s| == 6
    ensures s == [s[0], s[1], s[2], s[3], s[4], s[5]]
  {
  }

  lemma {:induction false} FlatLists(handlers: seq<ResolvedHandler>)
    ensures Flat(ClaimLists(handlers)) == FlatMap(handlers, ClaimsOf)
  {
    if handlers != [] {
      var n := |handlers| - 1;
      FlatLists(handlers[..n]);
      FlatMapConcat(ClaimLists(handlers[..n]), HandlerLists(handlers[n]), Whole);
      FlatHandler(handlers[n]);
    }
  }

  lemma StoredLists(primaries: seq<Primary>)
    ensures Stored(ClaimLists(SortedHandlers(primaries))) == StoreOf(primaries)
  {
    FlatLists(SortedHandlers(primaries));
  }

  lemma StoredMore(lists: seq<seq<Claim>>, m: nat)
    requires m < |lists|
    ensures Stored(lists[..m + 1]) == ApplyAll(Stored(lists[..m]), lists[m])
  {
    assert lists[..m + 1] == lists[..m] + [lists[m]];
    FlatLast(lists[..m], lists[m]);
    ApplyAllConcat(map[], Flat(lists[..m]), lists[m]);
  }

  // ---- One list ----

  // Well-formed claims, all of one form.
  ghost predicate Uniform(list: seq<Claim>) {
    AllWellFormed(list) && forall c, d :: c in list && d in list ==> c.SingleClaim? == d.SingleClaim?
  }

  predicate Free(entries: map<string, StoreValue>, list: seq<Claim>, c: Claim) {
    c in list && Probe(c) !in entries
  }

  // The finished store has another value under the single value's key: a group took it.
  predicate Replaced(final: map<string, StoreValue>, k: string) {
    k in final && !SingleReference(final[k])
  }

  // No two claims of the list want different things of one key that is still free, unless
  // the store will not show either.
  ghost predicate Agreeing(entries: map<string, StoreValue>, list: seq<Claim>, final: map<string, StoreValue>) {
    forall c, d :: Free(entries, list, c) && Free(entries, list, d) && Compete(c, d) && c != d ==>
      c.SingleClaim? && Replaced(final, c.base)
  }

  ghost predicate Wanted(entries: map<string, StoreValue>, list: seq<Claim>, k: string) {
    exists c :: Free(entries, list, c) && HasKey(c, k)
  }

  ghost predicate FromFree(entries: map<string, StoreValue>, list: seq<Claim>, k: string, v: StoreValue) {
    exists c :: Free(entries, list, c) && Provides(c, k, v)
  }

  ghost predicate AgreeingGroups(entries: map<string, StoreValue>, list: seq<Claim>) {
    forall c, d :: Free(entries, list, c) && Free(entries, list, d) && Compete(c, d) && c != d ==> c.SingleClaim?
  }

  // A list leaves each key as it was, or with a value of one of its claims on it.
  ghost predicate ListResult(entries: map<string, StoreValue>, list: seq<Claim>, k: string, after: map<string, StoreValue>) {
    if Wanted(entries, list, k) then k in after && FromFree(entries, list, k, after[k])
    else (k in after <==> k in entries) && (k in entries ==> after[k] == entries[k])
  }

  lemma WantedIsTaken(entries: map<string, StoreValue>, list: seq<Claim>, k: string)
    requires list != [] && Uniform(list) && AgreeingGroups(entries, list)
    requires var n := |list| - 1;
             ListResult(entries, list[..n], Probe(list[n]), ApplyAll(entries, list[..n])) &&
             Probe(list[n]) in ApplyAll(entries, list[..n])
    ensures Wanted(entries, list, k) ==> Wanted(entries, list[..|list| - 1], k)
  {
    var n := |list| - 1;
    var b := list[n];
    if c :| Free(entries, list, c) && HasKey(c, k) {
      if c in list[..n] {
        assert Free(entries, list[..n], c);
      } else {
        assert c == b && Wanted(entries, list[..n], Probe(b));
        var d :| Free(entries, list[..n], d) && HasKey(d, Probe(b));
        ProbeIsKey(b);
        SharedKey(d, b, Probe(b));
        assert Free(entries, list, d) && HasKey(d, k);
      }
    }
  }

  lemma LastTakesItsKeys(entries: map<string, StoreValue>, list: seq<Claim>, k: string)
    requires list != [] && Uniform(list)
    requires var n := |list| - 1;
             var before := ApplyAll(entries, list[..n]);
             ListResult(entries, list[..n], k, before) && ListResult(entries, list[..n], Probe(list[n]), before) &&
             Probe(list[n]) !in before
    ensures ListResult(entries, list, k, ApplyAll(entries, list))
  {
    var n := |list| - 1;
    var b := list[n];
    var before := ApplyAll(entries, list[..n]);
    assert Probe(b) !in entries && Free(entries, list, b);
    ApplyExact(before, b, k);
    if HasKey(b, k) {
      ApplyProvides(before, b, k);
      assert Wanted(entries, list, k);
    } else {
      assert forall c :: Free(entries, list, c) && HasKey(c, k) ==> Free(entries, list[..n], c);
      FreeLonger(entries, list, k);
    }
  }

  lemma FreeLonger(entries: map<string, StoreValue>, list: seq<Claim>, k: string)
    requires list != []
    ensures Wanted(entries, list[..|list| - 1], k) ==> Wanted(entries, list, k)
    ensures forall v :: FromFree(entries, list[..|list| - 1], k, v) ==> FromFree(entries, list, k, v)
  {
    var n := |list| - 1;
    assert forall c :: Free(entries, list[..n], c) ==> Free(entries, list, c);
  }

  lemma {:induction false} ListExact(entries: map<string, StoreValue>, list: seq<Claim>, k: string)
    requires Uniform(list) && AgreeingGroups(entries, list)
    ensures ListResult(entries, list, k, ApplyAll(entries, list))
  {
    if list != [] {
      var n := |list| - 1;
      var b := list[n];
      ListExact(entries, list[..n], k);
      ListExact(entries, list[..n], Probe(b));
      if Probe(b) in ApplyAll(entries, list[..n]) {
        WantedIsTaken(entries, list, k);
        FreeLonger(entries, list, k);
      } else {
        LastTakesItsKeys(entries, list, k);
      }
    }
  }

  // ---- Reordering settled lists ----

  // Two stores that differ only in single values a group will replace.
  ghost predicate Related(e: map<string, StoreValue>, f: map<string, StoreValue>, final: map<string, StoreValue>) {
    e.Keys == f.Keys && forall k :: k in e ==> RelatedAt(e, f, final, k)
  }

  predicate RelatedAt(e: map<string, StoreValue>, f: map<string, StoreValue>, final: map<string, StoreValue>, k: string)
    requires k in e && k in f
  {
    e[k] == f[k] || (SingleReference(e[k]) && SingleReference(f[k]) && Replaced(final, k))
  }

  lemma ProvidesOnce(c: Claim, k: string, v: StoreValue, w: StoreValue)
    requires WellFormed(c) && Provides(c, k, v) && Provides(c, k, w)
    ensures v == w
  {
    if c.GroupClaim? {
      var i: nat :| HasPair(c, k, i) && v == c.pairs[i].value;
      var j: nat :| HasPair(c, k, j) && w == c.pairs[j].value;
      CompositeUnique(c.base, c.pairs[i].field, c.base, c.pairs[j].field);
      assert i == j;
    }
  }

  lemma SameFree(e: map<string, StoreValue>, f: map<string, StoreValue>, list: seq<Claim>, list': seq<Claim>)
    requires e.Keys == f.Keys && multiset(list) == multiset(list')
    ensures forall c :: Free(e, list, c) <==> Free(f, list', c)
  {
    SameMembers(list, list');
  }

  lemma ListKeepsRelatedAt(e: map<string, StoreValue>, f: map<string, StoreValue>, list: seq<Claim>, list': seq<Claim>,
                           final: map<string, StoreValue>, k: string)
    requires multiset(list) == multiset(list') && Uniform(list) && Agreeing(e, list, final) && Related(e, f, final)
    ensures k in ApplyAll(e, list) <==> k in ApplyAll(f, list')
    ensures k in ApplyAll(e, list) ==> RelatedAt(ApplyAll(e, list), ApplyAll(f, list'), final, k)
  {
    SameFree(e, f, list, list');
    SameMembers(list, list');
    ListExact(e, list, k);
    ListExact(f, list', k);
    if Wanted(e, list, k) {
      var a, b := ApplyAll(e, list), ApplyAll(f, list');
      var c0 :| Free(e, list, c0) && HasKey(c0, k);
      assert Free(f, list', c0) && Wanted(f, list', k);
      var c :| Free(e, list, c) && Provides(c, k, a[k]);
      var d :| Free(f, list', d) && Provides(d, k, b[k]);
      assert Free(e, list, d);
      ProvidedIsKey(c, k, a[k]);
      ProvidedIsKey(d, k, b[k]);
      SharedKey(c, d, k);
      if c == d {
        ProvidesOnce(c, k, a[k], b[k]);
      }
    } else {
      assert !Wanted(f, list', k);
    }
  }

  lemma ListKeepsRelated(e: map<string, StoreValue>, f: map<string, StoreValue>, list: seq<Claim>, list': seq<Claim>,
                         final: map<string, StoreValue>)
    requires multiset(list) == multiset(list') && Uniform(list) && Agreeing(e, list, final) && Related(e, f, final)
    ensures Related(ApplyAll(e, list), ApplyAll(f, list'), final)
  {
    forall k ensures k in ApplyAll(e, list) <==> k in ApplyAll(f, list') {
      ListKeepsRelatedAt(e, f, list, list', final, k);
    }
    forall k | k in ApplyAll(e, list) ensures RelatedAt(ApplyAll(e, list), ApplyAll(f, list'), final, k) {
      ListKeepsRelatedAt(e, f, list, list', final, k);
    }
  }

  ghost predicate AllUniform(lists: seq<seq<Claim>>) {
    forall m :: 0 <= m < |lists| ==> Uniform(lists[m])
  }

  ghost predicate SettledLists(lists: seq<seq<Claim>>, final: map<string, StoreValue>) {
    forall m :: 0 <= m < |lists| ==> Agreeing(Stored(lists[..m]), lists[m], final)
  }

  ghost predicate ListsReordered(lists: seq<seq<Claim>>, lists': seq<seq<Claim>>) {
    |lists| == |lists'| && forall m :: 0 <= m < |lists| ==> multiset(lists[m]) == multiset(lists'[m])
  }

  lemma {:induction false} SettledUpTo(lists: seq<seq<Claim>>, lists': seq<seq<Claim>>, final: map<string, StoreValue>, m: nat)
    requires AllUniform(lists) && SettledLists(lists, final) && ListsReordered(lists, lists') && m <= |lists|
    ensures Related(Stored(lists[..m]), Stored(lists'[..m]), final)
  {
    if m > 0 {
      SettledUpTo(lists, lists', final, m - 1);
      SettledStep(lists, lists', final, m - 1);
    }
  }

  lemma SettledStep(lists: seq<seq<Claim>>, lists': seq<seq<Claim>>, final: map<string, StoreValue>, m: nat)
    requires m < |lists| == |lists'| && Uniform(lists[m]) && multiset(lists[m]) == multiset(lists'[m])
    requires Agreeing(Stored(lists[..m]), lists[m], final) && Related(Stored(lists[..m]), Stored(lists'[..m]), final)
    ensures Related(Stored(lists[..m + 1]), Stored(lists'[..m + 1]), final)
  {
    StoredMore(lists, m);
    StoredMore(lists', m);
    ListKeepsRelated(Stored(lists[..m]), Stored(lists'[..m]), lists[m], lists'[m], final);
  }

  lemma SettledListsReorder(lists: seq<seq<Claim>>, lists': seq<seq<Claim>>)
    requires AllUniform(lists) && SettledLists(lists, Stored(lists)) && ListsReordered(lists, lists')
    ensures Stored(lists) == Stored(lists')
  {
    SettledUpTo(lists, lists', Stored(lists), |lists|);
    assert lists[..|lists|] == lists && lists'[..|lists'|] == lists';
    RelatedToFinal(Stored(lists), Stored(lists'));
  }

  lemma RelatedToFinal(e: map<string, StoreValue>, f: map<string, StoreValue>)
    requires Related(e, f, e)
    ensures e == f
  {
    forall k | k in e ensures e[k] == f[k] {
      assert RelatedAt(e, f, e, k);
    }
  }

  // ---- Two orders of an unsettled list ----

  // Two groups of one base with the same entries are the same group; so are single values.
  ghost predicate Rigid(list: seq<Claim>) {
    forall c, d :: c in list && d in list && Compete(c, d) && SameEntries(c, d) ==> c == d
  }

  ghost predicate SameEntries(c: Claim, d: Claim) {
    && (c.SingleClaim? && d.SingleClaim? ==> c.value == d.value)
    && (c.GroupClaim? && d.GroupClaim? ==>
          forall f, v :: !SingleReference(v) ==> (Pair(f, v) in c.pairs <==> Pair(f, v) in d.pairs))
  }

  lemma {:induction false} NoCompetitorBefore(entries: map<string, StoreValue>, list: seq<Claim>, c: Claim)
    requires AllWellFormed(list) && Probe(c) !in entries && WellFormed(c)
    requires forall d :: d in list ==> d.SingleClaim? == c.SingleClaim? && !Compete(d, c)
    ensures Probe(c) !in ApplyAll(entries, list)
  {
    if list != [] {
      var n := |list| - 1;
      var before := ApplyAll(entries, list[..n]);
      NoCompetitorBefore(entries, list[..n], c);
      assert list[n] in list;
      if Probe(list[n]) !in before {
        ApplyExact(before, list[n], Probe(c));
        ProbeIsKey(c);
        if HasKey(list[n], Probe(c)) {
          SharedKey(list[n], c, Probe(c));
        }
      }
    }
  }

  // The first claim of its list on a key that was free before the list is in the store.
  lemma FirstOfListShows(before: seq<Claim>, list: seq<Claim>, p: nat, after: seq<Claim>)
    requires AllWellFormed(before) && Uniform(list) && AllWellFormed(after) && p < |list|
    requires Probe(list[p]) !in ApplyAll(map[], before) && forall q :: 0 <= q < p ==> !Compete(list[q], list[p])
    ensures Shows(ApplyAll(map[], before + list + after), list[p])
  {
    var claims := before + list + after;
    InTheMiddle(before, list, p, after);
    WellFormedJoin(before, list, after);
    FirstOfListWritten(before, list, p);
    FreeClaimShows(claims, before + list[..p], list[p]);
  }

  lemma FreeClaimShows(claims: seq<Claim>, earlier: seq<Claim>, c: Claim)
    requires AllWellFormed(claims) && |earlier| < |claims| && claims[..|earlier|] == earlier && claims[|earlier|] == c
    requires Probe(c) !in ApplyAll(map[], earlier)
    ensures Shows(ApplyAll(map[], claims), c)
  {
    WrittenStays(claims, |earlier|);
  }

  lemma WellFormedJoin(before: seq<Claim>, list: seq<Claim>, after: seq<Claim>)
    requires AllWellFormed(before) && AllWellFormed(list) && AllWellFormed(after)
    ensures AllWellFormed(before + list + after)
  {
  }

  lemma FirstOfListWritten(before: seq<Claim>, list: seq<Claim>, p: nat)
    requires Uniform(list) && p < |list|
    requires Probe(list[p]) !in ApplyAll(map[], before) && forall q :: 0 <= q < p ==> !Compete(list[q], list[p])
    ensures Probe(list[p]) !in ApplyAll(map[], before + list[..p])
  {
    ApplyAllConcat(map[], before, list[..p]);
    NoCompetitorBefore(ApplyAll(map[], before), list[..p], list[p]);
  }

  lemma InTheMiddle(before: seq<Claim>, list: seq<Claim>, p: nat, after: seq<Claim>)
    requires p < |list|
    ensures var claims := before + list + after;
            |before| + p < |claims| && claims[|before| + p] == list[p] && claims[..|before| + p] == before + list[..p]
  {
  }

  // Stores that hold competing claims with different entries differ, unless a group took
  // the single value's key.
  lemma DifferentShows(e: map<string, StoreValue>, f: map<string, StoreValue>, c: Claim, d: Claim)
    requires Shows(e, c) && Shows(f, d) && Compete(c, d) && WellFormed(c) && WellFormed(d)
    requires e == f && !(c.SingleClaim? && Replaced(e, c.base))
    ensures SameEntries(c, d)
  {
    if c.GroupClaim? {
      forall x, v | !SingleReference(v) ensures Pair(x, v) in c.pairs <==> Pair(x, v) in d.pairs {
        assert Gives(e, c.base, x, v) <==> Gives(f, d.base, x, v);
      }
    }
  }

  function ToFront<T>(s: seq<T>, q: nat): seq<T>
    requires q < |s|
  {
    [s[q]] + Without(s, q)
  }

  lemma ToFrontPermutes<T>(s: seq<T>, q: nat)
    requires q < |s|
    ensures multiset(ToFront(s, q)) == multiset(s)
  {
    assert s[q] in multiset(s);
  }

  lemma MapToFront<T, U>(s: seq<T>, q: nat, f: T -> U)
    requires q < |s|
    ensures Map(ToFront(s, q), f) == ToFront(Map(s, f), q)
  {
    MapFirst(ToFront(s, q), f);
    assert ToFront(s, q)[1..] == Without(s, q);
    MapWithout(s, q, f);
  }

  lemma FirstInList(list: seq<Claim>, c: Claim) returns (p: nat)
    requires c in list
    ensures p < |list| && Compete(list[p], c) && forall q :: 0 <= q < p ==> !Compete(list[q], list[p])
  {
    var j := IndexOf(list, c);
    p := FirstCompetitor(list, j);
  }

  ghost predicate Disagreeing(entries: map<string, StoreValue>, list: seq<Claim>, final: map<string, StoreValue>, c: Claim, d: Claim) {
    Free(entries, list, c) && Free(entries, list, d) && Compete(c, d) && c != d && !(c.SingleClaim? && Replaced(final, c.base))
  }

  // An unsettled list has an element that changes the store when it comes first.
  lemma UnsettledShows(before: seq<Claim>, list: seq<Claim>, after: seq<Claim>, c: Claim, d: Claim) returns (q: nat)
    requires AllWellFormed(before) && Uniform(list) && AllWellFormed(after) && Rigid(list)
    requires Disagreeing(ApplyAll(map[], before), list, ApplyAll(map[], before + list + after), c, d)
    ensures q < |list|
    ensures ApplyAll(map[], before + ToFront(list, q) + after) != ApplyAll(map[], before + list + after)
  {
    var p := FirstInList(list, c);
    var x := if list[p] == c then d else c;
    q := IndexOf(list, x);
    var final, moved := ApplyAll(map[], before + list + after), ApplyAll(map[], before + ToFront(list, q) + after);
    ToFrontPermutes(list, q);
    SameMembers(list, ToFront(list, q));
    FirstOfListShows(before, list, p, after);
    FirstOfListShows(before, ToFront(list, q), 0, after);
    if final == moved {
      DifferentShows(final, moved, list[p], x);
    }
  }

  // ---- Lists of links ----

  lemma SameCacheGroup(l: Linked, m: Linked)
    requires Compete(CacheClaim(l), CacheClaim(m)) && SameEntries(CacheClaim(l), CacheClaim(m))
    ensures CacheClaim(l) == CacheClaim(m)
  {
    var c, d := CacheClaim(l), CacheClaim(m);
    CacheWellFormed(l);
    CacheWellFormed(m);
    CachePairsAt(l);
    CachePairsAt(m);
    SamePair(c, d, 0);
    SamePair(c, d, 3);
    SamePair(c, d, 4);
    CachePairsDetermined(l, m);
  }

  lemma CachePairsAt(l: Linked)
    ensures var pairs := CachePairs(l);
            |pairs| > 4 && pairs[0] == Pair(HostField, ReferenceEntry(BlueprintValue(CacheHost, l.name))) &&
            pairs[3] == Pair(ClusterModeField, LiteralEntry(BoolText(l.clusterMode))) &&
            pairs[4] == Pair(AuthModeField, LiteralEntry(AuthMode(l)))
  {
  }

  lemma CachePairsDetermined(l: Linked, m: Linked)
    requires l.name == m.name && BoolText(l.clusterMode) == BoolText(m.clusterMode) && AuthMode(l) == AuthMode(m)
    ensures CachePairs(l) == CachePairs(m)
  {
  }

  // A pair of one group is the other's pair of that field.
  lemma SamePair(c: Claim, d: Claim, i: nat)
    requires WellFormed(c) && WellFormed(d) && c.GroupClaim? && d.GroupClaim? && SameEntries(c, d)
    requires i < |c.pairs| && i < |d.pairs| && c.pairs[i].field == d.pairs[i].field
    ensures c.pairs[i].value == d.pairs[i].value
  {
    var v := c.pairs[i].value;
    assert Pair(c.pairs[i].field, v) == c.pairs[i] && c.pairs[i] in c.pairs;
    var j: nat :| j < |d.pairs| && d.pairs[j] == c.pairs[i];
    assert d.pairs[j].field == d.pairs[i].field;
  }

  lemma SameSqlGroup(l: Linked, m: Linked)
    requires Compete(SqlClaim(l), SqlClaim(m)) && SameEntries(SqlClaim(l), SqlClaim(m))
    ensures SqlClaim(l) == SqlClaim(m)
  {
    var c, d := SqlClaim(l), SqlClaim(m);
    SqlWellFormed(l);
    SqlWellFormed(m);
    SqlPairsAt(l);
    SqlPairsAt(m);
    SamePair(c, d, 0);
    SamePair(c, d, 3);
    SameReplicas(l, m);
    SamePair(c, d, if l.readReplicas then 7 else 6);
    SqlPairsDetermined(l, m);
  }

  lemma SqlPairsAt(l: Linked)
    ensures var pairs := SqlPairs(l);
            var auth := if l.readReplicas then 7 else 6;
            |pairs| > auth && pairs[0] == Pair(HostField, ReferenceEntry(BlueprintValue(SqlHost, l.name))) &&
            pairs[3] == Pair(EngineField, LiteralEntry(Engine(l))) && pairs[auth] == Pair(AuthModeField, LiteralEntry(AuthMode(l)))
  {
  }

  lemma SqlPairsDetermined(l: Linked, m: Linked)
    requires l.name == m.name && Engine(l) == Engine(m) && AuthMode(l) == AuthMode(m) && l.readReplicas == m.readReplicas
    ensures SqlPairs(l) == SqlPairs(m)
  {
  }

  lemma SameReplicas(l: Linked, m: Linked)
    requires SameEntries(SqlClaim(l), SqlClaim(m))
    ensures l.readReplicas == m.readReplicas
  {
    SqlFields(l);
    SqlFields(m);
    if l.readReplicas {
      ReadHostIsGroups(l, m);
    }
    if m.readReplicas {
      ReadHostIsGroups(m, l);
    }
  }

  lemma ReadHostIsGroups(l: Linked, m: Linked)
    requires SameEntries(SqlClaim(l), SqlClaim(m)) && l.readReplicas
    ensures HasField(SqlPairs(m), ReadHostField)
  {
    var pair := SqlPairs(l)[6];
    assert pair == Pair(ReadHostField, ReferenceEntry(BlueprintValue(SqlReadHost, l.name)));
    assert pair in SqlPairs(l) && pair in SqlClaim(l).pairs;
    var j: nat :| j < |SqlPairs(m)| && SqlPairs(m)[j] == pair;
  }

  lemma ListIsUniform(h: ResolvedHandler, list: LinkList)
    ensures Uniform(ListClaims(h, list))
  {
    forall c | c in ListClaims(h, list) ensures WellFormed(c) && c.SingleClaim? == list.SingleLinks? {
      MapMember(Links(h, list), ClaimFor(list), c);
      var i :| 0 <= i < |Links(h, list)| && ClaimFor(list)(Links(h, list)[i]) == c;
      match list
      case SingleLinks(kind) => SingleWellFormed(kind, Links(h, list)[i]);
      case CacheLinks => CacheWellFormed(Links(h, list)[i]);
      case SqlLinks => SqlWellFormed(Links(h, list)[i]);
    }
  }

  lemma ListIsRigid(h: ResolvedHandler, list: LinkList)
    ensures Rigid(ListClaims(h, list))
  {
    forall c, d | c in ListClaims(h, list) && d in ListClaims(h, list) && Compete(c, d) && SameEntries(c, d) ensures c == d {
      MapMember(Links(h, list), ClaimFor(list), c);
      MapMember(Links(h, list), ClaimFor(list), d);
      var i :| 0 <= i < |Links(h, list)| && ClaimFor(list)(Links(h, list)[i]) == c;
      var j :| 0 <= j < |Links(h, list)| && ClaimFor(list)(Links(h, list)[j]) == d;
      match list
      case SingleLinks(_) =>
      case CacheLinks => SameCacheGroup(Links(h, list)[i], Links(h, list)[j]);
      case SqlLinks => SameSqlGroup(Links(h, list)[i], Links(h, list)[j]);
    }
  }

  lemma ListsAreUniform(handlers: seq<ResolvedHandler>)
    ensures AllUniform(ClaimLists(handlers))
  {
    forall m | 0 <= m < 6 * |handlers| ensures Uniform(ClaimLists(handlers)[m]) {
      ClaimListAt(handlers, m);
      ListIsUniform(handlers[m / 6], ListAt(m % 6));
    }
  }

  // ---- Reordering links ----

  // h' lists the links of h in some other order.
  predicate LinksReordered(h: ResolvedHandler, h': ResolvedHandler) {
    && h' == h.(queues := h'.queues, topics := h'.topics, datastores := h'.datastores, buckets := h'.buckets,
                caches := h'.caches, sqlDatabases := h'.sqlDatabases)
    && forall j :: 0 <= j < 6 ==> multiset(Links(h, ListAt(j))) == multiset(Links(h', ListAt(j)))
  }

  ghost predicate Relinks(g: ResolvedHandler -> ResolvedHandler) {
    forall h :: LinksReordered(h, g(h))
  }

  function RelinkPrimary(g: ResolvedHandler -> ResolvedHandler): Primary -> Primary {
    (p: Primary) => if p.HandlerPrimary? then HandlerPrimary(g(p.handler)) else p
  }

  function Relinked(primaries: seq<Primary>, g: ResolvedHandler -> ResolvedHandler): seq<Primary> {
    Map(primaries, RelinkPrimary(g))
  }

  lemma {:induction false} RelinkedHandlers(primaries: seq<Primary>, g: ResolvedHandler -> ResolvedHandler)
    ensures FlatMap(Relinked(primaries, g), HandlerOf) == Map(FlatMap(primaries, HandlerOf), g)
  {
    if primaries != [] {
      var n := |primaries| - 1;
      RelinkedHandlers(primaries[..n], g);
      assert Relinked(primaries, g)[..n] == Relinked(primaries[..n], g);
      MapConcat(FlatMap(primaries[..n], HandlerOf), HandlerOf(primaries[n]), g);
      assert Map(HandlerOf(primaries[n]), g) == HandlerOf(RelinkPrimary(g)(primaries[n]));
    }
  }

  lemma RelinkedSorted(primaries: seq<Primary>, g: ResolvedHandler -> ResolvedHandler)
    requires Relinks(g)
    ensures SortedHandlers(Relinked(primaries, g)) == Map(SortedHandlers(primaries), g)
  {
    RelinkedHandlers(primaries, g);
    forall h, k ensures ByName(g(h), g(k)) == ByName(h, k) {
      assert LinksReordered(h, g(h)) && LinksReordered(k, g(k));
    }
    SortMapped(FlatMap(primaries, HandlerOf), g, ByName);
  }

  lemma RelinkedLists(handlers: seq<ResolvedHandler>, g: ResolvedHandler -> ResolvedHandler)
    requires Relinks(g)
    ensures ListsReordered(ClaimLists(handlers), ClaimLists(Map(handlers, g)))
  {
    forall m | 0 <= m < 6 * |handlers| ensures multiset(ClaimLists(handlers)[m]) == multiset(ClaimLists(Map(handlers, g))[m]) {
      var h, list := handlers[m / 6], ListAt(m % 6);
      ClaimListAt(handlers, m);
      ClaimListAt(Map(handlers, g), m);
      assert LinksReordered(h, g(h));
      PermutesImages(Links(h, list), Links(g(h), list), ClaimFor(list));
    }
  }

  // ---- When the store ignores the order of links ----

  // No two claims of the list that find their key free after the lists before it want
  // different things of that key, but for single values whose key a group takes.
  ghost predicate ListSettled(lists: seq<seq<Claim>>, m: nat)
    requires m < |lists|
  {
    forall c, d :: c in lists[m] && d in lists[m] && Compete(c, d) && c != d && LandsAfter(Flat(lists[..m]), c) ==>
      c.SingleClaim? && GroupTakes(Flat(lists), c.base)
  }

  ghost predicate ListsSettled(lists: seq<seq<Claim>>) {
    forall m: nat :: m < |lists| ==> ListSettled(lists, m)
  }

  ghost predicate Settled(primaries: seq<Primary>) {
    ListsSettled(ClaimLists(SortedHandlers(primaries)))
  }

  lemma ListSettledIff(lists: seq<seq<Claim>>, m: nat)
    requires AllUniform(lists) && m < |lists|
    ensures Agreeing(Stored(lists[..m]), lists[m], Stored(lists)) <==> ListSettled(lists, m)
  {
    var entries, final := Stored(lists[..m]), Stored(lists);
    FlatWellFormed(lists);
    FlatWellFormed(lists[..m]);
    forall c | c in lists[m]
      ensures Free(entries, lists[m], c) <==> LandsAfter(Flat(lists[..m]), c)
      ensures Replaced(final, c.base) <==> GroupTakes(Flat(lists), c.base)
    {
      LandsAfterIff(Flat(lists[..m]), c);
      GroupTakesIff(Flat(lists), c.base);
    }
    forall c, d | c in lists[m] && d in lists[m] && Compete(c, d)
      ensures Free(entries, lists[m], c) <==> Free(entries, lists[m], d)
    {
      assert Probe(c) == Probe(d);
    }
  }

  // The condition on the claims is the one on the stores.
  lemma ListsSettledIff(lists: seq<seq<Claim>>)
    requires AllUniform(lists)
    ensures SettledLists(lists, Stored(lists)) <==> ListsSettled(lists)
  {
    forall m: nat | m < |lists| ensures Agreeing(Stored(lists[..m]), lists[m], Stored(lists)) <==> ListSettled(lists, m) {
      ListSettledIff(lists, m);
    }
  }

  lemma SettledIgnoresLinkOrder(primaries: seq<Primary>, g: ResolvedHandler -> ResolvedHandler)
    requires Settled(primaries) && Relinks(g)
    ensures StoreOf(Relinked(primaries, g)) == StoreOf(primaries)
  {
    var handlers := SortedHandlers(primaries);
    ListsAreUniform(handlers);
    ListsSettledIff(ClaimLists(handlers));
    StoredLists(primaries);
    RelinkedSorted(primaries, g);
    RelinkedLists(handlers, g);
    StoredLists(Relinked(primaries, g));
    SettledListsReorder(ClaimLists(handlers), ClaimLists(Map(handlers, g)));
  }

  // Moves one link of one handler to the front of its list.
  function Preferring(h: ResolvedHandler, list: LinkList, q: nat): ResolvedHandler -> ResolvedHandler
    requires q < |Links(h, list)|
  {
    var moved := WithLinks(h, list, ToFront(Links(h, list), q));
    (k: ResolvedHandler) => if k == h then moved else k
  }

  lemma OtherLinks(h: ResolvedHandler, list: LinkList, links: seq<Linked>, other: LinkList)
    ensures Links(WithLinks(h, list, links), other) == if other == list then links else Links(h, other)
  {
  }

  lemma MovedIsReordered(h: ResolvedHandler, list: LinkList, q: nat)
    requires q < |Links(h, list)|
    ensures LinksReordered(h, WithLinks(h, list, ToFront(Links(h, list), q)))
  {
    var moved := WithLinks(h, list, ToFront(Links(h, list), q));
    ToFrontPermutes(Links(h, list), q);
    forall j | 0 <= j < 6 ensures multiset(Links(h, ListAt(j))) == multiset(Links(moved, ListAt(j))) {
      OtherLinks(h, list, ToFront(Links(h, list), q), ListAt(j));
    }
  }

  lemma PreferringRelinks(h: ResolvedHandler, list: LinkList, q: nat)
    requires q < |Links(h, list)|
    ensures Relinks(Preferring(h, list, q))
  {
    MovedIsReordered(h, list, q);
    forall k ensures LinksReordered(k, Preferring(h, list, q)(k)) {
      assert k == h || LinksReordered(k, k);
    }
  }

  lemma ListAtOnce(i: nat, j: nat)
    requires i < 6 && j < 6
    ensures ListAt(i) == ListAt(j) <==> i == j
  {
  }

  lemma PreferredClaims(h: ResolvedHandler, list: LinkList, q: nat, k: ResolvedHandler, other: LinkList)
    requires q < |Links(h, list)|
    ensures ListClaims(Preferring(h, list, q)(k), other) ==
            if k == h && other == list then ToFront(ListClaims(h, list), q) else ListClaims(k, other)
  {
    OtherLinks(h, list, ToFront(Links(h, list), q), other);
    MapToFront(Links(h, list), q, ClaimFor(list));
  }

  lemma SameList(handlers: seq<ResolvedHandler>, m: nat, n: nat)
    requires m < 6 * |handlers| && n < 6 * |handlers| && UniqueNames(handlers)
    ensures handlers[n / 6] == handlers[m / 6] && ListAt(n % 6) == ListAt(m % 6) <==> n == m
  {
    ListAtOnce(m % 6, n % 6);
  }

  lemma UpdatedAt<T>(a: seq<T>, b: seq<T>, m: nat, x: T)
    requires m < |a| == |b| && forall n: nat :: n < |a| ==> b[n] == if n == m then x else a[n]
    ensures b == a[m := x]
  {
  }

  lemma PreferringLists(handlers: seq<ResolvedHandler>, m: nat, q: nat, g: ResolvedHandler -> ResolvedHandler)
    requires m < 6 * |handlers| && UniqueNames(handlers) && q < |Links(handlers[m / 6], ListAt(m % 6))|
    requires g == Preferring(handlers[m / 6], ListAt(m % 6), q)
    ensures ClaimLists(Map(handlers, g)) == ClaimLists(handlers)[m := ToFront(ListClaims(handlers[m / 6], ListAt(m % 6)), q)]
  {
    var front := ToFront(ListClaims(handlers[m / 6], ListAt(m % 6)), q);
    var lists, moved := ClaimLists(handlers), ClaimLists(Map(handlers, g));
    forall n: nat | n < |lists| ensures moved[n] == if n == m then front else lists[n] {
      PreferredAt(handlers, handlers[m / 6], ListAt(m % 6), q, n);
      SameList(handlers, m, n);
    }
    UpdatedAt(lists, moved, m, front);
  }

  lemma PreferredAt(handlers: seq<ResolvedHandler>, h: ResolvedHandler, list: LinkList, q: nat, n: nat)
    requires n < 6 * |handlers| && q < |Links(h, list)|
    ensures ClaimLists(Map(handlers, Preferring(h, list, q)))[n] ==
            if handlers[n / 6] == h && ListAt(n % 6) == list then ToFront(ListClaims(h, list), q) else ClaimLists(handlers)[n]
  {
    ClaimListAt(handlers, n);
    ClaimListAt(Map(handlers, Preferring(h, list, q)), n);
    PreferredClaims(h, list, q, handlers[n / 6], ListAt(n % 6));
  }

  lemma FlatAround(lists: seq<seq<Claim>>, m: nat, list: seq<Claim>)
    requires m < |lists|
    ensures Flat(lists[m := list]) == Flat(lists[..m]) + list + Flat(lists[m + 1..])
  {
    assert lists[m := list] == lists[..m] + ([list] + lists[m + 1..]);
    FlatMapBetween(lists[..m], list, lists[m + 1..], Whole);
  }

  lemma FlatWellFormed(lists: seq<seq<Claim>>)
    requires AllUniform(lists)
    ensures AllWellFormed(Flat(lists))
  {
    forall c | c in Flat(lists) ensures WellFormed(c) {
      FlatMapMember(lists, Whole, c);
      var list :| list in lists && c in Whole(list);
      var m := IndexOf(lists, list);
    }
  }

  lemma FindsDisagreement(entries: map<string, StoreValue>, list: seq<Claim>, final: map<string, StoreValue>) returns (c: Claim, d: Claim)
    requires !Agreeing(entries, list, final)
    ensures Disagreeing(entries, list, final, c, d)
  {
    c, d :| Free(entries, list, c) && Free(entries, list, d) && Compete(c, d) && c != d && !(c.SingleClaim? && Replaced(final, c.base));
  }

  lemma UnsettledListShows(lists: seq<seq<Claim>>, m: nat) returns (q: nat)
    requires AllUniform(lists) && m < |lists| && Rigid(lists[m]) && !ListSettled(lists, m)
    ensures q < |lists[m]| && Stored(lists[m := ToFront(lists[m], q)]) != Stored(lists)
  {
    ListSettledIff(lists, m);
    var c, d := FindsDisagreement(Stored(lists[..m]), lists[m], Stored(lists));
    FlatParts(lists, m);
    FlatWellFormed(lists[..m]);
    FlatWellFormed(lists[m + 1..]);
    q := UnsettledShows(Flat(lists[..m]), lists[m], Flat(lists[m + 1..]), c, d);
    FlatAround(lists, m, ToFront(lists[m], q));
  }

  lemma FlatParts(lists: seq<seq<Claim>>, m: nat)
    requires m < |lists|
    ensures Flat(lists) == Flat(lists[..m]) + lists[m] + Flat(lists[m + 1..])
  {
    FlatAround(lists, m, lists[m]);
    assert lists[m := lists[m]] == lists;
  }

  lemma UnsettledSeesLinkOrder(primaries: seq<Primary>) returns (g: ResolvedHandler -> ResolvedHandler)
    requires !Settled(primaries) && UniqueNames(SortedHandlers(primaries))
    ensures Relinks(g) && StoreOf(Relinked(primaries, g)) != StoreOf(primaries)
  {
    var handlers := SortedHandlers(primaries);
    var lists := ClaimLists(handlers);
    ListsAreUniform(handlers);
    StoredLists(primaries);
    var m: nat :| m < |lists| && !ListSettled(lists, m);
    ClaimListAt(handlers, m);
    ListIsRigid(handlers[m / 6], ListAt(m % 6));
    var q := UnsettledListShows(lists, m);
    g := Preferring(handlers[m / 6], ListAt(m % 6), q);
    PreferringRelinks(handlers[m / 6], ListAt(m % 6), q);
    PreferringLists(handlers, m, q, g);
    RelinkedSorted(primaries, g);
    StoredLists(Relinked(primaries, g));
  }

  lemma UniqueWhenSorted(handlers: seq<ResolvedHandler>)
    requires UniqueNames(handlers)
    ensures UniqueNames(Sort(handlers, ByName))
  {
    PermutedNames(handlers, Sort(handlers, ByName));
  }

  lemma {:induction false} PermutedNames(a: seq<ResolvedHandler>, b: seq<ResolvedHandler>)
    requires UniqueNames(a) && multiset(a) == multiset(b)
    ensures UniqueNames(b)
    decreases |a|
  {
    if b != [] {
      var n := |b| - 1;
      SameMember(a, b, b[n]);
      var k := IndexOf(a, b[n]);
      LastWithout(a, b, k);
      WithoutUnique(a, k);
      PermutedNames(Without(a, k), b[..n]);
      forall i | 0 <= i < n ensures b[i].name != b[n].name {
        SameMember(Without(a, k), b[..n], b[..n][i]);
        OthersDiffer(a, k, b[i]);
      }
    }
  }

  lemma LastWithout<T>(a: seq<T>, b: seq<T>, k: nat)
    requires multiset(a) == multiset(b) && b != [] && k < |a| && a[k] == b[|b| - 1]
    ensures multiset(Without(a, k)) == multiset(b[..|b| - 1]) && |Without(a, k)| < |a|
  {
    assert b == b[..|b| - 1] + [b[|b| - 1]];
  }

  lemma OthersDiffer(a: seq<ResolvedHandler>, k: nat, h: ResolvedHandler)
    requires UniqueNames(a) && k < |a| && h in Without(a, k)
    ensures h.name != a[k].name
  {
    var j := IndexOf(Without(a, k), h);
    WithoutAt(a, k, j);
  }

  lemma WithoutUnique(a: seq<ResolvedHandler>, k: nat)
    requires UniqueNames(a) && k < |a|
    ensures UniqueNames(Without(a, k))
  {
    forall i, j | 0 <= i < j < |a| - 1 ensures Without(a, k)[i].name != Without(a, k)[j].name {
      WithoutAt(a, k, i);
      WithoutAt(a, k, j);
    }
  }

  // The store is the same for every order of every handler's links exactly when it is settled.
  lemma StoreIgnoresLinkOrderIff(primaries: seq<Primary>)
    requires UniqueNames(FlatMap(primaries, HandlerOf))
    ensures (forall g :: Relinks(g) ==> StoreOf(Relinked(primaries, g)) == StoreOf(primaries)) <==> Settled(primaries)
  {
    if Settled(primaries) {
      forall g | Relinks(g) ensures StoreOf(Relinked(primaries, g)) == StoreOf(primaries) {
        SettledIgnoresLinkOrder(primaries, g);
      }
    } else {
      UniqueWhenSorted(FlatMap(primaries, HandlerOf));
      var g := UnsettledSeesLinkOrder(primaries);
    }
  }

  // ---- Read off the claims ----

  // Any two claims of a list on one key agree, or an earlier list has claimed it.
  ghost predicate EarlierListsDecide(lists: seq<seq<Claim>>) {
    forall m: nat :: m < |lists| ==> DecidedEarlier(lists, m)
  }

  ghost predicate DecidedEarlier(lists: seq<seq<Claim>>, m: nat)
    requires m < |lists|
  {
    forall c, d :: c in lists[m] && d in lists[m] && Compete(c, d) && c != d ==> Claimed(lists, m, c)
  }

  ghost predicate Claimed(lists: seq<seq<Claim>>, m: nat, c: Claim)
    requires m <= |lists|
  {
    ClaimedIn(Flat(lists[..m]), c)
  }

  ghost predicate ClaimedIn(claims: seq<Claim>, c: Claim) {
    exists e :: e in claims && Compete(e, c)
  }

  // Without a clash no group takes the key of a single value.
  lemma NoneTaken(claims: seq<Claim>, p: nat)
    requires AllWellFormed(claims) && !Clash(claims) && p < |claims| && claims[p].SingleClaim?
    ensures !GroupTakes(claims, claims[p].base)
  {
    if j: nat :| Opens(claims, j) && HasKey(claims[j], claims[p].base) {
      OpensIffWritten(claims, j);
      WrittenIffFirst(claims, j);
      var first := FirstCompetitor(claims, p);
      assert Clashing(claims, first, j);
    }
  }

  // Nor does a claim find its key taken but by a claim of its own form.
  lemma LandsUnlessClaimed(claims: seq<Claim>, n: nat, p: nat)
    requires AllWellFormed(claims) && !Clash(claims) && n <= p < |claims|
    ensures LandsAfter(claims[..n], claims[p]) <==> !ClaimedIn(claims[..n], claims[p])
  {
    var c := claims[p];
    ProbeIsKey(c);
    LandsAfterIff(claims[..n], c);
    if e :| e in claims[..n] && Compete(e, c) {
      var i := IndexOf(claims[..n], e);
      ProbeInStore(claims[..n], i);
    }
    if Probe(c) in ApplyAll(map[], claims[..n]) {
      var i := TakenByCompetitor(claims, n, p);
      assert claims[i] in claims[..n];
    }
  }

  lemma TakenByCompetitor(claims: seq<Claim>, n: nat, p: nat) returns (i: nat)
    requires AllWellFormed(claims) && !Clash(claims) && n <= p < |claims|
    requires Probe(claims[p]) in ApplyAll(map[], claims[..n])
    ensures i < n && Compete(claims[i], claims[p])
  {
    var c := claims[p];
    i := StoredIsWritten(claims[..n], Probe(c));
    assert claims[..n][..i] == claims[..i];
    WrittenIffFirst(claims, i);
    ProvidedIsKey(claims[i], Probe(c), ApplyAll(map[], claims[..n])[Probe(c)]);
    ProbeIsKey(c);
    var first := FirstCompetitor(claims, p);
    assert !Clashing(claims, i, first) && !Clashing(claims, first, i);
    ProbeIsKey(claims[first]);
    assert Probe(claims[first]) == Probe(c);
    if claims[i].SingleClaim? == c.SingleClaim? {
      SharedKey(claims[i], c, Probe(c));
    }
  }

  lemma ListInFlat(lists: seq<seq<Claim>>, m: nat, q: nat)
    requires m < |lists| && q < |lists[m]|
    ensures var claims, n := Flat(lists), |Flat(lists[..m])|;
            n + q < |claims| && claims[n + q] == lists[m][q] && claims[..n] == Flat(lists[..m])
  {
    FlatParts(lists, m);
  }

  lemma LandsIffUnclaimed(lists: seq<seq<Claim>>, m: nat, c: Claim)
    requires AllUniform(lists) && !Clash(Flat(lists)) && m < |lists| && c in lists[m]
    ensures LandsAfter(Flat(lists[..m]), c) <==> !Claimed(lists, m, c)
    ensures c.SingleClaim? ==> !GroupTakes(Flat(lists), c.base)
  {
    FlatWellFormed(lists);
    var q := IndexOf(lists[m], c);
    ListInFlat(lists, m, q);
    LaterClaimLandsIff(Flat(lists), Flat(lists[..m]), |Flat(lists[..m])| + q, c);
  }

  lemma LaterClaimLandsIff(claims: seq<Claim>, before: seq<Claim>, p: nat, c: Claim)
    requires AllWellFormed(claims) && !Clash(claims)
    requires |before| <= p < |claims| && claims[..|before|] == before && claims[p] == c
    ensures LandsAfter(before, c) <==> !ClaimedIn(before, c)
    ensures c.SingleClaim? ==> !GroupTakes(claims, c.base)
  {
    LandsUnlessClaimed(claims, |before|, p);
    if c.SingleClaim? {
      NoneTaken(claims, p);
    }
  }

  lemma SettledIffDecided(lists: seq<seq<Claim>>, m: nat)
    requires AllUniform(lists) && !Clash(Flat(lists)) && m < |lists|
    ensures ListSettled(lists, m) <==> DecidedEarlier(lists, m)
  {
    forall c | c in lists[m]
      ensures LandsAfter(Flat(lists[..m]), c) <==> !Claimed(lists, m, c)
      ensures c.SingleClaim? ==> !GroupTakes(Flat(lists), c.base)
    {
      LandsIffUnclaimed(lists, m, c);
    }
  }

  // Where no single value's key is a group's key, the order of links goes unseen exactly
  // when no two links of one list claim one key with different values before any earlier
  // list has.
  lemma SettledIffEarlierListsDecide(primaries: seq<Primary>)
    requires !Clash(AllClaims(primaries))
    ensures Settled(primaries) <==> EarlierListsDecide(ClaimLists(SortedHandlers(primaries)))
  {
    var handlers := SortedHandlers(primaries);
    ListsAreUniform(handlers);
    FlatLists(handlers);
    forall m: nat | m < |ClaimLists(handlers)|
      ensures ListSettled(ClaimLists(handlers), m) <==> DecidedEarlier(ClaimLists(handlers), m)
    {
      SettledIffDecided(ClaimLists(handlers), m);
    }
  }

  // Two queues under one configuration key: the store points at whichever is listed first.
  lemma FirstListedLinkIsStored(a: Linked, b: Linked)
    requires ConfigKey(a) == ConfigKey(b) && a.name != b.name
    ensures ApplyAll(map[], Map([a, b], SingleOf(QueueBacking))) == map[ConfigKey(a) := ReferenceEntry(BackingReference(QueueBacking, a.name))]
    ensures ApplyAll(map[], Map([b, a], SingleOf(QueueBacking))) != ApplyAll(map[], Map([a, b], SingleOf(QueueBacking)))
  {
    FirstOfTwo(a, b);
    FirstOfTwo(b, a);
  }

  lemma FirstOfTwo(a: Linked, b: Linked)
    requires ConfigKey(a) == ConfigKey(b)
    ensures ApplyAll(map[], Map([a, b], SingleOf(QueueBacking))) == map[ConfigKey(a) := ReferenceEntry(BackingReference(QueueBacking, a.name))]
  {
    var claims := Map([a, b], SingleOf(QueueBacking));
    assert claims[..1] == [claims[0]] && claims[..1][..0] == [];
    assert ApplyAll(map[], claims[..1]) == Apply(map[], claims[0]);
  }
}
