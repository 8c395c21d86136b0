// What the collected store holds: the groups of the first claims, whole, whatever order
// the primaries come in.
module StoreLaws {
  import opened Blueprint
  import opened Ordering
  import opened Sequences
  import opened ConcreteNames
  import opened ReferenceGraph
  import opened Store
  import Sql = SqlDatabase
  import Cache

  // Claims on the same key and of the same form compete for it.
  predicate Compete(c: Claim, d: Claim) {
    c.SingleClaim? == d.SingleClaim? && c.base == d.base
  }

  predicate First(claims: seq<Claim>, i: nat) {
    i < |claims| && forall j :: 0 <= j < i ==> !Compete(claims[j], claims[i])
  }

  predicate HasPair(c: Claim, k: string, j: nat) {
    c.GroupClaim? && j < |c.pairs| && k == Composite(c.base, c.pairs[j].field)
  }

  ghost predicate Provides(c: Claim, k: string, v: StoreValue) {
    if c.SingleClaim? then k == c.base && v == c.value
    else exists j: nat :: HasPair(c, k, j) && v == c.pairs[j].value
  }

  ghost predicate HasKey(c: Claim, k: string) {
    if c.SingleClaim? then k == c.base else exists j: nat :: HasPair(c, k, j)
  }

  predicate SingleReference(v: StoreValue) {
    v.ReferenceEntry? && v.ref.ResourceOutput? && v.ref.part in {SqsQueue, SnsTopic, DynamoTable, S3Bucket}
  }

  predicate FieldsDiffer(pairs: seq<Pair>) {
    forall i, j :: 0 <= i < j < |pairs| ==> pairs[i].field != pairs[j].field
  }

  predicate WellFormed(c: Claim) {
    if c.SingleClaim? then SingleReference(c.value)
    else
      c.pairs != [] && c.pairs[0].field == HostField &&
      FieldsDiffer(c.pairs) &&
      (forall j :: 0 <= j < |c.pairs| ==> !SingleReference(c.pairs[j].value))
  }

  // First wins: the store holds every value of every first claim, and nothing else.
  ghost predicate FirstWins(claims: seq<Claim>, store: map<string, StoreValue>) {
    forall k :: FirstWinsAt(claims, store, k)
  }

  ghost predicate FirstWinsAt(claims: seq<Claim>, store: map<string, StoreValue>, k: string) {
    (forall i: nat, v :: First(claims, i) && Provides(claims[i], k, v) ==> k in store && store[k] == v) &&
    (k in store ==> ClaimedFirst(claims, k))
  }

  ghost predicate ClaimedFirst(claims: seq<Claim>, k: string) {
    exists i: nat :: First(claims, i) && HasKey(claims[i], k)
  }

  // A single value's key is also the composite key of a group.
  ghost predicate Clash(claims: seq<Claim>) {
    exists i: nat, j: nat :: Clashing(claims, i, j)
  }

  ghost predicate Clashing(claims: seq<Claim>, i: nat, j: nat) {
    First(claims, i) && First(claims, j) && claims[i].SingleClaim? && claims[j].GroupClaim? && HasKey(claims[j], claims[i].base)
  }

  // The last pair adds its own key to those of the others.
  lemma KeyOfMore(base: string, pairs: seq<Pair>, k: string)
    requires pairs != []
    ensures HasKey(GroupClaim(base, pairs[..|pairs| - 1]), k) ==> HasKey(GroupClaim(base, pairs), k)
    ensures HasKey(GroupClaim(base, pairs), Composite(base, pairs[|pairs| - 1].field))
  {
    var n := |pairs| - 1;
    var c, shorter := GroupClaim(base, pairs), GroupClaim(base, pairs[..n]);
    assert HasPair(c, Composite(base, pairs[n].field), n);
    if HasKey(shorter, k) {
      var j: nat :| HasPair(shorter, k, j);
      assert HasPair(c, k, j);
    }
  }

  lemma KeyOfFewer(base: string, pairs: seq<Pair>, k: string)
    requires pairs != [] && HasKey(GroupClaim(base, pairs), k)
    ensures HasKey(GroupClaim(base, pairs[..|pairs| - 1]), k) || k == Composite(base, pairs[|pairs| - 1].field)
  {
    var n := |pairs| - 1;
    var j: nat :| HasPair(GroupClaim(base, pairs), k, j);
    assert j < n ==> HasPair(GroupClaim(base, pairs[..n]), k, j);
  }

  lemma {:induction false} PutAllKeys(entries: map<string, StoreValue>, base: string, pairs: seq<Pair>, k: string)
    ensures var c := GroupClaim(base, pairs);
            (k in PutAll(entries, base, pairs) <==> k in entries || HasKey(c, k)) &&
            (k in entries && !HasKey(c, k) ==> PutAll(entries, base, pairs)[k] == entries[k])
  {
    if pairs != [] {
      PutAllKeys(entries, base, pairs[..|pairs| - 1], k);
      KeyOfMore(base, pairs, k);
      if HasKey(GroupClaim(base, pairs), k) {
        KeyOfFewer(base, pairs, k);
      }
    }
  }

  lemma FewerFieldsDiffer(pairs: seq<Pair>, n: nat)
    requires FieldsDiffer(pairs) && n < |pairs|
    ensures FieldsDiffer(pairs[..n]) && forall j :: 0 <= j < n ==> pairs[j].field != pairs[n].field
  {
  }

  lemma {:induction false} PutAllValue(entries: map<string, StoreValue>, base: string, pairs: seq<Pair>, j: nat)
    requires FieldsDiffer(pairs) && j < |pairs|
    ensures var k := Composite(base, pairs[j].field);
            k in PutAll(entries, base, pairs) && PutAll(entries, base, pairs)[k] == pairs[j].value
  {
    var n := |pairs| - 1;
    if j < n {
      FewerFieldsDiffer(pairs, n);
      assert pairs[..n][j] == pairs[j];
      PutAllValue(entries, base, pairs[..n], j);
      LastPut(entries, base, pairs, pairs[j].field);
    }
  }

  lemma LastPut(entries: map<string, StoreValue>, base: string, pairs: seq<Pair>, field: StoreField)
    requires pairs != [] && field != pairs[|pairs| - 1].field && Composite(base, field) in PutAll(entries, base, pairs[..|pairs| - 1])
    ensures var k := Composite(base, field);
            k in PutAll(entries, base, pairs) && PutAll(entries, base, pairs)[k] == PutAll(entries, base, pairs[..|pairs| - 1])[k]
  {
    CompositeUnique(base, field, base, pairs[|pairs| - 1].field);
  }

  lemma ApplyExact(entries: map<string, StoreValue>, c: Claim, k: string)
    requires WellFormed(c) && Probe(c) !in entries
    ensures k in Apply(entries, c) <==> k in entries || HasKey(c, k)
    ensures forall v :: Provides(c, k, v) ==> Apply(entries, c)[k] == v
    ensures k in entries && !HasKey(c, k) ==> Apply(entries, c)[k] == entries[k]
  {
    if c.GroupClaim? {
      PutAllKeys(entries, c.base, c.pairs, k);
      forall j: nat | HasPair(c, k, j) ensures k in Apply(entries, c) && Apply(entries, c)[k] == c.pairs[j].value {
        PutAllValue(entries, c.base, c.pairs, j);
      }
    }
  }

  // Two claims share a key only when they compete, or clash.
  lemma SharedKey(c: Claim, d: Claim, k: string)
    requires HasKey(c, k) && HasKey(d, k) && c.SingleClaim? == d.SingleClaim?
    ensures Compete(c, d)
  {
    if c.GroupClaim? {
      var i: nat :| HasPair(c, k, i);
      var j: nat :| HasPair(d, k, j);
      CompositeUnique(c.base, c.pairs[i].field, d.base, d.pairs[j].field);
    }
  }

  lemma ProbeIsKey(c: Claim)
    requires WellFormed(c)
    ensures HasKey(c, Probe(c))
  {
    assert c.GroupClaim? ==> HasPair(c, Probe(c), 0);
  }

  lemma FirstLonger(claims: seq<Claim>, n: nat, i: nat)
    requires i < n <= |claims|
    ensures First(claims[..n], i) <==> First(claims, i)
  {
  }

  lemma ClashLonger(claims: seq<Claim>, n: nat)
    requires n <= |claims| && Clash(claims[..n])
    ensures Clash(claims)
  {
    var i: nat, j: nat :| Clashing(claims[..n], i, j);
    FirstLonger(claims, n, i);
    FirstLonger(claims, n, j);
    assert Clashing(claims, i, j);
  }

  // The keys of two first claims are disjoint when nothing clashes.
  lemma FirstKeysDisjoint(claims: seq<Claim>, i: nat, j: nat, k: string)
    requires !Clash(claims) && First(claims, i) && First(claims, j) && i < j
    ensures !(HasKey(claims[i], k) && HasKey(claims[j], k))
  {
    assert !Clashing(claims, i, j) && !Clashing(claims, j, i);
    assert !Compete(claims[i], claims[j]);
    if HasKey(claims[i], k) && HasKey(claims[j], k) && claims[i].SingleClaim? == claims[j].SingleClaim? {
      SharedKey(claims[i], claims[j], k);
    }
  }

  lemma {:induction false} NoClashFirstWins(claims: seq<Claim>)
    requires !Clash(claims) && forall c :: c in claims ==> WellFormed(c)
    ensures FirstWins(claims, ApplyAll(map[], claims))
  {
    if claims != [] {
      var n := |claims| - 1;
      var before := ApplyAll(map[], claims[..n]);
      if Clash(claims[..n]) {
        ClashLonger(claims, n);
      }
      NoClashFirstWins(claims[..n]);
      forall k ensures FirstWinsAt(claims, ApplyAll(map[], claims), k) {
        if First(claims, n) {
          FirstClaimIsNew(claims, before);
          FirstClaimAdds(claims, before, k);
        } else {
          LaterClaimGivesWay(claims, before);
          LaterClaimAddsNothing(claims, before, k);
        }
      }
    }
  }

  lemma FirstClaimIsNew(claims: seq<Claim>, before: map<string, StoreValue>)
    requires claims != [] && !Clash(claims) && WellFormed(claims[|claims| - 1])
    requires First(claims, |claims| - 1) && FirstWins(claims[..|claims| - 1], before)
    ensures Probe(claims[|claims| - 1]) !in before
  {
    var n := |claims| - 1;
    var probe := Probe(claims[n]);
    assert FirstWinsAt(claims[..n], before, probe);
    if probe in before {
      var i: nat :| First(claims[..n], i) && HasKey(claims[..n][i], probe);
      FirstLonger(claims, n, i);
      ProbeIsKey(claims[n]);
      FirstKeysDisjoint(claims, i, n, probe);
    }
  }

  lemma FirstClaimAdds(claims: seq<Claim>, before: map<string, StoreValue>, k: string)
    requires claims != [] && !Clash(claims) && WellFormed(claims[|claims| - 1])
    requires First(claims, |claims| - 1) && Probe(claims[|claims| - 1]) !in before
    requires FirstWinsAt(claims[..|claims| - 1], before, k)
    ensures FirstWinsAt(claims, Apply(before, claims[|claims| - 1]), k)
  {
    var n := |claims| - 1;
    var c := claims[n];
    var after := Apply(before, c);
    ApplyExact(before, c, k);
    forall i: nat, v | First(claims, i) && Provides(claims[i], k, v) ensures k in after && after[k] == v {
      if i < n {
        FirstLonger(claims, n, i);
        assert Provides(claims[..n][i], k, v);
        FirstKeysDisjoint(claims, i, n, k);
      }
    }
    if k in before {
      ClaimedFirstLonger(claims, k);
    }
  }

  lemma ClaimedFirstLonger(claims: seq<Claim>, k: string)
    requires claims != [] && ClaimedFirst(claims[..|claims| - 1], k)
    ensures ClaimedFirst(claims, k)
  {
    var n := |claims| - 1;
    var i: nat :| First(claims[..n], i) && HasKey(claims[..n][i], k);
    FirstLonger(claims, n, i);
  }

  lemma LaterClaimGivesWay(claims: seq<Claim>, before: map<string, StoreValue>)
    requires claims != [] && forall c :: c in claims ==> WellFormed(c)
    requires !First(claims, |claims| - 1) && FirstWins(claims[..|claims| - 1], before)
    ensures Apply(before, claims[|claims| - 1]) == before
  {
    var n := |claims| - 1;
    var j: nat :| j < n && Compete(claims[j], claims[n]);
    var i := FirstCompetitor(claims, j);
    FirstLonger(claims, n, i);
    var c := claims[..n][i];
    assert c == claims[i] && WellFormed(c);
    var v := if c.SingleClaim? then c.value else c.pairs[0].value;
    assert c.GroupClaim? ==> HasPair(c, Probe(c), 0);
    assert Provides(c, Probe(c), v);
    assert FirstWinsAt(claims[..n], before, Probe(c));
    assert Probe(c) == Probe(claims[n]);
  }

  lemma LaterClaimAddsNothing(claims: seq<Claim>, before: map<string, StoreValue>, k: string)
    requires claims != [] && !First(claims, |claims| - 1)
    requires FirstWinsAt(claims[..|claims| - 1], before, k)
    ensures FirstWinsAt(claims, before, k)
  {
    var n := |claims| - 1;
    forall i: nat, v | First(claims, i) && Provides(claims[i], k, v) ensures k in before && before[k] == v {
      FirstLonger(claims, n, i);
      assert Provides(claims[..n][i], k, v);
    }
    if k in before {
      ClaimedFirstLonger(claims, k);
    }
  }

  lemma {:induction false} FirstCompetitor(claims: seq<Claim>, j: nat) returns (i: nat)
    requires j < |claims|
    ensures i <= j && First(claims, i) && Compete(claims[i], claims[j])
    decreases j
  {
    if First(claims, j) {
      i := j;
    } else {
      var earlier: nat :| earlier < j && Compete(claims[earlier], claims[j]);
      i := FirstCompetitor(claims, earlier);
    }
  }

  // The store is first-wins, groups and all, exactly when no single value's key is a
  // composite key of a group.
  lemma FirstWinsIffNoClash(claims: seq<Claim>)
    requires forall c :: c in claims ==> WellFormed(c)
    ensures FirstWins(claims, ApplyAll(map[], claims)) <==> !Clash(claims)
  {
    if !Clash(claims) {
      NoClashFirstWins(claims);
    } else {
      var i: nat, j: nat :| Clashing(claims, i, j);
      var p: nat :| HasPair(claims[j], claims[i].base, p);
      assert Provides(claims[i], claims[i].base, claims[i].value);
      assert Provides(claims[j], claims[i].base, claims[j].pairs[p].value);
      assert WellFormed(claims[i]) && WellFormed(claims[j]);
      assert claims[i].value != claims[j].pairs[p].value;
      assert !FirstWinsAt(claims, ApplyAll(map[], claims), claims[i].base);
    }
  }

  // ---- Over the handlers ----

  lemma SingleWellFormed(kind: SingleKind, l: Linked)
    ensures WellFormed(SingleOf(kind)(l))
  {
  }

  lemma CacheWellFormed(l: Linked)
    ensures WellFormed(CacheClaim(l))
  {
  }

  lemma SqlWellFormed(l: Linked)
    ensures WellFormed(SqlClaim(l))
  {
  }

  lemma ClaimsWellFormed(h: ResolvedHandler, c: Claim)
    requires c in ClaimsOf(h)
    ensures WellFormed(c)
  {
    forall kind, l ensures WellFormed(SingleOf(kind)(l)) { SingleWellFormed(kind, l); }
    forall l ensures WellFormed(CacheClaim(l)) && WellFormed(SqlClaim(l)) {
      CacheWellFormed(l);
      SqlWellFormed(l);
    }
    ClaimIsOfALink(h, c);
  }

  lemma ClaimIsOfALink(h: ResolvedHandler, c: Claim)
    requires c in ClaimsOf(h)
    ensures (exists kind, l :: c == SingleOf(kind)(l)) || (exists l :: c == CacheClaim(l)) || (exists l :: c == SqlClaim(l))
  {
    MapMember(h.queues, SingleOf(QueueBacking), c);
    MapMember(h.topics, SingleOf(TopicBacking), c);
    MapMember(h.datastores, SingleOf(DatastoreBacking), c);
    MapMember(h.buckets, SingleOf(BucketBacking), c);
    MapMember(h.caches, CacheClaim, c);
    MapMember(h.sqlDatabases, SqlClaim, c);
  }

  function AllClaims(primaries: seq<Primary>): seq<Claim> {
    FlatMap(SortedHandlers(primaries), ClaimsOf)
  }

  lemma StoreIsFirstWinsIffNoClash(primaries: seq<Primary>)
    ensures FirstWins(AllClaims(primaries), StoreOf(primaries)) <==> !Clash(AllClaims(primaries))
  {
    forall c | c in AllClaims(primaries) ensures WellFormed(c) {
      FlatMapMember(SortedHandlers(primaries), ClaimsOf, c);
      var h :| h in SortedHandlers(primaries) && c in ClaimsOf(h);
      ClaimsWellFormed(h, c);
    }
    FirstWinsIffNoClash(AllClaims(primaries));
  }

  // A queue whose configuration key is a cache's host key takes that key, and with it all
  // the cache's other values.
  lemma ClashLosesTheGroup(queue: Linked, cache: Linked)
    requires ConfigKey(queue) == Composite(ConfigKey(cache), HostField)
    ensures ApplyAll(map[], [SingleOf(QueueBacking)(queue), CacheClaim(cache)]) ==
            map[ConfigKey(queue) := ReferenceEntry(BackingReference(QueueBacking, queue.name))]
  {
    var claims := [SingleOf(QueueBacking)(queue), CacheClaim(cache)];
    assert claims[..1] == [claims[0]] && claims[..1][..0] == [];
    assert ApplyAll(map[], claims[..0]) == map[];
    assert ApplyAll(map[], claims[..1]) == Apply(map[], claims[0]);
  }

  lemma ByNamePreorder()
    ensures Preorder(ByName)
  {
    LexPreorder();
  }

  // The pipeline passes the primaries in no particular order, and the store does not show it.
  lemma StoreOrderIndependent(primaries: seq<Primary>, primaries': seq<Primary>)
    requires multiset(primaries) == multiset(primaries')
    requires UniqueNames(FlatMap(primaries, HandlerOf))
    ensures StoreOf(primaries) == StoreOf(primaries')
  {
    var handlers := FlatMap(primaries, HandlerOf);
    FlatMapPermutes(primaries, primaries', HandlerOf);
    ByNamePreorder();
    forall h, k | h in handlers && k in handlers && ByName(h, k) && ByName(k, h) ensures h == k {
      LexAntisymmetric(h.name, k.name);
      var i := IndexOf(handlers, h);
      var j := IndexOf(handlers, k);
    }
    SortCanonical(handlers, FlatMap(primaries', HandlerOf), ByName);
  }

  // ---- Every link is stored ----

  // The key of a link is its spec.name when the author gave one, and its own name otherwise.
  predicate KeyedBy(l: Linked, key: string) {
    (l.specName != "" && key == l.specName) || (l.specName == "" && key == l.name)
  }

  // Each link of a handler is claimed under its own key: a queue by its URL, a topic and a
  // table by their ARNs, a bucket by its name, and a cache or database by its host.
  lemma LinksClaimed(h: ResolvedHandler, l: Linked)
    ensures exists key :: KeyedBy(l, key) && ClaimedUnder(h, l, key)
  {
    SinglesClaimed(h, l);
    GroupsClaimed(h, l);
    assert KeyedBy(l, ConfigKey(l)) && ClaimedUnder(h, l, ConfigKey(l));
  }

  lemma GroupsClaimed(h: ResolvedHandler, l: Linked)
    ensures l in h.caches ==> HostClaimed(h, ConfigKey(l), BlueprintValue(CacheHost, l.name))
    ensures l in h.sqlDatabases ==> HostClaimed(h, ConfigKey(l), BlueprintValue(SqlHost, l.name))
  {
    if l in h.caches {
      MapMember(h.caches, CacheClaim, CacheClaim(l));
      CacheHostFirst(l);
      assert CacheClaim(l) in ClaimsOf(h) && HostOf(CacheClaim(l), ConfigKey(l), BlueprintValue(CacheHost, l.name));
    }
    if l in h.sqlDatabases {
      MapMember(h.sqlDatabases, SqlClaim, SqlClaim(l));
      SqlHostFirst(l);
      assert SqlClaim(l) in ClaimsOf(h) && HostOf(SqlClaim(l), ConfigKey(l), BlueprintValue(SqlHost, l.name));
    }
  }

  lemma CacheHostFirst(l: Linked)
    ensures HostOf(CacheClaim(l), ConfigKey(l), BlueprintValue(CacheHost, l.name))
  {
  }

  lemma SqlHostFirst(l: Linked)
    ensures HostOf(SqlClaim(l), ConfigKey(l), BlueprintValue(SqlHost, l.name))
  {
  }

  ghost predicate ClaimedUnder(h: ResolvedHandler, l: Linked, key: string) {
    && (l in h.queues ==> SingleClaim(key, ReferenceEntry(ResourceOutput(SqsQueue, l.name, QueueUrl))) in ClaimsOf(h))
    && (l in h.topics ==> SingleClaim(key, ReferenceEntry(ResourceOutput(SnsTopic, l.name, TopicArn))) in ClaimsOf(h))
    && (l in h.datastores ==> SingleClaim(key, ReferenceEntry(ResourceOutput(DynamoTable, l.name, Arn))) in ClaimsOf(h))
    && (l in h.buckets ==> SingleClaim(key, ReferenceEntry(ResourceOutput(S3Bucket, l.name, BucketName))) in ClaimsOf(h))
    && (l in h.caches ==> HostClaimed(h, key, BlueprintValue(CacheHost, l.name)))
    && (l in h.sqlDatabases ==> HostClaimed(h, key, BlueprintValue(SqlHost, l.name)))
  }

  predicate HostOf(c: Claim, key: string, host: Reference) {
    c.GroupClaim? && c.base == key && c.pairs != [] && c.pairs[0] == Pair(HostField, ReferenceEntry(host))
  }

  ghost predicate HostClaimed(h: ResolvedHandler, key: string, host: Reference) {
    exists c :: c in ClaimsOf(h) && HostOf(c, key, host)
  }

  lemma SinglesClaimed(h: ResolvedHandler, l: Linked)
    ensures l in h.queues ==> SingleClaim(ConfigKey(l), ReferenceEntry(ResourceOutput(SqsQueue, l.name, QueueUrl))) in ClaimsOf(h)
    ensures l in h.topics ==> SingleClaim(ConfigKey(l), ReferenceEntry(ResourceOutput(SnsTopic, l.name, TopicArn))) in ClaimsOf(h)
    ensures l in h.datastores ==> SingleClaim(ConfigKey(l), ReferenceEntry(ResourceOutput(DynamoTable, l.name, Arn))) in ClaimsOf(h)
    ensures l in h.buckets ==> SingleClaim(ConfigKey(l), ReferenceEntry(ResourceOutput(S3Bucket, l.name, BucketName))) in ClaimsOf(h)
  {
    SingleInList(h.queues, QueueBacking, l);
    SingleInList(h.topics, TopicBacking, l);
    SingleInList(h.datastores, DatastoreBacking, l);
    SingleInList(h.buckets, BucketBacking, l);
    assert forall c :: c in SingleClaims(h) ==> c in ClaimsOf(h);
  }

  lemma SingleInList(links: seq<Linked>, kind: SingleKind, l: Linked)
    ensures l in links ==> SingleClaim(ConfigKey(l), ReferenceEntry(BackingReference(kind, l.name))) in Map(links, SingleOf(kind))
  {
    if l in links {
      var i := IndexOf(links, l);
      MapMember(links, SingleOf(kind), SingleOf(kind)(l));
    }
  }

  lemma ApplyKeeps(entries: map<string, StoreValue>, c: Claim, k: string)
    requires WellFormed(c)
    ensures k in entries ==> k in Apply(entries, c)
    ensures Probe(c) in Apply(entries, c)
  {
    if Probe(c) !in entries {
      ApplyExact(entries, c, k);
      ApplyExact(entries, c, Probe(c));
      ProbeIsKey(c);
    }
  }

  lemma {:induction false} ProbesAreStored(entries: map<string, StoreValue>, claims: seq<Claim>, c: Claim)
    requires c in claims && forall d :: d in claims ==> WellFormed(d)
    ensures Probe(c) in ApplyAll(entries, claims)
  {
    var n := |claims| - 1;
    ApplyKeeps(ApplyAll(entries, claims[..n]), claims[n], Probe(c));
    if claims[n] != c {
      ProbesAreStored(entries, claims[..n], c);
    }
  }

  lemma EveryLinkIsStored(primaries: seq<Primary>, h: ResolvedHandler, c: Claim)
    requires HandlerPrimary(h) in primaries && c in ClaimsOf(h)
    ensures Probe(c) in StoreOf(primaries)
  {
    FlatMapMember(primaries, HandlerOf, h);
    assert h in HandlerOf(HandlerPrimary(h));
    SameMember(FlatMap(primaries, HandlerOf), SortedHandlers(primaries), h);
    FlatMapMember(SortedHandlers(primaries), ClaimsOf, c);
    forall d | d in AllClaims(primaries) ensures WellFormed(d) {
      FlatMapMember(SortedHandlers(primaries), ClaimsOf, d);
      var k :| k in SortedHandlers(primaries) && d in ClaimsOf(k);
      ClaimsWellFormed(k, d);
    }
    ProbesAreStored(map[], AllClaims(primaries), c);
  }

  // ---- What the store refers to is emitted ----

  // For an emitted database the handler is linked to, every reference written for it leads
  // to a resource or value of its emission.
  lemma SqlEntriesAreEmitted(l: Linked, db: Sql.Database, e: Emission, j: nat)
    requires db.name == l.name && db.authMode == l.authMode && db.readReplicas == l.readReplicas
    requires Sql.IsEmission(Sql.PlanOf(db), e)
    requires j < |SqlPairs(l)| && SqlPairs(l)[j].value.ReferenceEntry?
    ensures Resolves(e, db.vpc, SqlPairs(l)[j].value.ref)
  {
    var ref := SqlPairs(l)[j].value.ref;
    assert AuthMode(l) == Sql.AuthMode(db);
    assert ref in {BlueprintValue(SqlHost, l.name), BlueprintValue(SqlDatabaseName, l.name), BlueprintValue(SqlReadHost, l.name),
                   ResourceOutput(AppUserSecret, l.name, SecretId)};
    assert ref == BlueprintValue(SqlReadHost, l.name) ==> l.readReplicas;
    assert ref == ResourceOutput(AppUserSecret, l.name, SecretId) ==> AuthMode(l) != "iam";
  }

  lemma CacheEntriesAreEmitted(l: Linked, c: Cache.CacheResource, e: Emission, j: nat)
    requires c.name == l.name && c.authMode == l.authMode
    requires Cache.IsEmission(Cache.PlanOf(c), e)
    requires j < |CachePairs(l)| && CachePairs(l)[j].value.ReferenceEntry?
    ensures Resolves(e, c.vpc, CachePairs(l)[j].value.ref)
  {
    var ref := CachePairs(l)[j].value.ref;
    assert AuthMode(l) == Cache.AuthMode(c);
    assert "password"[0] != "iam"[0];
  }

  predicate HasField(pairs: seq<Pair>, f: StoreField) {
    exists j :: 0 <= j < |pairs| && pairs[j].field == f
  }

  // What an entry comes to once blueprint values are substituted.
  function Deployed(e: Emission, v: StoreValue): StoreValue {
    if v.ReferenceEntry? && v.ref.BlueprintValue? && v.ref.owner == e.owner && v.ref.key in e.values then
      match e.values[v.ref.key]
      case LiteralValue(text) => LiteralEntry(text)
      case ReferenceValue(ref) => ReferenceEntry(ref)
    else v
  }

  predicate LeadsTo(l: Linked, v: StoreValue) {
    v.ReferenceEntry? && v.ref.ResourceOutput? && v.ref.owner == l.name
  }

  // What an entry of each field must come to for a client to connect by it.
  predicate Connects(plan: Sql.Plan, l: Linked, f: StoreField, v: StoreValue) {
    match f
    case HostField => LeadsTo(l, v) && v.ref.part == Sql.Target(plan) && Sql.WritesTo(Destination(v.ref), v.ref.output)
    case ReadHostField => LeadsTo(l, v) && Sql.ReadsFrom(Destination(v.ref), v.ref.output)
    case DatabaseField => v == LiteralEntry(plan.logicalName)
    case CredentialsSecretIdField => v == ReferenceEntry(ResourceOutput(AppUserSecret, l.name, SecretId))
    case AuthModeField => v == LiteralEntry(if l.authMode == "" then "password" else l.authMode) && (v == LiteralEntry("iam") <==> plan.iam)
    case EngineField => v == LiteralEntry(if l.engine == "" then "postgres" else l.engine)
    case PortField => v == LiteralEntry(if l.engine == "mysql" then "3306" else "5432")
    case UserField => v == LiteralEntry("celerity_app")
    case SslField => v == LiteralEntry("true")
    case _ => false
  }

  // The fields a client cannot do without.
  predicate HasFields(pairs: seq<Pair>, fields: set<StoreField>) {
    forall f :: f in fields ==> HasField(pairs, f)
  }

  // The group written for an emitted database connects to it: the writing endpoint of the
  // resource the handler links to, the database's name, engine and port, a reading endpoint
  // exactly when one exists, and the application user's secret exactly when one exists.
  lemma SqlGroupConnects(l: Linked, db: Sql.Database, e: Emission, j: nat)
    requires db.name == l.name && db.authMode == l.authMode && db.readReplicas == l.readReplicas
    requires Sql.IsEmission(Sql.PlanOf(db), e) && j < |SqlPairs(l)|
    ensures Connects(Sql.PlanOf(db), l, SqlPairs(l)[j].field, Deployed(e, SqlPairs(l)[j].value))
    ensures HasFields(SqlPairs(l), {HostField, DatabaseField, PortField, EngineField, UserField, SslField, AuthModeField})
    ensures HasField(SqlPairs(l), ReadHostField) <==> SqlReadHost in e.values
    ensures HasField(SqlPairs(l), CredentialsSecretIdField) <==> AppUserSecret in e.resources
  {
    assert AuthMode(l) == Sql.AuthMode(db);
    SqlEntryConnects(l, db, e, j);
    SqlFields(l);
    SqlEndpointFields(l);
  }

  lemma SqlEntryConnects(l: Linked, db: Sql.Database, e: Emission, j: nat)
    requires db.name == l.name && db.authMode == l.authMode && db.readReplicas == l.readReplicas
    requires Sql.IsEmission(Sql.PlanOf(db), e) && j < |SqlPairs(l)|
    ensures Connects(Sql.PlanOf(db), l, SqlPairs(l)[j].field, Deployed(e, SqlPairs(l)[j].value))
  {
    assert AuthMode(l) == Sql.AuthMode(db);
  }

  lemma SqlEndpointFields(l: Linked)
    ensures HasFields(SqlPairs(l), {HostField, DatabaseField, PortField, EngineField, UserField, SslField, AuthModeField})
  {
    var pairs := SqlPairs(l);
    assert pairs[0].field == HostField && pairs[1].field == DatabaseField && pairs[2].field == PortField;
    assert pairs[3].field == EngineField && pairs[4].field == UserField && pairs[5].field == SslField;
    assert pairs[if l.readReplicas then 7 else 6].field == AuthModeField;
  }

  lemma SqlFields(l: Linked)
    ensures HasField(SqlPairs(l), ReadHostField) <==> l.readReplicas
    ensures HasField(SqlPairs(l), CredentialsSecretIdField) <==> AuthMode(l) != "iam"
  {
    var pairs := SqlPairs(l);
    if l.readReplicas {
      assert pairs[6].field == ReadHostField;
    }
    if AuthMode(l) != "iam" {
      assert pairs[|pairs| - 1].field == CredentialsSecretIdField;
    }
  }

  lemma CacheFields(l: Linked)
    ensures HasField(CachePairs(l), AuthTokenSecretIdField) <==> AuthMode(l) == "password"
    ensures HasField(CachePairs(l), UserField) <==> AuthMode(l) == "iam"
  {
    var pairs := CachePairs(l);
    assert "password"[0] != "iam"[0];
    if AuthMode(l) == "password" || AuthMode(l) == "iam" {
      assert pairs[5].field == if AuthMode(l) == "password" then AuthTokenSecretIdField else UserField;
    }
  }

  // What an entry of each field must come to for a client to connect to the cache.
  predicate CacheConnects(e: Emission, l: Linked, f: StoreField, v: StoreValue)
    requires ReplicationGroup in e.resources
  {
    var group := e.resources[ReplicationGroup];
    match f
    case HostField => LeadsTo(l, v) && v.ref.part == ReplicationGroup && Offers(ReplicationGroup, group, v.ref.output)
    case PortField => v == LiteralEntry("6379")
    case TlsField => v == LiteralEntry("true")
    case ClusterModeField => v == LiteralEntry(if group.feature == Clustered then "true" else "false")
    case AuthModeField => v == LiteralEntry(if l.authMode == "" then "password" else l.authMode)
    case AuthTokenSecretIdField => v == ReferenceEntry(ResourceOutput(CacheAuthSecret, l.name, SecretId))
    case UserField => v == ReferenceEntry(ResourceOutput(CacheIamUser, l.name, UserId))
    case _ => false
  }

  // The group written for an emitted cache connects to it: the endpoint its replication
  // group has in its mode, and that mode.
  lemma CacheGroupConnects(l: Linked, c: Cache.CacheResource, e: Emission, j: nat)
    requires c.name == l.name && c.authMode == l.authMode && c.clusterMode == l.clusterMode
    requires Cache.IsEmission(Cache.PlanOf(c), e) && j < |CachePairs(l)|
    ensures ReplicationGroup in e.resources && CacheConnects(e, l, CachePairs(l)[j].field, Deployed(e, CachePairs(l)[j].value))
    ensures e.resources[ReplicationGroup].feature == Clustered <==> l.clusterMode
    ensures HasFields(CachePairs(l), {HostField, PortField, TlsField, ClusterModeField, AuthModeField})
  {
    if j == 0 {
      CacheHostConnects(l, c, e);
    } else {
      CacheEntryConnects(l, e, j);
    }
    CacheEndpointFields(l);
  }

  lemma CacheEndpointFields(l: Linked)
    ensures HasFields(CachePairs(l), {HostField, PortField, TlsField, ClusterModeField, AuthModeField})
  {
    var pairs := CachePairs(l);
    assert pairs[0].field == HostField && pairs[1].field == PortField && pairs[2].field == TlsField;
    assert pairs[3].field == ClusterModeField && pairs[4].field == AuthModeField;
  }

  lemma CacheHostConnects(l: Linked, c: Cache.CacheResource, e: Emission)
    requires c.name == l.name && c.clusterMode == l.clusterMode && Cache.IsEmission(Cache.PlanOf(c), e)
    ensures ReplicationGroup in e.resources && CacheConnects(e, l, HostField, Deployed(e, CachePairs(l)[0].value))
  {
  }

  lemma CacheEntryConnects(l: Linked, e: Emission, j: nat)
    requires ReplicationGroup in e.resources && (e.resources[ReplicationGroup].feature == Clustered <==> l.clusterMode)
    requires 0 < j < |CachePairs(l)|
    ensures CacheConnects(e, l, CachePairs(l)[j].field, Deployed(e, CachePairs(l)[j].value))
  {
  }

  // A cache's credentials are written exactly when they are emitted, for the two modes the
  // cache knows. Any other mode emits a token secret that is never written.
  lemma CacheCredentialsWrittenIff(l: Linked, c: Cache.CacheResource, e: Emission)
    requires c.name == l.name && c.authMode == l.authMode && Cache.IsEmission(Cache.PlanOf(c), e)
    ensures HasField(CachePairs(l), UserField) <==> CacheIamUser in e.resources
    ensures (HasField(CachePairs(l), AuthTokenSecretIdField) <==> CacheAuthSecret in e.resources) <==>
            AuthMode(l) == "password" || AuthMode(l) == "iam"
  {
    CacheFields(l);
    assert AuthMode(l) == Cache.AuthMode(c);
    assert "password"[0] != "iam"[0];
  }
}
