// Whether every reference in the store leads to something the blueprint emits. Databases and
// caches can be refused at transform time, and the store does not ask whether they were.
module StoreClosure {
  import opened Blueprint
  import opened Ordering
  import opened Sequences
  import opened ConcreteNames
  import opened ReferenceGraph
  import opened Store
  import opened StoreLaws
  import opened StoreWrites
  import Sql = SqlDatabase
  import Cache

  datatype DeployedDatabase = DeployedDatabase(db: Sql.Database, emission: Option<Emission>)

  datatype DeployedCache = DeployedCache(cache: Cache.CacheResource, emission: Option<Emission>)

  // What the blueprint's resources are emitted as, each under its name. backings holds the
  // queues, topics, tables and buckets.
  datatype Deployment = Deployment(
    backings: set<Node>,
    databases: map<string, DeployedDatabase>,
    caches: map<string, DeployedCache>
  )

  // Each emission is what its emitter returns.
  ghost predicate Emitted(dep: Deployment) {
    && (forall n :: n in dep.databases ==> DatabaseEmitted(n, dep.databases[n]))
    && (forall n :: n in dep.caches ==> CacheEmitted(n, dep.caches[n]))
  }

  ghost predicate DatabaseEmitted(n: string, d: DeployedDatabase) {
    d.db.name == n && (d.emission.None? <==> Sql.Blocked(d.db)) &&
    (d.emission.Some? ==> Sql.IsEmission(Sql.PlanOf(d.db), d.emission.value))
  }

  ghost predicate CacheEmitted(n: string, c: DeployedCache) {
    c.cache.name == n && (c.emission.None? <==> Cache.Blocked(c.cache)) &&
    (c.emission.Some? ==> Cache.IsEmission(Cache.PlanOf(c.cache), c.emission.value))
  }

  // A link is to a resource of the blueprint.
  predicate KnownDatabase(dep: Deployment, l: Linked) {
    l.name in dep.databases &&
    var db := dep.databases[l.name].db;
    db.authMode == l.authMode && db.readReplicas == l.readReplicas
  }

  predicate KnownCache(dep: Deployment, l: Linked) {
    l.name in dep.caches && dep.caches[l.name].cache.authMode == l.authMode
  }

  predicate LinksKnown(dep: Deployment, handlers: seq<ResolvedHandler>) {
    forall h :: h in handlers ==>
      (forall l :: l in h.sqlDatabases ==> KnownDatabase(dep, l)) && (forall l :: l in h.caches ==> KnownCache(dep, l))
  }

  predicate LeadsToBacking(dep: Deployment, ref: Reference) {
    ref.ResourceOutput? && ResourceNode(ref.part, ref.owner) in dep.backings &&
    Offers(ref.part, Resource(Plain, []), ref.output)
  }

  predicate LeadsToDatabase(dep: Deployment, n: string, ref: Reference) {
    n in dep.databases && dep.databases[n].emission.Some? &&
    Resolves(dep.databases[n].emission.value, dep.databases[n].db.vpc, ref)
  }

  predicate LeadsToCache(dep: Deployment, n: string, ref: Reference) {
    n in dep.caches && dep.caches[n].emission.Some? &&
    Resolves(dep.caches[n].emission.value, dep.caches[n].cache.vpc, ref)
  }

  ghost predicate Leads(dep: Deployment, ref: Reference) {
    LeadsToBacking(dep, ref) || (exists n :: LeadsToDatabase(dep, n, ref)) || (exists n :: LeadsToCache(dep, n, ref))
  }

  ghost predicate Closed(dep: Deployment, store: map<string, StoreValue>) {
    forall k :: k in store && store[k].ReferenceEntry? ==> Leads(dep, store[k].ref)
  }

  // What a claim is on: a backing resource, or the database or cache named by its host.
  predicate Available(dep: Deployment, c: Claim) {
    match c
    case SingleClaim(_, ReferenceEntry(ResourceOutput(part, owner, _))) => ResourceNode(part, owner) in dep.backings
    case SingleClaim(_, _) => false
    case GroupClaim(_, pairs) => pairs != [] && HostAvailable(dep, pairs[0].value)
  }

  predicate HostAvailable(dep: Deployment, host: StoreValue) {
    match host
    case ReferenceEntry(BlueprintValue(SqlHost, n)) => n in dep.databases && !Sql.Blocked(dep.databases[n].db)
    case ReferenceEntry(BlueprintValue(CacheHost, n)) => n in dep.caches && !Cache.Blocked(dep.caches[n].cache)
    case _ => false
  }

  // The claim's entries are in the finished store.
  predicate Stands(claims: seq<Claim>, i: nat) {
    Written(claims, i) &&
    (claims[i].SingleClaim? ==>
      var store := ApplyAll(map[], claims);
      claims[i].base in store && SingleReference(store[claims[i].base]))
  }

  ghost predicate StandingAvailable(dep: Deployment, claims: seq<Claim>) {
    forall i: nat :: Stands(claims, i) ==> Available(dep, claims[i])
  }

  // Every claim that remains is on something emitted.
  ghost predicate RemainingAvailable(dep: Deployment, claims: seq<Claim>) {
    forall i: nat :: Remains(claims, i) ==> Available(dep, claims[i])
  }

  ghost predicate FirstsAvailable(dep: Deployment, claims: seq<Claim>) {
    forall i: nat :: First(claims, i) ==> Available(dep, claims[i])
  }

  // ---- The claims of known links ----

  // A claim on a backing resource, as the four single-valued lists make them.
  ghost predicate OnBacking(c: Claim) {
    exists kind, l :: c == SingleOf(kind)(l)
  }

  ghost predicate OnDatabase(dep: Deployment, c: Claim) {
    exists l :: c == SqlClaim(l) && KnownDatabase(dep, l)
  }

  ghost predicate OnCache(dep: Deployment, c: Claim) {
    exists l :: c == CacheClaim(l) && KnownCache(dep, l)
  }

  ghost predicate Known(dep: Deployment, c: Claim) {
    OnBacking(c) || OnDatabase(dep, c) || OnCache(dep, c)
  }

  lemma SingleIsKnown(dep: Deployment, kind: SingleKind, links: seq<Linked>, c: Claim)
    requires c in Map(links, SingleOf(kind))
    ensures Known(dep, c)
  {
    MapMember(links, SingleOf(kind), c);
    var i :| 0 <= i < |links| && SingleOf(kind)(links[i]) == c;
    assert OnBacking(c);
  }

  lemma HandlerClaimIsKnown(dep: Deployment, h: ResolvedHandler, c: Claim)
    requires LinksKnown(dep, [h]) && c in ClaimsOf(h)
    ensures Known(dep, c)
  {
    if c in SingleClaims(h) {
      if c in Map(h.queues, SingleOf(QueueBacking)) { SingleIsKnown(dep, QueueBacking, h.queues, c); }
      else if c in Map(h.topics, SingleOf(TopicBacking)) { SingleIsKnown(dep, TopicBacking, h.topics, c); }
      else if c in Map(h.datastores, SingleOf(DatastoreBacking)) { SingleIsKnown(dep, DatastoreBacking, h.datastores, c); }
      else { SingleIsKnown(dep, BucketBacking, h.buckets, c); }
    } else if c in Map(h.caches, CacheClaim) {
      MapMember(h.caches, CacheClaim, c);
      var i :| 0 <= i < |h.caches| && CacheClaim(h.caches[i]) == c;
      assert h in [h] && h.caches[i] in h.caches;
      assert OnCache(dep, c);
    } else {
      MapMember(h.sqlDatabases, SqlClaim, c);
      var i :| 0 <= i < |h.sqlDatabases| && SqlClaim(h.sqlDatabases[i]) == c;
      assert h in [h] && h.sqlDatabases[i] in h.sqlDatabases;
      assert OnDatabase(dep, c);
    }
  }

  lemma ClaimsAreKnown(dep: Deployment, primaries: seq<Primary>)
    requires LinksKnown(dep, FlatMap(primaries, HandlerOf))
    ensures forall c :: c in AllClaims(primaries) ==> Known(dep, c) && WellFormed(c)
  {
    forall c | c in AllClaims(primaries) ensures Known(dep, c) && WellFormed(c) {
      FlatMapMember(SortedHandlers(primaries), ClaimsOf, c);
      var h :| h in SortedHandlers(primaries) && c in ClaimsOf(h);
      SameMember(FlatMap(primaries, HandlerOf), SortedHandlers(primaries), h);
      ClaimsWellFormed(h, c);
      HandlerClaimIsKnown(dep, h, c);
    }
  }

  // ---- What an available claim writes leads somewhere ----

  lemma DatabaseEntriesLead(dep: Deployment, l: Linked, j: nat)
    requires Emitted(dep) && KnownDatabase(dep, l) && !Sql.Blocked(dep.databases[l.name].db)
    requires j < |SqlPairs(l)| && SqlPairs(l)[j].value.ReferenceEntry?
    ensures Leads(dep, SqlPairs(l)[j].value.ref)
  {
    var d := dep.databases[l.name];
    assert DatabaseEmitted(l.name, d);
    SqlEntriesAreEmitted(l, d.db, d.emission.value, j);
    assert LeadsToDatabase(dep, l.name, SqlPairs(l)[j].value.ref);
  }

  lemma CacheEntriesLead(dep: Deployment, l: Linked, j: nat)
    requires Emitted(dep) && KnownCache(dep, l) && !Cache.Blocked(dep.caches[l.name].cache)
    requires j < |CachePairs(l)| && CachePairs(l)[j].value.ReferenceEntry?
    ensures Leads(dep, CachePairs(l)[j].value.ref)
  {
    var c := dep.caches[l.name];
    assert CacheEmitted(l.name, c);
    CacheEntriesAreEmitted(l, c.cache, c.emission.value, j);
    assert LeadsToCache(dep, l.name, CachePairs(l)[j].value.ref);
  }

  lemma BackingLeads(dep: Deployment, c: Claim)
    requires OnBacking(c) && WellFormed(c) && Available(dep, c)
    ensures Leads(dep, c.value.ref)
  {
    var kind, l :| c == SingleOf(kind)(l);
    assert c.value.ref == BackingReference(kind, l.name);
    assert LeadsToBacking(dep, c.value.ref);
  }

  lemma AvailableEntriesLead(dep: Deployment, c: Claim, k: string, v: StoreValue)
    requires Emitted(dep) && Known(dep, c) && WellFormed(c) && Available(dep, c)
    requires Provides(c, k, v) && v.ReferenceEntry?
    ensures Leads(dep, v.ref)
  {
    if c.SingleClaim? {
      assert OnBacking(c);
      BackingLeads(dep, c);
    } else {
      var j: nat :| HasPair(c, k, j) && v == c.pairs[j].value;
      if OnDatabase(dep, c) {
        var l :| c == SqlClaim(l) && KnownDatabase(dep, l);
        assert c.pairs[0].value == ReferenceEntry(BlueprintValue(SqlHost, l.name));
        DatabaseEntriesLead(dep, l, j);
      } else {
        var l :| c == CacheClaim(l) && KnownCache(dep, l);
        assert c.pairs[0].value == ReferenceEntry(BlueprintValue(CacheHost, l.name));
        CacheEntriesLead(dep, l, j);
      }
    }
  }

  // ---- And what an unavailable one writes does not ----

  // No database's or cache's emission holds a backing resource, or another's host.
  lemma EmissionsKeepApart(dep: Deployment, n: string, ref: Reference)
    requires Emitted(dep)
    ensures LeadsToDatabase(dep, n, ref) ==> !SingleReference(ReferenceEntry(ref))
    ensures LeadsToCache(dep, n, ref) ==> !SingleReference(ReferenceEntry(ref))
    ensures LeadsToDatabase(dep, n, ref) && ref.BlueprintValue? ==> ref.owner == n && ref.key != CacheHost
    ensures LeadsToCache(dep, n, ref) && ref.BlueprintValue? ==> ref.owner == n && ref.key == CacheHost
  {
    if n in dep.databases {
      assert DatabaseEmitted(n, dep.databases[n]);
    }
    if n in dep.caches {
      assert CacheEmitted(n, dep.caches[n]);
    }
  }

  lemma LeadingHostIsAvailable(dep: Deployment, c: Claim)
    requires Emitted(dep) && Known(dep, c) && WellFormed(c) && c.GroupClaim?
    requires c.pairs[0].value.ReferenceEntry? ==> Leads(dep, c.pairs[0].value.ref)
    ensures Available(dep, c)
  {
    forall n, ref ensures LeadsToDatabase(dep, n, ref) && ref.BlueprintValue? ==> ref.owner == n && ref.key != CacheHost
                  ensures LeadsToCache(dep, n, ref) && ref.BlueprintValue? ==> ref.owner == n && ref.key == CacheHost {
      EmissionsKeepApart(dep, n, ref);
    }
    if OnDatabase(dep, c) {
      var l :| c == SqlClaim(l) && KnownDatabase(dep, l);
      assert c.pairs[0].value == ReferenceEntry(BlueprintValue(SqlHost, l.name));
      assert DatabaseEmitted(l.name, dep.databases[l.name]);
    } else {
      var l :| c == CacheClaim(l) && KnownCache(dep, l);
      assert c.pairs[0].value == ReferenceEntry(BlueprintValue(CacheHost, l.name));
      assert CacheEmitted(l.name, dep.caches[l.name]);
    }
  }

  lemma LeadingBackingIsAvailable(dep: Deployment, c: Claim)
    requires Emitted(dep) && WellFormed(c) && c.SingleClaim? && Leads(dep, c.value.ref)
    ensures Available(dep, c)
  {
    forall n ensures !LeadsToDatabase(dep, n, c.value.ref) && !LeadsToCache(dep, n, c.value.ref) {
      EmissionsKeepApart(dep, n, c.value.ref);
    }
  }

  lemma StandingIsAvailable(dep: Deployment, claims: seq<Claim>, i: nat)
    requires Emitted(dep) && AllWellFormed(claims) && Stands(claims, i) && Known(dep, claims[i])
    requires Closed(dep, ApplyAll(map[], claims))
    ensures Available(dep, claims[i])
  {
    var store, c := ApplyAll(map[], claims), claims[i];
    WrittenStays(claims, i);
    assert WellFormed(c);
    if c.SingleClaim? {
      assert store[c.base] == c.value;
      LeadingBackingIsAvailable(dep, c);
    } else {
      assert c.pairs[0] in c.pairs && c.pairs[0] == Pair(HostField, c.pairs[0].value);
      assert Gives(store, c.base, HostField, c.pairs[0].value);
      LeadingHostIsAvailable(dep, c);
    }
  }

  lemma StoredLeads(dep: Deployment, claims: seq<Claim>, k: string)
    requires Emitted(dep) && AllWellFormed(claims) && forall c :: c in claims ==> Known(dep, c)
    requires StandingAvailable(dep, claims)
    requires k in ApplyAll(map[], claims) && ApplyAll(map[], claims)[k].ReferenceEntry?
    ensures Leads(dep, ApplyAll(map[], claims)[k].ref)
  {
    var i := StoredIsWritten(claims, k);
    assert claims[i] in claims;
    assert Stands(claims, i);
    AvailableEntriesLead(dep, claims[i], k, ApplyAll(map[], claims)[k]);
  }

  lemma ClosedIffStandingAvailable(dep: Deployment, claims: seq<Claim>)
    requires Emitted(dep) && AllWellFormed(claims) && forall c :: c in claims ==> Known(dep, c)
    ensures Closed(dep, ApplyAll(map[], claims)) <==> StandingAvailable(dep, claims)
  {
    var store := ApplyAll(map[], claims);
    if Closed(dep, store) {
      forall i: nat | Stands(claims, i) ensures Available(dep, claims[i]) {
        assert claims[i] in claims;
        StandingIsAvailable(dep, claims, i);
      }
    }
    if StandingAvailable(dep, claims) {
      forall k | k in store && store[k].ReferenceEntry? ensures Leads(dep, store[k].ref) {
        StoredLeads(dep, claims, k);
      }
    }
  }

  // The claims whose entries the finished store holds, told from the claims alone.
  lemma StandsIffRemains(claims: seq<Claim>, i: nat)
    requires AllWellFormed(claims)
    ensures Stands(claims, i) <==> Remains(claims, i)
  {
    WrittenIffLands(claims, i);
    if Written(claims, i) && claims[i].SingleClaim? {
      WrittenStays(claims, i);
      GroupTakesIff(claims, claims[i].base);
    }
  }

  lemma StandingIffRemaining(dep: Deployment, claims: seq<Claim>)
    requires AllWellFormed(claims)
    ensures StandingAvailable(dep, claims) <==> RemainingAvailable(dep, claims)
  {
    forall i: nat ensures Stands(claims, i) <==> Remains(claims, i) {
      StandsIffRemains(claims, i);
    }
  }

  // Every reference in the store leads to something emitted exactly when every claim that
  // finds its key free, and keeps it, is on an available resource: one refused database or
  // cache with such a claim leaves the store dangling.
  lemma StoreClosedIff(dep: Deployment, primaries: seq<Primary>)
    requires Emitted(dep) && LinksKnown(dep, FlatMap(primaries, HandlerOf))
    ensures Closed(dep, StoreOf(primaries)) <==> RemainingAvailable(dep, AllClaims(primaries))
  {
    ClaimsAreKnown(dep, primaries);
    ClosedIffStandingAvailable(dep, AllClaims(primaries));
    StandingIffRemaining(dep, AllClaims(primaries));
  }

  // Without a clash the claims that remain are the first on their keys.
  lemma RemainsIffFirst(claims: seq<Claim>, i: nat)
    requires AllWellFormed(claims) && !Clash(claims)
    ensures Remains(claims, i) <==> First(claims, i)
  {
    StandsIffRemains(claims, i);
    if i < |claims| {
      WrittenIffFirst(claims, i);
      NoClashFirstWins(claims);
      var c := claims[i];
      if First(claims, i) && c.SingleClaim? {
        assert c in claims && Provides(c, c.base, c.value);
        assert FirstWinsAt(claims, ApplyAll(map[], claims), c.base);
      }
    }
  }

  lemma StoreClosedIffFirstsAvailable(dep: Deployment, primaries: seq<Primary>)
    requires Emitted(dep) && LinksKnown(dep, FlatMap(primaries, HandlerOf)) && !Clash(AllClaims(primaries))
    ensures Closed(dep, StoreOf(primaries)) <==> FirstsAvailable(dep, AllClaims(primaries))
  {
    StoreClosedIff(dep, primaries);
    ClaimsAreKnown(dep, primaries);
    RemainingIffFirsts(dep, AllClaims(primaries));
  }

  lemma RemainingIffFirsts(dep: Deployment, claims: seq<Claim>)
    requires AllWellFormed(claims) && !Clash(claims)
    ensures RemainingAvailable(dep, claims) <==> FirstsAvailable(dep, claims)
  {
    forall i: nat ensures Remains(claims, i) <==> First(claims, i) {
      RemainsIffFirst(claims, i);
    }
  }

  // The input: a handler linked to one database that no VPC places. Nothing is emitted for
  // it, and the store still refers to its host.
  lemma RefusedDatabaseDangles(dep: Deployment, h: ResolvedHandler, l: Linked)
    requires Emitted(dep) && KnownDatabase(dep, l) && dep.databases[l.name].db.vpc == ""
    requires h.queues == [] && h.topics == [] && h.datastores == [] && h.buckets == [] && h.caches == [] && h.sqlDatabases == [l]
    ensures !Closed(dep, StoreOf([HandlerPrimary(h)]))
  {
    var primaries := [HandlerPrimary(h)];
    OneHandler(h);
    OnlyDatabaseClaim(h, l);
    assert h.sqlDatabases[0] == l;
    assert LinksKnown(dep, [h]);
    StoreClosedIff(dep, primaries);
    assert AllClaims(primaries)[..0] == [];
    assert Remains(AllClaims(primaries), 0);
    assert SqlPairs(l)[0].value == ReferenceEntry(BlueprintValue(SqlHost, l.name));
  }

  lemma OnlyDatabaseClaim(h: ResolvedHandler, l: Linked)
    requires h.queues == [] && h.topics == [] && h.datastores == [] && h.buckets == [] && h.caches == [] && h.sqlDatabases == [l]
    ensures ClaimsOf(h) == [SqlClaim(l)]
  {
    assert SingleClaims(h) == [];
  }

  lemma OneHandler(h: ResolvedHandler)
    ensures FlatMap([HandlerPrimary(h)], HandlerOf) == [h]
    ensures AllClaims([HandlerPrimary(h)]) == ClaimsOf(h)
  {
    FlatMapOne(HandlerPrimary(h), HandlerOf);
    FlatMapOne(h, ClaimsOf);
    assert Sort([h], ByName) == [h] by {
      assert [h][1..] == [];
    }
  }
}
