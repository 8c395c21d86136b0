// The permissions a handler's execution role must carry, and the inline policies that
// grant the ones no provider link does.
module RolePlans {
  import opened Blueprint
  import opened Text
  import opened Ordering
  import opened Sequences
  import opened Grants

  datatype LinkType =
    | QueueLink | TopicLink | DatastoreLink | BucketLink | CacheLink
    | ConfigLink | SqlDatabaseLink | ConsumerLink | ScheduleLink | ApiLink

  datatype TypedLink = TypedLink(kind: LinkType, name: string)

  datatype RolePlan = RolePlan(
    links: seq<string>,
    tracing: bool,
    tier: string,
    sources: seq<Source>,
    storePath: string
  )

  function TypeName(t: LinkType): string {
    match t
    case QueueLink => "celerity/queue"
    case TopicLink => "celerity/topic"
    case DatastoreLink => "celerity/datastore"
    case BucketLink => "celerity/bucket"
    case CacheLink => "celerity/cache"
    case ConfigLink => "celerity/config"
    case SqlDatabaseLink => "celerity/sqlDatabase"
    case ConsumerLink => "celerity/consumer"
    case ScheduleLink => "celerity/schedule"
    case ApiLink => "celerity/api"
  }

  function LinkText(l: TypedLink): string {
    TypeName(l.kind) + [':'] + (":" + l.name)
  }

  function Links(kind: LinkType, names: seq<string>): seq<TypedLink> {
    seq(|names|, i requires 0 <= i < |names| => TypedLink(kind, names[i]))
  }

  function Names(linked: seq<Linked>): seq<string> {
    seq(|linked|, i requires 0 <= i < |linked| => linked[i].name)
  }

  function ConsumerNames(consumers: seq<Consumer>): seq<string> {
    seq(|consumers|, i requires 0 <= i < |consumers| => consumers[i].name)
  }

  function ApiNames(h: ResolvedHandler): seq<string> {
    if h.api.Some? then [h.api.value] else []
  }

  function OutboundLinks(h: ResolvedHandler): seq<TypedLink> {
    Links(QueueLink, Names(h.queues)) + Links(TopicLink, Names(h.topics)) + Links(DatastoreLink, Names(h.datastores))
    + Links(BucketLink, Names(h.buckets)) + Links(CacheLink, Names(h.caches)) + Links(ConfigLink, Names(h.configs))
    + Links(SqlDatabaseLink, Names(h.sqlDatabases))
  }

  // Every link of the handler, outbound and inbound, with its type.
  function TypedLinks(h: ResolvedHandler): seq<TypedLink> {
    OutboundLinks(h) + Links(ConsumerLink, ConsumerNames(h.consumers))
    + Links(ScheduleLink, h.schedules) + Links(ApiLink, ApiNames(h))
  }

  function Tier(h: ResolvedHandler): string {
    if h.vpc.Some? then h.vpcSubnetType else ""
  }

  function Plan(h: ResolvedHandler): RolePlan {
    RolePlan(Sort(Map(TypedLinks(h), LinkText), LexLe), h.tracing, Tier(h), RoleSources(h.bindings), h.storePath)
  }

  // Appends the texts of one type's links; typed follows along with the links themselves.
  method AddTyped(links: seq<string>, ghost typed: seq<TypedLink>, kind: LinkType, names: seq<string>)
    returns (r: seq<string>, ghost typed': seq<TypedLink>)
    requires links == Map(typed, LinkText)
    ensures typed' == typed + Links(kind, names)
    ensures r == Map(typed', LinkText)
  {
    r := links;
    for i := 0 to |names|
      invariant r == links + Map(Links(kind, names)[..i], LinkText)
    {
      MapLast(links, Links(kind, names), i, LinkText);
      r := r + [LinkText(TypedLink(kind, names[i]))];
    }
    assert Links(kind, names)[..|names|] == Links(kind, names);
    MapConcat(typed, Links(kind, names), LinkText);
    typed' := typed + Links(kind, names);
  }

  lemma TypedLinksInOrder(h: ResolvedHandler, typed: seq<TypedLink>)
    requires typed == [] + Links(QueueLink, Names(h.queues)) + Links(TopicLink, Names(h.topics))
      + Links(DatastoreLink, Names(h.datastores)) + Links(BucketLink, Names(h.buckets)) + Links(CacheLink, Names(h.caches))
      + Links(ConfigLink, Names(h.configs)) + Links(SqlDatabaseLink, Names(h.sqlDatabases))
      + Links(ConsumerLink, ConsumerNames(h.consumers)) + Links(ScheduleLink, h.schedules)
      + Links(ApiLink, if h.api.Some? then [h.api.value] else [])
    ensures typed == TypedLinks(h)
  {
    assert [] + Links(QueueLink, Names(h.queues)) == Links(QueueLink, Names(h.queues));
  }

  method BuildRolePlan(h: ResolvedHandler) returns (plan: RolePlan)
    ensures plan == Plan(h)
  {
    var links, typed := AddTyped([], [], QueueLink, Names(h.queues));
    links, typed := AddTyped(links, typed, TopicLink, Names(h.topics));
    links, typed := AddTyped(links, typed, DatastoreLink, Names(h.datastores));
    links, typed := AddTyped(links, typed, BucketLink, Names(h.buckets));
    links, typed := AddTyped(links, typed, CacheLink, Names(h.caches));
    links, typed := AddTyped(links, typed, ConfigLink, Names(h.configs));
    links, typed := AddTyped(links, typed, SqlDatabaseLink, Names(h.sqlDatabases));
    links, typed := AddTyped(links, typed, ConsumerLink, ConsumerNames(h.consumers));
    links, typed := AddTyped(links, typed, ScheduleLink, h.schedules);
    links, typed := AddTyped(links, typed, ApiLink, ApiNames(h));
    TypedLinksInOrder(h, typed);
    var sources := ExternalRoleSources(h.bindings);
    plan := RolePlan(Sort(links, LexLe), h.tracing, if h.vpc.Some? then h.vpcSubnetType else "", sources, h.storePath);
  }

  // ---- What a plan records ----

  lemma TypeNamesDiffer(s: LinkType, t: LinkType)
    ensures TypeName(s) == TypeName(t) <==> s == t
  {
    assert TypeName(QueueLink)[9] == 'q' && TypeName(TopicLink)[9] == 't';
    assert TypeName(BucketLink)[9] == 'b' && TypeName(ConfigLink)[9] == 'c';
    assert TypeName(CacheLink)[9] == 'c' && TypeName(ConsumerLink)[9] == 'c' && TypeName(ScheduleLink)[9] == 's';
  }

  lemma TypeNameHasNoColon(t: LinkType)
    ensures ':' !in TypeName(t)
  {
  }

  lemma LinkTextInjective(k: TypedLink, l: TypedLink)
    ensures LinkText(k) == LinkText(l) <==> k == l
  {
    if LinkText(k) == LinkText(l) {
      TypeNameHasNoColon(k.kind);
      TypeNameHasNoColon(l.kind);
      FirstSplitUnique(TypeName(k.kind), ":" + k.name, TypeName(l.kind), ":" + l.name, ':');
      TypeNamesDiffer(k.kind, l.kind);
      PrefixCancel(":", k.name, l.name);
    }
  }

  // How many of the linked resources have the name.
  function CountNamed(linked: seq<Linked>, name: string): nat {
    if linked == [] then 0
    else CountNamed(linked[..|linked| - 1], name) + if linked[|linked| - 1].name == name then 1 else 0
  }

  function CountConsumers(consumers: seq<Consumer>, name: string): nat {
    if consumers == [] then 0
    else CountConsumers(consumers[..|consumers| - 1], name) + if consumers[|consumers| - 1].name == name then 1 else 0
  }

  function LinkCount(h: ResolvedHandler, l: TypedLink): nat {
    match l.kind
    case QueueLink => CountNamed(h.queues, l.name)
    case TopicLink => CountNamed(h.topics, l.name)
    case DatastoreLink => CountNamed(h.datastores, l.name)
    case BucketLink => CountNamed(h.buckets, l.name)
    case CacheLink => CountNamed(h.caches, l.name)
    case ConfigLink => CountNamed(h.configs, l.name)
    case SqlDatabaseLink => CountNamed(h.sqlDatabases, l.name)
    case ConsumerLink => CountConsumers(h.consumers, l.name)
    case ScheduleLink => multiset(h.schedules)[l.name]
    case ApiLink => if h.api == Some(l.name) then 1 else 0
  }

  lemma LinksLast(kind: LinkType, names: seq<string>)
    requires names != []
    ensures var n := |names| - 1; Links(kind, names) == Links(kind, names[..n]) + [TypedLink(kind, names[n])]
  {
  }

  lemma {:induction false} NamesCounted(kind: LinkType, names: seq<string>, l: TypedLink)
    ensures multiset(Links(kind, names))[l] == if kind == l.kind then multiset(names)[l.name] else 0
  {
    if names != [] {
      var n := |names| - 1;
      NamesCounted(kind, names[..n], l);
      LinksLast(kind, names);
      assert names == names[..n] + [names[n]];
    }
  }

  lemma {:induction false} LinkedCounted(linked: seq<Linked>, name: string)
    ensures multiset(Names(linked))[name] == CountNamed(linked, name)
  {
    if linked != [] {
      var n := |linked| - 1;
      LinkedCounted(linked[..n], name);
      assert Names(linked) == Names(linked[..n]) + [linked[n].name];
    }
  }

  lemma {:induction false} ConsumersCounted(consumers: seq<Consumer>, name: string)
    ensures multiset(ConsumerNames(consumers))[name] == CountConsumers(consumers, name)
  {
    if consumers != [] {
      var n := |consumers| - 1;
      ConsumersCounted(consumers[..n], name);
      assert ConsumerNames(consumers) == ConsumerNames(consumers[..n]) + [consumers[n].name];
    }
  }

  lemma ListCounted(kind: LinkType, linked: seq<Linked>, l: TypedLink)
    ensures multiset(Links(kind, Names(linked)))[l] == if kind == l.kind then CountNamed(linked, l.name) else 0
  {
    NamesCounted(kind, Names(linked), l);
    LinkedCounted(linked, l.name);
  }

  predicate Inbound(kind: LinkType) {
    kind.ConsumerLink? || kind.ScheduleLink? || kind.ApiLink?
  }

  lemma TypedLinksCounted(h: ResolvedHandler, l: TypedLink)
    ensures multiset(TypedLinks(h))[l] == LinkCount(h, l)
  {
    OutboundCounted(h, l);
    InboundAdded(h, l);
    InboundCounted(h, l);
  }

  lemma OutboundCounted(h: ResolvedHandler, l: TypedLink)
    ensures multiset(OutboundLinks(h))[l] == if Inbound(l.kind) then 0 else LinkCount(h, l)
  {
    ListCounted(QueueLink, h.queues, l);
    ListCounted(TopicLink, h.topics, l);
    ListCounted(DatastoreLink, h.datastores, l);
    ListCounted(BucketLink, h.buckets, l);
    ListCounted(CacheLink, h.caches, l);
    ListCounted(ConfigLink, h.configs, l);
    ListCounted(SqlDatabaseLink, h.sqlDatabases, l);
  }

  function InboundCount(h: ResolvedHandler, l: TypedLink): nat {
    multiset(Links(ConsumerLink, ConsumerNames(h.consumers)))[l] + multiset(Links(ScheduleLink, h.schedules))[l]
    + multiset(Links(ApiLink, ApiNames(h)))[l]
  }

  lemma InboundAdded(h: ResolvedHandler, l: TypedLink)
    ensures multiset(TypedLinks(h))[l] == multiset(OutboundLinks(h))[l] + InboundCount(h, l)
  {
    CountsAdd(OutboundLinks(h), Links(ConsumerLink, ConsumerNames(h.consumers)), Links(ScheduleLink, h.schedules), Links(ApiLink, ApiNames(h)), l);
  }

  lemma InboundCounted(h: ResolvedHandler, l: TypedLink)
    ensures InboundCount(h, l) == if Inbound(l.kind) then LinkCount(h, l) else 0
  {
    NamesCounted(ConsumerLink, ConsumerNames(h.consumers), l);
    ConsumersCounted(h.consumers, l.name);
    NamesCounted(ScheduleLink, h.schedules, l);
    NamesCounted(ApiLink, ApiNames(h), l);
  }

  lemma CountsAdd(a: seq<TypedLink>, b: seq<TypedLink>, c: seq<TypedLink>, d: seq<TypedLink>, l: TypedLink)
    ensures multiset(a + b + c + d)[l] == multiset(a)[l] + multiset(b)[l] + multiset(c)[l] + multiset(d)[l]
  {
  }

  lemma PlanLinkCount(h: ResolvedHandler, l: TypedLink)
    ensures multiset(Plan(h).links)[LinkText(l)] == LinkCount(h, l)
  {
    forall x, y ensures LinkText(x) == LinkText(y) ==> x == y { LinkTextInjective(x, y); }
    InjectiveMapCount(TypedLinks(h), LinkText, l);
    TypedLinksCounted(h, l);
  }

  // The plan holds the text of a type and a name as often as the handler has a link of that
  // type to that name, and nothing else.
  lemma PlanLinksExact(h: ResolvedHandler, name: string)
    ensures var links := multiset(Plan(h).links);
            && links["celerity/queue::" + name] == CountNamed(h.queues, name)
            && links["celerity/topic::" + name] == CountNamed(h.topics, name)
            && links["celerity/datastore::" + name] == CountNamed(h.datastores, name)
            && links["celerity/bucket::" + name] == CountNamed(h.buckets, name)
            && links["celerity/cache::" + name] == CountNamed(h.caches, name)
            && links["celerity/config::" + name] == CountNamed(h.configs, name)
            && links["celerity/sqlDatabase::" + name] == CountNamed(h.sqlDatabases, name)
            && links["celerity/consumer::" + name] == CountConsumers(h.consumers, name)
            && links["celerity/schedule::" + name] == multiset(h.schedules)[name]
            && links["celerity/api::" + name] == if h.api == Some(name) then 1 else 0
    ensures |Plan(h).links| == |h.queues| + |h.topics| + |h.datastores| + |h.buckets| + |h.caches| + |h.configs| + |h.sqlDatabases|
                               + |h.consumers| + |h.schedules| + if h.api.Some? then 1 else 0
  {
    forall l ensures multiset(Plan(h).links)[LinkText(l)] == LinkCount(h, l) { PlanLinkCount(h, l); }
    ResourceTextsCounted(h, multiset(Plan(h).links), name);
    ServiceTextsCounted(h, multiset(Plan(h).links), name);
    InboundTextsCounted(h, multiset(Plan(h).links), name);
    PlanLinkTotal(h);
  }

  lemma ResourceTextsCounted(h: ResolvedHandler, links: multiset<string>, name: string)
    requires forall l :: links[LinkText(l)] == LinkCount(h, l)
    ensures links["celerity/queue::" + name] == CountNamed(h.queues, name)
    ensures links["celerity/topic::" + name] == CountNamed(h.topics, name)
    ensures links["celerity/datastore::" + name] == CountNamed(h.datastores, name)
    ensures links["celerity/bucket::" + name] == CountNamed(h.buckets, name)
  {
    TextCount(h, links, QueueLink, "celerity/queue", "celerity/queue::", name);
    TextCount(h, links, TopicLink, "celerity/topic", "celerity/topic::", name);
    TextCount(h, links, DatastoreLink, "celerity/datastore", "celerity/datastore::", name);
    TextCount(h, links, BucketLink, "celerity/bucket", "celerity/bucket::", name);
  }

  lemma ServiceTextsCounted(h: ResolvedHandler, links: multiset<string>, name: string)
    requires forall l :: links[LinkText(l)] == LinkCount(h, l)
    ensures links["celerity/cache::" + name] == CountNamed(h.caches, name)
    ensures links["celerity/config::" + name] == CountNamed(h.configs, name)
    ensures links["celerity/sqlDatabase::" + name] == CountNamed(h.sqlDatabases, name)
  {
    TextCount(h, links, CacheLink, "celerity/cache", "celerity/cache::", name);
    TextCount(h, links, ConfigLink, "celerity/config", "celerity/config::", name);
    TextCount(h, links, SqlDatabaseLink, "celerity/sqlDatabase", "celerity/sqlDatabase::", name);
  }

  lemma InboundTextsCounted(h: ResolvedHandler, links: multiset<string>, name: string)
    requires forall l :: links[LinkText(l)] == LinkCount(h, l)
    ensures links["celerity/consumer::" + name] == CountConsumers(h.consumers, name)
    ensures links["celerity/schedule::" + name] == multiset(h.schedules)[name]
    ensures links["celerity/api::" + name] == if h.api == Some(name) then 1 else 0
  {
    TextCount(h, links, ConsumerLink, "celerity/consumer", "celerity/consumer::", name);
    TextCount(h, links, ScheduleLink, "celerity/schedule", "celerity/schedule::", name);
    TextCount(h, links, ApiLink, "celerity/api", "celerity/api::", name);
  }

  lemma TextCount(h: ResolvedHandler, links: multiset<string>, kind: LinkType, typeName: string, prefix: string, name: string)
    requires links[LinkText(TypedLink(kind, name))] == LinkCount(h, TypedLink(kind, name))
    requires typeName == TypeName(kind) && prefix == typeName + "::"
    ensures links[prefix + name] == LinkCount(h, TypedLink(kind, name))
  {
    assert prefix + name == LinkText(TypedLink(kind, name));
  }

  lemma PlanLinkTotal(h: ResolvedHandler)
    ensures |Plan(h).links| == |h.queues| + |h.topics| + |h.datastores| + |h.buckets| + |h.caches| + |h.configs| + |h.sqlDatabases|
                               + |h.consumers| + |h.schedules| + if h.api.Some? then 1 else 0
  {
    var texts := Map(TypedLinks(h), LinkText);
    SameMembers(Sort(texts, LexLe), texts);
  }

  ghost predicate SameNames(a: seq<Linked>, b: seq<Linked>) {
    forall name :: CountNamed(a, name) == CountNamed(b, name)
  }

  // The handlers are linked to the same resources of each type, as often.
  ghost predicate SameLinks(h: ResolvedHandler, k: ResolvedHandler) {
    && SameNames(h.queues, k.queues) && SameNames(h.topics, k.topics) && SameNames(h.datastores, k.datastores)
    && SameNames(h.buckets, k.buckets) && SameNames(h.caches, k.caches) && SameNames(h.configs, k.configs)
    && SameNames(h.sqlDatabases, k.sqlDatabases)
    && (forall name :: CountConsumers(h.consumers, name) == CountConsumers(k.consumers, name))
    && multiset(h.schedules) == multiset(k.schedules)
    && h.api == k.api
  }

  lemma SameLinksIff(h: ResolvedHandler, k: ResolvedHandler)
    ensures multiset(TypedLinks(h)) == multiset(TypedLinks(k)) <==> SameLinks(h, k)
  {
    forall l ensures multiset(TypedLinks(h))[l] == LinkCount(h, l) && multiset(TypedLinks(k))[l] == LinkCount(k, l) {
      TypedLinksCounted(h, l);
      TypedLinksCounted(k, l);
    }
    SameCountsIffSameLinks(h, k, multiset(TypedLinks(h)), multiset(TypedLinks(k)));
  }

  lemma SameCountsIffSameLinks(h: ResolvedHandler, k: ResolvedHandler, a: multiset<TypedLink>, b: multiset<TypedLink>)
    requires forall l :: a[l] == LinkCount(h, l) && b[l] == LinkCount(k, l)
    ensures a == b <==> SameLinks(h, k)
  {
    if a == b {
      forall l ensures LinkCount(h, l) == LinkCount(k, l) {
        assert a[l] == b[l];
      }
      SameCountsSameLinks(h, k);
    }
    if SameLinks(h, k) {
      forall l ensures a[l] == b[l] {
        SameLinksSameCount(h, k, l);
      }
    }
  }

  lemma SameLinksSameCount(h: ResolvedHandler, k: ResolvedHandler, l: TypedLink)
    requires SameLinks(h, k)
    ensures LinkCount(h, l) == LinkCount(k, l)
  {
  }

  lemma SameCountsSameLinks(h: ResolvedHandler, k: ResolvedHandler)
    requires forall l :: LinkCount(h, l) == LinkCount(k, l)
    ensures SameLinks(h, k)
  {
    forall name
      ensures CountNamed(h.queues, name) == CountNamed(k.queues, name) && CountNamed(h.topics, name) == CountNamed(k.topics, name)
      ensures CountNamed(h.datastores, name) == CountNamed(k.datastores, name) && CountNamed(h.buckets, name) == CountNamed(k.buckets, name)
      ensures CountNamed(h.caches, name) == CountNamed(k.caches, name) && CountNamed(h.configs, name) == CountNamed(k.configs, name)
      ensures CountNamed(h.sqlDatabases, name) == CountNamed(k.sqlDatabases, name)
    {
      assert LinkCount(h, TypedLink(QueueLink, name)) == LinkCount(k, TypedLink(QueueLink, name));
      assert LinkCount(h, TypedLink(TopicLink, name)) == LinkCount(k, TypedLink(TopicLink, name));
      assert LinkCount(h, TypedLink(DatastoreLink, name)) == LinkCount(k, TypedLink(DatastoreLink, name));
      assert LinkCount(h, TypedLink(BucketLink, name)) == LinkCount(k, TypedLink(BucketLink, name));
      assert LinkCount(h, TypedLink(CacheLink, name)) == LinkCount(k, TypedLink(CacheLink, name));
      assert LinkCount(h, TypedLink(ConfigLink, name)) == LinkCount(k, TypedLink(ConfigLink, name));
      assert LinkCount(h, TypedLink(SqlDatabaseLink, name)) == LinkCount(k, TypedLink(SqlDatabaseLink, name));
    }
    forall name
      ensures CountConsumers(h.consumers, name) == CountConsumers(k.consumers, name)
      ensures multiset(h.schedules)[name] == multiset(k.schedules)[name]
      ensures h.api == Some(name) <==> k.api == Some(name)
    {
      assert LinkCount(h, TypedLink(ConsumerLink, name)) == LinkCount(k, TypedLink(ConsumerLink, name));
      assert LinkCount(h, TypedLink(ScheduleLink, name)) == LinkCount(k, TypedLink(ScheduleLink, name));
      assert LinkCount(h, TypedLink(ApiLink, name)) == LinkCount(k, TypedLink(ApiLink, name));
    }
    assert multiset(h.schedules) == multiset(k.schedules);
  }

  // What two handlers must have in common to run under one role. A handler outside any VPC
  // goes with one in a VPC only when that one's subnet type is empty.
  ghost predicate SamePermissions(h: ResolvedHandler, k: ResolvedHandler) {
    && SameLinks(h, k)
    && h.tracing == k.tracing
    && (h.vpc.Some? && k.vpc.Some? ==> h.vpcSubnetType == k.vpcSubnetType)
    && (h.vpc.Some? && k.vpc.None? ==> h.vpcSubnetType == "")
    && (h.vpc.None? && k.vpc.Some? ==> k.vpcSubnetType == "")
    && h.storePath == k.storePath
    && multiset(FlatMap(h.bindings, BindingSources)) == multiset(FlatMap(k.bindings, BindingSources))
  }

  lemma LinkListsEqualIffSameLinks(a: seq<TypedLink>, b: seq<TypedLink>)
    ensures Sort(Map(a, LinkText), LexLe) == Sort(Map(b, LinkText), LexLe) <==> multiset(a) == multiset(b)
  {
    SortStringsCanonical(Map(a, LinkText), Map(b, LinkText));
    forall x, y ensures LinkText(x) == LinkText(y) ==> x == y { LinkTextInjective(x, y); }
    InjectiveMapPermutes(a, b, LinkText);
  }

  lemma SourceListsEqualIffSameSources(a: seq<Source>, b: seq<Source>)
    ensures Sort(a, BySource) == Sort(b, BySource) <==> multiset(a) == multiset(b)
  {
    BySourcePreorder();
    if multiset(a) == multiset(b) {
      SortCanonical(a, b, BySource);
    }
  }

  // Plans are equal exactly when the permissions are, whatever order the link graph gives
  // the links in.
  lemma PlansEqualIffSamePermissions(h: ResolvedHandler, k: ResolvedHandler)
    ensures Plan(h) == Plan(k) <==> SamePermissions(h, k)
  {
    PlansEqualIffSameParts(h, k);
    SameLinksIff(h, k);
  }

  lemma PlansEqualIffSameParts(h: ResolvedHandler, k: ResolvedHandler)
    ensures Plan(h) == Plan(k) <==>
            && multiset(TypedLinks(h)) == multiset(TypedLinks(k))
            && h.tracing == k.tracing && Tier(h) == Tier(k) && h.storePath == k.storePath
            && multiset(FlatMap(h.bindings, BindingSources)) == multiset(FlatMap(k.bindings, BindingSources))
  {
    LinkListsEqualIffSameLinks(TypedLinks(h), TypedLinks(k));
    SourceListsEqualIffSameSources(FlatMap(h.bindings, BindingSources), FlatMap(k.bindings, BindingSources));
  }

  // ---- Inline policies ----

  datatype Policy =
    | XRay
    | ExternalEventSources(statements: seq<Statement>)
    | StoreRead(path: string)

  function Policies(plan: RolePlan): seq<Policy> {
    (if plan.tracing then [XRay] else []) +
    (if PolicyStatements(plan.sources) != [] then [ExternalEventSources(PolicyStatements(plan.sources))] else []) +
    (if plan.storePath != "" then [StoreRead(plan.storePath)] else [])
  }

  method InlinePolicies(plan: RolePlan) returns (policies: seq<Policy>)
    ensures policies == Policies(plan)
  {
    policies := [];
    if plan.tracing {
      policies := policies + [XRay];
    }
    var statements := ExternalSourcesPolicy(plan.sources);
    if statements != [] {
      policies := policies + [ExternalEventSources(statements)];
    }
    if plan.storePath != "" {
      policies := policies + [StoreRead(plan.storePath)];
    }
  }

  // ---- What the policies allow ----

  ghost predicate Writes(policies: seq<Policy>, statement: Statement) {
    exists statements :: ExternalEventSources(statements) in policies && statement in statements
  }

  // The action is allowed on the resource of this ARN.
  ghost predicate Allows(policies: seq<Policy>, action: string, arn: string) {
    exists actions :: Writes(policies, Scoped(actions, arn)) && action in actions
  }

  lemma PolicyMembers(plan: RolePlan, p: Policy)
    ensures p in Policies(plan) <==>
            match p
            case XRay => plan.tracing
            case ExternalEventSources(statements) => statements == PolicyStatements(plan.sources) != []
            case StoreRead(path) => path == plan.storePath != ""
  {
  }

  lemma WritesExactly(plan: RolePlan, statement: Statement)
    ensures Writes(Policies(plan), statement) <==> statement in PolicyStatements(plan.sources)
  {
    forall p ensures p in Policies(plan) <==>
                     match p
                     case XRay => plan.tracing
                     case ExternalEventSources(statements) => statements == PolicyStatements(plan.sources) != []
                     case StoreRead(path) => path == plan.storePath != ""
    {
      PolicyMembers(plan, p);
    }
    if statement in PolicyStatements(plan.sources) {
      assert ExternalEventSources(PolicyStatements(plan.sources)) in Policies(plan);
    }
  }

  // The policies allow exactly: tracing when the handler traces, reading the store when the
  // handler has one, and each action a poller of a source needs on that source, listing the
  // streams of a service in general.
  lemma PoliciesExact(plan: RolePlan)
    ensures XRay in Policies(plan) <==> plan.tracing
    ensures forall path :: StoreRead(path) in Policies(plan) <==> path == plan.storePath != ""
    ensures forall action, arn :: Allows(Policies(plan), action, arn) <==>
              arn != "" && exists service :: Source(service, arn) in plan.sources && NeedsAction(service, action)
    ensures forall action :: Writes(Policies(plan), Unscoped(action)) <==>
              exists s :: s in plan.sources && s.arn != "" && ListsStreams(s.service, action)
  {
    PolicyMembers(plan, XRay);
    forall path ensures StoreRead(path) in Policies(plan) <==> path == plan.storePath != "" {
      PolicyMembers(plan, StoreRead(path));
    }
    forall action, arn
      ensures Allows(Policies(plan), action, arn) <==>
              arn != "" && exists service :: Source(service, arn) in plan.sources && NeedsAction(service, action)
    {
      AllowedExactly(plan, action, arn);
    }
    forall action
      ensures Writes(Policies(plan), Unscoped(action)) <==>
              exists s :: s in plan.sources && s.arn != "" && ListsStreams(s.service, action)
    {
      WritesExactly(plan, Unscoped(action));
      UnscopedExact(plan.sources, action);
    }
  }

  lemma AllowedExactly(plan: RolePlan, action: string, arn: string)
    ensures Allows(Policies(plan), action, arn) <==>
            arn != "" && exists service :: Source(service, arn) in plan.sources && NeedsAction(service, action)
  {
    if actions :| Writes(Policies(plan), Scoped(actions, arn)) && action in actions {
      WritesExactly(plan, Scoped(actions, arn));
      var service := ScopedIsOfASource(plan.sources, actions, arn);
      ActionsNeeded(service, action);
    }
    if service :| arn != "" && Source(service, arn) in plan.sources && NeedsAction(service, action) {
      ScopedStatementExact(plan.sources, service, arn);
      WritesExactly(plan, Scoped(Actions(service), arn));
      ActionsNeeded(service, action);
    }
  }
}
