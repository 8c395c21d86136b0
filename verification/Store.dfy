// The internal resources store: one parameter per value a handler needs at run time to
// reach what it is linked to. It is filled over all handlers, the first claim on a
// configuration key winning.
module Store {
  import opened Blueprint
  import opened Text
  import opened Ordering
  import opened Sequences
  import opened ConcreteNames
  import opened ReferenceGraph

  datatype StoreField =
    | HostField | ReadHostField | PortField | DatabaseField | EngineField | UserField | SslField
    | TlsField | ClusterModeField | AuthModeField | AuthTokenSecretIdField | CredentialsSecretIdField

  function FieldText(f: StoreField): string {
    match f
    case HostField => "host"
    case ReadHostField => "readHost"
    case PortField => "port"
    case DatabaseField => "database"
    case EngineField => "engine"
    case UserField => "user"
    case SslField => "ssl"
    case TlsField => "tls"
    case ClusterModeField => "clusterMode"
    case AuthModeField => "authMode"
    case AuthTokenSecretIdField => "authTokenSecretId"
    case CredentialsSecretIdField => "credentialsSecretId"
  }

  function Composite(base: string, f: StoreField): string {
    base + "_" + FieldText(f)
  }

  // ---- Composite keys ----

  lemma FieldTextPlain(f: StoreField)
    ensures '_' !in FieldText(f)
  {
  }

  // The length and the second character tell the fields apart.
  lemma FieldTextMark(f: StoreField)
    ensures |FieldText(f)| >= 3
    ensures (|FieldText(f)|, FieldText(f)[1]) ==
            match f
            case HostField => (4, 'o')
            case ReadHostField => (8, 'e')
            case PortField => (4, 'o')
            case DatabaseField => (8, 'a')
            case EngineField => (6, 'n')
            case UserField => (4, 's')
            case SslField => (3, 's')
            case TlsField => (3, 'l')
            case ClusterModeField => (11, 'l')
            case AuthModeField => (8, 'u')
            case AuthTokenSecretIdField => (17, 'u')
            case CredentialsSecretIdField => (19, 'r')
  {
  }

  lemma FieldTextInjective(f: StoreField, g: StoreField)
    ensures FieldText(f) == FieldText(g) <==> f == g
  {
    FieldTextMark(f);
    FieldTextMark(g);
    assert FieldText(HostField)[0] == 'h' && FieldText(PortField)[0] == 'p';
  }

  // A composite key splits at its last underscore, whatever underscores the base holds, so
  // the groups of two bases never share a key.
  lemma CompositeUnique(base: string, f: StoreField, other: string, g: StoreField)
    ensures Composite(base, f) == Composite(other, g) <==> base == other && f == g
  {
    if Composite(base, f) == Composite(other, g) {
      FieldTextPlain(f);
      FieldTextPlain(g);
      assert "_" == ['_'];
      LastSplitUnique(base, FieldText(f), other, FieldText(g), '_');
      FieldTextInjective(f, g);
    }
  }

  // ---- Claims ----

  datatype StoreValue = LiteralEntry(text: string) | ReferenceEntry(ref: Reference)

  datatype Pair = Pair(field: StoreField, value: StoreValue)

  // What a link asks the store for: one value under its key, or a group under the key with
  // a suffix each.
  datatype Claim =
    | SingleClaim(base: string, value: StoreValue)
    | GroupClaim(base: string, pairs: seq<Pair>)

  function ConfigKey(l: Linked): string {
    if l.specName != "" then l.specName else l.name
  }

  datatype SingleKind = QueueBacking | TopicBacking | DatastoreBacking | BucketBacking

  function BackingReference(kind: SingleKind, name: string): Reference {
    match kind
    case QueueBacking => ResourceOutput(SqsQueue, name, QueueUrl)
    case TopicBacking => ResourceOutput(SnsTopic, name, TopicArn)
    case DatastoreBacking => ResourceOutput(DynamoTable, name, Arn)
    case BucketBacking => ResourceOutput(S3Bucket, name, BucketName)
  }

  function SingleOf(kind: SingleKind): Linked -> Claim {
    (l: Linked) => SingleClaim(ConfigKey(l), ReferenceEntry(BackingReference(kind, l.name)))
  }

  function AuthMode(l: Linked): string {
    if l.authMode == "" then "password" else l.authMode
  }

  function BoolText(b: bool): string {
    if b then "true" else "false"
  }

  function CacheEndpointPairs(l: Linked): seq<Pair> {
    [Pair(HostField, ReferenceEntry(BlueprintValue(CacheHost, l.name))),
     Pair(PortField, LiteralEntry("6379")),
     Pair(TlsField, LiteralEntry("true")),
     Pair(ClusterModeField, LiteralEntry(BoolText(l.clusterMode)))]
  }

  function CachePairs(l: Linked): seq<Pair> {
    CacheEndpointPairs(l)
    + [Pair(AuthModeField, LiteralEntry(AuthMode(l)))]
    + (if AuthMode(l) == "password" then [Pair(AuthTokenSecretIdField, ReferenceEntry(ResourceOutput(CacheAuthSecret, l.name, SecretId)))] else [])
    + (if AuthMode(l) == "iam" then [Pair(UserField, ReferenceEntry(ResourceOutput(CacheIamUser, l.name, UserId)))] else [])
  }

  function Engine(l: Linked): string {
    if l.engine == "" then "postgres" else l.engine
  }

  function Port(l: Linked): string {
    if Engine(l) == "mysql" then "3306" else "5432"
  }

  function SqlEndpointPairs(l: Linked): seq<Pair> {
    [Pair(HostField, ReferenceEntry(BlueprintValue(SqlHost, l.name))),
     Pair(DatabaseField, ReferenceEntry(BlueprintValue(SqlDatabaseName, l.name))),
     Pair(PortField, LiteralEntry(Port(l))),
     Pair(EngineField, LiteralEntry(Engine(l))),
     Pair(UserField, LiteralEntry("celerity_app")),
     Pair(SslField, LiteralEntry("true"))]
  }

  function SqlPairs(l: Linked): seq<Pair> {
    SqlEndpointPairs(l)
    + (if l.readReplicas then [Pair(ReadHostField, ReferenceEntry(BlueprintValue(SqlReadHost, l.name)))] else [])
    + [Pair(AuthModeField, LiteralEntry(AuthMode(l)))]
    + (if AuthMode(l) != "iam" then [Pair(CredentialsSecretIdField, ReferenceEntry(ResourceOutput(AppUserSecret, l.name, SecretId)))] else [])
  }

  function CacheClaim(l: Linked): Claim {
    GroupClaim(ConfigKey(l), CachePairs(l))
  }

  function SqlClaim(l: Linked): Claim {
    GroupClaim(ConfigKey(l), SqlPairs(l))
  }

  function SingleClaims(h: ResolvedHandler): seq<Claim> {
    Map(h.queues, SingleOf(QueueBacking)) + Map(h.topics, SingleOf(TopicBacking))
    + Map(h.datastores, SingleOf(DatastoreBacking)) + Map(h.buckets, SingleOf(BucketBacking))
  }

  function ClaimsOf(h: ResolvedHandler): seq<Claim> {
    SingleClaims(h) + Map(h.caches, CacheClaim) + Map(h.sqlDatabases, SqlClaim)
  }

  // The key whose presence makes a claim give way.
  function Probe(c: Claim): string {
    if c.SingleClaim? then c.base else Composite(c.base, HostField)
  }

  function PutAll(entries: map<string, StoreValue>, base: string, pairs: seq<Pair>): map<string, StoreValue> {
    if pairs == [] then entries
    else
      var n := |pairs| - 1;
      PutAll(entries, base, pairs[..n])[Composite(base, pairs[n].field) := pairs[n].value]
  }

  function Apply(entries: map<string, StoreValue>, c: Claim): map<string, StoreValue> {
    if Probe(c) in entries then entries
    else if c.SingleClaim? then entries[c.base := c.value]
    else PutAll(entries, c.base, c.pairs)
  }

  function ApplyAll(entries: map<string, StoreValue>, claims: seq<Claim>): map<string, StoreValue> {
    if claims == [] then entries
    else Apply(ApplyAll(entries, claims[..|claims| - 1]), claims[|claims| - 1])
  }

  lemma {:induction false} ApplyAllConcat(entries: map<string, StoreValue>, a: seq<Claim>, b: seq<Claim>)
    ensures ApplyAll(entries, a + b) == ApplyAll(ApplyAll(entries, a), b)
  {
    if b == [] {
      assert a + b == a;
    } else {
      ApplyAllConcat(entries, a, b[..|b| - 1]);
      assert (a + b)[..|a + b| - 1] == a + b[..|b| - 1];
    }
  }

  // ---- Collection ----

  datatype Primary = HandlerPrimary(handler: ResolvedHandler) | OtherPrimary(name: string)

  function HandlerOf(p: Primary): seq<ResolvedHandler> {
    if p.HandlerPrimary? then [p.handler] else []
  }

  predicate ByName(h: ResolvedHandler, k: ResolvedHandler) {
    LexLe(h.name, k.name)
  }

  function SortedHandlers(primaries: seq<Primary>): seq<ResolvedHandler> {
    Sort(FlatMap(primaries, HandlerOf), ByName)
  }

  function StoreOf(primaries: seq<Primary>): map<string, StoreValue> {
    ApplyAll(map[], FlatMap(SortedHandlers(primaries), ClaimsOf))
  }

  class StoreEntries {
    var entries: map<string, StoreValue>

    constructor ()
      ensures entries == map[]
    {
      entries := map[];
    }

    method Put(base: string, field: StoreField, value: StoreValue, ghost before: map<string, StoreValue>, ghost written: seq<Pair>)
      returns (ghost written': seq<Pair>)
      requires entries == PutAll(before, base, written)
      modifies this
      ensures written' == written + [Pair(field, value)]
      ensures entries == PutAll(before, base, written')
    {
      entries := entries[Composite(base, field) := value];
      written' := written + [Pair(field, value)];
      assert written'[..|written|] == written;
    }

    method AddSingles(kind: SingleKind, linked: seq<Linked>)
      modifies this
      ensures entries == ApplyAll(old(entries), Map(linked, SingleOf(kind)))
    {
      for i := 0 to |linked|
        invariant entries == ApplyAll(old(entries), Map(linked[..i], SingleOf(kind)))
      {
        NextClaim(old(entries), linked, i, SingleOf(kind));
        var key := ConfigKey(linked[i]);
        if key in entries {
          continue;
        }
        entries := entries[key := ReferenceEntry(BackingReference(kind, linked[i].name))];
      }
      assert linked[..|linked|] == linked;
    }

    // The values every cache has.
    method PutCacheEndpoint(l: Linked, ghost before: map<string, StoreValue>) returns (ghost written: seq<Pair>)
      requires entries == before
      modifies this
      ensures written == CacheEndpointPairs(l) && entries == PutAll(before, ConfigKey(l), written)
    {
      var key := ConfigKey(l);
      written := [];
      written := Put(key, HostField, ReferenceEntry(BlueprintValue(CacheHost, l.name)), before, written);
      written := Put(key, PortField, LiteralEntry("6379"), before, written);
      written := Put(key, TlsField, LiteralEntry("true"), before, written);
      written := Put(key, ClusterModeField, LiteralEntry(BoolText(l.clusterMode)), before, written);
    }

    method AddCache(l: Linked)
      modifies this
      ensures entries == Apply(old(entries), CacheClaim(l))
    {
      var key := ConfigKey(l);
      if Composite(key, HostField) in entries {
        return;
      }
      ghost var before := entries;
      ghost var written := PutCacheEndpoint(l, before);
      var authMode := AuthMode(l);
      written := Put(key, AuthModeField, LiteralEntry(authMode), before, written);
      if authMode == "password" {
        written := Put(key, AuthTokenSecretIdField, ReferenceEntry(ResourceOutput(CacheAuthSecret, l.name, SecretId)), before, written);
      }
      if authMode == "iam" {
        written := Put(key, UserField, ReferenceEntry(ResourceOutput(CacheIamUser, l.name, UserId)), before, written);
      }
      assert written == CachePairs(l);
    }

    // The values every database has.
    method PutSqlEndpoint(l: Linked, ghost before: map<string, StoreValue>) returns (ghost written: seq<Pair>)
      requires entries == before
      modifies this
      ensures written == SqlEndpointPairs(l) && entries == PutAll(before, ConfigKey(l), written)
    {
      var key := ConfigKey(l);
      written := [];
      written := Put(key, HostField, ReferenceEntry(BlueprintValue(SqlHost, l.name)), before, written);
      written := Put(key, DatabaseField, ReferenceEntry(BlueprintValue(SqlDatabaseName, l.name)), before, written);
      written := Put(key, PortField, LiteralEntry(Port(l)), before, written);
      written := Put(key, EngineField, LiteralEntry(Engine(l)), before, written);
      written := Put(key, UserField, LiteralEntry("celerity_app"), before, written);
      written := Put(key, SslField, LiteralEntry("true"), before, written);
    }

    method AddSqlDatabase(l: Linked)
      modifies this
      ensures entries == Apply(old(entries), SqlClaim(l))
    {
      var key := ConfigKey(l);
      if Composite(key, HostField) in entries {
        return;
      }
      ghost var before := entries;
      ghost var written := PutSqlEndpoint(l, before);
      if l.readReplicas {
        written := Put(key, ReadHostField, ReferenceEntry(BlueprintValue(SqlReadHost, l.name)), before, written);
      }
      var authMode := AuthMode(l);
      written := Put(key, AuthModeField, LiteralEntry(authMode), before, written);
      if authMode != "iam" {
        written := Put(key, CredentialsSecretIdField, ReferenceEntry(ResourceOutput(AppUserSecret, l.name, SecretId)), before, written);
      }
      assert written == SqlPairs(l);
    }

    method AddCacheStoreEntries(caches: seq<Linked>)
      modifies this
      ensures entries == ApplyAll(old(entries), Map(caches, CacheClaim))
    {
      for i := 0 to |caches|
        invariant entries == ApplyAll(old(entries), Map(caches[..i], CacheClaim))
      {
        NextClaim(old(entries), caches, i, CacheClaim);
        AddCache(caches[i]);
      }
      assert caches[..|caches|] == caches;
    }

    method AddSqlDatabaseStoreEntries(databases: seq<Linked>)
      modifies this
      ensures entries == ApplyAll(old(entries), Map(databases, SqlClaim))
    {
      for i := 0 to |databases|
        invariant entries == ApplyAll(old(entries), Map(databases[..i], SqlClaim))
      {
        NextClaim(old(entries), databases, i, SqlClaim);
        AddSqlDatabase(databases[i]);
      }
      assert databases[..|databases|] == databases;
    }

    method AddHandlerStoreEntries(h: ResolvedHandler)
      modifies this
      ensures entries == ApplyAll(old(entries), ClaimsOf(h))
    {
      AddSingles(QueueBacking, h.queues);
      AddSingles(TopicBacking, h.topics);
      AddSingles(DatastoreBacking, h.datastores);
      AddSingles(BucketBacking, h.buckets);
      AddCacheStoreEntries(h.caches);
      AddSqlDatabaseStoreEntries(h.sqlDatabases);
      ClaimsInOrder(old(entries), h);
    }
  }

  lemma NextClaim(entries: map<string, StoreValue>, linked: seq<Linked>, i: nat, f: Linked -> Claim)
    requires i < |linked|
    ensures ApplyAll(entries, Map(linked[..i + 1], f)) == Apply(ApplyAll(entries, Map(linked[..i], f)), f(linked[i]))
  {
    assert linked[..i + 1][..i] == linked[..i];
    var claims := Map(linked[..i + 1], f);
    assert claims[..i] == Map(linked[..i], f);
  }

  lemma ClaimsInOrder(entries: map<string, StoreValue>, h: ResolvedHandler)
    ensures ApplyAll(entries, ClaimsOf(h)) ==
            ApplyAll(ApplyAll(ApplyAll(ApplyAll(ApplyAll(ApplyAll(entries,
              Map(h.queues, SingleOf(QueueBacking))), Map(h.topics, SingleOf(TopicBacking))),
              Map(h.datastores, SingleOf(DatastoreBacking))), Map(h.buckets, SingleOf(BucketBacking))),
              Map(h.caches, CacheClaim)), Map(h.sqlDatabases, SqlClaim))
  {
    var q, t := Map(h.queues, SingleOf(QueueBacking)), Map(h.topics, SingleOf(TopicBacking));
    var d, b := Map(h.datastores, SingleOf(DatastoreBacking)), Map(h.buckets, SingleOf(BucketBacking));
    var c, s := Map(h.caches, CacheClaim), Map(h.sqlDatabases, SqlClaim);
    ApplyAllConcat(entries, q, t);
    ApplyAllConcat(entries, q + t, d);
    ApplyAllConcat(entries, q + t + d, b);
    ApplyAllConcat(entries, q + t + d + b, c);
    ApplyAllConcat(entries, q + t + d + b + c, s);
  }

  method HandlersOf(primaries: seq<Primary>) returns (handlers: seq<ResolvedHandler>)
    ensures handlers == SortedHandlers(primaries)
  {
    handlers := [];
    for i := 0 to |primaries|
      invariant handlers == FlatMap(primaries[..i], HandlerOf)
    {
      assert primaries[..i + 1][..i] == primaries[..i];
      match primaries[i] {
        case HandlerPrimary(h) => handlers := handlers + [h];
        case OtherPrimary(_) =>
      }
    }
    assert primaries[..|primaries|] == primaries;
    handlers := Sort(handlers, ByName);
  }

  lemma NextHandler(handlers: seq<ResolvedHandler>, i: nat)
    requires i < |handlers|
    ensures ApplyAll(map[], FlatMap(handlers[..i + 1], ClaimsOf)) ==
            ApplyAll(ApplyAll(map[], FlatMap(handlers[..i], ClaimsOf)), ClaimsOf(handlers[i]))
  {
    assert handlers[..i + 1][..i] == handlers[..i];
    ApplyAllConcat(map[], FlatMap(handlers[..i], ClaimsOf), ClaimsOf(handlers[i]));
  }

  method CollectResourcesStore(primaries: seq<Primary>) returns (store: Option<map<string, StoreValue>>)
    ensures store == if StoreOf(primaries) == map[] then None else Some(StoreOf(primaries))
  {
    var collected := new StoreEntries();
    var handlers := HandlersOf(primaries);
    for i := 0 to |handlers|
      invariant collected.entries == ApplyAll(map[], FlatMap(handlers[..i], ClaimsOf))
      invariant fresh(collected)
    {
      NextHandler(handlers, i);
      collected.AddHandlerStoreEntries(handlers[i]);
    }
    assert handlers[..|handlers|] == handlers;
    store := if |collected.entries| == 0 then None else Some(collected.entries);
  }
}
