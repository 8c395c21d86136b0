// Out-of-blueprint event sources. No provider link grants access to them, so the role a
// handler runs under must carry a statement for each source its function polls.
module Grants {
  import opened Blueprint
  import opened Text
  import opened Ordering
  import opened Sequences

  datatype Service = Sqs | DynamoDbStream | KinesisStream

  function ServiceName(s: Service): string {
    match s
    case Sqs => "sqs"
    case DynamoDbStream => "dynamodb-stream"
    case KinesisStream => "kinesis-stream"
  }

  datatype Source = Source(service: Service, arn: string)

  function StreamService(sourceType: string): Option<Service> {
    if sourceType == "dbStream" then Some(DynamoDbStream)
    else if sourceType == "dataStream" then Some(KinesisStream)
    else None
  }

  // ---- Queue URLs ----

  const SQS_URL_PREFIX := "https://sqs."

  function SqsUrlToArn(url: string): Option<string> {
    if !HasPrefix(url, SQS_URL_PREFIX) then None
    else
      var hostPath := Cut(url[|SQS_URL_PREFIX|..], '/');
      if !hostPath.found then None
      else
        var region := Cut(hostPath.before, '.');
        if !region.found || region.before == "" then None
        else
          var accountName := Cut(hostPath.after, '/');
          if !accountName.found || accountName.before == "" || accountName.after == "" then None
          else Some(Arn(region.before, accountName.before, accountName.after))
  }

  function Arn(region: string, account: string, name: string): string {
    "arn:aws:sqs:" + (region + ":" + account + ":" + name)
  }

  // A literal queue URL becomes its ARN; anything else is used as written.
  function ResourceArn(text: string): string {
    var arn := SqsUrlToArn(text);
    if arn.Some? then arn.value else text
  }

  function QueueUrl(region: string, domain: string, account: string, name: string): string {
    SQS_URL_PREFIX + ((region + ['.'] + domain) + ['/'] + (account + ['/'] + name))
  }

  predicate UrlParts(region: string, domain: string, account: string, name: string) {
    region != "" && account != "" && name != "" &&
    '.' !in region && '/' !in region && '/' !in domain && '/' !in account
  }

  lemma QueueTexts(region: string, domain: string, account: string, name: string)
    ensures QueueUrl(region, domain, account, name) == "https://sqs." + region + "." + domain + "/" + account + "/" + name
    ensures Arn(region, account, name) == "arn:aws:sqs:" + region + ":" + account + ":" + name
  {
    UrlText(region, domain, account, name);
    ArnText(region, account, name);
  }

  lemma UrlText(region: string, domain: string, account: string, name: string)
    ensures QueueUrl(region, domain, account, name) == "https://sqs." + region + "." + domain + "/" + account + "/" + name
  {
    assert "." == ['.'] && "/" == ['/'];
  }

  lemma ArnText(region: string, account: string, name: string)
    ensures Arn(region, account, name) == "arn:aws:sqs:" + region + ":" + account + ":" + name
  {
  }

  // A URL converts exactly when it has a region, an account and a name, and the ARN has
  // those parts.
  lemma QueueUrlConverts(region: string, domain: string, account: string, name: string)
    requires UrlParts(region, domain, account, name)
    ensures SqsUrlToArn(QueueUrl(region, domain, account, name)) == Some(Arn(region, account, name))
  {
    var host, path := region + ['.'] + domain, account + ['/'] + name;
    PrefixOfConcat(SQS_URL_PREFIX, host + ['/'] + path);
    CutAtFirst(host, path, '/');
    CutAtFirst(region, domain, '.');
    CutAtFirst(account, name, '/');
  }

  lemma ConvertedTextIsQueueUrl(url: string)
    ensures SqsUrlToArn(url).Some? ==>
              exists region, domain, account, name ::
                UrlParts(region, domain, account, name) && url == QueueUrl(region, domain, account, name)
  {
    if SqsUrlToArn(url).Some? {
      var hostPath := Cut(url[|SQS_URL_PREFIX|..], '/');
      var region := Cut(hostPath.before, '.');
      var accountName := Cut(hostPath.after, '/');
      assert url == SQS_URL_PREFIX + url[|SQS_URL_PREFIX|..];
      assert UrlParts(region.before, region.after, accountName.before, accountName.after);
      assert url == QueueUrl(region.before, region.after, accountName.before, accountName.after);
    }
  }

  // The mapping and the policy normalise the same way, and normalising again changes nothing.
  lemma ResourceArnIdempotent(text: string)
    ensures ResourceArn(ResourceArn(text)) == ResourceArn(text)
  {
    if SqsUrlToArn(text).Some? {
      var parts := ResourceArn(text)[12..];
      assert ResourceArn(text) == "arn:aws:sqs:" + parts;
      ArnIsNoUrl(parts);
    }
  }

  lemma ArnIsNoUrl(parts: string)
    ensures SqsUrlToArn("arn:aws:sqs:" + parts).None?
  {
    var arn := "arn:aws:sqs:" + parts;
    assert arn[0] == 'a' && SQS_URL_PREFIX[0] == 'h';
    assert |arn| >= |SQS_URL_PREFIX| ==> arn[..|SQS_URL_PREFIX|][0] == arn[0];
  }

  // ---- The sources of a handler ----

  // Streams have a known type, and only external consumers have external sources.
  predicate WellClassified(b: ConsumerBinding) {
    (forall s :: s in b.streams ==> StreamService(s.sourceType).Some?) &&
    (b.streams != [] || b.externalSqs.Some? ==> b.kind == ExternalSource)
  }

  function StreamSource(s: ExternalStream): seq<Source> {
    var service := StreamService(s.sourceType);
    if service.None? || s.arn == "" then [] else [Source(service.value, s.arn)]
  }

  function SqsSources(b: ConsumerBinding): seq<Source> {
    if b.externalSqs.None? || ResourceArn(b.externalSqs.value) == "" then []
    else [Source(Sqs, ResourceArn(b.externalSqs.value))]
  }

  function BindingSources(b: ConsumerBinding): seq<Source> {
    FlatMap(b.streams, StreamSource) + SqsSources(b)
  }

  lemma NextBindingSources(bindings: seq<ConsumerBinding>, i: nat)
    requires i < |bindings|
    ensures FlatMap(bindings[..i + 1], BindingSources) ==
            FlatMap(bindings[..i], BindingSources) + FlatMap(bindings[i].streams, StreamSource) + SqsSources(bindings[i])
  {
    assert bindings[..i + 1][..i] == bindings[..i];
    Reassociate(FlatMap(bindings[..i], BindingSources), FlatMap(bindings[i].streams, StreamSource), SqsSources(bindings[i]));
  }

  predicate BySource(a: Source, b: Source) {
    if a.service != b.service then LexLe(ServiceName(a.service), ServiceName(b.service)) else LexLe(a.arn, b.arn)
  }

  lemma ServiceNamesDiffer(a: Service, b: Service)
    ensures ServiceName(a) == ServiceName(b) <==> a == b
  {
    assert |"sqs"| == 3 && |"dynamodb-stream"| == 15 && |"kinesis-stream"| == 14;
  }

  lemma BySourcePreorder()
    ensures Preorder(BySource)
    ensures forall a, b :: BySource(a, b) && BySource(b, a) ==> a == b
  {
    LexPreorder();
    forall a: Service, b: Service ensures ServiceName(a) == ServiceName(b) <==> a == b { ServiceNamesDiffer(a, b); }
    forall a, b, c | BySource(a, b) && BySource(b, c) ensures BySource(a, c) {
      ServiceNamesDiffer(a.service, b.service);
    }
  }

  function RoleSources(bindings: seq<ConsumerBinding>): seq<Source> {
    Sort(FlatMap(bindings, BindingSources), BySource)
  }

  function Rank(s: Service): nat {
    match s case DynamoDbStream => 0 case KinesisStream => 1 case Sqs => 2
  }

  lemma ByRankThenArn(a: Source, b: Source)
    ensures BySource(a, b) <==> Rank(a.service) < Rank(b.service) || (a.service == b.service && LexLe(a.arn, b.arn))
  {
    assert ServiceName(Sqs)[0] == 's' && ServiceName(DynamoDbStream)[0] == 'd' && ServiceName(KinesisStream)[0] == 'k';
  }

  // A role's sources come by service, DynamoDB before Kinesis before SQS, and then by ARN.
  lemma SourcesInOrder(bindings: seq<ConsumerBinding>, i: nat, j: nat)
    requires i < j < |RoleSources(bindings)|
    ensures var a, b := RoleSources(bindings)[i], RoleSources(bindings)[j];
            Rank(a.service) < Rank(b.service) || (a.service == b.service && LexLe(a.arn, b.arn))
  {
    BySourcePreorder();
    SortSorted(FlatMap(bindings, BindingSources), BySource);
    ByRankThenArn(RoleSources(bindings)[i], RoleSources(bindings)[j]);
  }

  method ExternalRoleSources(bindings: seq<ConsumerBinding>) returns (sources: seq<Source>)
    ensures sources == RoleSources(bindings)
  {
    sources := [];
    for i := 0 to |bindings|
      invariant sources == FlatMap(bindings[..i], BindingSources)
    {
      NextBindingSources(bindings, i);
      var b := bindings[i];
      ghost var before := sources;
      for j := 0 to |b.streams|
        invariant sources == before + FlatMap(b.streams[..j], StreamSource)
      {
        FlatMapLast(before, b.streams, j, StreamSource);
        var service := StreamService(b.streams[j].sourceType);
        if service.Some? && b.streams[j].arn != "" {
          sources := sources + [Source(service.value, b.streams[j].arn)];
        }
      }
      assert b.streams[..|b.streams|] == b.streams;
      if b.externalSqs.Some? {
        var arn := ResourceArn(b.externalSqs.value);
        if arn != "" {
          sources := sources + [Source(Sqs, arn)];
        }
      }
    }
    assert bindings[..|bindings|] == bindings;
    sources := Sort(sources, BySource);
  }

  // ---- The event source mappings of a function ----

  // A standalone mapping; service is None for a stream type nothing grants.
  datatype Mapping = Mapping(service: Option<Service>, arn: string)

  function StreamMappingName(consumer: string, key: string): string {
    consumer + "_" + key + "_esm"
  }

  function SqsMappingName(consumer: string): string {
    consumer + "_sqs_esm"
  }

  // A source a consumer declares, under the name of the mapping it is to be polled by.
  datatype Declared = Declared(name: string, mapping: Mapping)

  function StreamDeclared(consumer: string): ExternalStream -> Declared {
    (s: ExternalStream) => Declared(StreamMappingName(consumer, s.key), Mapping(StreamService(s.sourceType), s.arn))
  }

  function DeclaredBy(b: ConsumerBinding): seq<Declared> {
    if b.kind != ExternalSource then []
    else
      Map(b.streams, StreamDeclared(b.consumer.name)) +
      if b.externalSqs.None? then []
      else [Declared(SqsMappingName(b.consumer.name), Mapping(Some(Sqs), ResourceArn(b.externalSqs.value)))]
  }

  function DeclaredSources(bindings: seq<ConsumerBinding>): seq<Declared> {
    FlatMap(bindings, DeclaredBy)
  }

  // A resource map keeps what was written last under a name.
  function Written(declared: seq<Declared>): map<string, Mapping> {
    if declared == [] then map[]
    else
      var n := |declared| - 1;
      Written(declared[..n])[declared[n].name := declared[n].mapping]
  }

  function EmittedMappings(bindings: seq<ConsumerBinding>): map<string, Mapping> {
    Written(DeclaredSources(bindings))
  }

  method EmitEventSourceMappings(bindings: seq<ConsumerBinding>) returns (resources: map<string, Mapping>)
    ensures resources == EmittedMappings(bindings)
  {
    resources := map[];
    for i := 0 to |bindings|
      invariant resources == Written(DeclaredSources(bindings[..i]))
    {
      assert bindings[..i + 1][..i] == bindings[..i];
      ghost var before := DeclaredSources(bindings[..i]);
      assert DeclaredSources(bindings[..i + 1]) == before + DeclaredBy(bindings[i]);
      if bindings[i].kind == ExternalSource {
        resources := EmitExternalSources(resources, bindings[i], before);
      } else {
        assert before + DeclaredBy(bindings[i]) == before;
      }
    }
    assert bindings[..|bindings|] == bindings;
  }

  // One binding's mappings, added to those of the bindings before it.
  method EmitExternalSources(before: map<string, Mapping>, b: ConsumerBinding, ghost declared: seq<Declared>)
    returns (resources: map<string, Mapping>)
    requires b.kind == ExternalSource && before == Written(declared)
    ensures resources == Written(declared + DeclaredBy(b))
  {
    resources := before;
    ghost var declares := StreamDeclared(b.consumer.name);
    ghost var written := declared;
    for j := 0 to |b.streams|
      invariant written == declared + Map(b.streams[..j], declares) && resources == Written(written)
    {
      MapLast(declared, b.streams, j, declares);
      WrittenMore(written, declares(b.streams[j]));
      written := written + [declares(b.streams[j])];
      var name := StreamMappingName(b.consumer.name, b.streams[j].key);
      resources := resources[name := Mapping(StreamService(b.streams[j].sourceType), b.streams[j].arn)];
    }
    assert b.streams[..|b.streams|] == b.streams;
    if b.externalSqs.Some? {
      ghost var sqs := Declared(SqsMappingName(b.consumer.name), Mapping(Some(Sqs), ResourceArn(b.externalSqs.value)));
      WrittenMore(written, sqs);
      Reassociate(declared, Map(b.streams, declares), [sqs]);
      resources := resources[SqsMappingName(b.consumer.name) := Mapping(Some(Sqs), ResourceArn(b.externalSqs.value))];
    } else {
      assert DeclaredBy(b) == Map(b.streams, declares);
    }
  }

  lemma WrittenMore(declared: seq<Declared>, d: Declared)
    ensures Written(declared + [d]) == Written(declared)[d.name := d.mapping]
  {
    assert (declared + [d])[..|declared|] == declared;
  }

  // ---- Which sources are polled ----

  predicate LastOfItsName(declared: seq<Declared>, i: nat) {
    i < |declared| && forall j :: i < j < |declared| ==> declared[j].name != declared[i].name
  }

  // The map holds the last declaration of each name, and nothing else.
  lemma {:induction false} WrittenExact(declared: seq<Declared>, name: string)
    ensures name in Written(declared) <==> exists i: nat :: LastOfItsName(declared, i) && declared[i].name == name
    ensures forall i: nat :: LastOfItsName(declared, i) && declared[i].name == name ==>
              name in Written(declared) && Written(declared)[name] == declared[i].mapping
  {
    if declared != [] {
      var n := |declared| - 1;
      WrittenExact(declared[..n], name);
      if declared[n].name == name {
        assert LastOfItsName(declared, n);
      } else {
        forall i: nat
          ensures LastOfItsName(declared, i) && declared[i].name == name <==> LastOfItsName(declared[..n], i) && declared[i].name == name
        {
        }
      }
    }
  }

  lemma LaterOfItsName(declared: seq<Declared>, i: nat) returns (j: nat)
    requires i < |declared|
    ensures i <= j && LastOfItsName(declared, j) && declared[j].name == declared[i].name
    decreases |declared| - i
  {
    if LastOfItsName(declared, i) {
      j := i;
    } else {
      var k :| i < k < |declared| && declared[k].name == declared[i].name;
      j := LaterOfItsName(declared, k);
    }
  }

  predicate NameClash(declared: seq<Declared>, i: nat, j: nat) {
    i < |declared| && j < |declared| && declared[i].name == declared[j].name && declared[i].mapping != declared[j].mapping
  }

  // Every declared source has its own mapping under its own name.
  ghost predicate EachHasItsMapping(bindings: seq<ConsumerBinding>) {
    forall d :: d in DeclaredSources(bindings) ==>
      d.name in EmittedMappings(bindings) && EmittedMappings(bindings)[d.name] == d.mapping
  }

  // That is so exactly when no two declarations use one name for different sources.
  lemma EachHasItsMappingIff(bindings: seq<ConsumerBinding>)
    ensures EachHasItsMapping(bindings) <==> forall i: nat, j: nat :: !NameClash(DeclaredSources(bindings), i, j)
  {
    var declared := DeclaredSources(bindings);
    if EachHasItsMapping(bindings) {
      forall i: nat, j: nat ensures !NameClash(declared, i, j) {
        assert i < |declared| ==> declared[i] in declared;
        assert j < |declared| ==> declared[j] in declared;
      }
    }
    if forall i: nat, j: nat :: !NameClash(declared, i, j) {
      forall d | d in declared ensures d.name in Written(declared) && Written(declared)[d.name] == d.mapping {
        var i := IndexOf(declared, d);
        var j := LaterOfItsName(declared, i);
        WrittenExact(declared, d.name);
        assert !NameClash(declared, i, j);
      }
    }
  }

  // Names meet where joining consumer and key with an underscore loses the split. An SQS
  // mapping is named as a stream of key "sqs" would be.
  lemma MappingNamesMeetIff(consumer: string, key: string, other: string, otherKey: string)
    ensures SqsMappingName(consumer) == StreamMappingName(consumer, "sqs")
    ensures StreamMappingName(consumer, key) == StreamMappingName(other, otherKey) <==> consumer + "_" + key == other + "_" + otherKey
    ensures '_' !in key && '_' !in otherKey ==>
              (StreamMappingName(consumer, key) == StreamMappingName(other, otherKey) <==> consumer == other && key == otherKey)
  {
    assert "_" + "sqs" + "_esm" == "_sqs_esm";
    assert StreamMappingName(consumer, "sqs") == consumer + ("_" + "sqs" + "_esm");
    SuffixCancel("_esm", consumer + "_" + key, other + "_" + otherKey);
    if '_' !in key && '_' !in otherKey && consumer + "_" + key == other + "_" + otherKey {
      assert "_" == ['_'];
      LastSplitUnique(consumer, key, other, otherKey, '_');
    }
  }

  // Some name is left with the mapping.
  ghost predicate Polled(bindings: seq<ConsumerBinding>, m: Mapping) {
    exists name :: name in EmittedMappings(bindings) && EmittedMappings(bindings)[name] == m
  }

  lemma PolledIffLast(bindings: seq<ConsumerBinding>, m: Mapping)
    ensures Polled(bindings, m) <==>
            exists i: nat :: LastOfItsName(DeclaredSources(bindings), i) && DeclaredSources(bindings)[i].mapping == m
  {
    var declared := DeclaredSources(bindings);
    if name :| name in EmittedMappings(bindings) && EmittedMappings(bindings)[name] == m {
      WrittenExact(declared, name);
    }
    if i: nat :| LastOfItsName(declared, i) && declared[i].mapping == m {
      WrittenExact(declared, declared[i].name);
      assert declared[i].name in EmittedMappings(bindings) && EmittedMappings(bindings)[declared[i].name] == m;
    }
  }

  lemma PolledIsDeclared(bindings: seq<ConsumerBinding>, m: Mapping)
    requires Polled(bindings, m)
    ensures exists b :: b in bindings && Declares(b, m)
  {
    PolledIffLast(bindings, m);
    var i: nat :| LastOfItsName(DeclaredSources(bindings), i) && DeclaredSources(bindings)[i].mapping == m;
    DeclaredMember(bindings, DeclaredSources(bindings)[i]);
  }

  // The service of the streams of a type.
  predicate OfType(sourceType: string, service: Option<Service>) {
    (sourceType == "dbStream" && service == Some(DynamoDbStream)) ||
    (sourceType == "dataStream" && service == Some(KinesisStream)) ||
    (sourceType != "dbStream" && sourceType != "dataStream" && service == None)
  }

  lemma TypeOfStream(sourceType: string, service: Option<Service>)
    ensures OfType(sourceType, service) <==> service == StreamService(sourceType)
  {
    assert |"dbStream"| != |"dataStream"|;
  }

  predicate Declares(b: ConsumerBinding, m: Mapping) {
    b.kind == ExternalSource &&
    ((exists s :: s in b.streams && OfType(s.sourceType, m.service) && m.arn == s.arn) ||
     (b.externalSqs.Some? && m == Mapping(Some(Sqs), ResourceArn(b.externalSqs.value))))
  }

  lemma DeclaresIff(b: ConsumerBinding, m: Mapping)
    ensures Declares(b, m) <==> exists d :: d in DeclaredBy(b) && d.mapping == m
  {
    if b.kind == ExternalSource {
      var streams := Map(b.streams, StreamDeclared(b.consumer.name));
      forall s ensures OfType(s, m.service) <==> m.service == StreamService(s) { TypeOfStream(s, m.service); }
      if s :| s in b.streams && OfType(s.sourceType, m.service) && m.arn == s.arn {
        var j := IndexOf(b.streams, s);
        assert streams[j] in DeclaredBy(b);
      }
      if b.externalSqs.Some? && m == Mapping(Some(Sqs), ResourceArn(b.externalSqs.value)) {
        assert DeclaredBy(b)[|streams|].mapping == m;
      }
      if d :| d in DeclaredBy(b) && d.mapping == m {
        var j := IndexOf(DeclaredBy(b), d);
        assert j < |streams| ==> b.streams[j] in b.streams;
      }
    }
  }

  lemma DeclaredMember(bindings: seq<ConsumerBinding>, d: Declared)
    requires d in DeclaredSources(bindings)
    ensures exists b :: b in bindings && Declares(b, d.mapping)
  {
    FlatMapMember(bindings, DeclaredBy, d);
    var b :| b in bindings && d in DeclaredBy(b);
    DeclaresIff(b, d.mapping);
  }

  // ---- The policy ----

  datatype Statement =
    | Scoped(actions: seq<string>, arn: string)
    | Unscoped(action: string)

  function Actions(s: Service): seq<string> {
    match s
    case Sqs => ["sqs:ReceiveMessage", "sqs:DeleteMessage", "sqs:GetQueueAttributes"]
    case DynamoDbStream => ["dynamodb:GetRecords", "dynamodb:GetShardIterator", "dynamodb:DescribeStream"]
    case KinesisStream =>
      ["kinesis:GetRecords", "kinesis:GetShardIterator", "kinesis:DescribeStream", "kinesis:DescribeStreamSummary",
       "kinesis:ListShards"]
  }

  // ListStreams cannot be scoped to a stream.
  function ListAction(s: Service): Option<string> {
    match s
    case Sqs => None
    case DynamoDbStream => Some("dynamodb:ListStreams")
    case KinesisStream => Some("kinesis:ListStreams")
  }

  function ScopedStatement(s: Source): seq<Statement> {
    if s.arn == "" then [] else [Scoped(Actions(s.service), s.arn)]
  }

  function ListActions(sources: seq<Source>): seq<string> {
    if sources == [] then []
    else
      var n := |sources| - 1;
      var before := ListActions(sources[..n]);
      var action := ListAction(sources[n].service);
      if sources[n].arn == "" || action.None? || action.value in before then before else before + [action.value]
  }

  function UnscopedStatement(action: string): seq<Statement> {
    [Unscoped(action)]
  }

  function PolicyStatements(sources: seq<Source>): seq<Statement> {
    FlatMap(sources, ScopedStatement) + FlatMap(ListActions(sources), UnscopedStatement)
  }

  lemma NextScoped(sources: seq<Source>, i: nat)
    requires i < |sources|
    ensures FlatMap(sources[..i + 1], ScopedStatement) == FlatMap(sources[..i], ScopedStatement) + ScopedStatement(sources[i])
  {
    assert sources[..i + 1][..i] == sources[..i];
  }

  lemma NextListActions(sources: seq<Source>, i: nat)
    requires i < |sources|
    ensures var before, action := ListActions(sources[..i]), ListAction(sources[i].service);
            ListActions(sources[..i + 1]) ==
            if sources[i].arn == "" || action.None? || action.value in before then before else before + [action.value]
  {
    assert sources[..i + 1][..i] == sources[..i];
  }

  method ExternalSourcesPolicy(sources: seq<Source>) returns (statements: seq<Statement>)
    ensures statements == PolicyStatements(sources)
  {
    statements := [];
    var listActions: seq<string> := [];
    var seen: set<string> := {};
    for i := 0 to |sources|
      invariant statements == FlatMap(sources[..i], ScopedStatement)
      invariant listActions == ListActions(sources[..i])
      invariant forall a :: a in seen <==> a in listActions
    {
      NextScoped(sources, i);
      NextListActions(sources, i);
      if sources[i].arn == "" {
        continue;
      }
      statements := statements + [Scoped(Actions(sources[i].service), sources[i].arn)];
      var action := ListAction(sources[i].service);
      if action.Some? && action.value !in seen {
        seen := seen + {action.value};
        listActions := listActions + [action.value];
      }
    }
    assert sources[..|sources|] == sources;
    ghost var scoped := statements;
    for i := 0 to |listActions|
      invariant statements == scoped + FlatMap(listActions[..i], UnscopedStatement)
    {
      FlatMapLast(scoped, listActions, i, UnscopedStatement);
      statements := statements + [Unscoped(listActions[i])];
    }
    assert listActions[..|listActions|] == listActions;
  }

  lemma ActionsDiffer(a: Service, b: Service)
    ensures Actions(a) == Actions(b) <==> a == b
    ensures ListAction(a).Some? && ListAction(a) == ListAction(b) ==> a == b
  {
    assert Actions(a)[0][0] == (match a case Sqs => 's' case DynamoDbStream => 'd' case KinesisStream => 'k');
    assert Actions(b)[0][0] == (match b case Sqs => 's' case DynamoDbStream => 'd' case KinesisStream => 'k');
    if ListAction(a).Some? && ListAction(b).Some? {
      assert ListAction(a).value[0] == (if a == DynamoDbStream then 'd' else 'k');
      assert ListAction(b).value[0] == (if b == DynamoDbStream then 'd' else 'k');
    }
  }

  // A scoped statement is in the policy exactly when its source is.
  lemma ScopedStatementExact(sources: seq<Source>, service: Service, arn: string)
    ensures Scoped(Actions(service), arn) in PolicyStatements(sources) <==> arn != "" && Source(service, arn) in sources
  {
    var st := Scoped(Actions(service), arn);
    FlatMapMember(sources, ScopedStatement, st);
    FlatMapMember(ListActions(sources), UnscopedStatement, st);
    if s :| s in sources && st in ScopedStatement(s) {
      ActionsDiffer(s.service, service);
    }
    if arn != "" && Source(service, arn) in sources {
      assert st in ScopedStatement(Source(service, arn));
    }
  }

  lemma {:induction false} ListActionsOnce(sources: seq<Source>, action: string)
    ensures multiset(ListActions(sources))[action] ==
            if exists s :: s in sources && s.arn != "" && ListAction(s.service) == Some(action) then 1 else 0
  {
    if sources != [] {
      var n := |sources| - 1;
      ListActionsOnce(sources[..n], action);
      assert sources == sources[..n] + [sources[n]];
      assert action in ListActions(sources[..n]) <==> multiset(ListActions(sources[..n]))[action] > 0;
    }
  }

  lemma {:induction false} UnscopedCount(actions: seq<string>, action: string)
    ensures multiset(FlatMap(actions, UnscopedStatement))[Unscoped(action)] == multiset(actions)[action]
  {
    if actions != [] {
      var n := |actions| - 1;
      UnscopedCount(actions[..n], action);
      assert actions == actions[..n] + [actions[n]];
      assert FlatMap(actions, UnscopedStatement) == FlatMap(actions[..n], UnscopedStatement) + [Unscoped(actions[n])];
    }
  }

  lemma {:induction false} ScopedHasNoUnscoped(sources: seq<Source>, action: string)
    ensures multiset(FlatMap(sources, ScopedStatement))[Unscoped(action)] == 0
  {
    if sources != [] {
      ScopedHasNoUnscoped(sources[..|sources| - 1], action);
    }
  }

  // What a poller of each service must be allowed to do with its source.
  predicate NeedsAction(service: Service, action: string) {
    match service
    case Sqs => action in {"sqs:ReceiveMessage", "sqs:DeleteMessage", "sqs:GetQueueAttributes"}
    case DynamoDbStream => action in {"dynamodb:GetRecords", "dynamodb:GetShardIterator", "dynamodb:DescribeStream"}
    case KinesisStream =>
      action in {"kinesis:GetRecords", "kinesis:GetShardIterator", "kinesis:DescribeStream", "kinesis:DescribeStreamSummary",
                 "kinesis:ListShards"}
  }

  predicate ListsStreams(service: Service, action: string) {
    match service
    case Sqs => false
    case DynamoDbStream => action == "dynamodb:ListStreams"
    case KinesisStream => action == "kinesis:ListStreams"
  }

  lemma ActionsNeeded(service: Service, action: string)
    ensures action in Actions(service) <==> NeedsAction(service, action)
  {
  }

  // No two services need one action.
  lemma NeedsOfOneService(a: Service, b: Service, action: string)
    requires NeedsAction(a, action) && NeedsAction(b, action)
    ensures a == b
  {
    assert action[0] == match a case Sqs => 's' case DynamoDbStream => 'd' case KinesisStream => 'k';
    assert action[0] == match b case Sqs => 's' case DynamoDbStream => 'd' case KinesisStream => 'k';
  }

  lemma ScopedIsOfASource(sources: seq<Source>, actions: seq<string>, arn: string) returns (service: Service)
    requires Scoped(actions, arn) in PolicyStatements(sources)
    ensures arn != "" && Source(service, arn) in sources && actions == Actions(service)
  {
    FlatMapMember(sources, ScopedStatement, Scoped(actions, arn));
    FlatMapMember(ListActions(sources), UnscopedStatement, Scoped(actions, arn));
    var s :| s in sources && Scoped(actions, arn) in ScopedStatement(s);
    service := s.service;
  }

  lemma {:induction false} ListActionsExact(sources: seq<Source>, action: string)
    ensures action in ListActions(sources) <==> exists s :: s in sources && s.arn != "" && ListsStreams(s.service, action)
  {
    if sources != [] {
      var n := |sources| - 1;
      ListActionsExact(sources[..n], action);
      assert sources == sources[..n] + [sources[n]];
      assert ListsStreams(sources[n].service, action) <==> ListAction(sources[n].service) == Some(action);
    }
  }

  lemma UnscopedExact(sources: seq<Source>, action: string)
    ensures Unscoped(action) in PolicyStatements(sources) <==>
            exists s :: s in sources && s.arn != "" && ListsStreams(s.service, action)
  {
    FlatMapMember(sources, ScopedStatement, Unscoped(action));
    FlatMapMember(ListActions(sources), UnscopedStatement, Unscoped(action));
    ListActionsExact(sources, action);
    if action in ListActions(sources) {
      assert Unscoped(action) in UnscopedStatement(action);
    }
  }

  // A ListStreams action is granted once, and only when a stream of its service is polled.
  lemma ListStreamsExactlyOnce(sources: seq<Source>, service: Service)
    requires ListAction(service).Some?
    ensures multiset(PolicyStatements(sources))[Unscoped(ListAction(service).value)] ==
            if exists s :: s in sources && s.arn != "" && s.service == service then 1 else 0
  {
    var action := ListAction(service).value;
    ListActionsOnce(sources, action);
    UnscopedCount(ListActions(sources), action);
    ScopedHasNoUnscoped(sources, action);
    forall s: Source ensures ListAction(s.service) == Some(action) <==> s.service == service {
      ActionsDiffer(service, s.service);
    }
  }

  lemma RoleSourcesMembers(bindings: seq<ConsumerBinding>, s: Source)
    ensures s in RoleSources(bindings) <==> exists b :: b in bindings && s in BindingSources(b)
  {
    SameMembers(RoleSources(bindings), FlatMap(bindings, BindingSources));
    FlatMapMember(bindings, BindingSources, s);
  }

  lemma DeclaredIsGranted(bindings: seq<ConsumerBinding>, b: ConsumerBinding, m: Mapping)
    requires b in bindings && WellClassified(b) && Declares(b, m) && m.arn != ""
    ensures m.service.Some? && Scoped(Actions(m.service.value), m.arn) in PolicyStatements(RoleSources(bindings))
  {
    if s :| s in b.streams && m == Mapping(StreamService(s.sourceType), s.arn) {
      FlatMapMember(b.streams, StreamSource, Source(m.service.value, m.arn));
      assert Source(m.service.value, m.arn) in StreamSource(s);
    }
    RoleSourcesMembers(bindings, Source(m.service.value, m.arn));
    ScopedStatementExact(RoleSources(bindings), m.service.value, m.arn);
  }

  // Every emitted mapping with an ARN has a statement in the policy for its sources.
  lemma PollersAreGranted(bindings: seq<ConsumerBinding>, m: Mapping)
    requires (forall b :: b in bindings ==> WellClassified(b)) && Polled(bindings, m) && m.arn != ""
    ensures m.service.Some? && Scoped(Actions(m.service.value), m.arn) in PolicyStatements(RoleSources(bindings))
  {
    PolledIsDeclared(bindings, m);
    var b :| b in bindings && Declares(b, m);
    DeclaredIsGranted(bindings, b, m);
  }

  // Scoped statements are for the sources the consumers declare.
  lemma GrantedIffDeclared(bindings: seq<ConsumerBinding>, service: Service, arn: string)
    requires forall b :: b in bindings ==> WellClassified(b)
    ensures Scoped(Actions(service), arn) in PolicyStatements(RoleSources(bindings)) <==>
            arn != "" && exists b :: b in bindings && Declares(b, Mapping(Some(service), arn))
  {
    if arn != "" && exists b :: b in bindings && Declares(b, Mapping(Some(service), arn)) {
      var b :| b in bindings && Declares(b, Mapping(Some(service), arn));
      DeclaredIsGranted(bindings, b, Mapping(Some(service), arn));
    }
    if Scoped(Actions(service), arn) in PolicyStatements(RoleSources(bindings)) {
      var s := Source(service, arn);
      ScopedStatementExact(RoleSources(bindings), service, arn);
      RoleSourcesMembers(bindings, s);
      var b :| b in bindings && s in BindingSources(b);
      SourceIsDeclared(b, s);
    }
  }

  lemma SourceIsDeclared(b: ConsumerBinding, s: Source)
    requires WellClassified(b) && s in BindingSources(b)
    ensures Declares(b, Mapping(Some(s.service), s.arn))
  {
    if s in FlatMap(b.streams, StreamSource) {
      FlatMapMember(b.streams, StreamSource, s);
      var stream :| stream in b.streams && s in StreamSource(stream);
    }
  }

  // The policy grants exactly the sources the emitted mappings poll.
  ghost predicate GrantsWhatIsPolled(statements: seq<Statement>, bindings: seq<ConsumerBinding>) {
    forall service, arn ::
      Scoped(Actions(service), arn) in statements <==> arn != "" && Polled(bindings, Mapping(Some(service), arn))
  }

  // Some declaration of the mapping is the last to use its name.
  ghost predicate KeepsAName(declared: seq<Declared>, m: Mapping) {
    exists i: nat :: LastOfItsName(declared, i) && declared[i].mapping == m
  }

  // Every declared source with an ARN keeps a name no later declaration takes.
  ghost predicate SourcesKeepNames(bindings: seq<ConsumerBinding>) {
    forall d :: d in DeclaredSources(bindings) && d.mapping.arn != "" ==> KeepsAName(DeclaredSources(bindings), d.mapping)
  }

  // A policy never grants less than is polled, and no more exactly when every source keeps a
  // name.
  lemma GrantsWhatIsPolledIff(bindings: seq<ConsumerBinding>)
    requires forall b :: b in bindings ==> WellClassified(b)
    ensures GrantsWhatIsPolled(PolicyStatements(RoleSources(bindings)), bindings) <==> SourcesKeepNames(bindings)
  {
    var statements := PolicyStatements(RoleSources(bindings));
    if GrantsWhatIsPolled(statements, bindings) {
      forall d | d in DeclaredSources(bindings) && d.mapping.arn != "" ensures KeepsAName(DeclaredSources(bindings), d.mapping) {
        DeclaredMember(bindings, d);
        var b :| b in bindings && Declares(b, d.mapping);
        DeclaredIsGranted(bindings, b, d.mapping);
        assert Polled(bindings, Mapping(Some(d.mapping.service.value), d.mapping.arn));
        PolledIffLast(bindings, d.mapping);
      }
    }
    if SourcesKeepNames(bindings) {
      forall service, arn
        ensures Scoped(Actions(service), arn) in statements <==> arn != "" && Polled(bindings, Mapping(Some(service), arn))
      {
        PolledWhenKept(bindings, service, arn);
      }
    }
  }

  lemma PolledWhenKept(bindings: seq<ConsumerBinding>, service: Service, arn: string)
    requires (forall b :: b in bindings ==> WellClassified(b)) && SourcesKeepNames(bindings)
    ensures Scoped(Actions(service), arn) in PolicyStatements(RoleSources(bindings)) <==>
            arn != "" && Polled(bindings, Mapping(Some(service), arn))
  {
    var m := Mapping(Some(service), arn);
    GrantedIffDeclared(bindings, service, arn);
    if arn != "" && exists b :: b in bindings && Declares(b, m) {
      var b :| b in bindings && Declares(b, m);
      DeclaresIff(b, m);
      var d :| d in DeclaredBy(b) && d.mapping == m;
      FlatMapMember(bindings, DeclaredBy, d);
      assert KeepsAName(DeclaredSources(bindings), d.mapping);
      PolledIffLast(bindings, m);
    }
    if arn != "" && Polled(bindings, m) {
      PolledIsDeclared(bindings, m);
    }
  }

  // Without a name clash every source keeps a name: its own.
  lemma NoClashKeepsNames(bindings: seq<ConsumerBinding>)
    requires forall i: nat, j: nat :: !NameClash(DeclaredSources(bindings), i, j)
    ensures SourcesKeepNames(bindings)
  {
    var declared := DeclaredSources(bindings);
    forall d | d in declared && d.mapping.arn != "" ensures KeepsAName(declared, d.mapping) {
      var i := IndexOf(declared, d);
      var j := LaterOfItsName(declared, i);
      assert !NameClash(declared, i, j);
    }
  }

  lemma OneStreamDeclared(b: ConsumerBinding, s: ExternalStream)
    requires b.kind == ExternalSource && b.externalSqs.None? && b.streams == [s]
    ensures DeclaredSources([b]) == [StreamDeclared(b.consumer.name)(s)]
  {
    FlatMapOne(b, DeclaredBy);
  }

  lemma TwoStreamsDeclared(first: ConsumerBinding, second: ConsumerBinding, s: ExternalStream, t: ExternalStream)
    requires first.kind == ExternalSource && first.externalSqs.None? && first.streams == [s]
    requires second.kind == ExternalSource && second.externalSqs.None? && second.streams == [t]
    ensures DeclaredSources([first, second]) == [StreamDeclared(first.consumer.name)(s), StreamDeclared(second.consumer.name)(t)]
  {
    assert [first, second] == [first] + [second];
    FlatMapConcat([first], [second], DeclaredBy);
    OneStreamDeclared(first, s);
    OneStreamDeclared(second, t);
  }

  lemma FirstOfNameIsLost(first: Declared, second: Declared, i: nat)
    requires first.name == second.name && first.mapping != second.mapping && LastOfItsName([first, second], i)
    ensures [first, second][i].mapping != first.mapping
  {
    assert [first, second][1] == second;
  }

  // Of two streams whose mapping names are one, the first is granted and never polled.
  lemma SameNameLosesAStream(first: ConsumerBinding, second: ConsumerBinding, s: ExternalStream, t: ExternalStream)
    requires first.kind == ExternalSource && first.externalSqs.None? && first.streams == [s]
    requires second.kind == ExternalSource && second.externalSqs.None? && second.streams == [t]
    requires StreamMappingName(first.consumer.name, s.key) == StreamMappingName(second.consumer.name, t.key)
    requires s.arn != "" && s.arn != t.arn && StreamService(s.sourceType).Some?
    ensures Scoped(Actions(StreamService(s.sourceType).value), s.arn) in PolicyStatements(RoleSources([first, second]))
    ensures !Polled([first, second], Mapping(StreamService(s.sourceType), s.arn))
  {
    var bindings, m := [first, second], Mapping(StreamService(s.sourceType), s.arn);
    var d, e := StreamDeclared(first.consumer.name)(s), StreamDeclared(second.consumer.name)(t);
    assert first.streams[0] == s && bindings[0] == first;
    DeclaredIsGranted(bindings, first, m);
    TwoStreamsDeclared(first, second, s, t);
    forall i: nat | LastOfItsName([d, e], i) ensures [d, e][i].mapping != m {
      FirstOfNameIsLost(d, e, i);
    }
    PolledIffLast(bindings, m);
  }

  lemma MeetingNames()
    ensures StreamMappingName("orders", "eu_west") == StreamMappingName("orders_eu", "west")
  {
    assert "orders" + "_" + "eu_west" == "orders_eu" + "_" + "west";
  }

  // Two such consumers.
  lemma MeetingNamesLoseASource(first: ConsumerBinding, second: ConsumerBinding, arn: string, other: string)
    requires first.kind == ExternalSource && first.consumer.name == "orders" && first.externalSqs.None?
    requires second.kind == ExternalSource && second.consumer.name == "orders_eu" && second.externalSqs.None?
    requires first.streams == [ExternalStream("eu_west", "dbStream", arn)]
    requires second.streams == [ExternalStream("west", "dbStream", other)]
    requires arn != "" && arn != other
    ensures Scoped(Actions(DynamoDbStream), arn) in PolicyStatements(RoleSources([first, second]))
    ensures !Polled([first, second], Mapping(Some(DynamoDbStream), arn))
  {
    MeetingNames();
    SameNameLosesAStream(first, second, first.streams[0], second.streams[0]);
  }
}
