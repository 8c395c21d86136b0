// Classifying where an absorbed consumer's events come from: a linked source if there is
// one, otherwise what the consumer's own spec names.
module Consumers {
  import opened Blueprint
  import opened Text
  import opened Ordering
  import opened Sequences
  import opened Grants

  datatype SourceLink = SourceLink(source: string, sourceType: string, target: string)

  // A linked source of a kind a consumer can bind to.
  datatype LinkedSource = LinkedSource(kind: SourceKind, source: string)

  datatype Selection = Selection(chosen: LinkedSource, ambiguous: bool)

  function LinkedSourceKind(sourceType: string): Option<SourceKind> {
    if sourceType == "celerity/queue" then Some(QueueSource)
    else if sourceType == "celerity/datastore" then Some(DatastoreSource)
    else if sourceType == "celerity/bucket" then Some(BucketSource)
    else None
  }

  function DisambiguationKey(kind: SourceKind): Option<string> {
    match kind
    case QueueSource => Some("celerity.consumer.queue")
    case DatastoreSource => Some("celerity.consumer.datastore")
    case BucketSource => Some("celerity.consumer.bucket")
    case TopicSource => None
    case ExternalSource => None
    case UnknownSource => None
  }

  function LinkedTo(c: Consumer): SourceLink -> seq<LinkedSource> {
    (e: SourceLink) =>
      if e.target == c.name && LinkedSourceKind(e.sourceType).Some?
      then [LinkedSource(LinkedSourceKind(e.sourceType).value, e.source)] else []
  }

  // The consumer's annotation for the kind names this source.
  predicate Named(annotations: map<string, string>, e: LinkedSource) {
    var key := DisambiguationKey(e.kind);
    key.Some? && key.value in annotations && annotations[key.value] == e.source
  }

  function FirstNamed(annotations: map<string, string>, edges: seq<LinkedSource>): Option<LinkedSource> {
    if edges == [] then None
    else
      var earlier := FirstNamed(annotations, edges[..|edges| - 1]);
      if earlier.Some? then earlier
      else if Named(annotations, edges[|edges| - 1]) then Some(edges[|edges| - 1]) else None
  }

  predicate BySourceName(e: LinkedSource, f: LinkedSource) {
    LexLe(e.source, f.source)
  }

  function Select(annotations: map<string, string>, edges: seq<LinkedSource>): Selection
    requires edges != []
  {
    if |edges| == 1 then Selection(edges[0], false)
    else
      var named := FirstNamed(annotations, edges);
      if named.Some? then Selection(named.value, false)
      else
        assert |multiset(Sort(edges, BySourceName))| == |edges|;
        Selection(Sort(edges, BySourceName)[0], true)
  }

  method SelectLinkedSource(annotations: map<string, string>, edges: seq<LinkedSource>) returns (r: Selection)
    requires edges != []
    ensures r == Select(annotations, edges)
  {
    if |edges| == 1 {
      return Selection(edges[0], false);
    }
    for i := 0 to |edges|
      invariant FirstNamed(annotations, edges[..i]) == None
    {
      assert edges[..i + 1][..i] == edges[..i];
      if Named(annotations, edges[i]) {
        NamedAtPrefix(annotations, edges, i + 1);
        return Selection(edges[i], false);
      }
    }
    assert edges[..|edges|] == edges;
    var sorted := Sort(edges, BySourceName);
    assert |multiset(sorted)| == |edges|;
    r := Selection(sorted[0], true);
  }

  lemma {:induction false} NamedAtPrefix(annotations: map<string, string>, edges: seq<LinkedSource>, n: nat)
    requires n <= |edges| && FirstNamed(annotations, edges[..n]).Some?
    ensures FirstNamed(annotations, edges) == FirstNamed(annotations, edges[..n])
  {
    if n < |edges| {
      assert edges[..|edges| - 1][..n] == edges[..n];
      NamedAtPrefix(annotations, edges[..|edges| - 1], n);
    } else {
      assert edges[..n] == edges;
    }
  }

  // ---- Order independence ----

  // The annotations name at most one of the linked sources.
  ghost predicate NamedOnce(annotations: map<string, string>, edges: seq<LinkedSource>) {
    forall e, f :: e in edges && f in edges && Named(annotations, e) && Named(annotations, f) ==> e == f
  }

  // A resource has one type, so a source has one kind.
  ghost predicate SourcesTyped(edges: seq<LinkedSource>) {
    forall e, f :: e in edges && f in edges && e.source == f.source ==> e == f
  }

  lemma {:induction false} FirstNamedIsNamed(annotations: map<string, string>, edges: seq<LinkedSource>)
    ensures match FirstNamed(annotations, edges)
            case None => forall e :: e in edges ==> !Named(annotations, e)
            case Some(e) => e in edges && Named(annotations, e)
  {
    if edges != [] {
      FirstNamedIsNamed(annotations, edges[..|edges| - 1]);
      assert edges == edges[..|edges| - 1] + [edges[|edges| - 1]];
    }
  }

  lemma SelectIgnoresOrder(annotations: map<string, string>, edges: seq<LinkedSource>, other: seq<LinkedSource>)
    requires edges != [] && multiset(edges) == multiset(other)
    requires SourcesTyped(edges) && NamedOnce(annotations, edges)
    ensures other != [] && Select(annotations, edges) == Select(annotations, other)
  {
    SameMembers(edges, other);
    if |edges| == 1 {
      assert edges[0] in other;
    } else {
      FirstNamedIsNamed(annotations, edges);
      FirstNamedIsNamed(annotations, other);
      if FirstNamed(annotations, edges).None? {
        LexPreorder();
        SortCanonical(edges, other, BySourceName);
      }
    }
  }

  // With several linked sources, the binding is independent of the order of the graph's
  // edges exactly when the annotations name at most one of them.
  lemma SelectionOrderIndependentIff(annotations: map<string, string>, edges: seq<LinkedSource>)
    requires |edges| >= 2 && SourcesTyped(edges)
    ensures (forall other :: multiset(other) == multiset(edges) && other != [] ==> Select(annotations, other) == Select(annotations, edges))
              <==> NamedOnce(annotations, edges)
  {
    if NamedOnce(annotations, edges) {
      forall other | multiset(other) == multiset(edges) && other != []
        ensures Select(annotations, other) == Select(annotations, edges)
      {
        SelectIgnoresOrder(annotations, edges, other);
      }
    } else {
      var e, f :| e in edges && f in edges && Named(annotations, e) && Named(annotations, f) && e != f;
      var first := PutFirst(annotations, edges, e);
      var second := PutFirst(annotations, edges, f);
      assert Select(annotations, first) != Select(annotations, second);
    }
  }

  // Some order of the edges selects any given named one.
  lemma PutFirst(annotations: map<string, string>, edges: seq<LinkedSource>, e: LinkedSource) returns (order: seq<LinkedSource>)
    requires |edges| >= 2 && e in edges && Named(annotations, e)
    ensures order != [] && multiset(order) == multiset(edges)
    ensures Select(annotations, order).chosen == e
  {
    var k := IndexOf(edges, e);
    WithoutRestored(edges, k);
    order := [e] + Without(edges, k);
    assert |multiset(order)| == |multiset(edges)|;
    assert order[..1] == [e] && [e][..0] == [];
    assert FirstNamed(annotations, [e]) == Some(e);
    NamedAtPrefix(annotations, order, 1);
  }

  // Annotations that name a queue and a bucket: whichever link comes first is chosen.
  lemma TwoNamedSourcesFollowOrder()
    ensures var annotations := map["celerity.consumer.queue" := "orders", "celerity.consumer.bucket" := "uploads"];
            var queue, bucket := LinkedSource(QueueSource, "orders"), LinkedSource(BucketSource, "uploads");
            Select(annotations, [queue, bucket]).chosen == queue && Select(annotations, [bucket, queue]).chosen == bucket
  {
    var annotations := map["celerity.consumer.queue" := "orders", "celerity.consumer.bucket" := "uploads"];
    assert |"celerity.consumer.queue"| != |"celerity.consumer.bucket"|;
    FirstOfTwoNamed(annotations, LinkedSource(QueueSource, "orders"), LinkedSource(BucketSource, "uploads"));
    FirstOfTwoNamed(annotations, LinkedSource(BucketSource, "uploads"), LinkedSource(QueueSource, "orders"));
  }

  lemma FirstOfTwoNamed(annotations: map<string, string>, e: LinkedSource, f: LinkedSource)
    requires Named(annotations, e)
    ensures Select(annotations, [e, f]) == Selection(e, false)
  {
    assert [e, f][..1] == [e] && [e][..0] == [];
    assert FirstNamed(annotations, [e]) == Some(e);
  }

  // The consumer's annotation for sources of this kind names this one.
  predicate Annotates(annotations: map<string, string>, e: LinkedSource) {
    match e.kind
    case QueueSource => "celerity.consumer.queue" in annotations && annotations["celerity.consumer.queue"] == e.source
    case DatastoreSource => "celerity.consumer.datastore" in annotations && annotations["celerity.consumer.datastore"] == e.source
    case BucketSource => "celerity.consumer.bucket" in annotations && annotations["celerity.consumer.bucket"] == e.source
    case _ => false
  }

  lemma NamedIffAnnotated(annotations: map<string, string>, e: LinkedSource)
    ensures Named(annotations, e) <==> Annotates(annotations, e)
  {
  }

  // Of several linked sources the one an annotation names is chosen; without an annotation
  // an alphabetically first one is, and the choice is reported as ambiguous.
  lemma SelectExact(annotations: map<string, string>, edges: seq<LinkedSource>)
    requires edges != []
    ensures var s := Select(annotations, edges);
            && s.chosen in edges
            && (|edges| >= 2 && (exists e :: e in edges && Annotates(annotations, e)) ==> Annotates(annotations, s.chosen))
            && (s.ambiguous <==> |edges| >= 2 && forall e :: e in edges ==> !Annotates(annotations, e))
            && (s.ambiguous ==> forall e :: e in edges ==> LexLe(s.chosen.source, e.source))
  {
    forall e ensures Named(annotations, e) <==> Annotates(annotations, e) { NamedIffAnnotated(annotations, e); }
    if |edges| >= 2 {
      FirstNamedIsNamed(annotations, edges);
      if FirstNamed(annotations, edges).None? {
        LeastIsFirst(edges);
      }
    }
  }

  lemma LeastIsFirst(edges: seq<LinkedSource>)
    requires edges != []
    ensures var sorted := Sort(edges, BySourceName);
            sorted != [] && sorted[0] in edges && forall e :: e in edges ==> LexLe(sorted[0].source, e.source)
  {
    var sorted := Sort(edges, BySourceName);
    assert |multiset(sorted)| == |edges|;
    LexPreorder();
    SortSorted(edges, BySourceName);
    SameMember(sorted, edges, sorted[0]);
    forall e | e in edges ensures LexLe(sorted[0].source, e.source) {
      SameMember(sorted, edges, e);
      var i := IndexOf(sorted, e);
      assert BySourceName(sorted[0], sorted[0]);
    }
  }

  // ---- The consumer's own spec ----

  const TOPIC_PREFIX := "celerity::topic::"

  function StreamOf(key: string, event: ExternalEvent): seq<ExternalStream> {
    if event.sourceType == "dbStream" then
      if event.dbStreamId.Some? then [ExternalStream(key, "dbStream", event.dbStreamId.value)] else []
    else if event.sourceType == "dataStream" then
      if event.dataStreamId.Some? then [ExternalStream(key, "dataStream", event.dataStreamId.value)] else []
    else []
  }

  function StreamAt(events: map<string, ExternalEvent>): string -> seq<ExternalStream> {
    (key: string) => if key in events then StreamOf(key, events[key]) else []
  }

  ghost function Streams(events: map<string, ExternalEvent>): seq<ExternalStream> {
    FlatMap(SortedSet(events.Keys), StreamAt(events))
  }

  method ClassifyExternalEvents(events: map<string, ExternalEvent>) returns (streams: seq<ExternalStream>)
    ensures streams == Streams(events)
  {
    var keys := SortedKeys(events.Keys);
    SortedSetMembers(events.Keys);
    streams := StreamsOfKeys(events, keys);
  }

  method StreamsOfKeys(events: map<string, ExternalEvent>, keys: seq<string>) returns (streams: seq<ExternalStream>)
    requires forall key :: key in keys ==> key in events
    ensures streams == FlatMap(keys, StreamAt(events))
  {
    streams := [];
    for i := 0 to |keys|
      invariant streams == FlatMap(keys[..i], StreamAt(events))
    {
      assert keys[..i + 1][..i] == keys[..i];
      streams := streams + StreamOf(keys[i], events[keys[i]]);
    }
    assert keys[..|keys|] == keys;
  }

  function Unclassified(c: Consumer): ConsumerBinding {
    ConsumerBinding(c, UnknownSource, "", None, [], None, false)
  }

  // A sourceId names a Celerity topic, an in-blueprint topic or an external queue.
  function FromSourceId(c: Consumer, id: SourceId, isTopic: string -> bool): Option<ConsumerBinding> {
    match id
    case LiteralId(text) =>
      if HasPrefix(text, TOPIC_PREFIX) then
        Some(Unclassified(c).(kind := TopicSource, topicArn := Some(LiteralId(text[|TOPIC_PREFIX|..]))))
      else if HasPrefix(text, "https://sqs.") || HasPrefix(text, "arn:aws:sqs:") then
        Some(Unclassified(c).(kind := ExternalSource, externalSqs := Some(text)))
      else None
    case SubstitutionId(_, resources) =>
      if exists r :: r in resources && isTopic(r) then
        Some(Unclassified(c).(kind := TopicSource, topicArn := Some(id)))
      else None
  }

  ghost function Classify(c: Consumer, graph: seq<SourceLink>, isTopic: string -> bool): ConsumerBinding {
    var linked := FlatMap(graph, LinkedTo(c));
    if linked != [] then
      var s := Select(c.annotations, linked);
      Unclassified(c).(kind := s.chosen.kind, source := s.chosen.source, ambiguous := s.ambiguous)
    else
      var fromId := if c.sourceId.Some? then FromSourceId(c, c.sourceId.value, isTopic) else None;
      if fromId.Some? then fromId.value
      else if c.externalEvents.Some? then
        Unclassified(c).(kind := ExternalSource, streams := Streams(c.externalEvents.value))
      else Unclassified(c)
  }

  method ClassifyConsumerSource(c: Consumer, graph: seq<SourceLink>, isTopic: string -> bool) returns (b: ConsumerBinding)
    ensures b == Classify(c, graph, isTopic)
  {
    var linked: seq<LinkedSource> := [];
    for i := 0 to |graph|
      invariant linked == FlatMap(graph[..i], LinkedTo(c))
    {
      assert graph[..i + 1][..i] == graph[..i];
      if graph[i].target == c.name {
        var kind := LinkedSourceKind(graph[i].sourceType);
        if kind.Some? {
          linked := linked + [LinkedSource(kind.value, graph[i].source)];
        }
      }
    }
    assert graph[..|graph|] == graph;
    if linked != [] {
      var s := SelectLinkedSource(c.annotations, linked);
      return Unclassified(c).(kind := s.chosen.kind, source := s.chosen.source, ambiguous := s.ambiguous);
    }
    if c.sourceId.Some? {
      var fromId := FromSourceId(c, c.sourceId.value, isTopic);
      if fromId.Some? {
        return fromId.value;
      }
    }
    if c.externalEvents.Some? {
      var streams := ClassifyExternalEvents(c.externalEvents.value);
      return Unclassified(c).(kind := ExternalSource, streams := streams);
    }
    b := Unclassified(c);
  }

  // Classification depends on the consumer and the set of links into it, not on their order.
  lemma ClassifyIgnoresGraphOrder(c: Consumer, graph: seq<SourceLink>, graph': seq<SourceLink>, isTopic: string -> bool)
    requires multiset(graph) == multiset(graph')
    requires SourcesTyped(FlatMap(graph, LinkedTo(c))) && NamedOnce(c.annotations, FlatMap(graph, LinkedTo(c)))
    ensures Classify(c, graph, isTopic) == Classify(c, graph', isTopic)
  {
    var linked, linked' := FlatMap(graph, LinkedTo(c)), FlatMap(graph', LinkedTo(c));
    FlatMapPermutes(graph, graph', LinkedTo(c));
    SameMembers(linked, linked');
    if linked != [] {
      SelectIgnoresOrder(c.annotations, linked, linked');
    }
  }

  // The abstract types a consumer can be linked from, and what each makes of it.
  predicate LinksAs(sourceType: string, kind: SourceKind) {
    (sourceType == "celerity/queue" && kind == QueueSource) ||
    (sourceType == "celerity/datastore" && kind == DatastoreSource) ||
    (sourceType == "celerity/bucket" && kind == BucketSource)
  }

  lemma KindOfLink(sourceType: string, kind: SourceKind)
    ensures LinkedSourceKind(sourceType) == Some(kind) <==> LinksAs(sourceType, kind)
  {
    assert |"celerity/datastore"| != |"celerity/queue"| && |"celerity/bucket"| != |"celerity/queue"|;
    assert |"celerity/datastore"| != |"celerity/bucket"|;
  }

  lemma LinkedExact(c: Consumer, graph: seq<SourceLink>, s: LinkedSource)
    ensures s in FlatMap(graph, LinkedTo(c)) <==>
            exists e :: e in graph && e.target == c.name && e.source == s.source && LinksAs(e.sourceType, s.kind)
  {
    FlatMapMember(graph, LinkedTo(c), s);
    forall t ensures LinkedSourceKind(t) == Some(s.kind) <==> LinksAs(t, s.kind) { KindOfLink(t, s.kind); }
    if e :| e in graph && e.target == c.name && e.source == s.source && LinksAs(e.sourceType, s.kind) {
      assert s in LinkedTo(c)(e);
    }
  }

  // A consumer reads from a queue, datastore or bucket exactly when one is linked to it, and
  // then from such a one.
  lemma LinkedClassified(c: Consumer, graph: seq<SourceLink>, isTopic: string -> bool)
    ensures var b := Classify(c, graph, isTopic);
            && b.consumer == c
            && (LinkedKind(b.kind) <==> exists e, kind :: e in graph && e.target == c.name && LinksAs(e.sourceType, kind))
            && (LinkedKind(b.kind) ==> exists e :: e in graph && e.target == c.name && e.source == b.source && LinksAs(e.sourceType, b.kind))
  {
    var linked := FlatMap(graph, LinkedTo(c));
    forall s
      ensures s in linked <==> exists e :: e in graph && e.target == c.name && e.source == s.source && LinksAs(e.sourceType, s.kind)
    {
      LinkedExact(c, graph, s);
    }
    if e, kind :| e in graph && e.target == c.name && LinksAs(e.sourceType, kind) {
      assert LinkedSource(kind, e.source) in linked;
    }
    if linked != [] {
      SelectExact(c.annotations, linked);
      var s := Select(c.annotations, linked).chosen;
      assert s in linked && LinkedSource(s.kind, s.source) == s;
    } else if c.sourceId.Some? {
      FromSourceIdIsWellFormed(c, c.sourceId.value, isTopic);
    }
  }

  // A sourceId is read by its prefix: a Celerity topic by the rest, an external queue by the
  // whole text, and anything else not at all.
  lemma SourceIdRead(c: Consumer, text: string, isTopic: string -> bool)
    ensures var b := FromSourceId(c, LiteralId(text), isTopic);
            && (HasPrefix(text, "celerity::topic::") ==>
                  b == Some(Unclassified(c).(kind := TopicSource, topicArn := Some(LiteralId(text[17..])))))
            && (HasPrefix(text, "https://sqs.") || HasPrefix(text, "arn:aws:sqs:") ==>
                  b == Some(Unclassified(c).(kind := ExternalSource, externalSqs := Some(text))))
            && (b.None? <==> !HasPrefix(text, "celerity::topic::") && !HasPrefix(text, "https://sqs.") && !HasPrefix(text, "arn:aws:sqs:"))
  {
    assert |TOPIC_PREFIX| == 17 && TOPIC_PREFIX[0] == 'c';
    assert HasPrefix(text, TOPIC_PREFIX) ==> text[0] == TOPIC_PREFIX[0];
    assert HasPrefix(text, "https://sqs.") ==> text[0] == "https://sqs."[0];
    assert HasPrefix(text, "arn:aws:sqs:") ==> text[0] == "arn:aws:sqs:"[0];
  }

  // A substituted sourceId is a topic exactly when it refers to one, and is kept as it is.
  lemma SubstitutionRead(c: Consumer, id: SourceId, isTopic: string -> bool)
    requires id.SubstitutionId?
    ensures FromSourceId(c, id, isTopic).Some? <==> exists r :: r in id.resources && isTopic(r)
    ensures FromSourceId(c, id, isTopic).Some? ==>
              FromSourceId(c, id, isTopic).value == Unclassified(c).(kind := TopicSource, topicArn := Some(id))
  {
  }

  // Each external event with an identifier of its own type gives one stream, and no other.
  lemma StreamsExact(events: map<string, ExternalEvent>, s: ExternalStream)
    ensures s in Streams(events) <==>
            s.key in events && s.sourceType == events[s.key].sourceType &&
            ((s.sourceType == "dbStream" && events[s.key].dbStreamId == Some(s.arn)) ||
             (s.sourceType == "dataStream" && events[s.key].dataStreamId == Some(s.arn)))
  {
    SortedSetMembers(events.Keys);
    FlatMapMember(SortedSet(events.Keys), StreamAt(events), s);
    if s.key in events {
      StreamOfExact(s.key, events[s.key], s);
      assert s in StreamOf(s.key, events[s.key]) ==> s in StreamAt(events)(s.key);
    }
    if key :| key in SortedSet(events.Keys) && s in StreamAt(events)(key) {
      StreamOfExact(key, events[key], s);
    }
  }

  lemma StreamOfExact(key: string, event: ExternalEvent, s: ExternalStream)
    ensures s in StreamOf(key, event) <==>
            s.key == key && s.sourceType == event.sourceType &&
            ((s.sourceType == "dbStream" && event.dbStreamId == Some(s.arn)) ||
             (s.sourceType == "dataStream" && event.dataStreamId == Some(s.arn)))
  {
    assert |"dbStream"| != |"dataStream"|;
  }

  predicate LinkedKind(kind: SourceKind) {
    kind == QueueSource || kind == DatastoreSource || kind == BucketSource
  }

  predicate WellFormed(b: ConsumerBinding) {
    WellClassified(b) && (b.kind == TopicSource <==> b.topicArn.Some?)
  }

  lemma FromSourceIdIsWellFormed(c: Consumer, id: SourceId, isTopic: string -> bool)
    ensures FromSourceId(c, id, isTopic).Some? ==>
              var b := FromSourceId(c, id, isTopic).value;
              WellFormed(b) && !LinkedKind(b.kind) && b.consumer == c
  {
  }

  lemma LinkedEdgeKind(c: Consumer, graph: seq<SourceLink>, e: LinkedSource)
    requires e in FlatMap(graph, LinkedTo(c))
    ensures LinkedKind(e.kind)
  {
    FlatMapMember(graph, LinkedTo(c), e);
  }

  // A classified binding has external sources only when its kind says so, only streams a
  // role can be granted, and a topic exactly when it is a topic binding.
  lemma ClassifiedIsWellFormed(c: Consumer, graph: seq<SourceLink>, isTopic: string -> bool)
    ensures WellFormed(Classify(c, graph, isTopic)) && Classify(c, graph, isTopic).consumer == c
    ensures FlatMap(graph, LinkedTo(c)) != [] <==> LinkedKind(Classify(c, graph, isTopic).kind)
  {
    var linked := FlatMap(graph, LinkedTo(c));
    if linked != [] {
      SelectedIsLinked(c.annotations, linked);
      LinkedEdgeKind(c, graph, Select(c.annotations, linked).chosen);
    } else {
      if c.sourceId.Some? {
        FromSourceIdIsWellFormed(c, c.sourceId.value, isTopic);
      }
      if c.externalEvents.Some? {
        StreamsAreGrantable(c.externalEvents.value);
      }
    }
  }

  lemma StreamIsGrantable(key: string, event: ExternalEvent, s: ExternalStream)
    requires s in StreamOf(key, event)
    ensures StreamService(s.sourceType).Some?
  {
  }

  lemma StreamsAreGrantable(events: map<string, ExternalEvent>)
    ensures forall s :: s in Streams(events) ==> StreamService(s.sourceType).Some?
  {
    var keys := SortedSet(events.Keys);
    forall s | s in Streams(events) ensures StreamService(s.sourceType).Some? {
      FlatMapMember(keys, StreamAt(events), s);
      var key :| key in keys && s in StreamAt(events)(key);
      StreamIsGrantable(key, events[key], s);
    }
  }

  lemma SelectedIsLinked(annotations: map<string, string>, edges: seq<LinkedSource>)
    requires edges != []
    ensures Select(annotations, edges).chosen in edges
  {
    FirstNamedIsNamed(annotations, edges);
    SameMembers(Sort(edges, BySourceName), edges);
    assert Sort(edges, BySourceName)[0] in Sort(edges, BySourceName);
  }
}
