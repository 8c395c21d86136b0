// How a queue's forwarder is wired: the selector that triggers it, the selector that finds
// its topics, and the environment variables its handler discovers the topics through.
module ForwarderBuild {
  import opened Blueprint
  import opened Text
  import opened Ordering
  import opened Sequences
  import opened SelectorKeys

  datatype QueueEdge = QueueEdge(target: string, targetType: string, selectorKeys: seq<string>)

  datatype TopicForward = TopicForward(topic: string, labels: LabelMap)

  datatype ResolvedQueue = ResolvedQueue(
    name: string,
    selector: Option<LabelMap>,
    forwards: seq<TopicForward>,
    consumed: bool
  )

  const TOPIC_TYPE := "celerity/topic"
  const CONSUMER_TYPE := "celerity/consumer"
  const FORWARD_PREFIX := "celerity.queue.forward."
  const ENV_PREFIX := "CELERITY_FORWARD_TOPIC_ARN"

  function ForwardOf(e: QueueEdge): seq<TopicForward> {
    if e.targetType == TOPIC_TYPE then [TopicForward(e.target, ParseAll(e.selectorKeys))] else []
  }

  method OutboundEdges(edges: seq<QueueEdge>) returns (forwards: seq<TopicForward>, consumed: bool)
    ensures forwards == FlatMap(edges, ForwardOf)
    ensures consumed <==> exists e :: e in edges && e.targetType == "celerity/consumer"
  {
    forwards, consumed := [], false;
    for i := 0 to |edges|
      invariant forwards == FlatMap(edges[..i], ForwardOf)
      invariant consumed <==> exists j :: 0 <= j < i && edges[j].targetType == CONSUMER_TYPE
    {
      assert edges[..i + 1][..i] == edges[..i];
      if edges[i].targetType == TOPIC_TYPE {
        var labels := LabelsFromSelectorKeys(edges[i].selectorKeys);
        forwards := forwards + [TopicForward(edges[i].target, labels)];
      } else if edges[i].targetType == CONSUMER_TYPE {
        consumed := true;
      }
    }
    assert edges[..|edges|] == edges;
    assert TOPIC_TYPE[9] != CONSUMER_TYPE[9];
  }

  // ---- The queue's own selector ----

  function ForwardKey(queue: string): string {
    FORWARD_PREFIX + queue
  }

  function QueueSelector(q: ResolvedQueue): Option<LabelMap> {
    if q.forwards == [] then q.selector
    else
      var labels: LabelMap := if q.selector.Some? then q.selector.value else map[];
      Some(labels[ForwardKey(q.name) := "true"])
  }

  predicate SelectedBy(selector: Option<LabelMap>, labels: LabelMap) {
    selector.Some? && Selects(selector.value, labels)
  }

  predicate TriggersForwarder(q: ResolvedQueue, labels: LabelMap) {
    ForwardKey(q.name) in labels && labels[ForwardKey(q.name)] == "true"
  }

  // Adding the forward label adds the forwarder and disturbs no other match, exactly when
  // the author's selector does not use the label for something else.
  lemma QueueSelectorKeepsMatches(q: ResolvedQueue)
    requires q.forwards != []
    ensures (forall labels :: SelectedBy(QueueSelector(q), labels) <==> SelectedBy(q.selector, labels) || TriggersForwarder(q, labels))
              <==> (q.selector.Some? && ForwardKey(q.name) in q.selector.value ==> q.selector.value[ForwardKey(q.name)] == "true")
  {
    var key := ForwardKey(q.name);
    var selector := QueueSelector(q).value;
    assert selector[key] == "true";
    if q.selector.Some? && key in q.selector.value && q.selector.value[key] != "true" {
      var lost := map[key := q.selector.value[key]];
      assert lost[key] == q.selector.value[key];
      assert SelectedBy(q.selector, lost) && !SelectedBy(QueueSelector(q), lost);
    } else {
      forall labels
        ensures SelectedBy(QueueSelector(q), labels) <==> SelectedBy(q.selector, labels) || TriggersForwarder(q, labels)
      {
        if SelectedBy(q.selector, labels) {
          var k :| k in q.selector.value && k in labels && labels[k] == q.selector.value[k];
          assert k in selector && selector[k] == labels[k];
        }
        if TriggersForwarder(q, labels) {
          assert key in selector && key in labels && labels[key] == selector[key];
        }
      }
    }
  }

  function ForwarderLabels(queue: string): LabelMap {
    map[ForwardKey(queue) := "true"]
  }

  // A queue triggers its own forwarder and no other queue's.
  lemma QueueTriggersOnlyItsForwarder(q: ResolvedQueue, other: string)
    requires q.forwards != []
    requires q.selector.Some? ==> forall k :: k in q.selector.value ==> !HasPrefix(k, FORWARD_PREFIX)
    ensures SelectedBy(QueueSelector(q), ForwarderLabels(other)) <==> q.name == other
  {
    PrefixCancel(FORWARD_PREFIX, q.name, other);
    PrefixOfConcat(FORWARD_PREFIX, other);
    var labels := ForwarderLabels(other);
    assert forall k :: k in labels ==> k == ForwardKey(other);
    if q.name == other {
      assert ForwardKey(other) in QueueSelector(q).value && ForwardKey(other) in labels;
    }
  }

  // ---- The forwarder's topics ----

  predicate ByTopic(a: TopicForward, b: TopicForward) {
    LexLe(a.topic, b.topic)
  }

  function EnvVarNameKey(topic: string): string {
    "aws.lambda.sns." + (topic + "_sns_topic.envVarName")
  }

  function EnvVarName(index: nat): string {
    ENV_PREFIX + ("_" + Decimal(index))
  }

  lemma EnvKeysInjective(t: string, u: string)
    ensures EnvVarNameKey(t) == EnvVarNameKey(u) <==> t == u
  {
    PrefixCancel("aws.lambda.sns.", t + "_sns_topic.envVarName", u + "_sns_topic.envVarName");
    SuffixCancel("_sns_topic.envVarName", t, u);
  }

  lemma EnvNamesInjective(t: string, u: string, i: nat, j: nat)
    ensures EnvVarNameKey(t) == EnvVarNameKey(u) <==> t == u
    ensures EnvVarName(i) == EnvVarName(j) <==> i == j
  {
    EnvKeysInjective(t, u);
    PrefixCancel(ENV_PREFIX, "_" + Decimal(i), "_" + Decimal(j));
    PrefixCancel("_", Decimal(i), Decimal(j));
    DecimalInjective(i, j);
  }

  function UnionSelector(forwards: seq<TopicForward>): LabelMap {
    if forwards == [] then map[]
    else UnionSelector(forwards[..|forwards| - 1]) + forwards[|forwards| - 1].labels
  }

  function EnvAnnotations(forwards: seq<TopicForward>): map<string, string> {
    if forwards == [] then map[]
    else
      var n := |forwards| - 1;
      EnvAnnotations(forwards[..n])[EnvVarNameKey(forwards[n].topic) := EnvVarName(n)]
  }

  lemma NextAnnotation(sorted: seq<TopicForward>, i: nat)
    requires i < |sorted|
    ensures EnvAnnotations(sorted[..i + 1]) == EnvAnnotations(sorted[..i])[EnvVarNameKey(sorted[i].topic) := EnvVarName(i)]
    ensures UnionSelector(sorted[..i + 1]) == UnionSelector(sorted[..i]) + sorted[i].labels
  {
    assert sorted[..i + 1][..i] == sorted[..i];
  }

  method BuildTopicForwarder(forwards: seq<TopicForward>) returns (annotations: map<string, string>, selector: LabelMap)
    ensures annotations == EnvAnnotations(Sort(forwards, ByTopic))
    ensures selector == UnionSelector(Sort(forwards, ByTopic))
  {
    var sorted := Sort(forwards, ByTopic);
    annotations, selector := map[], map[];
    for index := 0 to |sorted|
      invariant annotations == EnvAnnotations(sorted[..index])
      invariant selector == UnionSelector(sorted[..index])
    {
      NextAnnotation(sorted, index);
      selector := selector + sorted[index].labels;
      annotations := annotations[EnvVarNameKey(sorted[index].topic) := EnvVarName(index)];
    }
    assert sorted[..|sorted|] == sorted;
  }

  ghost predicate ForwardsTo(forwards: seq<TopicForward>, topic: string) {
    exists i :: 0 <= i < |forwards| && forwards[i].topic == topic
  }

  lemma ForwardsToLast(forwards: seq<TopicForward>, topic: string)
    requires forwards != []
    ensures var n := |forwards| - 1;
            ForwardsTo(forwards, topic) <==> ForwardsTo(forwards[..n], topic) || forwards[n].topic == topic
  {
    var n := |forwards| - 1;
    if i :| 0 <= i < n && forwards[i].topic == topic {
      assert forwards[..n][i].topic == topic;
    }
  }

  lemma {:induction false} AnnotatedTopics(forwards: seq<TopicForward>, topic: string)
    ensures EnvVarNameKey(topic) in EnvAnnotations(forwards) <==> ForwardsTo(forwards, topic)
  {
    if forwards != [] {
      var n := |forwards| - 1;
      AnnotatedTopics(forwards[..n], topic);
      ForwardsToLast(forwards, topic);
      EnvKeysInjective(topic, forwards[n].topic);
    }
  }

  ghost predicate HasVariable(annotations: map<string, string>, forwards: seq<TopicForward>, topic: string, i: nat) {
    && i < |forwards| && forwards[i].topic == topic
    && EnvVarNameKey(topic) in annotations && annotations[EnvVarNameKey(topic)] == EnvVarName(i)
  }

  // Every target topic has the variable of one of its own edges.
  lemma {:induction false} EachTopicHasItsVariable(forwards: seq<TopicForward>, topic: string) returns (i: nat)
    requires ForwardsTo(forwards, topic)
    ensures HasVariable(EnvAnnotations(forwards), forwards, topic, i)
  {
    var n := |forwards| - 1;
    var last := forwards[n].topic;
    if last == topic {
      i := n;
    } else {
      var k :| 0 <= k < n && forwards[k].topic == topic;
      assert forwards[..n][k].topic == topic;
      i := EachTopicHasItsVariable(forwards[..n], topic);
      VariableSurvives(EnvAnnotations(forwards[..n]), topic, last, EnvVarName(n));
    }
  }

  lemma VariableSurvives(annotations: map<string, string>, topic: string, other: string, value: string)
    requires topic != other && EnvVarNameKey(topic) in annotations
    ensures EnvVarNameKey(topic) in annotations[EnvVarNameKey(other) := value]
    ensures annotations[EnvVarNameKey(other) := value][EnvVarNameKey(topic)] == annotations[EnvVarNameKey(topic)]
  {
    EnvNamesInjective(topic, other, 0, 0);
  }

  // The links write each linked topic's ARN under the variable its annotation names, in
  // whatever order they run.
  function InjectedEnv(order: seq<string>, annotations: map<string, string>, arn: string -> string): map<string, string> {
    if order == [] then map[]
    else
      var n := |order| - 1;
      var env := InjectedEnv(order[..n], annotations, arn);
      var key := EnvVarNameKey(order[n]);
      if key in annotations then env[annotations[key] := arn(order[n])] else env
  }

  // The handler's discovery: non-empty variables with the prefix.
  function Discovered(env: map<string, string>): set<string> {
    set key | key in env && HasPrefix(key, ENV_PREFIX) && env[key] != "" :: env[key]
  }

  lemma {:induction false} InjectedVariables(order: seq<string>, forwards: seq<TopicForward>, arn: string -> string, topic: string)
    requires forall i :: 0 <= i < |order| ==> ForwardsTo(forwards, order[i])
    ensures topic in order ==>
              var env := InjectedEnv(order, EnvAnnotations(forwards), arn);
              && EnvVarNameKey(topic) in EnvAnnotations(forwards)
              && EnvAnnotations(forwards)[EnvVarNameKey(topic)] in env
              && env[EnvAnnotations(forwards)[EnvVarNameKey(topic)]] == arn(topic)
  {
    if order != [] {
      var n := |order| - 1;
      InjectedVariables(order[..n], forwards, arn, topic);
      AnnotatedTopics(forwards, topic);
      AnnotatedTopics(forwards, order[n]);
      assert order == order[..n] + [order[n]];
      if topic in order && topic != order[n] {
        TopicVariablesDiffer(forwards, topic, order[n]);
      }
    }
  }

  lemma TopicVariablesDiffer(forwards: seq<TopicForward>, t: string, u: string)
    requires ForwardsTo(forwards, t) && ForwardsTo(forwards, u) && t != u
    ensures EnvVarNameKey(t) in EnvAnnotations(forwards) && EnvVarNameKey(u) in EnvAnnotations(forwards)
    ensures EnvAnnotations(forwards)[EnvVarNameKey(t)] != EnvAnnotations(forwards)[EnvVarNameKey(u)]
  {
    var i := EachTopicHasItsVariable(forwards, t);
    var j := EachTopicHasItsVariable(forwards, u);
    EnvNamesInjective(t, u, i, j);
  }

  lemma {:induction false} InjectedValues(order: seq<string>, annotations: map<string, string>, arn: string -> string, key: string)
    requires key in InjectedEnv(order, annotations, arn)
    ensures exists t :: t in order && InjectedEnv(order, annotations, arn)[key] == arn(t)
  {
    if order != [] {
      var n := |order| - 1;
      var last := EnvVarNameKey(order[n]);
      assert order == order[..n] + [order[n]];
      if last in annotations && annotations[last] == key {
        assert order[n] in order;
      } else {
        InjectedValues(order[..n], annotations, arn, key);
        var t :| t in order[..n] && InjectedEnv(order[..n], annotations, arn)[key] == arn(t);
        assert t in order;
      }
    }
  }

  // The handler publishes to exactly the topics the queue forwards to, however the links
  // ordered their writes.
  lemma HandlerDiscoversItsTopics(order: seq<string>, forwards: seq<TopicForward>, arn: string -> string)
    requires forall t :: t in order <==> ForwardsTo(forwards, t)
    requires forall t :: arn(t) != ""
    ensures Discovered(InjectedEnv(order, EnvAnnotations(forwards), arn)) == set t | t in order :: arn(t)
  {
    var annotations := EnvAnnotations(forwards);
    var env := InjectedEnv(order, annotations, arn);
    forall a | a in Discovered(env) ensures exists t :: t in order && a == arn(t) {
      var key :| key in env && env[key] == a;
      InjectedValues(order, annotations, arn, key);
    }
    forall t | t in order ensures arn(t) in Discovered(env) {
      InjectedVariables(order, forwards, arn, t);
      var i := EachTopicHasItsVariable(forwards, t);
      PrefixOfConcat(ENV_PREFIX, "_" + Decimal(i));
    }
  }

  // inner's labels are all among outer's.
  predicate Within(inner: LabelMap, outer: LabelMap) {
    forall k :: k in inner ==> k in outer && outer[k] == inner[k]
  }

  // Every edge's labels were matched by the one selector of the queue, so their union
  // contradicts none of them.
  lemma {:induction false} UnionKeepsEdgeLabels(forwards: seq<TopicForward>, selector: LabelMap, f: TopicForward)
    requires forall e :: e in forwards ==> Within(e.labels, selector)
    requires f in forwards
    ensures Within(f.labels, UnionSelector(forwards))
  {
    var n := |forwards| - 1;
    if f in forwards[..n] {
      UnionKeepsEdgeLabels(forwards[..n], selector, f);
      assert Within(f.labels, selector) && Within(forwards[n].labels, selector);
    } else {
      assert f == forwards[n];
    }
  }

  lemma {:induction false} UnionLabelIsAnEdges(forwards: seq<TopicForward>, key: string)
    requires key in UnionSelector(forwards)
    ensures exists f :: f in forwards && key in f.labels && f.labels[key] == UnionSelector(forwards)[key]
  {
    var n := |forwards| - 1;
    if key in forwards[n].labels {
      assert forwards[n] in forwards;
    } else {
      UnionLabelIsAnEdges(forwards[..n], key);
      var f :| f in forwards[..n] && key in f.labels && f.labels[key] == UnionSelector(forwards[..n])[key];
      assert f in forwards;
    }
  }

  // The forwarder selects a resource exactly when one of the edges it was built from would:
  // the union adds no match and loses none.
  lemma ForwarderSelectsExactly(forwards: seq<TopicForward>, selector: LabelMap, labels: LabelMap)
    requires forall e :: e in forwards ==> Within(e.labels, selector)
    ensures Selects(UnionSelector(Sort(forwards, ByTopic)), labels) <==> exists f :: f in forwards && Selects(f.labels, labels)
  {
    var sorted := Sort(forwards, ByTopic);
    SameMembers(sorted, forwards);
    if Selects(UnionSelector(sorted), labels) {
      var key :| key in UnionSelector(sorted) && key in labels && labels[key] == UnionSelector(sorted)[key];
      UnionLabelIsAnEdges(sorted, key);
      var f :| f in sorted && key in f.labels && f.labels[key] == UnionSelector(sorted)[key];
      assert Selects(f.labels, labels);
    }
    if f :| f in forwards && Selects(f.labels, labels) {
      UnionKeepsEdgeLabels(sorted, selector, f);
    }
  }

  // In particular it selects each topic that carries its edge's labels.
  lemma ForwarderSelectsItsTopics(forwards: seq<TopicForward>, selector: LabelMap, f: TopicForward, topicLabels: LabelMap)
    requires forall e :: e in forwards ==> Within(e.labels, selector)
    requires f in forwards && f.labels != map[] && Within(f.labels, topicLabels)
    ensures Selects(UnionSelector(Sort(forwards, ByTopic)), topicLabels)
  {
    SameMembers(Sort(forwards, ByTopic), forwards);
    UnionKeepsEdgeLabels(Sort(forwards, ByTopic), selector, f);
    var key :| key in f.labels;
  }

  // ---- Emission ----

  datatype ForwarderOutcome =
    | NothingToForward
    | CompetingConsumer
    | NoTopicLabels
    | Emitted(annotations: map<string, string>, selector: LabelMap)

  // A queue that is also consumed gets an error instead of a forwarder, since both would
  // poll it; so does one whose edges carry no labels.
  method EmitTopicForwarder(q: ResolvedQueue) returns (outcome: ForwarderOutcome)
    ensures outcome.NothingToForward? <==> q.forwards == []
    ensures outcome.CompetingConsumer? <==> q.forwards != [] && q.consumed
    ensures outcome.NoTopicLabels? <==> q.forwards != [] && !q.consumed && UnionSelector(q.forwards) == map[]
    ensures outcome.Emitted? ==> outcome.annotations == EnvAnnotations(Sort(q.forwards, ByTopic))
    ensures outcome.Emitted? ==> outcome.selector == UnionSelector(Sort(q.forwards, ByTopic))
  {
    if q.forwards == [] {
      return NothingToForward;
    }
    if q.consumed {
      return CompetingConsumer;
    }
    var union: LabelMap := map[];
    for i := 0 to |q.forwards|
      invariant union == UnionSelector(q.forwards[..i])
    {
      assert q.forwards[..i + 1][..i] == q.forwards[..i];
      union := union + q.forwards[i].labels;
    }
    assert q.forwards[..|q.forwards|] == q.forwards;
    if union == map[] {
      return NoTopicLabels;
    }
    var annotations, selector := BuildTopicForwarder(q.forwards);
    outcome := Emitted(annotations, selector);
  }

  // Resolving and emitting a queue gives it at most one poller: a forwarder appears only
  // when it forwards and no consumer is linked to it.
  method ResolveAndEmit(name: string, selector: Option<LabelMap>, edges: seq<QueueEdge>) returns (outcome: ForwarderOutcome)
    ensures outcome.Emitted? ==> forall e :: e in edges ==> e.targetType != CONSUMER_TYPE
    ensures outcome.Emitted? ==> exists e :: e in edges && e.targetType == TOPIC_TYPE
    ensures outcome.CompetingConsumer? <==>
              (exists e :: e in edges && e.targetType == TOPIC_TYPE) && (exists e :: e in edges && e.targetType == CONSUMER_TYPE)
  {
    var forwards, consumed := OutboundEdges(edges);
    ForwardsExist(edges);
    outcome := EmitTopicForwarder(ResolvedQueue(name, selector, forwards, consumed));
  }

  lemma ForwardsExist(edges: seq<QueueEdge>)
    ensures FlatMap(edges, ForwardOf) != [] <==> exists e :: e in edges && e.targetType == TOPIC_TYPE
  {
    var forwards := FlatMap(edges, ForwardOf);
    if forwards != [] {
      FlatMapMember(edges, ForwardOf, forwards[0]);
      assert forwards[0] in forwards;
    }
    if e :| e in edges && e.targetType == TOPIC_TYPE {
      FlatMapMember(edges, ForwardOf, ForwardOf(e)[0]);
    }
  }

  // ---- Names ----

  // A queue forwards to each topic it is linked to, under the labels of the link.
  lemma ForwardsExact(edges: seq<QueueEdge>, f: TopicForward)
    ensures f in FlatMap(edges, ForwardOf) <==>
            exists e :: e in edges && e.targetType == "celerity/topic" && f.topic == e.target && f.labels == ParseAll(e.selectorKeys)
  {
    FlatMapMember(edges, ForwardOf, f);
    if e :| e in edges && e.targetType == "celerity/topic" && f.topic == e.target && f.labels == ParseAll(e.selectorKeys) {
      assert f in ForwardOf(e);
    }
  }

  // The annotation a link reads the variable's name from, the variable the inline handler
  // looks for, and the label the queue triggers its forwarder by.
  lemma ForwarderTexts(topic: string, index: nat, queue: string)
    ensures EnvVarNameKey(topic) == "aws.lambda.sns." + topic + "_sns_topic.envVarName"
    ensures EnvVarName(index) == "CELERITY_FORWARD_TOPIC_ARN_" + Decimal(index)
    ensures ForwardKey(queue) == "celerity.queue.forward." + queue
  {
    assert "CELERITY_FORWARD_TOPIC_ARN_" == ENV_PREFIX + "_";
  }
}
