// The SNS-to-SQS fan-out of a topic consumer. It belongs to the consumer, not to the
// handlers absorbing it, so however many there are it must be emitted once, and every
// handler's contribution to it must find it and agree with the others.
module Fanout {
  import opened Blueprint
  import opened Text
  import opened Sequences
  import opened Absorption
  import Consumers

  datatype FanoutKey =
    | QueueKey(consumer: string)
    | SubscriptionKey(consumer: string)
    | DeadLetterKey(consumer: string)

  function KeyText(key: FanoutKey): string {
    match key
    case QueueKey(c) => "topicQueue:" + c
    case SubscriptionKey(c) => "topicSubscription:" + c
    case DeadLetterKey(c) => "topicDLQ:" + c
  }

  lemma KeyTextInjective(k: FanoutKey, m: FanoutKey)
    ensures KeyText(k) == KeyText(m) <==> k == m
  {
    assert KeyText(k)[5] == (match k case QueueKey(_) => 'Q' case SubscriptionKey(_) => 'S' case DeadLetterKey(_) => 'D');
    assert KeyText(m)[5] == (match m case QueueKey(_) => 'Q' case SubscriptionKey(_) => 'S' case DeadLetterKey(_) => 'D');
    PrefixCancel("topicQueue:", k.consumer, m.consumer);
    PrefixCancel("topicSubscription:", k.consumer, m.consumer);
    PrefixCancel("topicDLQ:", k.consumer, m.consumer);
  }

  // A queue carries the selector that triggers the function, the subscription the queue it
  // delivers to, the dead-letter queue the label its queue selects it by.
  datatype FanoutParent =
    | QueueParent(key: FanoutKey, resource: string, selector: LabelMap, maxReceives: Option<string>)
    | SubscriptionParent(key: FanoutKey, resource: string, endpoint: Ref)
    | DeadLetterParent(key: FanoutKey, resource: string, labels: LabelMap)

  const MAX_ATTEMPTS := "celerity.consumer.deadLetterQueueMaxAttempts"

  function QueueResource(consumer: string): string {
    consumer + "_topic_queue"
  }

  function Family(b: ConsumerBinding): seq<FanoutParent> {
    var c := b.consumer;
    var attempts := if MAX_ATTEMPTS in c.annotations && c.deadLetterQueue then Some(c.annotations[MAX_ATTEMPTS]) else None;
    [QueueParent(QueueKey(c.name), QueueResource(c.name), map[PollKey(c.name) := "true"], attempts),
     SubscriptionParent(SubscriptionKey(c.name), c.name + "_sns_subscription", ResourceRef(QueueResource(c.name), "spec.arn"))]
    + if c.deadLetterQueue then [DeadLetterParent(DeadLetterKey(c.name), c.name + "_topic_dlq", map[PollKey(c.name) := "true"])] else []
  }

  function TopicBindings(h: ResolvedHandler): seq<ConsumerBinding> {
    FlatMap(h.bindings, TopicOnly)
  }

  function TopicOnly(b: ConsumerBinding): seq<ConsumerBinding> {
    if b.kind == TopicSource then [b] else []
  }

  function ConsumerNames(bindings: seq<ConsumerBinding>): set<string> {
    set b | b in bindings :: b.consumer.name
  }

  // The first binding of each consumer.
  function FirstPerConsumer(bindings: seq<ConsumerBinding>): seq<ConsumerBinding> {
    if bindings == [] then []
    else
      var n := |bindings| - 1;
      var first := FirstPerConsumer(bindings[..n]);
      if bindings[n].consumer.name in ConsumerNames(first) then first else first + [bindings[n]]
  }

  function FanoutParents(handlers: seq<ResolvedHandler>): seq<FanoutParent> {
    FlatMap(FirstPerConsumer(FlatMap(handlers, TopicBindings)), Family)
  }

  // The families and consumers of the bindings visited so far.
  ghost predicate Collected(parents: seq<FanoutParent>, seen: set<string>, visited: seq<ConsumerBinding>) {
    parents == FlatMap(FirstPerConsumer(visited), Family) && seen == ConsumerNames(FirstPerConsumer(visited))
  }

  method CollectTopicFanouts(handlers: seq<ResolvedHandler>) returns (parents: seq<FanoutParent>)
    ensures parents == FanoutParents(handlers)
  {
    parents := [];
    var seen: set<string> := {};
    for i := 0 to |handlers|
      invariant Collected(parents, seen, FlatMap(handlers[..i], TopicBindings))
    {
      assert handlers[..i + 1][..i] == handlers[..i];
      parents, seen := CollectHandlerFanouts(parents, seen, handlers[i], FlatMap(handlers[..i], TopicBindings));
    }
    assert handlers[..|handlers|] == handlers;
  }

  // The inner loop: one handler's bindings.
  method CollectHandlerFanouts(parents: seq<FanoutParent>, seen: set<string>, h: ResolvedHandler, ghost visited: seq<ConsumerBinding>)
    returns (parents': seq<FanoutParent>, seen': set<string>)
    requires Collected(parents, seen, visited)
    ensures Collected(parents', seen', visited + TopicBindings(h))
  {
    parents', seen' := parents, seen;
    assert visited + FlatMap(h.bindings[..0], TopicOnly) == visited;
    for j := 0 to |h.bindings|
      invariant Collected(parents', seen', visited + FlatMap(h.bindings[..j], TopicOnly))
    {
      FlatMapLast(visited, h.bindings, j, TopicOnly);
      parents', seen' := CollectBinding(parents', seen', h.bindings[j], visited + FlatMap(h.bindings[..j], TopicOnly));
    }
    assert h.bindings[..|h.bindings|] == h.bindings;
  }

  // The body of the inner loop.
  method CollectBinding(parents: seq<FanoutParent>, seen: set<string>, b: ConsumerBinding, ghost before: seq<ConsumerBinding>)
    returns (parents': seq<FanoutParent>, seen': set<string>)
    requires Collected(parents, seen, before)
    ensures Collected(parents', seen', before + TopicOnly(b))
  {
    VisitBinding(parents, seen, before, b);
    if b.kind != TopicSource || b.consumer.name in seen {
      return parents, seen;
    }
    seen' := seen + {b.consumer.name};
    parents' := parents + Family(b);
  }

  lemma VisitBinding(parents: seq<FanoutParent>, seen: set<string>, before: seq<ConsumerBinding>, b: ConsumerBinding)
    requires Collected(parents, seen, before)
    ensures if b.kind != TopicSource || b.consumer.name in seen then Collected(parents, seen, before + TopicOnly(b))
            else Collected(parents + Family(b), seen + {b.consumer.name}, before + TopicOnly(b))
  {
    FirstPerConsumerLast(before, b);
    if b.kind != TopicSource {
      assert before + TopicOnly(b) == before;
    }
  }

  lemma FirstPerConsumerLast(bindings: seq<ConsumerBinding>, b: ConsumerBinding)
    ensures var first := FirstPerConsumer(bindings);
            if b.consumer.name in ConsumerNames(first) then FirstPerConsumer(bindings + [b]) == first
            else FirstPerConsumer(bindings + [b]) == first + [b]
                 && FlatMap(first + [b], Family) == FlatMap(first, Family) + Family(b)
                 && ConsumerNames(first + [b]) == ConsumerNames(first) + {b.consumer.name}
  {
    assert (bindings + [b])[..|bindings|] == bindings;
    var first := FirstPerConsumer(bindings);
    assert (first + [b])[..|first|] == first;
  }

  // ---- One family per consumer ----

  lemma {:induction false} FirstPerConsumerExact(bindings: seq<ConsumerBinding>, name: string)
    ensures (exists b :: b in FirstPerConsumer(bindings) && b.consumer.name == name) <==>
            (exists b :: b in bindings && b.consumer.name == name)
    ensures forall b :: b in FirstPerConsumer(bindings) ==> b in bindings
    ensures forall i, j :: 0 <= i < j < |FirstPerConsumer(bindings)| ==>
              FirstPerConsumer(bindings)[i].consumer.name != FirstPerConsumer(bindings)[j].consumer.name
  {
    if bindings != [] {
      var n := |bindings| - 1;
      FirstPerConsumerExact(bindings[..n], name);
      assert bindings == bindings[..n] + [bindings[n]];
      var first := FirstPerConsumer(bindings[..n]);
      if bindings[n].consumer.name in ConsumerNames(first) {
        var b :| b in first && b.consumer.name == bindings[n].consumer.name;
        assert b in bindings;
      } else {
        forall i | 0 <= i < |first| ensures first[i].consumer.name != bindings[n].consumer.name {
          assert first[i] in first;
        }
      }
    }
  }

  function KeyCount(parents: seq<FanoutParent>, key: FanoutKey): nat {
    if parents == [] then 0
    else KeyCount(parents[..|parents| - 1], key) + if parents[|parents| - 1].key == key then 1 else 0
  }

  lemma {:induction false} KeyCountConcat(s: seq<FanoutParent>, t: seq<FanoutParent>, key: FanoutKey)
    ensures KeyCount(s + t, key) == KeyCount(s, key) + KeyCount(t, key)
  {
    if t == [] {
      assert s + t == s;
    } else {
      KeyCountConcat(s, t[..|t| - 1], key);
      assert (s + t)[..|s + t| - 1] == s + t[..|t| - 1];
    }
  }

  // How often a binding's family uses a key.
  function Uses(b: ConsumerBinding, key: FanoutKey): nat {
    if b.consumer.name != key.consumer then 0
    else if key.DeadLetterKey? && !b.consumer.deadLetterQueue then 0
    else 1
  }

  lemma FamilyKeyCount(b: ConsumerBinding, key: FanoutKey)
    ensures KeyCount(Family(b), key) == Uses(b, key)
  {
    var f := Family(b);
    var two := f[..2];
    assert two[..1][..0] == [] && two[..|two| - 1] == two[..1] && |two[..1]| == 1;
    assert KeyCount(two[..1], key) == if key == QueueKey(b.consumer.name) then 1 else 0;
    if b.consumer.deadLetterQueue {
      assert f[..|f| - 1] == two;
    } else {
      assert f == two;
    }
  }

  lemma {:induction false} FamiliesKeyCount(first: seq<ConsumerBinding>, key: FanoutKey)
    requires forall i, j :: 0 <= i < j < |first| ==> first[i].consumer.name != first[j].consumer.name
    ensures forall i :: 0 <= i < |first| && first[i].consumer.name == key.consumer ==>
              KeyCount(FlatMap(first, Family), key) == Uses(first[i], key)
    ensures (forall i :: 0 <= i < |first| ==> first[i].consumer.name != key.consumer) ==> KeyCount(FlatMap(first, Family), key) == 0
  {
    if first != [] {
      var n := |first| - 1;
      FamiliesKeyCount(first[..n], key);
      KeyCountConcat(FlatMap(first[..n], Family), Family(first[n]), key);
      FamilyKeyCount(first[n], key);
      forall i | 0 <= i < n ensures first[..n][i] == first[i] { }
    }
  }

  // Bindings of one consumer are equal, since classification depends only on the consumer
  // and the link graph.
  ghost predicate Consistent(handlers: seq<ResolvedHandler>) {
    var all := FlatMap(handlers, TopicBindings);
    forall b, d :: b in all && d in all && b.consumer.name == d.consumer.name ==> b == d
  }

  ghost predicate Absorbs(h: ResolvedHandler, b: ConsumerBinding) {
    b in h.bindings && b.kind == TopicSource
  }

  lemma AbsorbedIsTopicBinding(handlers: seq<ResolvedHandler>, b: ConsumerBinding)
    ensures b in FlatMap(handlers, TopicBindings) <==> exists h :: h in handlers && Absorbs(h, b)
  {
    FlatMapMember(handlers, TopicBindings, b);
    forall h: ResolvedHandler ensures b in TopicBindings(h) <==> Absorbs(h, b) {
      FlatMapMember(h.bindings, TopicOnly, b);
    }
  }

  // However many handlers absorb a topic consumer, it gets one queue, one subscription and,
  // unless disabled, one dead-letter queue; a key no handler absorbs is never used.
  lemma OneFamilyPerConsumer(handlers: seq<ResolvedHandler>, h: ResolvedHandler, b: ConsumerBinding, key: FanoutKey)
    requires Consistent(handlers) && h in handlers && Absorbs(h, b) && key.consumer == b.consumer.name
    ensures KeyCount(FanoutParents(handlers), key) == Uses(b, key)
  {
    var all := FlatMap(handlers, TopicBindings);
    AbsorbedIsTopicBinding(handlers, b);
    FirstPerConsumerExact(all, b.consumer.name);
    var d :| d in FirstPerConsumer(all) && d.consumer.name == b.consumer.name;
    assert d in all && d == b;
    var i := IndexOf(FirstPerConsumer(all), d);
    FamiliesKeyCount(FirstPerConsumer(all), key);
  }

  lemma NoFamilyWithoutConsumer(handlers: seq<ResolvedHandler>, key: FanoutKey)
    requires forall h, b :: h in handlers && Absorbs(h, b) ==> b.consumer.name != key.consumer
    ensures KeyCount(FanoutParents(handlers), key) == 0
  {
    var all := FlatMap(handlers, TopicBindings);
    FirstPerConsumerExact(all, key.consumer);
    forall i | 0 <= i < |FirstPerConsumer(all)| ensures FirstPerConsumer(all)[i].consumer.name != key.consumer {
      assert FirstPerConsumer(all)[i] in FirstPerConsumer(all);
      AbsorbedIsTopicBinding(handlers, FirstPerConsumer(all)[i]);
    }
    FamiliesKeyCount(FirstPerConsumer(all), key);
  }

  ghost function Classifier(graph: seq<Consumers.SourceLink>, isTopic: string -> bool): Consumer -> ConsumerBinding {
    (c: Consumer) => Consumers.Classify(c, graph, isTopic)
  }

  // The handler's bindings are what classification makes of its consumers.
  ghost predicate Classified(h: ResolvedHandler, graph: seq<Consumers.SourceLink>, isTopic: string -> bool) {
    h.bindings == Map(h.consumers, Classifier(graph, isTopic))
  }

  // A consumer is one resource of the blueprint, whichever handlers absorb it.
  ghost predicate OneConsumerPerName(handlers: seq<ResolvedHandler>) {
    forall h, k, c, d :: h in handlers && k in handlers && c in h.consumers && d in k.consumers && c.name == d.name ==> c == d
  }

  lemma BindingOfConsumer(handlers: seq<ResolvedHandler>, graph: seq<Consumers.SourceLink>, isTopic: string -> bool, b: ConsumerBinding)
    requires forall h :: h in handlers ==> Classified(h, graph, isTopic)
    requires b in FlatMap(handlers, TopicBindings)
    ensures b == Consumers.Classify(b.consumer, graph, isTopic)
    ensures exists h :: h in handlers && b.consumer in h.consumers
  {
    AbsorbedIsTopicBinding(handlers, b);
    var h :| h in handlers && Absorbs(h, b);
    MapMember(h.consumers, Classifier(graph, isTopic), b);
    var i :| 0 <= i < |h.consumers| && Classifier(graph, isTopic)(h.consumers[i]) == b;
    Consumers.ClassifiedIsWellFormed(h.consumers[i], graph, isTopic);
    assert b.consumer == h.consumers[i];
  }

  // Classification reads only the consumer and the graph, so every handler absorbing a
  // consumer binds it the same way, and the fan-outs always agree.
  lemma ClassifiedBindingsAreConsistent(handlers: seq<ResolvedHandler>, graph: seq<Consumers.SourceLink>, isTopic: string -> bool)
    requires forall h :: h in handlers ==> Classified(h, graph, isTopic)
    requires OneConsumerPerName(handlers)
    ensures Consistent(handlers)
  {
    var all := FlatMap(handlers, TopicBindings);
    forall b, d | b in all && d in all && b.consumer.name == d.consumer.name ensures b == d {
      BindingOfConsumer(handlers, graph, isTopic, b);
      BindingOfConsumer(handlers, graph, isTopic, d);
    }
  }

  // ---- Contributions ----

  // Each absorbing handler contributes the topic ARN, rewritten to its concrete form.
  function Contributions(bindings: seq<ConsumerBinding>, rewrite: SourceId -> SourceId): map<FanoutKey, SourceId> {
    if bindings == [] then map[]
    else
      var n := |bindings| - 1;
      var rest := Contributions(bindings[..n], rewrite);
      var b := bindings[n];
      if b.kind == TopicSource && b.topicArn.Some? then rest[SubscriptionKey(b.consumer.name) := rewrite(b.topicArn.value)] else rest
  }

  method TopicFanoutContributions(bindings: seq<ConsumerBinding>, rewrite: SourceId -> SourceId)
    returns (contributions: map<FanoutKey, SourceId>)
    ensures contributions == Contributions(bindings, rewrite)
  {
    contributions := map[];
    for i := 0 to |bindings|
      invariant contributions == Contributions(bindings[..i], rewrite)
    {
      assert bindings[..i + 1][..i] == bindings[..i];
      var b := bindings[i];
      if b.kind != TopicSource || b.topicArn.None? {
        continue;
      }
      contributions := contributions[SubscriptionKey(b.consumer.name) := rewrite(b.topicArn.value)];
    }
    assert bindings[..|bindings|] == bindings;
  }

  lemma {:induction false} ContributionHasBinding(bindings: seq<ConsumerBinding>, rewrite: SourceId -> SourceId, key: FanoutKey)
    requires key in Contributions(bindings, rewrite)
    ensures key.SubscriptionKey?
    ensures exists b :: b in bindings && b.kind == TopicSource && b.consumer.name == key.consumer && b.topicArn.Some?
              && Contributions(bindings, rewrite)[key] == rewrite(b.topicArn.value)
  {
    var n := |bindings| - 1;
    var last := bindings[n];
    assert bindings == bindings[..n] + [last];
    if last.kind == TopicSource && last.topicArn.Some? && key == SubscriptionKey(last.consumer.name) {
      assert last in bindings;
    } else {
      ContributionHasBinding(bindings[..n], rewrite, key);
    }
  }

  // Every contribution finds exactly one parent to merge into, and handlers contributing to
  // the same parent give it the same topic.
  lemma ContributionsMergeCleanly(handlers: seq<ResolvedHandler>, h: ResolvedHandler, k: ResolvedHandler,
                                  rewrite: SourceId -> SourceId, key: FanoutKey)
    requires Consistent(handlers) && h in handlers && k in handlers
    requires key in Contributions(h.bindings, rewrite)
    ensures KeyCount(FanoutParents(handlers), key) == 1
    ensures key in Contributions(k.bindings, rewrite) ==> Contributions(h.bindings, rewrite)[key] == Contributions(k.bindings, rewrite)[key]
  {
    ContributionHasBinding(h.bindings, rewrite, key);
    var b :| b in h.bindings && b.kind == TopicSource && b.consumer.name == key.consumer && b.topicArn.Some?
      && Contributions(h.bindings, rewrite)[key] == rewrite(b.topicArn.value);
    assert Absorbs(h, b);
    OneFamilyPerConsumer(handlers, h, b, key);
    if key in Contributions(k.bindings, rewrite) {
      ContributionHasBinding(k.bindings, rewrite, key);
      var d :| d in k.bindings && d.kind == TopicSource && d.consumer.name == key.consumer && d.topicArn.Some?
        && Contributions(k.bindings, rewrite)[key] == rewrite(d.topicArn.value);
      assert Absorbs(k, d);
      AbsorbedIsTopicBinding(handlers, b);
      AbsorbedIsTopicBinding(handlers, d);
    }
  }

  // ---- References to the fan-out ----

  // ${<consumer>.spec.subscriberId} becomes the fan-out queue's ARN.
  function RewriteSubscriberId(consumer: string, r: Ref): Option<Ref> {
    if r == ResourceRef(consumer, "spec.subscriberId") then Some(ResourceRef(QueueResource(consumer), "spec.arn")) else None
  }

  // The emitted family of a topic consumer some handler absorbs.
  lemma AbsorbedFamilyIsEmitted(handlers: seq<ResolvedHandler>, h: ResolvedHandler, b: ConsumerBinding) returns (d: ConsumerBinding)
    requires h in handlers && Absorbs(h, b)
    ensures d.consumer.name == b.consumer.name
    ensures Family(d)[0] in FanoutParents(handlers) && Family(d)[1] in FanoutParents(handlers)
  {
    var all := FlatMap(handlers, TopicBindings);
    AbsorbedIsTopicBinding(handlers, b);
    FirstPerConsumerExact(all, b.consumer.name);
    d :| d in FirstPerConsumer(all) && d.consumer.name == b.consumer.name;
    assert Family(d)[0] in Family(d) && Family(d)[1] in Family(d);
    FlatMapMember(FirstPerConsumer(all), Family, Family(d)[0]);
    FlatMapMember(FirstPerConsumer(all), Family, Family(d)[1]);
  }

  // A queue the rewritten subscriberId names, and that triggers the handler's function.
  ghost predicate Subscribes(p: FanoutParent, h: ResolvedHandler, b: ConsumerBinding) {
    p.QueueParent? && Selects(p.selector, EmittedLabels(h)) &&
    RewriteSubscriberId(b.consumer.name, ResourceRef(b.consumer.name, "spec.subscriberId")) == Some(ResourceRef(p.resource, "spec.arn"))
  }

  predicate DeliversTo(p: FanoutParent, queue: string) {
    p.SubscriptionParent? && p.endpoint == ResourceRef(queue, "spec.arn")
  }

  // The rewritten subscriber, and the subscription's endpoint, name a queue that is emitted,
  // and that queue's selector selects every function absorbing the consumer.
  lemma SubscriberIsEmittedQueue(handlers: seq<ResolvedHandler>, h: ResolvedHandler, b: ConsumerBinding)
    requires h in handlers && Absorbs(h, b)
    ensures exists p, q :: p in FanoutParents(handlers) && q in FanoutParents(handlers) && Subscribes(p, h, b) && DeliversTo(q, p.resource)
  {
    var d := AbsorbedFamilyIsEmitted(handlers, h, b);
    var queue, subscription := Family(d)[0], Family(d)[1];
    PollLabelStamped(h, b);
    assert PollKey(b.consumer.name) in queue.selector;
    assert Subscribes(queue, h, b) && DeliversTo(subscription, queue.resource);
  }

  lemma PollLabelStamped(h: ResolvedHandler, b: ConsumerBinding)
    requires Absorbs(h, b)
    ensures PollKey(b.consumer.name) in EmittedLabels(h) && EmittedLabels(h)[PollKey(b.consumer.name)] == "true"
  {
    InternalKeysDiffer();
    PrefixOfConcat(POLL_PREFIX, b.consumer.name);
    PolledLabel(h.bindings, WithGuardLabel(h, AuthorLabels(h)), b);
  }

  lemma {:induction false} PolledLabel(bindings: seq<ConsumerBinding>, labels: LabelMap, b: ConsumerBinding)
    requires b in bindings && b.kind == TopicSource
    ensures PollKey(b.consumer.name) in WithPollLabels(bindings, labels)
    ensures WithPollLabels(bindings, labels)[PollKey(b.consumer.name)] == "true"
  {
    var n := |bindings| - 1;
    if b in bindings[..n] {
      PolledLabel(bindings[..n], labels, b);
    }
  }

  // ---- What a family is ----

  // The parts of a consumer's family, by its own settings.
  predicate PartOf(c: Consumer, p: FanoutParent) {
    var poll: LabelMap := map["celerity.consumer.topicPoll." + c.name := "true"];
    var attempts := "celerity.consumer.deadLetterQueueMaxAttempts";
    match p
    case QueueParent(key, resource, selector, maxReceives) =>
      && key == QueueKey(c.name) && resource == c.name + "_topic_queue" && selector == poll
      && maxReceives == if c.deadLetterQueue && attempts in c.annotations then Some(c.annotations[attempts]) else None
    case SubscriptionParent(key, resource, endpoint) =>
      && key == SubscriptionKey(c.name) && resource == c.name + "_sns_subscription"
      && endpoint == ResourceRef(c.name + "_topic_queue", "spec.arn")
    case DeadLetterParent(key, resource, labels) =>
      c.deadLetterQueue && key == DeadLetterKey(c.name) && resource == c.name + "_topic_dlq" && labels == poll
  }

  // A family is a queue that selects the functions polling for the consumer, the
  // subscription that delivers to that queue, and, only when enabled, the dead-letter queue
  // the queue selects.
  lemma FamilyExact(b: ConsumerBinding, p: FanoutParent)
    ensures p in Family(b) <==> PartOf(b.consumer, p)
  {
    var parts := Family(b);
    assert parts[0].QueueParent? && parts[1].SubscriptionParent?;
    if b.consumer.deadLetterQueue {
      assert parts[2].DeadLetterParent?;
    }
  }
}
