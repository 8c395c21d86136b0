// The queue-to-topic forwarder as a protocol. A batch of queue records is republished to
// every target topic; the invocation answers with the records whose publishes failed, and
// only the others are deleted from the queue.
module Forwarder {
  import opened Blueprint

  type Topic = string

  datatype Message = Message(id: nat, group: Option<string>, body: string)

  // What a topic accepts: the group, when there is one, with the message id as the
  // deduplication id.
  datatype Publication = Publication(body: string, group: Option<string>, dedup: Option<nat>)

  function Publish(m: Message): Publication {
    Publication(m.body, m.group, if m.group.Some? then Some(m.id) else None)
  }

  // The publication carries the record: its body and its group, and with a group the
  // record's own id to deduplicate by.
  predicate Carries(p: Publication, m: Message) {
    p.body == m.body && p.group == m.group &&
    (m.group.Some? ==> p.dedup == Some(m.id)) && (m.group.None? ==> p.dedup == None)
  }

  predicate Has(log: seq<Publication>, m: Message) {
    exists i :: 0 <= i < |log| && Carries(log[i], m)
  }

  lemma PublishCarries(m: Message)
    ensures forall p :: Carries(p, m) <==> p == Publish(m)
  {
  }

  // One invocation. rejected and accepted are the settled publishes of the current record;
  // outcomes keeps, for each finished record, the topics whose publish was rejected.
  datatype Batch = Batch(
    records: seq<Message>,
    accepted: set<Topic>,
    rejected: set<Topic>,
    outcomes: seq<set<Topic>>,
    failures: seq<nat>
  )

  // queued holds every message that has not been deleted, whether visible or in flight.
  datatype State = State(
    queued: set<Message>,
    deleted: set<Message>,
    batches: map<nat, Batch>,
    logs: map<Topic, seq<Publication>>
  )

  datatype Step =
    | Send(m: Message)
    | Receive(b: nat, records: seq<Message>)
    | Accept(b: nat, t: Topic)
    | Reject(b: nat, t: Topic)
    | LoseReply(b: nat, t: Topic)
    | Settle(b: nat)
    | Complete(b: nat)
    | Crash(b: nat)

  ghost predicate Distinct(records: seq<Message>) {
    forall i, j :: 0 <= i < j < |records| ==> records[i].id != records[j].id
  }

  predicate Running(s: State, b: nat) {
    b in s.batches && |s.batches[b].outcomes| < |s.batches[b].records|
  }

  predicate Awaiting(targets: set<Topic>, s: State, b: nat, t: Topic) {
    Running(s, b) && t in targets && t in s.logs && t !in s.batches[b].accepted + s.batches[b].rejected
  }

  function Current(batch: Batch): Message
    requires |batch.outcomes| < |batch.records|
  {
    batch.records[|batch.outcomes|]
  }

  // A batch may be received again while another invocation still holds its records, and a
  // crash may come between any two publishes.
  ghost predicate Enabled(targets: set<Topic>, s: State, step: Step) {
    match step
    case Send(m) => forall n :: n in s.queued + s.deleted ==> n.id != m.id
    case Receive(b, records) =>
      b !in s.batches && Distinct(records) && forall i :: 0 <= i < |records| ==> records[i] in s.queued
    case Accept(b, t) => Awaiting(targets, s, b, t)
    case Reject(b, t) => Awaiting(targets, s, b, t)
    case LoseReply(b, t) => Awaiting(targets, s, b, t)
    case Settle(b) => Running(s, b) && s.batches[b].accepted + s.batches[b].rejected == targets
    case Complete(b) => b in s.batches && |s.batches[b].outcomes| == |s.batches[b].records|
    case Crash(b) => b in s.batches
  }

  function Append(logs: map<Topic, seq<Publication>>, t: Topic, m: Message): map<Topic, seq<Publication>>
    requires t in logs
  {
    logs[t := logs[t] + [Publish(m)]]
  }

  function Settled(batch: Batch): Batch
    requires |batch.outcomes| < |batch.records|
  {
    Batch(batch.records, {}, {}, batch.outcomes + [batch.rejected],
          if batch.rejected != {} then batch.failures + [Current(batch).id] else batch.failures)
  }

  // The records the queue deletes: those not named in batchItemFailures.
  function Done(batch: Batch): set<Message> {
    set i | 0 <= i < |batch.records| && batch.records[i].id !in batch.failures :: batch.records[i]
  }

  ghost function Next(targets: set<Topic>, s: State, step: Step): State
    requires Enabled(targets, s, step)
  {
    match step
    case Send(m) => s.(queued := s.queued + {m})
    case Receive(b, records) => s.(batches := s.batches[b := Batch(records, {}, {}, [], [])])
    case Accept(b, t) =>
      var batch := s.batches[b];
      s.(logs := Append(s.logs, t, Current(batch)),
         batches := s.batches[b := batch.(accepted := batch.accepted + {t})])
    case Reject(b, t) =>
      var batch := s.batches[b];
      s.(batches := s.batches[b := batch.(rejected := batch.rejected + {t})])
    case LoseReply(b, t) =>
      // the topic took the message but the publish is reported as rejected
      var batch := s.batches[b];
      s.(logs := Append(s.logs, t, Current(batch)),
         batches := s.batches[b := batch.(rejected := batch.rejected + {t})])
    case Settle(b) => s.(batches := s.batches[b := Settled(s.batches[b])])
    case Complete(b) =>
      s.(queued := s.queued - Done(s.batches[b]),
         deleted := s.deleted + (s.queued * Done(s.batches[b])),
         batches := s.batches - {b})
    case Crash(b) => s.(batches := s.batches - {b})
  }

  ghost predicate Initial(targets: set<Topic>, s: State) {
    s.queued == {} && s.deleted == {} && s.batches == map[] &&
    s.logs.Keys == targets && forall t :: t in s.logs ==> s.logs[t] == []
  }

  // A run applies enabled steps one after another.
  ghost predicate Run(targets: set<Topic>, states: seq<State>, steps: seq<Step>) {
    |states| == |steps| + 1 &&
    forall i :: 0 <= i < |steps| ==>
      Enabled(targets, states[i], steps[i]) && states[i + 1] == Next(targets, states[i], steps[i])
  }

  // ---- Safety ----

  ghost predicate Delivered(targets: set<Topic>, logs: map<Topic, seq<Publication>>, m: Message) {
    forall t :: t in targets ==> t in logs && Has(logs[t], m)
  }

  ghost predicate BatchValid(targets: set<Topic>, s: State, batch: Batch) {
    && |batch.outcomes| <= |batch.records|
    && Distinct(batch.records)
    && (forall i :: 0 <= i < |batch.records| ==> batch.records[i] in s.queued + s.deleted)
    && (forall i :: 0 <= i < |batch.outcomes| && batch.outcomes[i] == {} ==> Delivered(targets, s.logs, batch.records[i]))
    && (forall i :: 0 <= i < |batch.outcomes| ==> (batch.outcomes[i] != {} <==> batch.records[i].id in batch.failures))
    && (forall id :: id in batch.failures ==> exists i :: 0 <= i < |batch.outcomes| && batch.records[i].id == id)
    && (|batch.outcomes| == |batch.records| ==> batch.accepted == {} && batch.rejected == {})
    && (forall t :: t in batch.accepted && |batch.outcomes| < |batch.records| ==>
          t in s.logs && Has(s.logs[t], Current(batch)))
  }

  ghost predicate Valid(targets: set<Topic>, s: State) {
    && s.logs.Keys == targets
    && s.queued !! s.deleted
    && (forall m, n :: m in s.queued + s.deleted && n in s.queued + s.deleted && m.id == n.id ==> m == n)
    && (forall m :: m in s.deleted ==> Delivered(targets, s.logs, m))
    && (forall b :: b in s.batches ==> BatchValid(targets, s, s.batches[b]))
  }

  // Logs only grow.
  ghost predicate Extends(logs: map<Topic, seq<Publication>>, logs': map<Topic, seq<Publication>>) {
    logs.Keys == logs'.Keys && forall t :: t in logs ==> logs[t] <= logs'[t]
  }

  lemma LongerLogHas(log: seq<Publication>, log': seq<Publication>, m: Message)
    requires log <= log' && Has(log, m)
    ensures Has(log', m)
  {
    var i :| 0 <= i < |log| && Carries(log[i], m);
    assert log'[i] == log[i];
  }

  lemma ExtensionKeepsDelivered(targets: set<Topic>, logs: map<Topic, seq<Publication>>,
                                logs': map<Topic, seq<Publication>>, m: Message)
    requires Extends(logs, logs') && Delivered(targets, logs, m)
    ensures Delivered(targets, logs', m)
  {
    forall t | t in targets ensures t in logs' && Has(logs'[t], m) {
      LongerLogHas(logs[t], logs'[t], m);
    }
  }

  lemma ExtensionKeepsBatch(targets: set<Topic>, s: State, s': State, batch: Batch)
    requires Extends(s.logs, s'.logs) && s.queued + s.deleted <= s'.queued + s'.deleted
    requires BatchValid(targets, s, batch)
    ensures BatchValid(targets, s', batch)
  {
    forall i | 0 <= i < |batch.outcomes| && batch.outcomes[i] == {}
      ensures Delivered(targets, s'.logs, batch.records[i])
    {
      ExtensionKeepsDelivered(targets, s.logs, s'.logs, batch.records[i]);
    }
    forall t | t in batch.accepted && |batch.outcomes| < |batch.records|
      ensures t in s'.logs && Has(s'.logs[t], Current(batch))
    {
      LongerLogHas(s.logs[t], s'.logs[t], Current(batch));
    }
  }

  lemma PublishKeepsBatch(targets: set<Topic>, s: State, step: Step)
    requires Valid(targets, s) && Enabled(targets, s, step)
    requires step.Accept? || step.Reject? || step.LoseReply?
    ensures BatchValid(targets, Next(targets, s, step), Next(targets, s, step).batches[step.b])
    ensures Extends(s.logs, Next(targets, s, step).logs)
  {
    var s' := Next(targets, s, step);
    var batch := s.batches[step.b];
    ExtensionKeepsBatch(targets, s, s', batch);
    if step.Accept? {
      PublishCarries(Current(batch));
      assert s'.logs[step.t][|s.logs[step.t]|] == Publish(Current(batch));
      AcceptedKeepsBatch(targets, s', batch, step.t);
    } else {
      RejectedKeepsBatch(targets, s', batch, step.t);
    }
  }

  lemma AcceptedKeepsBatch(targets: set<Topic>, s: State, batch: Batch, t: Topic)
    requires BatchValid(targets, s, batch) && |batch.outcomes| < |batch.records|
    requires t in s.logs && Has(s.logs[t], Current(batch))
    ensures BatchValid(targets, s, batch.(accepted := batch.accepted + {t}))
  {
  }

  lemma RejectedKeepsBatch(targets: set<Topic>, s: State, batch: Batch, t: Topic)
    requires BatchValid(targets, s, batch) && |batch.outcomes| < |batch.records|
    ensures BatchValid(targets, s, batch.(rejected := batch.rejected + {t}))
  {
  }

  lemma SettleKeepsBatch(targets: set<Topic>, s: State, b: nat)
    requires Valid(targets, s) && Enabled(targets, s, Settle(b))
    ensures BatchValid(targets, s, Settled(s.batches[b]))
  {
    var batch := s.batches[b];
    var n := |batch.outcomes|;
    var after := Settled(batch);
    if batch.rejected == {} {
      assert batch.accepted == targets;
    }
    assert after.outcomes[n] == batch.rejected;
    forall i | 0 <= i < |after.outcomes|
      ensures after.outcomes[i] != {} <==> after.records[i].id in after.failures
    {
      if i == n {
        assert batch.records[n].id in after.failures <==>
               batch.rejected != {} || batch.records[n].id in batch.failures;
      } else {
        assert batch.records[i].id != batch.records[n].id;
      }
    }
  }

  // Messages are only ever added, to the logs and to the queue.
  lemma StepAdds(targets: set<Topic>, s: State, step: Step)
    requires Valid(targets, s) && Enabled(targets, s, step)
    ensures var s' := Next(targets, s, step);
            Extends(s.logs, s'.logs) && s.queued + s.deleted <= s'.queued + s'.deleted && s.deleted <= s'.deleted
  {
  }

  lemma StepKeepsApart(targets: set<Topic>, s: State, step: Step, m: Message)
    requires Valid(targets, s) && Enabled(targets, s, step) && m in Next(targets, s, step).queued
    ensures m !in Next(targets, s, step).deleted
  {
    if m in s.queued {
      assert m !in s.deleted;
    }
  }

  lemma StepKeepsMessages(targets: set<Topic>, s: State, step: Step)
    requires Valid(targets, s) && Enabled(targets, s, step)
    ensures var s' := Next(targets, s, step);
            s'.logs.Keys == targets && s'.queued !! s'.deleted &&
            (forall m, n :: m in s'.queued + s'.deleted && n in s'.queued + s'.deleted && m.id == n.id ==> m == n)
  {
    var s' := Next(targets, s, step);
    forall m | m in s'.queued ensures m !in s'.deleted {
      StepKeepsApart(targets, s, step, m);
    }
    assert s'.queued * s'.deleted == {};
  }

  lemma StepKeepsDelivered(targets: set<Topic>, s: State, step: Step, m: Message)
    requires Valid(targets, s) && Enabled(targets, s, step) && m in Next(targets, s, step).deleted
    ensures Delivered(targets, Next(targets, s, step).logs, m)
  {
    StepAdds(targets, s, step);
    if m in s.deleted {
      ExtensionKeepsDelivered(targets, s.logs, Next(targets, s, step).logs, m);
    } else {
      CompletedRecordFate(targets, s, step.b, m);
    }
  }

  lemma StepKeepsBatch(targets: set<Topic>, s: State, step: Step, c: nat)
    requires Valid(targets, s) && Enabled(targets, s, step) && c in Next(targets, s, step).batches
    ensures BatchValid(targets, Next(targets, s, step), Next(targets, s, step).batches[c])
  {
    var s' := Next(targets, s, step);
    StepAdds(targets, s, step);
    if c in s.batches && s'.batches[c] == s.batches[c] {
      ExtensionKeepsBatch(targets, s, s', s.batches[c]);
    } else if step.Settle? {
      SettleKeepsBatch(targets, s, c);
    } else if !step.Receive? {
      PublishKeepsBatch(targets, s, step);
    }
  }

  lemma StepKeepsValid(targets: set<Topic>, s: State, step: Step)
    requires Valid(targets, s) && Enabled(targets, s, step)
    ensures Valid(targets, Next(targets, s, step))
    ensures Extends(s.logs, Next(targets, s, step).logs)
    ensures s.queued + s.deleted <= Next(targets, s, step).queued + Next(targets, s, step).deleted
    ensures s.deleted <= Next(targets, s, step).deleted
  {
    var s' := Next(targets, s, step);
    StepAdds(targets, s, step);
    StepKeepsMessages(targets, s, step);
    forall m | m in s'.deleted ensures Delivered(targets, s'.logs, m) {
      StepKeepsDelivered(targets, s, step, m);
    }
    forall c | c in s'.batches ensures BatchValid(targets, s', s'.batches[c]) {
      StepKeepsBatch(targets, s, step, c);
    }
  }

  lemma CompletedRecordFate(targets: set<Topic>, s: State, b: nat, m: Message)
    requires Valid(targets, s) && Enabled(targets, s, Complete(b)) && m in Done(s.batches[b])
    ensures Delivered(targets, s.logs, m)
  {
    var batch := s.batches[b];
    var i :| 0 <= i < |batch.records| && batch.records[i] == m;
    assert batch.outcomes[i] == {};
  }

  // In every state of every run, a message that has left the queue was accepted by every
  // target topic.
  lemma {:induction false} DeletedOnlyWhenDelivered(targets: set<Topic>, states: seq<State>, steps: seq<Step>, i: nat)
    requires Run(targets, states, steps) && Initial(targets, states[0]) && i < |states|
    ensures Valid(targets, states[i])
    ensures forall m :: m in states[i].deleted ==> Delivered(targets, states[i].logs, m)
  {
    if i > 0 {
      DeletedOnlyWhenDelivered(targets, states, steps, i - 1);
      StepKeepsValid(targets, states[i - 1], steps[i - 1]);
    }
  }

  // Nothing is published but what was sent.
  ghost predicate Sent(s: State, p: Publication) {
    exists m :: m in s.queued + s.deleted && Carries(p, m)
  }

  ghost predicate OnlySent(s: State) {
    forall t, i :: t in s.logs && 0 <= i < |s.logs[t]| ==> Sent(s, s.logs[t][i])
  }

  lemma SentStays(s: State, s': State, p: Publication)
    requires Sent(s, p) && s.queued + s.deleted <= s'.queued + s'.deleted
    ensures Sent(s', p)
  {
    var m :| m in s.queued + s.deleted && Carries(p, m);
    assert m in s'.queued + s'.deleted;
  }

  // A step adds to the logs at most one publication, of the current record of its batch.
  lemma StepAppends(targets: set<Topic>, s: State, step: Step, t: Topic, i: nat)
    requires Enabled(targets, s, step) && t in Next(targets, s, step).logs && t in s.logs
    requires |s.logs[t]| <= i < |Next(targets, s, step).logs[t]|
    ensures (step.Accept? || step.LoseReply?) && Running(s, step.b)
    ensures Next(targets, s, step).logs[t][i] == Publish(Current(s.batches[step.b]))
  {
  }

  lemma CurrentIsSent(targets: set<Topic>, s: State, b: nat)
    requires Valid(targets, s) && Running(s, b)
    ensures Sent(s, Publish(Current(s.batches[b])))
  {
    var batch := s.batches[b];
    PublishCarries(Current(batch));
    assert BatchValid(targets, s, batch) && Current(batch) in s.queued + s.deleted;
  }

  lemma StepPublishesOnlySent(targets: set<Topic>, s: State, step: Step)
    requires Valid(targets, s) && Enabled(targets, s, step) && OnlySent(s)
    ensures OnlySent(Next(targets, s, step))
  {
    var s' := Next(targets, s, step);
    StepAdds(targets, s, step);
    forall t, i | t in s'.logs && 0 <= i < |s'.logs[t]| ensures Sent(s', s'.logs[t][i]) {
      if i < |s.logs[t]| {
        assert s'.logs[t][i] == s.logs[t][i];
      } else {
        StepAppends(targets, s, step, t, i);
        CurrentIsSent(targets, s, step.b);
      }
      SentStays(s, s', s'.logs[t][i]);
    }
  }

  // In every state of every run, each publication on a topic carries a message that was sent.
  lemma {:induction false} PublishedWasSent(targets: set<Topic>, states: seq<State>, steps: seq<Step>, i: nat)
    requires Run(targets, states, steps) && Initial(targets, states[0]) && i < |states|
    ensures OnlySent(states[i])
  {
    if i > 0 {
      PublishedWasSent(targets, states, steps, i - 1);
      DeletedOnlyWhenDelivered(targets, states, steps, i - 1);
      StepPublishesOnlySent(targets, states[i - 1], steps[i - 1]);
    }
  }

  lemma StepHoldsMessage(targets: set<Topic>, s: State, step: Step, m: Message)
    requires Enabled(targets, s, step) && m in s.queued + s.deleted
    ensures m in Next(targets, s, step).queued + Next(targets, s, step).deleted
  {
  }

  lemma {:induction false} MessageIsHeld(targets: set<Topic>, states: seq<State>, steps: seq<Step>, i: nat, j: nat, m: Message)
    requires Run(targets, states, steps) && i <= j < |states| && m in states[i].queued
    ensures m in states[j].queued + states[j].deleted
  {
    if i < j {
      MessageIsHeld(targets, states, steps, i, j - 1, m);
      StepHoldsMessage(targets, states[j - 1], steps[j - 1], m);
    }
  }

  // No message is lost: from then on it is in the queue or delivered everywhere.
  lemma NothingIsLost(targets: set<Topic>, states: seq<State>, steps: seq<Step>, i: nat, j: nat, m: Message)
    requires Run(targets, states, steps) && Initial(targets, states[0]) && i <= j < |states|
    requires m in states[i].queued
    ensures m in states[j].queued || Delivered(targets, states[j].logs, m)
    ensures m in states[j].queued + states[j].deleted
  {
    MessageIsHeld(targets, states, steps, i, j, m);
    DeletedOnlyWhenDelivered(targets, states, steps, j);
  }

  // A completed batch keeps a record for retry exactly when one of that record's own
  // publishes was rejected; no other record's failure matters.
  lemma RetriesExactlyTheFailed(targets: set<Topic>, states: seq<State>, steps: seq<Step>, i: nat, k: nat)
    requires Run(targets, states, steps) && Initial(targets, states[0]) && i < |steps|
    requires steps[i].Complete? && k < |states[i].batches[steps[i].b].records|
    ensures var batch := states[i].batches[steps[i].b];
            && (batch.records[k] in states[i].queued ==>
                  (batch.records[k] in states[i + 1].queued <==> batch.outcomes[k] != {}))
            && (batch.records[k] in states[i + 1].deleted <==>
                  batch.records[k] in states[i].deleted || batch.outcomes[k] == {})
  {
    DeletedOnlyWhenDelivered(targets, states, steps, i);
    var batch := states[i].batches[steps[i].b];
    assert batch.records[k] in Done(batch) <==> batch.outcomes[k] == {};
  }

  // A message outside the batch is untouched by its completion.
  lemma CompletionTouchesOnlyItsBatch(targets: set<Topic>, s: State, b: nat, m: Message)
    requires Enabled(targets, s, Complete(b)) && m !in s.batches[b].records
    ensures m in Next(targets, s, Complete(b)).queued <==> m in s.queued
    ensures m in Next(targets, s, Complete(b)).deleted <==> m in s.deleted
  {
  }

  // ---- The inline handler ----

  datatype Outcome = Accepted | Rejected | AcceptedReplyLost

  function StepFor(b: nat, t: Topic, o: Outcome): Step {
    match o
    case Accepted => Accept(b, t)
    case Rejected => Reject(b, t)
    case AcceptedReplyLost => LoseReply(b, t)
  }

  // The topics, in publishing order, that took a record and those that rejected it.
  function RejectedBy(topics: seq<Topic>, outcome: Topic -> Outcome): set<Topic> {
    set t | t in topics && outcome(t) != Accepted
  }

  function LogsAfterRecord(logs: map<Topic, seq<Publication>>, topics: seq<Topic>, outcome: Topic -> Outcome, m: Message)
    : (r: map<Topic, seq<Publication>>)
    requires forall t :: t in topics ==> t in logs
    ensures r.Keys == logs.Keys
  {
    if topics == [] then logs
    else
      var n := |topics| - 1;
      var before := LogsAfterRecord(logs, topics[..n], outcome, m);
      if outcome(topics[n]) == Rejected then before else Append(before, topics[n], m)
  }

  function FailuresOf(records: seq<Message>, topics: seq<Topic>, outcomes: seq<Topic -> Outcome>): seq<nat>
    requires |records| == |outcomes|
  {
    if records == [] then []
    else
      var n := |records| - 1;
      FailuresOf(records[..n], topics, outcomes[..n]) +
      if RejectedBy(topics, outcomes[n]) != {} then [records[n].id] else []
  }

  function LogsAfter(logs: map<Topic, seq<Publication>>, records: seq<Message>, topics: seq<Topic>,
                     outcomes: seq<Topic -> Outcome>): (r: map<Topic, seq<Publication>>)
    requires |records| == |outcomes|
    requires forall t :: t in topics ==> t in logs
    ensures r.Keys == logs.Keys
  {
    if records == [] then logs
    else
      var n := |records| - 1;
      LogsAfterRecord(LogsAfter(logs, records[..n], topics, outcomes[..n]), topics, outcomes[n], records[n])
  }

  ghost predicate DistinctTopics(topics: seq<Topic>) {
    forall i, j :: 0 <= i < j < |topics| ==> topics[i] != topics[j]
  }

  // The records a topic took, in their order.
  function TakenBy(t: Topic, records: seq<Message>, outcomes: seq<Topic -> Outcome>): seq<Message>
    requires |records| == |outcomes|
  {
    if records == [] then []
    else
      var n := |records| - 1;
      TakenBy(t, records[..n], outcomes[..n]) + if outcomes[n](t) == Rejected then [] else [records[n]]
  }

  // after is log, then one publication carrying each message.
  predicate Grew(log: seq<Publication>, after: seq<Publication>, messages: seq<Message>) {
    && |after| == |log| + |messages| && log <= after
    && forall i :: 0 <= i < |messages| ==> Carries(after[|log| + i], messages[i])
  }

  lemma {:induction false} RecordLogged(logs: map<Topic, seq<Publication>>, topics: seq<Topic>, outcome: Topic -> Outcome, m: Message, t: Topic)
    requires (forall u :: u in topics ==> u in logs) && DistinctTopics(topics) && t in logs
    ensures LogsAfterRecord(logs, topics, outcome, m)[t] ==
            if t in topics && outcome(t) != Rejected then logs[t] + [Publish(m)] else logs[t]
  {
    if topics != [] {
      RecordLogged(logs, topics[..|topics| - 1], outcome, m, t);
    }
  }

  // Whatever the outcomes, each topic's log grows by the records it took, in their order,
  // and no other topic's does.
  lemma {:induction false} LogsGrow(logs: map<Topic, seq<Publication>>, records: seq<Message>, topics: seq<Topic>,
                                    outcomes: seq<Topic -> Outcome>, t: Topic)
    requires |records| == |outcomes| && (forall u :: u in topics ==> u in logs) && DistinctTopics(topics) && t in logs
    ensures Grew(logs[t], LogsAfter(logs, records, topics, outcomes)[t], if t in topics then TakenBy(t, records, outcomes) else [])
  {
    if records != [] {
      var n := |records| - 1;
      LogsGrow(logs, records[..n], topics, outcomes[..n], t);
      RecordLogged(LogsAfter(logs, records[..n], topics, outcomes[..n]), topics, outcomes[n], records[n], t);
      PublishCarries(records[n]);
    }
  }

  class Sns {
    var logs: map<Topic, seq<Publication>>

    constructor (topics: set<Topic>)
      ensures logs == map t | t in topics :: []
    {
      logs := map t | t in topics :: [];
    }

    // One publish command. Whether it succeeds is up to the service and the network.
    method Send(t: Topic, p: Publication, outcome: Outcome) returns (rejected: bool)
      requires t in logs
      modifies this
      ensures logs == if outcome == Rejected then old(logs) else old(logs)[t := old(logs)[t] + [p]]
      ensures rejected <==> outcome != Accepted
    {
      if outcome != Rejected {
        logs := logs[t := logs[t] + [p]];
      }
      rejected := outcome != Accepted;
    }
  }

  // One record, published to every topic.
  method PublishRecord(sns: Sns, topics: seq<Topic>, m: Message, outcome: Topic -> Outcome) returns (failed: bool)
    requires forall t :: t in topics ==> t in sns.logs
    modifies sns
    ensures failed <==> RejectedBy(topics, outcome) != {}
    ensures sns.logs == LogsAfterRecord(old(sns.logs), topics, outcome, m)
  {
    failed := false;
    for j := 0 to |topics|
      invariant sns.logs.Keys == old(sns.logs.Keys)
      invariant sns.logs == LogsAfterRecord(old(sns.logs), topics[..j], outcome, m)
      invariant failed <==> RejectedBy(topics[..j], outcome) != {}
    {
      assert topics[..j + 1][..j] == topics[..j];
      assert topics[..j + 1] == topics[..j] + [topics[j]];
      assert RejectedBy(topics[..j + 1], outcome) ==
             RejectedBy(topics[..j], outcome) + if outcome(topics[j]) != Accepted then {topics[j]} else {};
      var rejected := sns.Send(topics[j], Publish(m), outcome(topics[j]));
      failed := failed || rejected;
    }
    assert topics[..|topics|] == topics;
  }

  // The inline function: records in order, each settled on every topic before the next.
  method HandleBatch(sns: Sns, topics: seq<Topic>, records: seq<Message>, outcomes: seq<Topic -> Outcome>)
    returns (batchItemFailures: seq<nat>)
    requires |outcomes| == |records|
    requires forall t :: t in topics ==> t in sns.logs
    modifies sns
    ensures batchItemFailures == FailuresOf(records, topics, outcomes)
    ensures sns.logs == LogsAfter(old(sns.logs), records, topics, outcomes)
    ensures DistinctTopics(topics) ==>
              forall t :: t in topics ==> Grew(old(sns.logs[t]), sns.logs[t], TakenBy(t, records, outcomes))
  {
    batchItemFailures := [];
    for i := 0 to |records|
      invariant sns.logs.Keys == old(sns.logs.Keys)
      invariant batchItemFailures == FailuresOf(records[..i], topics, outcomes[..i])
      invariant sns.logs == LogsAfter(old(sns.logs), records[..i], topics, outcomes[..i])
    {
      assert records[..i + 1][..i] == records[..i] && outcomes[..i + 1][..i] == outcomes[..i];
      var failed := PublishRecord(sns, topics, records[i], outcomes[i]);
      if failed {
        batchItemFailures := batchItemFailures + [records[i].id];
      }
    }
    assert records[..|records|] == records && outcomes[..|outcomes|] == outcomes;
    forall t | t in topics && DistinctTopics(topics) ensures Grew(old(sns.logs[t]), sns.logs[t], TakenBy(t, records, outcomes)) {
      LogsGrow(old(sns.logs), records, topics, outcomes, t);
    }
  }
}
