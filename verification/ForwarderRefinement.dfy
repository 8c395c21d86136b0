// The inline handler is a run of the forwarder protocol, so what holds of every protocol
// run holds of the handler.
module ForwarderRefinement {
  import opened Blueprint
  import opened Forwarder
  import opened Sequences

  // The state after taking the steps from s, when each is enabled in turn.
  ghost function After(targets: set<Topic>, s: State, steps: seq<Step>): Option<State> {
    if steps == [] then Some(s)
    else
      var n := |steps| - 1;
      var before := After(targets, s, steps[..n]);
      if before.Some? && Enabled(targets, before.value, steps[n]) then Some(Next(targets, before.value, steps[n]))
      else None
  }

  lemma {:induction false} AfterConcat(targets: set<Topic>, s: State, xs: seq<Step>, ys: seq<Step>)
    requires After(targets, s, xs).Some?
    ensures After(targets, s, xs + ys) == After(targets, After(targets, s, xs).value, ys)
  {
    if ys == [] {
      assert xs + ys == xs;
    } else {
      var n := |ys| - 1;
      AfterConcat(targets, s, xs, ys[..n]);
      assert (xs + ys)[..|xs + ys| - 1] == xs + ys[..n];
    }
  }

  // Steps that can be taken from a valid state keep it valid.
  lemma {:induction false} AfterKeepsValid(targets: set<Topic>, s: State, steps: seq<Step>)
    requires Valid(targets, s) && After(targets, s, steps).Some?
    ensures Valid(targets, After(targets, s, steps).value)
  {
    if steps != [] {
      var n := |steps| - 1;
      AfterKeepsValid(targets, s, steps[..n]);
      StepKeepsValid(targets, After(targets, s, steps[..n]).value, steps[n]);
    }
  }

  function RecordSteps(b: nat, topics: seq<Topic>, outcome: Topic -> Outcome): seq<Step> {
    if topics == [] then []
    else
      var n := |topics| - 1;
      RecordSteps(b, topics[..n], outcome) + [StepFor(b, topics[n], outcome(topics[n]))]
  }

  function BatchSteps(b: nat, topics: seq<Topic>, outcomes: seq<Topic -> Outcome>): seq<Step> {
    if outcomes == [] then []
    else
      var n := |outcomes| - 1;
      BatchSteps(b, topics, outcomes[..n]) + (RecordSteps(b, topics, outcomes[n]) + [Settle(b)])
  }

  function AcceptedBy(topics: seq<Topic>, outcome: Topic -> Outcome): set<Topic> {
    set t | t in topics && outcome(t) == Accepted
  }

  // s with one batch and the logs replaced.
  function With(s: State, b: nat, batch: Batch, logs: map<Topic, seq<Publication>>): State {
    State(s.queued, s.deleted, s.batches[b := batch], logs)
  }

  lemma WithTwice(s: State, b: nat, x: Batch, l: map<Topic, seq<Publication>>, y: Batch, m: map<Topic, seq<Publication>>)
    ensures With(With(s, b, x, l), b, y, m) == With(s, b, y, m)
  {
    assert s.batches[b := x][b := y] == s.batches[b := y];
  }

  // A batch whose current record has been published to some topics.
  function MidRecord(batch: Batch, topics: seq<Topic>, outcome: Topic -> Outcome): Batch {
    batch.(accepted := AcceptedBy(topics, outcome), rejected := RejectedBy(topics, outcome))
  }

  ghost function MidState(s: State, b: nat, batch: Batch, logs: map<Topic, seq<Publication>>, topics: seq<Topic>,
                          outcome: Topic -> Outcome): State
    requires |batch.outcomes| < |batch.records| && forall t :: t in topics ==> t in logs
  {
    With(s, b, MidRecord(batch, topics, outcome), LogsAfterRecord(logs, topics, outcome, Current(batch)))
  }

  lemma PublishStep(targets: set<Topic>, s: State, b: nat, t: Topic, o: Outcome)
    requires Awaiting(targets, s, b, t)
    ensures Enabled(targets, s, StepFor(b, t, o))
    ensures Next(targets, s, StepFor(b, t, o)) ==
            With(s, b,
                 if o == Accepted then s.batches[b].(accepted := s.batches[b].accepted + {t})
                 else s.batches[b].(rejected := s.batches[b].rejected + {t}),
                 if o == Rejected then s.logs else Append(s.logs, t, Current(s.batches[b])))
  {
  }

  lemma OneMoreTopic(targets: set<Topic>, s: State, b: nat, batch: Batch, logs: map<Topic, seq<Publication>>,
                     topics: seq<Topic>, outcome: Topic -> Outcome, n: nat)
    requires |batch.outcomes| < |batch.records| && logs.Keys == targets
    requires |topics| == n + 1 && DistinctTopics(topics) && forall t :: t in topics ==> t in targets
    ensures Enabled(targets, MidState(s, b, batch, logs, topics[..n], outcome), StepFor(b, topics[n], outcome(topics[n])))
    ensures Next(targets, MidState(s, b, batch, logs, topics[..n], outcome), StepFor(b, topics[n], outcome(topics[n]))) ==
            MidState(s, b, batch, logs, topics, outcome)
  {
    var t := topics[n];
    assert topics == topics[..n] + [t] && t !in topics[..n];
    var before, after := MidRecord(batch, topics[..n], outcome), MidRecord(batch, topics, outcome);
    assert after.accepted == before.accepted + if outcome(t) == Accepted then {t} else {};
    assert after.rejected == before.rejected + if outcome(t) != Accepted then {t} else {};
    var mid := MidState(s, b, batch, logs, topics[..n], outcome);
    assert mid.batches[b] == before && LogsAfterRecord(logs, topics[..n], outcome, Current(batch)) == mid.logs;
    PublishStep(targets, mid, b, t, outcome(t));
    assert after == if outcome(t) == Accepted then before.(accepted := before.accepted + {t})
                    else before.(rejected := before.rejected + {t});
    WithTwice(s, b, before, mid.logs, after, LogsAfterRecord(logs, topics, outcome, Current(batch)));
  }

  lemma {:induction false} RecordStepsRun(targets: set<Topic>, s: State, b: nat, batch: Batch,
                                          logs: map<Topic, seq<Publication>>, topics: seq<Topic>, outcome: Topic -> Outcome)
    requires |batch.outcomes| < |batch.records| && logs.Keys == targets && batch.accepted == {} && batch.rejected == {}
    requires DistinctTopics(topics) && forall t :: t in topics ==> t in targets
    ensures After(targets, With(s, b, batch, logs), RecordSteps(b, topics, outcome)) ==
            Some(MidState(s, b, batch, logs, topics, outcome))
  {
    if topics == [] {
      assert MidRecord(batch, topics, outcome) == batch;
    } else {
      var n := |topics| - 1;
      RecordStepsRun(targets, s, b, batch, logs, topics[..n], outcome);
      OneMoreTopic(targets, s, b, batch, logs, topics, outcome, n);
      var steps := RecordSteps(b, topics, outcome);
      assert steps[..|steps| - 1] == RecordSteps(b, topics[..n], outcome);
    }
  }

  // A batch after its first records: their outcomes, and the failures collected so far.
  function FinishedBatch(records: seq<Message>, topics: seq<Topic>, outcomes: seq<Topic -> Outcome>): Batch
    requires |outcomes| <= |records|
  {
    Batch(records, {}, {},
          seq(|outcomes|, i requires 0 <= i < |outcomes| => RejectedBy(topics, outcomes[i])),
          FailuresOf(records[..|outcomes|], topics, outcomes))
  }

  lemma SettledRecord(targets: set<Topic>, s: State, b: nat, records: seq<Message>, topics: seq<Topic>,
                      outcomes: seq<Topic -> Outcome>, logs: map<Topic, seq<Publication>>)
    requires 0 < |outcomes| <= |records|
    requires logs.Keys == targets && (set t | t in topics) == targets
    ensures var n := |outcomes| - 1;
            var mid := With(s, b, MidRecord(FinishedBatch(records, topics, outcomes[..n]), topics, outcomes[n]), logs);
            After(targets, mid, [Settle(b)]) == Some(With(s, b, FinishedBatch(records, topics, outcomes), logs))
  {
    var n := |outcomes| - 1;
    assert records[..n + 1][..n] == records[..n];
    var settling := MidRecord(FinishedBatch(records, topics, outcomes[..n]), topics, outcomes[n]);
    var mid := With(s, b, settling, logs);
    assert AcceptedBy(topics, outcomes[n]) + RejectedBy(topics, outcomes[n]) == targets;
    assert Settled(settling).outcomes == FinishedBatch(records, topics, outcomes).outcomes;
    assert Settled(settling) == FinishedBatch(records, topics, outcomes);
    WithTwice(s, b, settling, logs, FinishedBatch(records, topics, outcomes), logs);
    assert [Settle(b)][..0] == [];
  }

  ghost function AfterRecords(s: State, b: nat, records: seq<Message>, topics: seq<Topic>,
                              outcomes: seq<Topic -> Outcome>): State
    requires |outcomes| <= |records| && forall t :: t in topics ==> t in s.logs
  {
    With(s, b, FinishedBatch(records, topics, outcomes), LogsAfter(s.logs, records[..|outcomes|], topics, outcomes))
  }

  // Receiving a batch and running the handler over its records is a sequence of protocol
  // steps, ending with the handler's answer in the batch and the handler's logs.
  lemma {:induction false} HandlerRefinesProtocol(targets: set<Topic>, s: State, b: nat, records: seq<Message>,
                                                  topics: seq<Topic>, outcomes: seq<Topic -> Outcome>)
    requires |outcomes| <= |records|
    requires Enabled(targets, s, Receive(b, records)) && s.logs.Keys == targets
    requires DistinctTopics(topics) && (set t | t in topics) == targets
    ensures After(targets, s, [Receive(b, records)] + BatchSteps(b, topics, outcomes)) ==
            Some(AfterRecords(s, b, records, topics, outcomes))
    decreases |outcomes|
  {
    var first := [Receive(b, records)];
    if outcomes == [] {
      NoRecordsYet(targets, s, b, records, topics, outcomes);
    } else {
      var n := |outcomes| - 1;
      HandlerRefinesProtocol(targets, s, b, records, topics, outcomes[..n]);
      OneMoreRecord(targets, s, b, records, topics, outcomes, n);
      var more := RecordSteps(b, topics, outcomes[n]) + [Settle(b)];
      Compose(targets, s, first + BatchSteps(b, topics, outcomes[..n]), more,
              AfterRecords(s, b, records, topics, outcomes[..n]), AfterRecords(s, b, records, topics, outcomes));
      Reassociate(first, BatchSteps(b, topics, outcomes[..n]), more);
    }
  }

  lemma Compose(targets: set<Topic>, s: State, xs: seq<Step>, ys: seq<Step>, mid: State, end: State)
    requires After(targets, s, xs) == Some(mid) && After(targets, mid, ys) == Some(end)
    ensures After(targets, s, xs + ys) == Some(end)
  {
    AfterConcat(targets, s, xs, ys);
  }

  lemma NoRecordsYet(targets: set<Topic>, s: State, b: nat, records: seq<Message>, topics: seq<Topic>,
                     outcomes: seq<Topic -> Outcome>)
    requires outcomes == [] && Enabled(targets, s, Receive(b, records)) && forall t :: t in topics ==> t in s.logs
    ensures After(targets, s, [Receive(b, records)] + BatchSteps(b, topics, outcomes)) ==
            Some(AfterRecords(s, b, records, topics, outcomes))
  {
    var first := [Receive(b, records)];
    assert first + BatchSteps(b, topics, outcomes) == first && first[..0] == [];
    assert FinishedBatch(records, topics, outcomes) == Batch(records, {}, {}, [], []);
    assert records[..0] == [];
  }

  lemma OneMoreRecord(targets: set<Topic>, s: State, b: nat, records: seq<Message>, topics: seq<Topic>,
                      outcomes: seq<Topic -> Outcome>, n: nat)
    requires |outcomes| == n + 1 <= |records|
    requires s.logs.Keys == targets && DistinctTopics(topics) && (set t | t in topics) == targets
    ensures After(targets, AfterRecords(s, b, records, topics, outcomes[..n]), RecordSteps(b, topics, outcomes[n]) + [Settle(b)]) ==
            Some(AfterRecords(s, b, records, topics, outcomes))
  {
    RecordPublished(targets, s, b, records, topics, outcomes, n);
    SettledRecord(targets, s, b, records, topics, outcomes, LogsAfter(s.logs, records[..n + 1], topics, outcomes));
    Compose(targets, AfterRecords(s, b, records, topics, outcomes[..n]), RecordSteps(b, topics, outcomes[n]), [Settle(b)],
            Published(s, b, records, topics, outcomes, n), AfterRecords(s, b, records, topics, outcomes));
  }

  // The state when record n has been published and is not yet settled.
  ghost function Published(s: State, b: nat, records: seq<Message>, topics: seq<Topic>, outcomes: seq<Topic -> Outcome>, n: nat): State
    requires |outcomes| == n + 1 <= |records| && forall t :: t in topics ==> t in s.logs
  {
    With(s, b, MidRecord(FinishedBatch(records, topics, outcomes[..n]), topics, outcomes[n]),
         LogsAfter(s.logs, records[..n + 1], topics, outcomes))
  }

  lemma RecordPublished(targets: set<Topic>, s: State, b: nat, records: seq<Message>, topics: seq<Topic>,
                        outcomes: seq<Topic -> Outcome>, n: nat)
    requires |outcomes| == n + 1 <= |records|
    requires s.logs.Keys == targets && DistinctTopics(topics) && (set t | t in topics) == targets
    ensures After(targets, AfterRecords(s, b, records, topics, outcomes[..n]), RecordSteps(b, topics, outcomes[n])) ==
            Some(Published(s, b, records, topics, outcomes, n))
  {
    var batch, logs := FinishedBatch(records, topics, outcomes[..n]), LogsAfter(s.logs, records[..n], topics, outcomes[..n]);
    RecordStepsRun(targets, s, b, batch, logs, topics, outcomes[n]);
    PublishedIsMid(s, b, records, topics, outcomes, n);
  }

  lemma PublishedIsMid(s: State, b: nat, records: seq<Message>, topics: seq<Topic>, outcomes: seq<Topic -> Outcome>, n: nat)
    requires |outcomes| == n + 1 <= |records| && forall t :: t in topics ==> t in s.logs
    ensures var batch, logs := FinishedBatch(records, topics, outcomes[..n]), LogsAfter(s.logs, records[..n], topics, outcomes[..n]);
            MidState(s, b, batch, logs, topics, outcomes[n]) == Published(s, b, records, topics, outcomes, n)
  {
    LogsOneMore(s.logs, records, topics, outcomes, n);
  }

  lemma LogsOneMore(logs: map<Topic, seq<Publication>>, records: seq<Message>, topics: seq<Topic>, outcomes: seq<Topic -> Outcome>, n: nat)
    requires |outcomes| == n + 1 <= |records| && forall t :: t in topics ==> t in logs
    ensures LogsAfter(logs, records[..n + 1], topics, outcomes) ==
            LogsAfterRecord(LogsAfter(logs, records[..n], topics, outcomes[..n]), topics, outcomes[n], records[n])
  {
    assert records[..n + 1][..n] == records[..n];
  }

  // From a valid state, the queue keeps exactly the records the handler reports, and every
  // other record of the batch has reached every topic.
  lemma HandlerBatchIsSafe(targets: set<Topic>, s: State, b: nat, records: seq<Message>, topics: seq<Topic>,
                           outcomes: seq<Topic -> Outcome>, k: nat)
    requires Valid(targets, s) && Enabled(targets, s, Receive(b, records))
    requires DistinctTopics(topics) && (set t | t in topics) == targets
    requires |outcomes| == |records| && k < |records|
    ensures var ready := AfterRecords(s, b, records, topics, outcomes);
            Enabled(targets, ready, Complete(b)) &&
            var done := Next(targets, ready, Complete(b));
            && (records[k] in done.queued <==> records[k].id in FailuresOf(records, topics, outcomes))
            && (records[k].id in FailuresOf(records, topics, outcomes) <==>
                  exists t :: t in topics && outcomes[k](t) != Accepted)
            && (records[k] !in done.queued ==> Delivered(targets, done.logs, records[k]))
  {
    var ready := AfterRecords(s, b, records, topics, outcomes);
    assert Valid(targets, ready) by {
      HandlerRefinesProtocol(targets, s, b, records, topics, outcomes);
      AfterKeepsValid(targets, s, [Receive(b, records)] + BatchSteps(b, topics, outcomes));
    }
    assert records[..|records|] == records;
    assert ready.batches[b] == FinishedBatch(records, topics, outcomes);
    FinishedRecordFate(targets, ready, b, k);
    RejectionsAre(topics, outcomes[k]);
  }

  lemma RejectionsAre(topics: seq<Topic>, outcome: Topic -> Outcome)
    ensures RejectedBy(topics, outcome) != {} <==> exists t :: t in topics && outcome(t) != Accepted
  {
    if t :| t in topics && outcome(t) != Accepted {
      assert t in RejectedBy(topics, outcome);
    }
    if RejectedBy(topics, outcome) != {} {
      var t :| t in RejectedBy(topics, outcome);
    }
  }

  lemma FinishedRecordFate(targets: set<Topic>, s: State, b: nat, k: nat)
    requires Valid(targets, s) && Enabled(targets, s, Complete(b)) && k < |s.batches[b].records|
    requires s.batches[b].records[k] in s.queued
    ensures var batch := s.batches[b];
            var done := Next(targets, s, Complete(b));
            && (batch.records[k] in done.queued <==> batch.records[k].id in batch.failures)
            && (batch.outcomes[k] != {} <==> batch.records[k].id in batch.failures)
            && (batch.records[k] !in done.queued ==> Delivered(targets, done.logs, batch.records[k]))
  {
    var batch := s.batches[b];
    assert batch.records[k] in Done(batch) <==> batch.records[k].id !in batch.failures;
  }
}
