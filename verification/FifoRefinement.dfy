// The failure-free FIFO machine as runs of the forwarder protocol: its states are protocol
// states, its steps protocol steps, and the inline handler drives it when every publish is
// accepted.
module FifoRefinement {
  import opened Blueprint
  import opened Sequences
  import opened Forwarder
  import opened ForwarderRefinement
  import Fifo = ForwarderOrder

  // ---- Protocol states ----

  ghost function InFlight(s: Fifo.FifoState): set<Message> {
    set b, m | b in s.running && m in s.running[b].records :: m
  }

  ghost function InQueue(s: Fifo.FifoState): set<Message> {
    (set m | m in s.waiting) + InFlight(s)
  }

  function Nothing(n: nat): seq<set<Topic>> {
    seq(n, _ => {})
  }

  // Nothing has been rejected: every finished record has the empty outcome.
  function BatchOf(inv: Fifo.Invocation): Batch {
    Batch(inv.records, inv.accepted, {}, Nothing(inv.next), [])
  }

  ghost function StateOf(s: Fifo.FifoState): State {
    State(
      InQueue(s),
      (set m | m in s.sent) - InQueue(s),
      map b | b in s.running :: BatchOf(s.running[b]),
      map t | t in s.logs :: Map(s.logs[t], Publish))
  }

  function StepOf(s: Fifo.FifoState, step: Fifo.FifoStep): Step
    requires step.Poll? ==> |step.take| == |s.waiting|
  {
    match step
    case Enqueue(m) => Send(m)
    case Poll(b, take) => Receive(b, Fifo.Selected(s.waiting, take, true))
    case Deliver(b, t) => Accept(b, t)
    case Advance(b) => Settle(b)
    case Finish(b) => Complete(b)
  }

  // ---- Every message is in one place ----

  ghost predicate Once(s: seq<Message>) {
    forall i, j :: 0 <= i < j < |s| ==> s[i] != s[j]
  }

  ghost predicate Apart(s: Fifo.FifoState, m: Message) {
    && (m in s.waiting ==> m !in InFlight(s))
    && (forall b, c :: b in s.running && c in s.running && m in s.running[b].records && m in s.running[c].records ==> b == c)
  }

  ghost predicate Placed(s: Fifo.FifoState) {
    && Distinct(s.sent)
    && (forall m :: m in InQueue(s) ==> m in s.sent)
    && Once(s.waiting)
    && (forall b :: b in s.running ==> Once(s.running[b].records))
    && (forall m :: Apart(s, m))
  }

  // The queue numbers messages freshly.
  ghost predicate Fresh(s: Fifo.FifoState, step: Fifo.FifoStep) {
    step.Enqueue? ==> forall m :: m in s.sent ==> m.id != step.m.id
  }

  lemma SameIdSameMessage(s: Fifo.FifoState, m: Message, n: Message)
    requires Distinct(s.sent) && m in s.sent && n in s.sent && m.id == n.id
    ensures m == n
  {
    var i := IndexOf(s.sent, m);
    var j := IndexOf(s.sent, n);
  }

  lemma {:induction false} SelectedOnce(s: seq<Message>, take: seq<bool>, which: bool)
    requires |s| == |take| && Once(s)
    ensures Once(Fifo.Selected(s, take, which))
  {
    if s != [] {
      var n := |s| - 1;
      SelectedOnce(s[..n], take[..n], which);
      var before := Fifo.Selected(s[..n], take[..n], which);
      forall i | 0 <= i < |before| ensures before[i] != s[n] {
        assert before[i] in before;
        Fifo.SelectedMembers(s[..n], take[..n], which, before[i]);
      }
    }
  }

  // A polled message was waiting, and is no longer.
  lemma SelectedSides(s: seq<Message>, take: seq<bool>, m: Message)
    requires |s| == |take| && Once(s)
    ensures m in s <==> m in Fifo.Selected(s, take, true) || m in Fifo.Selected(s, take, false)
    ensures !(m in Fifo.Selected(s, take, true) && m in Fifo.Selected(s, take, false))
  {
    Fifo.SelectedMembers(s, take, true, m);
    Fifo.SelectedMembers(s, take, false, m);
  }

  lemma PollMoves(targets: set<Topic>, s: Fifo.FifoState, b: nat, take: seq<bool>, m: Message)
    requires Placed(s) && Fifo.Enabled(targets, s, Fifo.Poll(b, take))
    ensures var s' := Fifo.Next(targets, s, Fifo.Poll(b, take));
            m in InFlight(s') <==> m in InFlight(s) || m in Fifo.Selected(s.waiting, take, true)
  {
    var s' := Fifo.Next(targets, s, Fifo.Poll(b, take));
    if m in InFlight(s) {
      var c :| c in s.running && m in s.running[c].records;
      assert c in s'.running && s'.running[c] == s.running[c];
    }
    if m in Fifo.Selected(s.waiting, take, true) {
      assert b in s'.running && m in s'.running[b].records;
    }
  }

  lemma PollKeepsPlaced(targets: set<Topic>, s: Fifo.FifoState, b: nat, take: seq<bool>)
    requires Placed(s) && Fifo.Enabled(targets, s, Fifo.Poll(b, take))
    ensures Placed(Fifo.Next(targets, s, Fifo.Poll(b, take)))
    ensures InQueue(Fifo.Next(targets, s, Fifo.Poll(b, take))) == InQueue(s)
  {
    var s' := Fifo.Next(targets, s, Fifo.Poll(b, take));
    SelectedOnce(s.waiting, take, true);
    SelectedOnce(s.waiting, take, false);
    forall m ensures Apart(s', m) && (m in InQueue(s') <==> m in InQueue(s)) {
      SelectedSides(s.waiting, take, m);
      PollMoves(targets, s, b, take, m);
      assert Apart(s, m);
      forall c, d | c in s'.running && d in s'.running && m in s'.running[c].records && m in s'.running[d].records ensures c == d {
        if c != b {
          assert m in InFlight(s);
        }
        if d != b {
          assert m in InFlight(s);
        }
      }
    }
  }

  // Publishing and settling move no message.
  lemma ServeKeepsPlaced(targets: set<Topic>, s: Fifo.FifoState, step: Fifo.FifoStep)
    requires Placed(s) && Fifo.Enabled(targets, s, step) && (step.Deliver? || step.Advance?)
    ensures Placed(Fifo.Next(targets, s, step)) && InQueue(Fifo.Next(targets, s, step)) == InQueue(s)
  {
    var s' := Fifo.Next(targets, s, step);
    forall c ensures c in s'.running <==> c in s.running { }
    forall c | c in s.running ensures s'.running[c].records == s.running[c].records { }
    forall m ensures Apart(s', m) && (m in InFlight(s') <==> m in InFlight(s)) {
      assert Apart(s, m);
      if m in InFlight(s) {
        var c :| c in s.running && m in s.running[c].records;
        assert c in s'.running && m in s'.running[c].records;
      }
    }
  }

  lemma EnqueueKeepsPlaced(targets: set<Topic>, s: Fifo.FifoState, m: Message)
    requires Placed(s) && Fresh(s, Fifo.Enqueue(m))
    ensures Placed(Fifo.Next(targets, s, Fifo.Enqueue(m)))
    ensures InQueue(Fifo.Next(targets, s, Fifo.Enqueue(m))) == InQueue(s) + {m}
  {
    var s' := Fifo.Next(targets, s, Fifo.Enqueue(m));
    assert m !in s.sent;
    assert forall n :: n in s'.waiting <==> n in s.waiting || n == m;
    assert InFlight(s') == InFlight(s);
    forall n ensures Apart(s', n) {
      assert Apart(s, n);
      assert n == m ==> n !in InQueue(s);
    }
    forall i | 0 <= i < |s.waiting| ensures s.waiting[i] != m {
      assert s.waiting[i] in InQueue(s);
    }
    forall i | 0 <= i < |s.sent| ensures s.sent[i].id != m.id {
      assert s.sent[i] in s.sent;
    }
  }

  lemma FinishKeepsPlaced(targets: set<Topic>, s: Fifo.FifoState, b: nat)
    requires Placed(s) && Fifo.Enabled(targets, s, Fifo.Finish(b))
    ensures Placed(Fifo.Next(targets, s, Fifo.Finish(b)))
    ensures InQueue(Fifo.Next(targets, s, Fifo.Finish(b))) == InQueue(s) - (set m | m in s.running[b].records)
  {
    var s' := Fifo.Next(targets, s, Fifo.Finish(b));
    forall m ensures Apart(s', m) && (m in InFlight(s') <==> m in InFlight(s) && m !in s.running[b].records) {
      assert Apart(s, m);
      if m in InFlight(s) && m !in s.running[b].records {
        var c :| c in s.running && m in s.running[c].records;
        assert c in s'.running;
      }
      if m in InFlight(s') {
        var c :| c in s'.running && m in s'.running[c].records;
        assert c in s.running && c != b;
      }
    }
    forall m | m in s.running[b].records ensures m !in s.waiting {
      assert Apart(s, m) && m in InFlight(s);
    }
  }

  lemma StepKeepsPlaced(targets: set<Topic>, s: Fifo.FifoState, step: Fifo.FifoStep)
    requires Placed(s) && Fifo.Enabled(targets, s, step) && Fresh(s, step)
    ensures Placed(Fifo.Next(targets, s, step))
  {
    match step
    case Enqueue(m) => EnqueueKeepsPlaced(targets, s, m);
    case Poll(b, take) => PollKeepsPlaced(targets, s, b, take);
    case Deliver(b, t) => ServeKeepsPlaced(targets, s, step);
    case Advance(b) => ServeKeepsPlaced(targets, s, step);
    case Finish(b) => FinishKeepsPlaced(targets, s, b);
  }

  // ---- Step by step ----

  // The protocol can take the corresponding step, to the corresponding state.
  ghost predicate Refines(targets: set<Topic>, s: Fifo.FifoState, step: Fifo.FifoStep)
    requires Fifo.Enabled(targets, s, step)
  {
    Enabled(targets, StateOf(s), StepOf(s, step)) &&
    Next(targets, StateOf(s), StepOf(s, step)) == StateOf(Fifo.Next(targets, s, step))
  }

  lemma EnqueueRefines(targets: set<Topic>, s: Fifo.FifoState, m: Message)
    requires Placed(s) && Fresh(s, Fifo.Enqueue(m))
    ensures Refines(targets, s, Fifo.Enqueue(m))
  {
    var s' := Fifo.Next(targets, s, Fifo.Enqueue(m));
    EnqueueKeepsPlaced(targets, s, m);
    assert forall n :: n in s'.sent <==> n in s.sent || n == m;
    assert m !in s.sent;
    assert StateOf(s').deleted == StateOf(s).deleted;
    assert StateOf(s').batches == StateOf(s).batches;
  }

  lemma PollRefines(targets: set<Topic>, s: Fifo.FifoState, b: nat, take: seq<bool>)
    requires Placed(s) && Fifo.Enabled(targets, s, Fifo.Poll(b, take))
    ensures Refines(targets, s, Fifo.Poll(b, take))
  {
    var s' := Fifo.Next(targets, s, Fifo.Poll(b, take));
    var records := Fifo.Selected(s.waiting, take, true);
    PollKeepsPlaced(targets, s, b, take);
    SelectedOnce(s.waiting, take, true);
    forall i | 0 <= i < |records| ensures records[i] in s.waiting && records[i] in s.sent {
      assert records[i] in records;
      SelectedSides(s.waiting, take, records[i]);
    }
    forall i, j | 0 <= i < j < |records| ensures records[i].id != records[j].id {
      if records[i].id == records[j].id {
        SameIdSameMessage(s, records[i], records[j]);
      }
    }
    assert Nothing(0) == [];
    assert StateOf(s').batches == StateOf(s).batches[b := Batch(records, {}, {}, [], [])];
  }

  lemma DeliverRefines(targets: set<Topic>, s: Fifo.FifoState, b: nat, t: Topic)
    requires Placed(s) && Fifo.Enabled(targets, s, Fifo.Deliver(b, t))
    ensures Refines(targets, s, Fifo.Deliver(b, t))
  {
    var s' := Fifo.Next(targets, s, Fifo.Deliver(b, t));
    var inv := s.running[b];
    ServeKeepsPlaced(targets, s, Fifo.Deliver(b, t));
    assert StateOf(s).batches[b] == BatchOf(inv) && |BatchOf(inv).outcomes| == inv.next;
    assert StateOf(s').batches == StateOf(s).batches[b := BatchOf(inv).(accepted := inv.accepted + {t})];
    DeliverAppends(targets, s, b, t);
  }

  lemma DeliverAppends(targets: set<Topic>, s: Fifo.FifoState, b: nat, t: Topic)
    requires Fifo.Enabled(targets, s, Fifo.Deliver(b, t))
    ensures t in StateOf(s).logs
    ensures StateOf(Fifo.Next(targets, s, Fifo.Deliver(b, t))).logs ==
            Append(StateOf(s).logs, t, s.running[b].records[s.running[b].next])
  {
    MapLastOf(s.logs[t], s.running[b].records[s.running[b].next]);
  }

  lemma MapLastOf(log: seq<Message>, m: Message)
    ensures Map(log + [m], Publish) == Map(log, Publish) + [Publish(m)]
  {
    assert (log + [m])[..|log|] == log;
  }

  lemma AdvanceRefines(targets: set<Topic>, s: Fifo.FifoState, b: nat)
    requires Placed(s) && Fifo.Enabled(targets, s, Fifo.Advance(b))
    ensures Refines(targets, s, Fifo.Advance(b))
  {
    var s' := Fifo.Next(targets, s, Fifo.Advance(b));
    var inv := s.running[b];
    ServeKeepsPlaced(targets, s, Fifo.Advance(b));
    assert StateOf(s).batches[b] == BatchOf(inv) && |BatchOf(inv).outcomes| == inv.next;
    assert inv.accepted + {} == targets;
    assert Nothing(inv.next + 1) == Nothing(inv.next) + [{}];
    assert Settled(BatchOf(inv)) == BatchOf(s'.running[b]);
    assert StateOf(s').batches == StateOf(s).batches[b := Settled(BatchOf(inv))];
  }

  lemma FinishRefines(targets: set<Topic>, s: Fifo.FifoState, b: nat)
    requires Placed(s) && Fifo.Enabled(targets, s, Fifo.Finish(b))
    ensures Refines(targets, s, Fifo.Finish(b))
  {
    var s' := Fifo.Next(targets, s, Fifo.Finish(b));
    var inv := s.running[b];
    FinishKeepsPlaced(targets, s, b);
    var records := set m | m in inv.records;
    assert StateOf(s).batches[b] == BatchOf(inv) && |BatchOf(inv).outcomes| == inv.next;
    forall m ensures m in Done(BatchOf(inv)) <==> m in records {
      if m in records {
        var i := IndexOf(inv.records, m);
        assert inv.records[i] in Done(BatchOf(inv));
      }
    }
    forall m | m in records ensures m in InQueue(s) {
      assert m in InFlight(s);
    }
    assert Done(BatchOf(inv)) == records && StateOf(s).queued * records == records;
    assert StateOf(s').deleted == StateOf(s).deleted + records;
    assert StateOf(s').batches == StateOf(s).batches - {b};
  }

  lemma StepRefines(targets: set<Topic>, s: Fifo.FifoState, step: Fifo.FifoStep)
    requires Placed(s) && Fifo.Enabled(targets, s, step) && Fresh(s, step)
    ensures Refines(targets, s, step)
  {
    match step
    case Enqueue(m) => EnqueueRefines(targets, s, m);
    case Poll(b, take) => PollRefines(targets, s, b, take);
    case Deliver(b, t) => DeliverRefines(targets, s, b, t);
    case Advance(b) => AdvanceRefines(targets, s, b);
    case Finish(b) => FinishRefines(targets, s, b);
  }

  // ---- Runs ----

  ghost predicate FreshRun(states: seq<Fifo.FifoState>, steps: seq<Fifo.FifoStep>)
    requires |states| == |steps| + 1
  {
    forall i :: 0 <= i < |steps| ==> Fresh(states[i], steps[i])
  }

  lemma {:induction false} RunKeepsPlaced(targets: set<Topic>, states: seq<Fifo.FifoState>, steps: seq<Fifo.FifoStep>, i: nat)
    requires Fifo.Run(targets, states, steps) && Fifo.Initial(targets, states[0]) && FreshRun(states, steps) && i < |states|
    ensures Placed(states[i])
  {
    if i > 0 {
      RunKeepsPlaced(targets, states, steps, i - 1);
      StepKeepsPlaced(targets, states[i - 1], steps[i - 1]);
    }
  }

  // The run of protocol states and steps a FIFO run stands for.
  ghost function ProtocolStates(states: seq<Fifo.FifoState>): seq<State> {
    seq(|states|, i requires 0 <= i < |states| => StateOf(states[i]))
  }

  ghost function ProtocolSteps(targets: set<Topic>, states: seq<Fifo.FifoState>, steps: seq<Fifo.FifoStep>): seq<Step>
    requires Fifo.Run(targets, states, steps)
  {
    seq(|steps|, i requires 0 <= i < |steps| => StepOf(states[i], steps[i]))
  }

  // Every failure-free FIFO run is a run of the protocol, so what holds of every protocol run
  // holds of it.
  lemma FifoRunIsProtocolRun(targets: set<Topic>, states: seq<Fifo.FifoState>, steps: seq<Fifo.FifoStep>)
    requires Fifo.Run(targets, states, steps) && Fifo.Initial(targets, states[0]) && FreshRun(states, steps)
    ensures Run(targets, ProtocolStates(states), ProtocolSteps(targets, states, steps))
    ensures Initial(targets, ProtocolStates(states)[0])
  {
    forall i | 0 <= i < |steps| ensures Refines(targets, states[i], steps[i]) {
      RunKeepsPlaced(targets, states, steps, i);
      StepRefines(targets, states[i], steps[i]);
    }
    assert InFlight(states[0]) == {};
    assert StateOf(states[0]).batches == map[];
  }

  // In particular a message that has left a FIFO queue was accepted by every target topic.
  lemma FifoDeletedOnlyWhenDelivered(targets: set<Topic>, states: seq<Fifo.FifoState>, steps: seq<Fifo.FifoStep>, i: nat, m: Message)
    requires Fifo.Run(targets, states, steps) && Fifo.Initial(targets, states[0]) && FreshRun(states, steps)
    requires i < |states| && m in states[i].sent && m !in InQueue(states[i])
    ensures forall t :: t in targets ==> t in states[i].logs && Has(StateOf(states[i]).logs[t], m)
  {
    FifoRunIsProtocolRun(targets, states, steps);
    DeletedOnlyWhenDelivered(targets, ProtocolStates(states), ProtocolSteps(targets, states, steps), i);
    assert Delivered(targets, StateOf(states[i]).logs, m);
  }

  // ---- What subscribers see of a group ----

  function OfGroup(log: seq<Publication>, g: string): seq<Publication> {
    if log == [] then []
    else
      var n := |log| - 1;
      OfGroup(log[..n], g) + if log[n].group == Some(g) then [log[n]] else []
  }

  lemma {:induction false} GroupPublished(log: seq<Message>, g: string)
    ensures Grew([], OfGroup(Map(log, Publish), g), Fifo.OfGroup(log, g))
  {
    if log != [] {
      var n := |log| - 1;
      GroupPublished(log[..n], g);
      PublishCarries(log[n]);
      assert Map(log, Publish)[..n] == Map(log[..n], Publish);
    }
  }

  // In every state of every failure-free FIFO run, the publications of a group on a topic
  // carry the first messages sent to the group, in the order they were sent, and all of them
  // once the queue is drained.
  lemma TopicsPublishGroupsInOrder(targets: set<Topic>, states: seq<Fifo.FifoState>, steps: seq<Fifo.FifoStep>, i: nat, t: Topic, g: string)
    requires Fifo.Run(targets, states, steps) && Fifo.Initial(targets, states[0]) && i < |states| && t in targets
    ensures t in states[i].logs
    ensures var published, sent := OfGroup(StateOf(states[i]).logs[t], g), Fifo.OfGroup(states[i].sent, g);
            |published| <= |sent| && Grew([], published, sent[..|published|]) &&
            (states[i].waiting == [] && states[i].running == map[] ==> |published| == |sent|)
  {
    Fifo.TopicsReceiveGroupsInOrder(targets, states, steps, i, t, g);
    GroupPublished(states[i].logs[t], g);
  }

  // ---- The handler ----

  ghost function FifoAfter(targets: set<Topic>, s: Fifo.FifoState, steps: seq<Fifo.FifoStep>): Option<Fifo.FifoState> {
    if steps == [] then Some(s)
    else
      var n := |steps| - 1;
      var before := FifoAfter(targets, s, steps[..n]);
      if before.Some? && Fifo.Enabled(targets, before.value, steps[n]) then Some(Fifo.Next(targets, before.value, steps[n]))
      else None
  }

  // What the handler does to one record, and to the first records of a batch, when every
  // publish is accepted.
  function RecordServed(b: nat, topics: seq<Topic>): seq<Fifo.FifoStep> {
    Map(topics, (t: Topic) => Fifo.Deliver(b, t)) + [Fifo.Advance(b)]
  }

  function BatchServed(b: nat, topics: seq<Topic>, n: nat): seq<Fifo.FifoStep> {
    if n == 0 then [] else BatchServed(b, topics, n - 1) + RecordServed(b, topics)
  }

  predicate Serves(step: Fifo.FifoStep) {
    step.Deliver? || step.Advance?
  }

  function ServedAs(step: Fifo.FifoStep): Step {
    match step
    case Deliver(b, t) => Accept(b, t)
    case Advance(b) => Settle(b)
    case _ => Crash(0)
  }

  function Takes(t: Topic): Outcome {
    Accepted
  }

  function AllAccepted(n: nat): (outcomes: seq<Topic -> Outcome>)
    ensures |outcomes| == n
  {
    if n == 0 then [] else AllAccepted(n - 1) + [Takes]
  }

  // What the protocol lets the handler do, the FIFO machine does too.
  lemma ServeFollows(targets: set<Topic>, s: Fifo.FifoState, step: Fifo.FifoStep)
    requires Placed(s) && Serves(step) && Enabled(targets, StateOf(s), ServedAs(step))
    ensures Fifo.Enabled(targets, s, step) && ServedAs(step) == StepOf(s, step)
  {
    var inv := s.running[step.b];
    assert StateOf(s).batches[step.b] == BatchOf(inv) && |BatchOf(inv).outcomes| == inv.next;
  }

  lemma {:induction false} ServingFollows(targets: set<Topic>, s: Fifo.FifoState, steps: seq<Fifo.FifoStep>)
    requires Placed(s) && forall step :: step in steps ==> Serves(step)
    requires After(targets, StateOf(s), Map(steps, ServedAs)).Some?
    ensures FifoAfter(targets, s, steps).Some? && Placed(FifoAfter(targets, s, steps).value)
    ensures StateOf(FifoAfter(targets, s, steps).value) == After(targets, StateOf(s), Map(steps, ServedAs)).value
  {
    if steps != [] {
      var n := |steps| - 1;
      assert Map(steps, ServedAs)[..n] == Map(steps[..n], ServedAs);
      ServingFollows(targets, s, steps[..n]);
      var before := FifoAfter(targets, s, steps[..n]).value;
      assert steps[n] in steps;
      ServeFollows(targets, before, steps[n]);
      StepRefines(targets, before, steps[n]);
      StepKeepsPlaced(targets, before, steps[n]);
    }
  }

  lemma {:induction false} RecordServedAs(b: nat, topics: seq<Topic>)
    ensures Map(RecordServed(b, topics), ServedAs) == RecordSteps(b, topics, Takes) + [Settle(b)]
  {
    var delivers := Map(topics, (t: Topic) => Fifo.Deliver(b, t));
    MapConcat(delivers, [Fifo.Advance(b)], ServedAs);
    DeliversServedAs(b, topics);
    assert [Fifo.Advance(b)][..0] == [];
    assert Map([Fifo.Advance(b)], ServedAs) == [Settle(b)];
  }

  lemma {:induction false} DeliversServedAs(b: nat, topics: seq<Topic>)
    ensures Map(Map(topics, (t: Topic) => Fifo.Deliver(b, t)), ServedAs) == RecordSteps(b, topics, Takes)
  {
    if topics != [] {
      var n := |topics| - 1;
      DeliversServedAs(b, topics[..n]);
      var delivers := Map(topics, (t: Topic) => Fifo.Deliver(b, t));
      assert delivers[..n] == Map(topics[..n], (t: Topic) => Fifo.Deliver(b, t));
    }
  }

  lemma OneMoreAccepted(b: nat, topics: seq<Topic>, n: nat)
    requires n > 0
    ensures BatchSteps(b, topics, AllAccepted(n)) ==
            BatchSteps(b, topics, AllAccepted(n - 1)) + (RecordSteps(b, topics, Takes) + [Settle(b)])
  {
    assert AllAccepted(n)[..n - 1] == AllAccepted(n - 1);
  }

  lemma {:induction false} BatchServedAs(b: nat, topics: seq<Topic>, n: nat)
    ensures Map(BatchServed(b, topics, n), ServedAs) == BatchSteps(b, topics, AllAccepted(n))
  {
    if n > 0 {
      BatchServedAs(b, topics, n - 1);
      MapConcat(BatchServed(b, topics, n - 1), RecordServed(b, topics), ServedAs);
      RecordServedAs(b, topics);
      OneMoreAccepted(b, topics, n);
    }
  }

  lemma {:induction false} BatchServes(b: nat, topics: seq<Topic>, n: nat, step: Fifo.FifoStep)
    requires step in BatchServed(b, topics, n)
    ensures Serves(step)
  {
    if step in RecordServed(b, topics) {
      if step != Fifo.Advance(b) {
        MapMember(topics, (t: Topic) => Fifo.Deliver(b, t), step);
      }
    } else {
      BatchServes(b, topics, n - 1, step);
    }
  }

  // Nothing rejected, nothing reported; and each topic has the batch in its order.
  lemma {:induction false} AcceptedBatchFailsNothing(records: seq<Message>, topics: seq<Topic>)
    ensures FailuresOf(records, topics, AllAccepted(|records|)) == []
  {
    if records != [] {
      var n := |records| - 1;
      AcceptedBatchFailsNothing(records[..n], topics);
      assert AllAccepted(n + 1)[..n] == AllAccepted(n);
    }
  }

  lemma {:induction false} AllTaken(t: Topic, records: seq<Message>)
    ensures TakenBy(t, records, AllAccepted(|records|)) == records
  {
    if records != [] {
      var n := |records| - 1;
      AllTaken(t, records[..n]);
      assert AllAccepted(n + 1)[..n] == AllAccepted(n);
    }
  }

  lemma AcceptedBatchIsLogged(logs: map<Topic, seq<Publication>>, records: seq<Message>, topics: seq<Topic>, t: Topic)
    requires (forall u :: u in topics ==> u in logs) && DistinctTopics(topics) && t in topics
    ensures Grew(logs[t], LogsAfter(logs, records, topics, AllAccepted(|records|))[t], records)
  {
    LogsGrow(logs, records, topics, AllAccepted(|records|), t);
    AllTaken(t, records);
  }

  ghost function AfterPoll(targets: set<Topic>, s: Fifo.FifoState, b: nat, take: seq<bool>, topics: seq<Topic>): Option<Fifo.FifoState>
    requires |take| == |s.waiting| && Fifo.Enabled(targets, s, Fifo.Poll(b, take))
  {
    FifoAfter(targets, Fifo.Next(targets, s, Fifo.Poll(b, take)), BatchServed(b, topics, |Fifo.Selected(s.waiting, take, true)|))
  }

  lemma PolledLogs(targets: set<Topic>, s: Fifo.FifoState)
    ensures StateOf(s).logs.Keys == s.logs.Keys
  {
  }

  // After the poll, the handler's steps over the batch are the protocol's.
  lemma PollThenServe(targets: set<Topic>, s: Fifo.FifoState, b: nat, take: seq<bool>, topics: seq<Topic>)
    requires Placed(s) && Fifo.Enabled(targets, s, Fifo.Poll(b, take)) && s.logs.Keys == targets
    requires DistinctTopics(topics) && (set t | t in topics) == targets
    ensures var records := Fifo.Selected(s.waiting, take, true);
            After(targets, StateOf(Fifo.Next(targets, s, Fifo.Poll(b, take))), BatchSteps(b, topics, AllAccepted(|records|))) ==
            Some(AfterRecords(StateOf(s), b, records, topics, AllAccepted(|records|)))
  {
    var records := Fifo.Selected(s.waiting, take, true);
    var served := BatchSteps(b, topics, AllAccepted(|records|));
    PollRefines(targets, s, b, take);
    PolledLogs(targets, s);
    HandlerRefinesProtocol(targets, StateOf(s), b, records, topics, AllAccepted(|records|));
    var first := [Receive(b, records)];
    assert first[..0] == [] && After(targets, StateOf(s), first[..0]) == Some(StateOf(s));
    assert After(targets, StateOf(s), first) == Some(StateOf(Fifo.Next(targets, s, Fifo.Poll(b, take))));
    AfterConcat(targets, StateOf(s), first, served);
  }

  // Where the handler leaves an accepted batch: complete, with every topic served.
  lemma AcceptedBatchEnds(targets: set<Topic>, s: State, b: nat, records: seq<Message>, topics: seq<Topic>)
    requires s.logs.Keys == targets && DistinctTopics(topics) && (set t | t in topics) == targets
    ensures FailuresOf(records, topics, AllAccepted(|records|)) == []
    ensures var end := AfterRecords(s, b, records, topics, AllAccepted(|records|));
            Enabled(targets, end, Complete(b)) && end.logs.Keys == targets &&
            forall t :: t in targets ==> Grew(s.logs[t], end.logs[t], records)
  {
    AcceptedBatchFailsNothing(records, topics);
    assert records[..|records|] == records;
    forall t | t in targets ensures Grew(s.logs[t], LogsAfter(s.logs, records, topics, AllAccepted(|records|))[t], records) {
      AcceptedBatchIsLogged(s.logs, records, topics, t);
    }
    var end := AfterRecords(s, b, records, topics, AllAccepted(|records|));
    assert end.batches[b] == FinishedBatch(records, topics, AllAccepted(|records|));
  }

  // When the queue hands a batch to the handler and every publish is accepted, the handler's
  // run is a run of the FIFO machine, which ends where the protocol says the handler's answer
  // and logs leave it: nothing is reported, and every topic has the batch in its order.
  lemma HandlerRunsFifoMachine(targets: set<Topic>, s: Fifo.FifoState, b: nat, take: seq<bool>, topics: seq<Topic>)
    requires Placed(s) && Fifo.Enabled(targets, s, Fifo.Poll(b, take)) && s.logs.Keys == targets
    requires DistinctTopics(topics) && (set t | t in topics) == targets
    ensures var records := Fifo.Selected(s.waiting, take, true);
            var end := AfterPoll(targets, s, b, take, topics);
            && end.Some? && Placed(end.value)
            && StateOf(end.value) == AfterRecords(StateOf(s), b, records, topics, AllAccepted(|records|))
            && FailuresOf(records, topics, AllAccepted(|records|)) == []
            && (forall t :: t in targets ==> Grew(StateOf(s).logs[t], StateOf(end.value).logs[t], records))
            && Enabled(targets, StateOf(end.value), Complete(b))
  {
    var records := Fifo.Selected(s.waiting, take, true);
    var polled := Fifo.Next(targets, s, Fifo.Poll(b, take));
    var steps := BatchServed(b, topics, |records|);
    PollThenServe(targets, s, b, take, topics);
    PollKeepsPlaced(targets, s, b, take);
    BatchServedAs(b, topics, |records|);
    forall step | step in steps ensures Serves(step) {
      BatchServes(b, topics, |records|, step);
    }
    ServingFollows(targets, polled, steps);
    PolledLogs(targets, s);
    AcceptedBatchEnds(targets, StateOf(s), b, records, topics);
  }
}
