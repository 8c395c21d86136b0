// Forwarding from a FIFO queue when nothing fails. The queue hands out a group's messages
// in order and to one invocation at a time; the forwarder then keeps that order on every
// topic.
module ForwarderOrder {
  import opened Blueprint
  import opened Forwarder
  import opened Sequences

  // next records are settled; accepted holds the topics that took the current one.
  datatype Invocation = Invocation(records: seq<Message>, next: nat, accepted: set<Topic>)

  datatype FifoState = FifoState(
    sent: seq<Message>,
    waiting: seq<Message>,
    running: map<nat, Invocation>,
    logs: map<Topic, seq<Message>>
  )

  // take marks the waiting messages an invocation receives.
  datatype FifoStep =
    | Enqueue(m: Message)
    | Poll(b: nat, take: seq<bool>)
    | Deliver(b: nat, t: Topic)
    | Advance(b: nat)
    | Finish(b: nat)

  function Selected(s: seq<Message>, take: seq<bool>, which: bool): seq<Message>
    requires |s| == |take|
  {
    if s == [] then []
    else
      var n := |s| - 1;
      Selected(s[..n], take[..n], which) + if take[n] == which then [s[n]] else []
  }

  function OfGroup(s: seq<Message>, g: string): seq<Message> {
    if s == [] then []
    else
      var n := |s| - 1;
      OfGroup(s[..n], g) + if s[n].group == Some(g) then [s[n]] else []
  }

  predicate Holds(inv: Invocation, g: string) {
    exists m :: m in inv.records && m.group == Some(g)
  }

  ghost predicate Locked(s: FifoState, g: string) {
    exists b :: b in s.running && Holds(s.running[b], g)
  }

  // A group's earlier messages are taken before its later ones.
  predicate GroupClosed(s: seq<Message>, take: seq<bool>)
    requires |s| == |take|
  {
    forall i, j :: 0 <= i < j < |s| && s[i].group.Some? && s[i].group == s[j].group && take[j] ==> take[i]
  }

  ghost predicate Enabled(targets: set<Topic>, s: FifoState, step: FifoStep) {
    match step
    case Enqueue(m) => true
    case Poll(b, take) =>
      && b !in s.running && |take| == |s.waiting| && GroupClosed(s.waiting, take)
      && forall i :: 0 <= i < |take| && take[i] && s.waiting[i].group.Some? ==> !Locked(s, s.waiting[i].group.value)
    case Deliver(b, t) =>
      && b in s.running && s.running[b].next < |s.running[b].records|
      && t in targets && t in s.logs && t !in s.running[b].accepted
    case Advance(b) =>
      b in s.running && s.running[b].next < |s.running[b].records| && s.running[b].accepted == targets
    case Finish(b) => b in s.running && s.running[b].next == |s.running[b].records|
  }

  ghost function Next(targets: set<Topic>, s: FifoState, step: FifoStep): FifoState
    requires Enabled(targets, s, step)
  {
    match step
    case Enqueue(m) => s.(sent := s.sent + [m], waiting := s.waiting + [m])
    case Poll(b, take) =>
      s.(waiting := Selected(s.waiting, take, false),
         running := s.running[b := Invocation(Selected(s.waiting, take, true), 0, {})])
    case Deliver(b, t) =>
      var inv := s.running[b];
      s.(logs := s.logs[t := s.logs[t] + [inv.records[inv.next]]],
         running := s.running[b := inv.(accepted := inv.accepted + {t})])
    case Advance(b) =>
      var inv := s.running[b];
      s.(running := s.running[b := Invocation(inv.records, inv.next + 1, {})])
    case Finish(b) => s.(running := s.running - {b})
  }

  ghost predicate Initial(targets: set<Topic>, s: FifoState) {
    s.sent == [] && s.waiting == [] && s.running == map[] &&
    s.logs.Keys == targets && forall t :: t in s.logs ==> s.logs[t] == []
  }

  ghost predicate Run(targets: set<Topic>, states: seq<FifoState>, steps: seq<FifoStep>) {
    |states| == |steps| + 1 &&
    forall i :: 0 <= i < |steps| ==>
      Enabled(targets, states[i], steps[i]) && states[i + 1] == Next(targets, states[i], steps[i])
  }

  // ---- Group order ----

  lemma {:induction false} OfGroupConcat(s: seq<Message>, t: seq<Message>, g: string)
    ensures OfGroup(s + t, g) == OfGroup(s, g) + OfGroup(t, g)
  {
    if t == [] {
      assert s + t == s;
    } else {
      OfGroupConcat(s, t[..|t| - 1], g);
      assert (s + t)[..|s + t| - 1] == s + t[..|t| - 1];
    }
  }

  function One(m: Message, g: string): seq<Message> {
    if m.group == Some(g) then [m] else []
  }

  lemma OfGroupSingle(s: seq<Message>, m: Message, g: string)
    ensures OfGroup(s + [m], g) == OfGroup(s, g) + One(m, g)
    ensures OfGroup([m] + s, g) == One(m, g) + OfGroup(s, g)
  {
    assert [m][..0] == [];
    assert OfGroup([m], g) == One(m, g);
    OfGroupConcat(s, [m], g);
    OfGroupConcat([m], s, g);
  }

  lemma {:induction false} NoneOfGroup(s: seq<Message>, g: string)
    requires forall m :: m in s ==> m.group != Some(g)
    ensures OfGroup(s, g) == []
  {
    if s != [] {
      NoneOfGroup(s[..|s| - 1], g);
    }
  }

  lemma {:induction false} SelectedMembers(s: seq<Message>, take: seq<bool>, which: bool, m: Message)
    requires |s| == |take|
    ensures m in Selected(s, take, which) <==> exists i :: 0 <= i < |s| && take[i] == which && s[i] == m
  {
    if s != [] {
      var n := |s| - 1;
      SelectedMembers(s[..n], take[..n], which, m);
      if i :| 0 <= i < n && take[i] == which && s[i] == m {
        assert take[..n][i] == which && s[..n][i] == m;
      }
    }
  }

  lemma SelectionStep(taken: seq<Message>, left: seq<Message>, whole: seq<Message>, m: Message, take: bool, g: string)
    requires OfGroup(taken, g) + OfGroup(left, g) == OfGroup(whole, g)
    requires take && m.group == Some(g) ==> OfGroup(left, g) == []
    ensures OfGroup(if take then taken + [m] else taken, g) + OfGroup(if take then left else left + [m], g) ==
            OfGroup(whole + [m], g)
  {
    OfGroupSingle(whole, m, g);
    if take {
      OfGroupSingle(taken, m, g);
    } else {
      OfGroupSingle(left, m, g);
      Reassociate(OfGroup(taken, g), OfGroup(left, g), One(m, g));
    }
  }

  lemma NothingLeftBefore(s: seq<Message>, take: seq<bool>, g: string)
    requires |s| == |take| && s != [] && GroupClosed(s, take)
    requires take[|s| - 1] && s[|s| - 1].group == Some(g)
    ensures OfGroup(Selected(s[..|s| - 1], take[..|s| - 1], false), g) == []
  {
    var n := |s| - 1;
    var left := Selected(s[..n], take[..n], false);
    forall m | m in left ensures m.group != Some(g) {
      SelectedMembers(s[..n], take[..n], false, m);
      var i :| 0 <= i < n && take[..n][i] == false && s[..n][i] == m;
      assert s[i] == m && !take[i];
    }
    NoneOfGroup(left, g);
  }

  lemma SelectedLast(s: seq<Message>, take: seq<bool>, which: bool)
    requires |s| == |take| && s != []
    ensures var n := |s| - 1;
            var before := Selected(s[..n], take[..n], which);
            Selected(s, take, which) == if take[n] == which then before + [s[n]] else before
  {
  }

  lemma ClosedPrefix(s: seq<Message>, take: seq<bool>, n: nat)
    requires |s| == |take| && n <= |s| && GroupClosed(s, take)
    ensures GroupClosed(s[..n], take[..n])
  {
  }

  // Taking a group in order leaves its remainder in order behind it.
  lemma {:induction false} SelectionKeepsGroupOrder(s: seq<Message>, take: seq<bool>, g: string)
    requires |s| == |take| && GroupClosed(s, take)
    ensures OfGroup(Selected(s, take, true), g) + OfGroup(Selected(s, take, false), g) == OfGroup(s, g)
  {
    if s != [] {
      var n := |s| - 1;
      var init, marks := s[..n], take[..n];
      assert s == init + [s[n]];
      ClosedPrefix(s, take, n);
      SelectionKeepsGroupOrder(init, marks, g);
      if take[n] && s[n].group == Some(g) {
        NothingLeftBefore(s, take, g);
      }
      SelectionStep(Selected(init, marks, true), Selected(init, marks, false), init, s[n], take[n], g);
      SelectedLast(s, take, true);
      SelectedLast(s, take, false);
    }
  }

  // The records an invocation has yet to publish to a topic.
  function Unpublished(inv: Invocation, t: Topic): seq<Message>
    requires inv.next <= |inv.records| && (inv.next == |inv.records| ==> inv.accepted == {})
  {
    inv.records[inv.next + if t in inv.accepted then 1 else 0..]
  }

  ghost predicate InvocationOk(targets: set<Topic>, inv: Invocation) {
    inv.next <= |inv.records| && (inv.next == |inv.records| ==> inv.accepted == {}) && inv.accepted <= targets
  }

  // What a topic has of a group, then what the group's invocation still owes it, then what
  // waits in the queue, is the group as it was sent.
  ghost predicate GroupInOrder(s: FifoState, t: Topic, g: string)
    requires t in s.logs
    requires forall b :: b in s.running ==> s.running[b].next <= |s.running[b].records|
    requires forall b :: b in s.running && s.running[b].next == |s.running[b].records| ==> s.running[b].accepted == {}
  {
    && (forall b :: b in s.running && Holds(s.running[b], g) ==>
          OfGroup(s.logs[t], g) + OfGroup(Unpublished(s.running[b], t), g) + OfGroup(s.waiting, g) == OfGroup(s.sent, g))
    && (!Locked(s, g) ==> OfGroup(s.logs[t], g) + OfGroup(s.waiting, g) == OfGroup(s.sent, g))
  }

  ghost predicate Valid(targets: set<Topic>, s: FifoState) {
    && s.logs.Keys == targets
    && (forall b :: b in s.running ==> InvocationOk(targets, s.running[b]))
    && (forall b, c, g :: b in s.running && c in s.running && Holds(s.running[b], g) && Holds(s.running[c], g) ==> b == c)
    && (forall t, g :: t in targets ==> GroupInOrder(s, t, g))
  }

  lemma EnqueueKeepsOrder(targets: set<Topic>, s: FifoState, m: Message, t: Topic, g: string)
    requires Valid(targets, s) && t in targets
    ensures GroupInOrder(Next(targets, s, Enqueue(m)), t, g)
  {
    var s' := Next(targets, s, Enqueue(m));
    OfGroupConcat(s.sent, [m], g);
    OfGroupConcat(s.waiting, [m], g);
    assert GroupInOrder(s, t, g);
    assert Locked(s', g) <==> Locked(s, g);
  }

  lemma PollLocksFreeGroups(targets: set<Topic>, s: FifoState, b: nat, take: seq<bool>, g: string)
    requires Enabled(targets, s, Poll(b, take))
    ensures Holds(Next(targets, s, Poll(b, take)).running[b], g) ==> !Locked(s, g)
    ensures !Holds(Next(targets, s, Poll(b, take)).running[b], g) ==> OfGroup(Selected(s.waiting, take, true), g) == []
  {
    var inv := Next(targets, s, Poll(b, take)).running[b];
    if Holds(inv, g) {
      var m :| m in inv.records && m.group == Some(g);
      SelectedMembers(s.waiting, take, true, m);
    } else {
      NoneOfGroup(inv.records, g);
    }
  }

  lemma PollLocks(targets: set<Topic>, s: FifoState, b: nat, take: seq<bool>, g: string)
    requires Enabled(targets, s, Poll(b, take))
    ensures var s' := Next(targets, s, Poll(b, take));
            Locked(s', g) <==> Locked(s, g) || Holds(s'.running[b], g)
  {
    var s' := Next(targets, s, Poll(b, take));
    forall c | c in s.running ensures s'.running[c] == s.running[c] { }
    assert b in s'.running;
    if Locked(s, g) {
      var c :| c in s.running && Holds(s.running[c], g);
      assert c in s'.running && Holds(s'.running[c], g);
    }
  }

  // The records polled and those left are the waiting ones, in the group's order; a group
  // the poll takes nothing of is left as it was.
  lemma PollSplitsGroup(targets: set<Topic>, s: FifoState, b: nat, take: seq<bool>, g: string)
    requires Enabled(targets, s, Poll(b, take))
    ensures var s' := Next(targets, s, Poll(b, take));
            OfGroup(s'.running[b].records, g) + OfGroup(s'.waiting, g) == OfGroup(s.waiting, g) &&
            (!Holds(s'.running[b], g) ==> OfGroup(s'.waiting, g) == OfGroup(s.waiting, g))
  {
    SelectionKeepsGroupOrder(s.waiting, take, g);
    PollLocksFreeGroups(targets, s, b, take, g);
  }

  lemma PolledInOrder(targets: set<Topic>, s: FifoState, b: nat, take: seq<bool>, t: Topic, g: string)
    requires Valid(targets, s) && Enabled(targets, s, Poll(b, take)) && t in targets
    requires Holds(Next(targets, s, Poll(b, take)).running[b], g)
    ensures var s' := Next(targets, s, Poll(b, take));
            OfGroup(s'.logs[t], g) + OfGroup(Unpublished(s'.running[b], t), g) + OfGroup(s'.waiting, g) == OfGroup(s'.sent, g)
  {
    var s' := Next(targets, s, Poll(b, take));
    assert GroupInOrder(s, t, g);
    PollSplitsGroup(targets, s, b, take, g);
    PollLocksFreeGroups(targets, s, b, take, g);
    assert Unpublished(s'.running[b], t) == s'.running[b].records;
    Reassociate(OfGroup(s.logs[t], g), OfGroup(s'.running[b].records, g), OfGroup(s'.waiting, g));
  }

  lemma PollKeepsOrder(targets: set<Topic>, s: FifoState, b: nat, take: seq<bool>, t: Topic, g: string)
    requires Valid(targets, s) && Enabled(targets, s, Poll(b, take)) && t in targets
    ensures GroupInOrder(Next(targets, s, Poll(b, take)), t, g)
  {
    var s' := Next(targets, s, Poll(b, take));
    assert GroupInOrder(s, t, g);
    PollSplitsGroup(targets, s, b, take, g);
    PollLocksFreeGroups(targets, s, b, take, g);
    PollLocks(targets, s, b, take, g);
    if Holds(s'.running[b], g) {
      PolledInOrder(targets, s, b, take, t, g);
    }
  }

  // Publishing moves a message from what is owed to what the topic has.
  lemma PublishedMoves(log: seq<Message>, m: Message, rest: seq<Message>, g: string)
    ensures OfGroup(log + [m], g) + OfGroup(rest, g) == OfGroup(log, g) + OfGroup([m] + rest, g)
    ensures m.group != Some(g) ==> OfGroup(log + [m], g) == OfGroup(log, g)
  {
    OfGroupSingle(log, m, g);
    OfGroupSingle(rest, m, g);
    Reassociate(OfGroup(log, g), One(m, g), OfGroup(rest, g));
  }

  lemma DeliverKeepsLocks(targets: set<Topic>, s: FifoState, b: nat, u: Topic, g: string)
    requires Enabled(targets, s, Deliver(b, u))
    ensures var s' := Next(targets, s, Deliver(b, u));
            s'.running.Keys == s.running.Keys &&
            (forall c :: c in s.running ==> (Holds(s'.running[c], g) <==> Holds(s.running[c], g))) &&
            (Locked(s', g) <==> Locked(s, g))
  {
    var s' := Next(targets, s, Deliver(b, u));
    forall c | c in s.running ensures Holds(s'.running[c], g) <==> Holds(s.running[c], g) { }
  }

  lemma DeliverKeepsOrder(targets: set<Topic>, s: FifoState, b: nat, u: Topic, t: Topic, g: string)
    requires Valid(targets, s) && Enabled(targets, s, Deliver(b, u)) && t in targets
    ensures GroupInOrder(Next(targets, s, Deliver(b, u)), t, g)
  {
    var s' := Next(targets, s, Deliver(b, u));
    var inv := s.running[b];
    var m, rest := inv.records[inv.next], inv.records[inv.next + 1..];
    assert GroupInOrder(s, t, g);
    DeliverKeepsLocks(targets, s, b, u, g);
    if t == u {
      assert Unpublished(inv, t) == [m] + rest;
      assert Unpublished(s'.running[b], t) == rest;
      PublishedMoves(s.logs[t], m, rest, g);
      assert m in inv.records;
    } else {
      assert Unpublished(s'.running[b], t) == Unpublished(inv, t);
    }
  }

  lemma AdvanceKeepsOrder(targets: set<Topic>, s: FifoState, b: nat, t: Topic, g: string)
    requires Valid(targets, s) && Enabled(targets, s, Advance(b)) && t in targets
    ensures GroupInOrder(Next(targets, s, Advance(b)), t, g)
  {
    var s' := Next(targets, s, Advance(b));
    assert GroupInOrder(s, t, g);
    assert Unpublished(s'.running[b], t) == Unpublished(s.running[b], t);
    forall c | c in s.running ensures Holds(s'.running[c], g) <==> Holds(s.running[c], g) { }
  }

  lemma FinishKeepsOrder(targets: set<Topic>, s: FifoState, b: nat, t: Topic, g: string)
    requires Valid(targets, s) && Enabled(targets, s, Finish(b)) && t in targets
    ensures GroupInOrder(Next(targets, s, Finish(b)), t, g)
  {
    var s' := Next(targets, s, Finish(b));
    assert GroupInOrder(s, t, g);
    assert Unpublished(s.running[b], t) == [];
    forall c | c in s.running && c != b ensures c in s'.running && s'.running[c] == s.running[c] { }
    if Locked(s, g) && !Holds(s.running[b], g) {
      var c :| c in s.running && Holds(s.running[c], g);
      assert Holds(s'.running[c], g);
    }
  }

  lemma StepKeepsValid(targets: set<Topic>, s: FifoState, step: FifoStep)
    requires Valid(targets, s) && Enabled(targets, s, step)
    ensures Valid(targets, Next(targets, s, step))
  {
    var s' := Next(targets, s, step);
    forall t, g | t in targets ensures s'.logs.Keys == targets && GroupInOrder(s', t, g) {
      match step {
        case Enqueue(m) => EnqueueKeepsOrder(targets, s, m, t, g);
        case Poll(b, take) => PollKeepsOrder(targets, s, b, take, t, g);
        case Deliver(b, u) => DeliverKeepsOrder(targets, s, b, u, t, g);
        case Advance(b) => AdvanceKeepsOrder(targets, s, b, t, g);
        case Finish(b) => FinishKeepsOrder(targets, s, b, t, g);
      }
    }
    if step.Poll? {
      forall g ensures Holds(s'.running[step.b], g) ==> !Locked(s, g) {
        PollLocksFreeGroups(targets, s, step.b, step.take, g);
      }
    }
  }

  lemma {:induction false} RunKeepsValid(targets: set<Topic>, states: seq<FifoState>, steps: seq<FifoStep>, i: nat)
    requires Run(targets, states, steps) && Initial(targets, states[0]) && i < |states|
    ensures Valid(targets, states[i])
  {
    if i > 0 {
      RunKeepsValid(targets, states, steps, i - 1);
      StepKeepsValid(targets, states[i - 1], steps[i - 1]);
    }
  }

  // In failure-free runs each topic always holds a prefix of each group as it was sent,
  // and the whole group once the queue is drained.
  lemma TopicsReceiveGroupsInOrder(targets: set<Topic>, states: seq<FifoState>, steps: seq<FifoStep>, i: nat, t: Topic, g: string)
    requires Run(targets, states, steps) && Initial(targets, states[0]) && i < |states| && t in targets
    ensures t in states[i].logs && OfGroup(states[i].logs[t], g) <= OfGroup(states[i].sent, g)
    ensures states[i].waiting == [] && states[i].running == map[] ==>
              OfGroup(states[i].logs[t], g) == OfGroup(states[i].sent, g)
  {
    RunKeepsValid(targets, states, steps, i);
    var s := states[i];
    assert GroupInOrder(s, t, g);
    if Locked(s, g) {
      var b :| b in s.running && Holds(s.running[b], g);
      assert OfGroup(s.logs[t], g) + (OfGroup(Unpublished(s.running[b], t), g) + OfGroup(s.waiting, g)) == OfGroup(s.sent, g);
    }
  }
}
