/**
 What being attended is worth: from every reachable state, with no further
 arrival, the agents already at work can send the oldest packet of every
 non-empty class.
 */
module QosProgress {
  import opened QosTypes
  import opened QosProtocol
  import opened QosHandshake

  /** Bytes the sender's deficit is short of the oldest packet of class `c`. */
  function Shortfall(s: Peer, i: nat, c: Class): nat
    requires i in s.senders && s.queues.Get(c) != []
  {
    var need := |s.queues.Get(c)[0].packet|;
    var deficit := s.senders[i].accounts.Get(c).deficit;
    if deficit < need then need - deficit else 0
  }

  /** Position of a program counter within the sender's loop. */
  function Place(pc: SenderPc): nat {
    match pc
    case Visit(c) => 2 * Rank(c)
    case Drain(c) => 2 * Rank(c) + 1
    case Look(stage, c) =>
      Rank(c) + (match stage case AfterRound => 6 case AfterTimeout => 10 case AfterRetract => 14 case Final => 18)
    case Wait => 9
    case Retract => 13
    case Reclaim => 17
    case Returned => 21
  }

  /** Steps of the loop, at most, before a sender that is `ready` or not sends from class `c`. */
  function Distance(pc: SenderPc, ready: bool, c: Class): nat {
    if pc == Drain(c) && ready then 0
    else if Place(pc) <= 2 * Rank(c) then 2 * Rank(c) - Place(pc) + 1
    else 50 - Place(pc)
  }

  function Remaining(s: Peer, i: nat, c: Class): nat
    requires i in s.senders && s.queues.Get(c) != []
  {
    Distance(s.senders[i].pc, Shortfall(s, i, c) == 0, c)
  }

  function Backlog(s: Peer): nat {
    |s.queues.latency| + |s.queues.normal| + |s.queues.bulk|
  }

  /** Class `c` is untouched and the sender is closer to sending from it. */
  predicate Closer(s: Peer, t: Peer, i: nat, c: Class)
    requires i in s.senders && s.queues.Get(c) != []
  {
    && i in t.senders
    && t.queues.Get(c) == s.queues.Get(c)
    && t.removed.Get(c) == s.removed.Get(c)
    && (|| Shortfall(t, i, c) < Shortfall(s, i, c)
        || (&& Shortfall(t, i, c) == Shortfall(s, i, c)
            && (|| Remaining(t, i, c) < Remaining(s, i, c)
                || (Remaining(t, i, c) == Remaining(s, i, c) && Backlog(t) < Backlog(s)))))
  }

  /** Sender `i` has taken the oldest packet of class `c` and nothing else of that class has left. */
  predicate SendsOldest(s: Peer, t: Peer, i: nat, c: Class)
    requires s.queues.Get(c) != []
  {
    t.removed.Get(c) == s.removed.Get(c) + [Sent(s.queues.Get(c)[0], i)]
  }

  lemma VisitApproaches(s: Peer, i: nat, k: Class, c: Class)
    requires i in s.senders && s.senders[i].pc == Visit(k) && s.queues.Get(c) != []
    ensures Closer(s, VisitStep(s, i, k), i, c)
  {
    if k == c {
      VisitTargetApproaches(s, i, c);
    } else {
      VisitOtherApproaches(s, i, k, c);
    }
  }

  lemma VisitTargetApproaches(s: Peer, i: nat, c: Class)
    requires i in s.senders && s.senders[i].pc == Visit(c) && s.queues.Get(c) != []
    ensures Closer(s, VisitStep(s, i, c), i, c)
  {
    var t := VisitStep(s, i, c);
    assert t.queues == s.queues && t.removed == s.removed && t.senders[i].pc == Drain(c);
  }

  /** A turn at a class other than `c` shortens the way to `c`. */
  lemma VisitIsCloser(k: Class, ready: bool, c: Class)
    requires k != c
    ensures Distance(Drain(k), ready, c) < Distance(Visit(k), ready, c)
    ensures Distance(AfterVisit(k), ready, c) < Distance(Visit(k), ready, c)
  {
  }

  lemma VisitOtherApproaches(s: Peer, i: nat, k: Class, c: Class)
    requires i in s.senders && s.senders[i].pc == Visit(k) && s.queues.Get(c) != [] && k != c
    ensures Closer(s, VisitStep(s, i, k), i, c)
  {
    var t := VisitStep(s, i, k);
    assert t.queues == s.queues && t.removed == s.removed;
    assert t.senders[i].accounts.Get(c) == s.senders[i].accounts.Get(c);
    assert t.senders[i].pc == Drain(k) || t.senders[i].pc == AfterVisit(k);
    VisitIsCloser(k, Shortfall(s, i, c) == 0, c);
  }

  /** So does leaving it. */
  lemma AfterVisitIsCloser(k: Class, ready: bool, c: Class)
    requires k != c
    ensures Distance(AfterVisit(k), ready, c) < Distance(Drain(k), ready, c)
  {
  }

  /** Popping from, or leaving, a class other than `c`. */
  lemma DrainOtherApproaches(s: Peer, i: nat, k: Class, c: Class)
    requires i in s.senders && s.senders[i].pc == Drain(k) && s.queues.Get(c) != [] && k != c
    ensures Closer(s, DrainStep(s, i, k), i, c)
  {
    var t := DrainStep(s, i, k);
    DrainOtherEffect(s, i, k, c);
    AfterVisitIsCloser(k, Shortfall(s, i, c) == 0, c);
  }

  lemma DrainOtherEffect(s: Peer, i: nat, k: Class, c: Class)
    requires i in s.senders && s.senders[i].pc == Drain(k) && k != c
    ensures var t := DrainStep(s, i, k);
            && t.queues.Get(c) == s.queues.Get(c)
            && t.removed.Get(c) == s.removed.Get(c)
            && t.senders[i].accounts.Get(c) == s.senders[i].accounts.Get(c)
            && (|| t.senders[i].pc == AfterVisit(k)
                || (t.senders[i].pc == Drain(k) && Backlog(t) < Backlog(s)))
  {
    var q := s.queues.Get(k);
    if q != [] {
      PopShrinks(s, k, Sent(q[0], i), c);
    }
  }

  lemma PopShrinks(s: Peer, k: Class, r: Removal, c: Class)
    requires s.queues.Get(k) != [] && k != c
    ensures var t := PopFront(s, k, r);
            && Backlog(t) < Backlog(s)
            && t.queues.Get(c) == s.queues.Get(c)
            && t.removed.Get(c) == s.removed.Get(c)
  {
  }

  lemma DrainTargetApproaches(s: Peer, i: nat, c: Class)
    requires i in s.senders && s.senders[i].pc == Drain(c) && s.queues.Get(c) != []
    ensures var t := DrainStep(s, i, c); SendsOldest(s, t, i, c) || Closer(s, t, i, c)
  {
  }

  /** Looking, waiting and handing over `running` move forward, or back to the first class. */
  lemma MoveIsCloser(pc: SenderPc, empty: bool, running: bool, ready: bool, c: Class)
    requires !pc.Visit? && !pc.Drain? && WillLook(pc, c)
    requires pc.Look? && pc.c == c ==> !empty
    ensures Distance(NextPc(pc, empty, running), ready, c) < Distance(pc, ready, c)
  {
  }

  /** Where a sender that times out goes from a program counter outside a visit. */
  function NextPc(pc: SenderPc, empty: bool, running: bool): SenderPc
    requires !pc.Visit? && !pc.Drain?
  {
    match pc
    case Look(stage, k) => if empty then AfterEmptyLook(stage, k) else AfterFullLook(stage)
    case Wait => Look(AfterTimeout, Latency)
    case Retract => Look(AfterRetract, Latency)
    case Reclaim => if running then Look(Final, Latency) else Visit(Latency)
    case Returned => Returned
  }

  lemma MoveApproaches(s: Peer, i: nat, c: Class)
    requires AttendingSender(s, c, i) && s.queues.Get(c) != []
    requires !s.senders[i].pc.Visit? && !s.senders[i].pc.Drain?
    ensures Closer(s, SenderStep(s, i, true), i, c)
  {
    var t := SenderStep(s, i, true);
    var pc := s.senders[i].pc;
    var empty := pc.Look? && s.queues.Get(pc.c) == [];
    assert t.queues == s.queues && t.removed == s.removed;
    assert t.senders[i] == s.senders[i].(pc := NextPc(pc, empty, s.running));
    MoveIsCloser(pc, empty, s.running, Shortfall(s, i, c) == 0, c);
  }

  /** One step of the sender sends from class `c`, or brings it closer to doing so. */
  lemma StepApproaches(s: Peer, i: nat, c: Class)
    requires AttendingSender(s, c, i) && s.queues.Get(c) != []
    ensures var t := SenderStep(s, i, true);
            SendsOldest(s, t, i, c) || (AttendingSender(t, c, i) && Closer(s, t, i, c))
  {
    SenderKeepsLooking(s, i, true, c);
    match s.senders[i].pc
    case Visit(k) => VisitApproaches(s, i, k, c);
    case Drain(k) =>
      if k == c {
        DrainTargetApproaches(s, i, c);
      } else {
        DrainOtherApproaches(s, i, k, c);
      }
    case _ => MoveApproaches(s, i, c);
  }

  /** A sender scheduled alone, its waits timing out. */
  function Alone(i: nat, n: nat): seq<Step> {
    seq(n, _ => Send(i, true))
  }

  lemma {:induction false} AloneStep(s: Peer, i: nat, n: nat)
    ensures Run(s, Alone(i, n + 1)) == Run(Apply(s, Send(i, true)), Alone(i, n))
  {
    var step := Send(i, true);
    assert Alone(i, n + 1) == [step] + Alone(i, n);
    RunAppend(s, [step], Alone(i, n));
    assert [step][..0] == [];
    assert Run(s, [step]) == Apply(Run(s, []), step);
  }

  /** A sender that attends class `c`, scheduled alone, sends that class's oldest packet. */
  lemma {:induction false} SenderAloneProgresses(s: Peer, i: nat, c: Class)
    requires AttendingSender(s, c, i) && s.queues.Get(c) != []
    ensures exists n: nat :: SendsOldest(s, Run(s, Alone(i, n)), i, c)
    decreases Shortfall(s, i, c), Remaining(s, i, c), Backlog(s)
  {
    var t := Apply(s, Send(i, true));
    StepApproaches(s, i, c);
    if SendsOldest(s, t, i, c) {
      AloneStep(s, i, 0);
      assert Alone(i, 0) == [];
      assert SendsOldest(s, Run(s, Alone(i, 1)), i, c);
    } else {
      SenderAloneProgresses(t, i, c);
      var n: nat :| SendsOldest(t, Run(t, Alone(i, n)), i, c);
      AloneStep(s, i, n);
      assert SendsOldest(s, Run(s, Alone(i, n + 1)), i, c);
    }
  }

  /** No step of the list brings in another packet. */
  predicate NoArrivals(steps: seq<Step>) {
    forall k :: 0 <= k < |steps| ==> !steps[k].Arrive?
  }

  /** The same once an enqueuer is about to start a sender. */
  lemma SpawnProgresses(s: Peer, id: nat, c: Class) returns (steps: seq<Step>, j: nat)
    requires EnqueuerAt(s, id, SpawnSender) && s.queues.Get(c) != []
    ensures NoArrivals(steps) && SendsOldest(s, Run(s, steps), j, c)
  {
    j := FreshName(s.senders.Keys);
    var step := Enqueue(id, j);
    var t := Apply(s, step);
    assert AttendingSender(t, c, j);
    SenderAloneProgresses(t, j, c);
    var n: nat :| SendsOldest(t, Run(t, Alone(j, n)), j, c);
    var rest := Alone(j, n);
    steps := [step] + rest;
    assert Run(s, [step]) == t by {
      assert [step][..0] == [];
    }
    RunAppend(s, [step], rest);
  }

  lemma CoveredProgresses(s: Peer, c: Class) returns (steps: seq<Step>, j: nat)
    requires Covered(s) && s.queues.Get(c) != []
    ensures NoArrivals(steps) && SendsOldest(s, Run(s, steps), j, c)
  {
    if i :| ResponsibleSender(s, i) {
      SenderAloneProgresses(s, i, c);
      var n: nat :| SendsOldest(s, Run(s, Alone(i, n)), i, c);
      steps, j := Alone(i, n), i;
    } else {
      var id :| EnqueuerAt(s, id, SpawnSender);
      steps, j := SpawnProgresses(s, id, c);
    }
  }

  lemma SwapProgresses(s: Peer, id: nat, c: Class) returns (steps: seq<Step>, j: nat)
    requires Handshake(s) && EnqueuerAt(s, id, SwapRunning) && s.queues.Get(c) != []
    ensures NoArrivals(steps) && SendsOldest(s, Run(s, steps), j, c)
  {
    var step := Enqueue(id, 0);
    var t := Apply(s, step);
    EnqueuerKeepsHandshake(s, id, 0);
    var rest;
    rest, j := CoveredProgresses(t, c);
    steps := [step] + rest;
    assert Run(s, [step]) == t by {
      assert [step][..0] == [];
    }
    RunAppend(s, [step], rest);
  }

  lemma FreshName(xs: set<nat>) returns (r: nat)
    ensures forall x :: x in xs ==> x < r
  {
    r := 0;
    if xs != {} {
      var x :| x in xs;
      var rest := FreshName(xs - {x});
      r := if rest <= x then x + 1 else rest;
      assert forall y :: y in xs ==> y == x || y in xs - {x};
    }
  }

  /**
   After any run, whatever is queued can still be sent by the agents already at
   work: some continuation without arrivals ends with a sender having taken the
   oldest packet of any given non-empty class, none of that class being evicted.
   */
  lemma QueuedPacketsStayServiceable(mtu: Mtu, steps: seq<Step>, c: Class) returns (more: seq<Step>, j: nat)
    requires Run(Init(mtu), steps).queues.Get(c) != []
    ensures NoArrivals(more)
    ensures SendsOldest(Run(Init(mtu), steps), Run(Init(mtu), steps + more), j, c)
  {
    var s := Run(Init(mtu), steps);
    RunKeepsHandshake(Init(mtu), steps);
    if i :| AttendingSender(s, c, i) {
      SenderAloneProgresses(s, i, c);
      var n: nat :| SendsOldest(s, Run(s, Alone(i, n)), i, c);
      more, j := Alone(i, n), i;
    } else if id :| EnqueuerAt(s, id, SpawnSender) {
      more, j := SpawnProgresses(s, id, c);
    } else {
      var id :| EnqueuerAt(s, id, SwapRunning);
      more, j := SwapProgresses(s, id, c);
    }
    RunAppend(Init(mtu), steps, more);
  }
}
