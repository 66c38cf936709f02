/**
 What the notify permit is for: no wake-up is lost, so no queued packet depends
 on the timeout of an idle sender.
 */
module QosWakeup {
  import opened QosTypes
  import opened QosProtocol
  import opened QosHandshake
  import opened QosProgress

  /** From here the sender inspects the queue of class `c` before it waits or returns. */
  predicate Eager(pc: SenderPc, c: Class) {
    match pc
    case Visit(_) => true
    case Drain(_) => true
    case Look(stage, k) => stage == AfterTimeout || stage == AfterRetract || Rank(k) <= Rank(c)
    case Wait => false
    case Retract => true
    case Reclaim => true
    case Returned => false
  }

  predicate EagerSender(s: Peer, c: Class, i: nat) {
    i in s.senders && Eager(s.senders[i].pc, c)
  }

  /** The call has pushed its packet and has yet to start or to notify a sender. */
  predicate AboutToWake(s: Peer, id: nat) {
    EnqueuerAt(s, id, SwapRunning) || EnqueuerAt(s, id, SpawnSender) || EnqueuerAt(s, id, NotifySender)
  }

  ghost predicate Awake(s: Peer, c: Class) {
    || s.permit
    || (exists i :: EagerSender(s, c, i))
    || (exists id :: AboutToWake(s, id))
  }

  ghost predicate Alert(s: Peer) {
    forall c :: s.queues.Get(c) != [] ==> Awake(s, c)
  }

  // Preservation

  lemma AwakeStays(s: Peer, t: Peer, c: Class, enqueuer: int, sender: int)
    requires Awake(s, c) && OthersStay(s, t, enqueuer, sender)
    requires s.permit ==> Awake(t, c)
    requires enqueuer >= 0 ==> (AboutToWake(s, enqueuer) ==> Awake(t, c))
    requires sender >= 0 ==> (EagerSender(s, c, sender) ==> Awake(t, c))
    ensures Awake(t, c)
  {
    if i :| EagerSender(s, c, i) {
      if i != sender {
        assert EagerSender(t, c, i);
      }
    } else if id :| AboutToWake(s, id) {
      if id != enqueuer {
        assert AboutToWake(t, id);
      }
    }
  }

  lemma EnqueuerWakes(s: Peer, id: nat, j: nat, c: Class)
    requires id in s.enqueuers
    ensures var t := EnqueuerStep(s, id, j);
            && (s.permit ==> t.permit)
            && (AboutToWake(s, id) ==> t.permit || AboutToWake(t, id) || EagerSender(t, c, j))
  {
  }

  lemma EnqueuerKeepsAlert(s: Peer, id: nat, j: nat)
    requires Alert(s) && id in s.enqueuers
    ensures Alert(EnqueuerStep(s, id, j))
  {
    var t := EnqueuerStep(s, id, j);
    forall c | t.queues.Get(c) != [] ensures Awake(t, c) {
      EnqueuerEffect(s, id, j, c);
      EnqueuerWakes(s, id, j, c);
      if s.queues.Get(c) == [] {
        assert AboutToWake(t, id);
      } else {
        AwakeStays(s, t, c, id, -1);
      }
    }
  }

  /** Only a waiting sender takes the permit, and it goes round again. */
  lemma SenderTakesPermit(s: Peer, i: nat, timedOut: bool, c: Class)
    requires i in s.senders && s.permit
    ensures var t := SenderStep(s, i, timedOut); t.permit || EagerSender(t, c, i)
  {
  }

  lemma EagerStays(s: Peer, i: nat, timedOut: bool, c: Class)
    requires EagerSender(s, c, i) && s.queues.Get(c) != []
    ensures EagerSender(SenderStep(s, i, timedOut), c, i)
  {
    match s.senders[i].pc
    case Visit(k) =>
    case Drain(k) =>
    case Look(stage, k) =>
    case Retract =>
    case Reclaim =>
  }

  lemma SenderKeepsAlert(s: Peer, i: nat, timedOut: bool)
    requires Alert(s) && i in s.senders
    ensures Alert(SenderStep(s, i, timedOut))
  {
    var t := SenderStep(s, i, timedOut);
    SenderTouchesNobody(s, i, timedOut);
    forall c | t.queues.Get(c) != [] ensures Awake(t, c) {
      SenderQueues(s, i, timedOut, c);
      if s.permit {
        SenderTakesPermit(s, i, timedOut, c);
      }
      if EagerSender(s, c, i) {
        EagerStays(s, i, timedOut, c);
      }
      AwakeStays(s, t, c, -1, i);
    }
  }

  lemma StepKeepsAlert(s: Peer, step: Step)
    requires Alert(s)
    ensures Alert(Apply(s, step))
  {
    match step
    case Arrive(id, k, p) =>
      forall c | s.queues.Get(c) != [] ensures Awake(Apply(s, step), c) {
        AwakeStays(s, Apply(s, step), c, -1, -1);
      }
    case Enqueue(id, j) =>
      if id in s.enqueuers {
        EnqueuerKeepsAlert(s, id, j);
      }
    case Send(i, timedOut) =>
      if i in s.senders {
        SenderKeepsAlert(s, i, timedOut);
      }
  }

  lemma {:induction false} RunKeepsAlert(s: Peer, steps: seq<Step>)
    requires Alert(s)
    ensures Alert(Run(s, steps))
    decreases |steps|
  {
    if steps == [] {
    } else {
      RunKeepsAlert(s, steps[..|steps| - 1]);
      StepKeepsAlert(Run(s, steps[..|steps| - 1]), steps[|steps| - 1]);
    }
  }

  /**
   In every interleaving a class with queued packets has a sender that reaches it
   before it waits or returns, or a call about to start or notify a sender, or the
   permit is set and a sender is there to take it.
   */
  lemma NoWakeUpIsLost(mtu: Mtu, steps: seq<Step>, c: Class)
    requires Run(Init(mtu), steps).queues.Get(c) != []
    ensures var s := Run(Init(mtu), steps);
            || (exists i :: EagerSender(s, c, i))
            || (exists id :: AboutToWake(s, id))
            || (s.permit && exists i :: AttendingSender(s, c, i))
  {
    var s := Run(Init(mtu), steps);
    RunKeepsAlert(Init(mtu), steps);
    RunKeepsHandshake(Init(mtu), steps);
    assert Awake(s, c) && Attended(s, c);
    if id :| EnqueuerAt(s, id, SpawnSender) {
      assert AboutToWake(s, id);
    } else if id :| EnqueuerAt(s, id, SwapRunning) {
      assert AboutToWake(s, id);
    }
  }

  // Sending without a timeout

  /** Neither an arrival nor a wait that times out. */
  predicate Prompt(steps: seq<Step>) {
    forall k :: 0 <= k < |steps| ==> !steps[k].Arrive? && !(steps[k].Send? && steps[k].timedOut)
  }

  ghost predicate SendsPromptly(s: Peer, c: Class, steps: seq<Step>, j: nat)
    requires s.queues.Get(c) != []
  {
    Prompt(steps) && SendsOldest(s, Run(s, steps), j, c)
  }

  /** One more step in front, that leaves the class alone. */
  lemma Prepend(s: Peer, step: Step, c: Class, rest: seq<Step>, j: nat) returns (steps: seq<Step>)
    requires s.queues.Get(c) != [] && Prompt([step])
    requires var t := Apply(s, step); t.queues.Get(c) == s.queues.Get(c) && t.removed.Get(c) == s.removed.Get(c)
    requires SendsPromptly(Apply(s, step), c, rest, j)
    ensures SendsPromptly(s, c, steps, j)
  {
    steps := [step] + rest;
    assert Run(s, [step]) == Apply(s, step) by {
      assert [step][..0] == [];
    }
    RunAppend(s, [step], rest);
    assert Prompt(steps) by {
      assert [step][0] == step;
    }
  }

  lemma {:induction false} EagerSends(s: Peer, i: nat, c: Class) returns (steps: seq<Step>)
    requires EagerSender(s, c, i) && s.queues.Get(c) != []
    ensures SendsPromptly(s, c, steps, i)
    decreases Shortfall(s, i, c), Remaining(s, i, c), Backlog(s)
  {
    var step := Send(i, false);
    var t := Apply(s, step);
    assert t == SenderStep(s, i, true);
    StepApproaches(s, i, c);
    EagerStays(s, i, false, c);
    if SendsOldest(s, t, i, c) {
      steps := [step];
      assert [step][..0] == [];
      assert Run(s, steps) == t;
    } else {
      var rest := EagerSends(t, i, c);
      steps := Prepend(s, step, c, rest, i);
    }
  }

  /** Steps before a sender that is past class `c` waits. */
  function BeforeWait(pc: SenderPc): nat {
    if pc.Look? then 4 - Rank(pc.c) else 1
  }

  /** With the permit set, a sender that would wait goes round again instead. */
  lemma {:induction false} PermitSends(s: Peer, i: nat, c: Class) returns (steps: seq<Step>)
    requires AttendingSender(s, c, i) && s.permit && s.queues.Get(c) != []
    ensures SendsPromptly(s, c, steps, i)
    decreases BeforeWait(s.senders[i].pc)
  {
    if EagerSender(s, c, i) {
      steps := EagerSends(s, i, c);
    } else {
      var step := Send(i, false);
      var t := Apply(s, step);
      SenderKeepsLooking(s, i, false, c);
      var rest;
      if EagerSender(t, c, i) {
        rest := EagerSends(t, i, c);
      } else {
        rest := PermitSends(t, i, c);
      }
      steps := Prepend(s, step, c, rest, i);
    }
  }

  lemma SpawnSends(s: Peer, id: nat, c: Class) returns (steps: seq<Step>, j: nat)
    requires EnqueuerAt(s, id, SpawnSender) && s.queues.Get(c) != []
    ensures SendsPromptly(s, c, steps, j)
  {
    j := FreshName(s.senders.Keys);
    var step := Enqueue(id, j);
    assert EagerSender(Apply(s, step), c, j);
    var rest := EagerSends(Apply(s, step), j, c);
    steps := Prepend(s, step, c, rest, j);
  }

  lemma CoveredSends(s: Peer, c: Class) returns (steps: seq<Step>, j: nat)
    requires Covered(s) && s.permit && s.queues.Get(c) != []
    ensures SendsPromptly(s, c, steps, j)
  {
    if i :| ResponsibleSender(s, i) {
      j := i;
      steps := PermitSends(s, i, c);
    } else {
      var id :| EnqueuerAt(s, id, SpawnSender);
      steps, j := SpawnSends(s, id, c);
    }
  }

  lemma NotifySends(s: Peer, id: nat, c: Class) returns (steps: seq<Step>, j: nat)
    requires Handshake(s) && EnqueuerAt(s, id, NotifySender) && s.queues.Get(c) != []
    ensures SendsPromptly(s, c, steps, j)
  {
    var step := Enqueue(id, 0);
    var t := Apply(s, step);
    EnqueuerKeepsHandshake(s, id, 0);
    var rest;
    if i :| AttendingSender(t, c, i) {
      j := i;
      rest := PermitSends(t, i, c);
    } else if k :| EnqueuerAt(t, k, SpawnSender) {
      rest, j := SpawnSends(t, k, c);
    } else {
      var k :| EnqueuerAt(t, k, SwapRunning);
      rest, j := SwapSends(t, k, c);
    }
    steps := Prepend(s, step, c, rest, j);
  }

  /** With the permit set, swapping `running` finds a sender, or starts one. */
  lemma SwapSends(s: Peer, id: nat, c: Class) returns (steps: seq<Step>, j: nat)
    requires Handshake(s) && s.permit && EnqueuerAt(s, id, SwapRunning) && s.queues.Get(c) != []
    ensures SendsPromptly(s, c, steps, j)
  {
    var step := Enqueue(id, 0);
    var t := Apply(s, step);
    EnqueuerKeepsHandshake(s, id, 0);
    var rest;
    rest, j := CoveredSends(t, c);
    steps := Prepend(s, step, c, rest, j);
  }

  /** Without it, the call goes on to start one, or to set the permit. */
  lemma FirstSwapSends(s: Peer, id: nat, c: Class) returns (steps: seq<Step>, j: nat)
    requires Handshake(s) && EnqueuerAt(s, id, SwapRunning) && s.queues.Get(c) != []
    ensures SendsPromptly(s, c, steps, j)
  {
    var step := Enqueue(id, 0);
    var t := Apply(s, step);
    EnqueuerKeepsHandshake(s, id, 0);
    var rest;
    if s.running {
      rest, j := NotifySends(t, id, c);
    } else {
      rest, j := SpawnSends(t, id, c);
    }
    steps := Prepend(s, step, c, rest, j);
  }

  /**
   After any run the oldest packet of any non-empty class can be sent by the agents
   already at work, with no further arrival and without any wait timing out.
   */
  lemma TimeoutIsNotNeeded(mtu: Mtu, steps: seq<Step>, c: Class) returns (more: seq<Step>, j: nat)
    requires Run(Init(mtu), steps).queues.Get(c) != []
    ensures Prompt(more)
    ensures SendsOldest(Run(Init(mtu), steps), Run(Init(mtu), steps + more), j, c)
  {
    var s := Run(Init(mtu), steps);
    RunKeepsHandshake(Init(mtu), steps);
    NoWakeUpIsLost(mtu, steps, c);
    if i :| EagerSender(s, c, i) {
      j := i;
      more := EagerSends(s, i, c);
    } else if id :| EnqueuerAt(s, id, SpawnSender) {
      more, j := SpawnSends(s, id, c);
    } else if id :| EnqueuerAt(s, id, SwapRunning) {
      more, j := FirstSwapSends(s, id, c);
    } else if id :| EnqueuerAt(s, id, NotifySender) {
      more, j := NotifySends(s, id, c);
    } else {
      var i :| AttendingSender(s, c, i);
      j := i;
      more := PermitSends(s, i, c);
    }
    RunAppend(Init(mtu), steps, more);
  }
}
