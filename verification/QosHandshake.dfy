/**
 The start/stop handshake between enqueuers and sender tasks: no packet is
 ever left in a queue that nobody will look at again.
 */
module QosHandshake {
  import opened QosTypes
  import opened QosProtocol

  /** From here the sender inspects every queue once more before it can return. */
  predicate Responsible(pc: SenderPc) {
    match pc
    case Visit(_) => true
    case Drain(_) => true
    case Look(stage, _) => stage == AfterRound || stage == AfterTimeout
    case Wait => true
    case Retract => true
    case Reclaim => false
    case Returned => false
  }

  /** The sender inspects the queue of class `c` at least once more before it can return. */
  predicate WillLook(pc: SenderPc, c: Class) {
    || Responsible(pc)
    || pc == Reclaim
    || (pc.Look? && (pc.stage == AfterRetract || Rank(pc.c) <= Rank(c)))
  }

  predicate ResponsibleSender(s: Peer, i: nat) {
    i in s.senders && Responsible(s.senders[i].pc)
  }

  predicate AttendingSender(s: Peer, c: Class, i: nat) {
    i in s.senders && WillLook(s.senders[i].pc, c)
  }

  predicate EnqueuerAt(s: Peer, id: nat, pc: EnqueuerPc) {
    id in s.enqueuers && s.enqueuers[id].pc == pc
  }

  /** Someone who took `running` is live, or is about to start a sender. */
  ghost predicate Covered(s: Peer) {
    || (exists i :: ResponsibleSender(s, i))
    || (exists id :: EnqueuerAt(s, id, SpawnSender))
  }

  /** Someone will still deal with the queue of class `c`. */
  ghost predicate Attended(s: Peer, c: Class) {
    || (exists i :: AttendingSender(s, c, i))
    || (exists id :: EnqueuerAt(s, id, SpawnSender))
    || (exists id :: EnqueuerAt(s, id, SwapRunning))
  }

  ghost predicate Handshake(s: Peer) {
    && (s.running ==> Covered(s))
    && (forall c :: s.queues.Get(c) != [] ==> Attended(s, c))
  }

  // Preservation

  /** Agents other than the one that moved are still where they were. */
  predicate OthersStay(s: Peer, t: Peer, enqueuer: int, sender: int) {
    && (forall id :: id in s.enqueuers && id != enqueuer ==> id in t.enqueuers && t.enqueuers[id] == s.enqueuers[id])
    && (forall i :: i in s.senders && i != sender ==> i in t.senders && t.senders[i] == s.senders[i])
  }

  lemma CoveredStays(s: Peer, t: Peer, enqueuer: int, sender: int)
    requires Covered(s) && OthersStay(s, t, enqueuer, sender)
    requires enqueuer >= 0 ==> (EnqueuerAt(s, enqueuer, SpawnSender) ==> Covered(t))
    requires sender >= 0 ==> (ResponsibleSender(s, sender) ==> Covered(t))
    ensures Covered(t)
  {
    if i :| ResponsibleSender(s, i) {
      if i != sender {
        assert ResponsibleSender(t, i);
      }
    } else {
      var id :| EnqueuerAt(s, id, SpawnSender);
      if id != enqueuer {
        assert EnqueuerAt(t, id, SpawnSender);
      }
    }
  }

  lemma AttendedStays(s: Peer, t: Peer, c: Class, enqueuer: int, sender: int)
    requires Attended(s, c) && OthersStay(s, t, enqueuer, sender)
    requires enqueuer >= 0 ==>
               (EnqueuerAt(s, enqueuer, SpawnSender) || EnqueuerAt(s, enqueuer, SwapRunning) ==> Attended(t, c))
    requires sender >= 0 ==> (AttendingSender(s, c, sender) ==> Attended(t, c))
    ensures Attended(t, c)
  {
    if i :| AttendingSender(s, c, i) {
      if i != sender {
        assert AttendingSender(t, c, i);
      }
    } else if id :| EnqueuerAt(s, id, SpawnSender) {
      if id != enqueuer {
        assert EnqueuerAt(t, id, SpawnSender);
      }
    } else {
      var id :| EnqueuerAt(s, id, SwapRunning);
      if id != enqueuer {
        assert EnqueuerAt(t, id, SwapRunning);
      }
    }
  }

  lemma CoveredIsAttended(s: Peer, c: Class)
    requires Covered(s)
    ensures Attended(s, c)
  {
    if i :| ResponsibleSender(s, i) {
      assert AttendingSender(s, c, i);
    }
  }

  /** A queue that was empty is filled by a call that has then to swap `running`. */
  lemma EnqueuerFills(s: Peer, id: nat, j: nat, c: Class)
    requires id in s.enqueuers
    ensures var t := EnqueuerStep(s, id, j);
            t.queues.Get(c) != [] && s.queues.Get(c) == [] ==> EnqueuerAt(t, id, SwapRunning)
  {
    match s.enqueuers[id].pc
    case Push =>
    case EvictBulk =>
    case RetryAfterBulk =>
    case EvictNormal =>
    case RetryAfterNormal =>
    case SwapRunning =>
    case SpawnSender =>
    case NotifySender =>
    case Queued =>
    case Dropped =>
  }

  lemma EnqueuerOthersStay(s: Peer, id: nat, j: nat)
    requires id in s.enqueuers
    ensures OthersStay(s, EnqueuerStep(s, id, j), id, -1)
  {
    match s.enqueuers[id].pc
    case Push =>
    case EvictBulk =>
    case RetryAfterBulk =>
    case EvictNormal =>
    case RetryAfterNormal =>
    case SwapRunning =>
    case SpawnSender =>
    case NotifySender =>
    case Queued =>
    case Dropped =>
  }

  lemma EnqueuerEffect(s: Peer, id: nat, j: nat, c: Class)
    requires id in s.enqueuers
    ensures var t := EnqueuerStep(s, id, j); var pc := s.enqueuers[id].pc;
            && OthersStay(s, t, id, -1)
            && (pc != SwapRunning ==> t.running == s.running)
            && (pc == SwapRunning && !s.running ==> EnqueuerAt(t, id, SpawnSender))
            && (pc == SpawnSender ==> EnqueuerAt(t, id, SpawnSender) || ResponsibleSender(t, j))
            && (t.queues.Get(c) != [] && s.queues.Get(c) == [] ==> EnqueuerAt(t, id, SwapRunning))
  {
    EnqueuerFills(s, id, j, c);
    EnqueuerOthersStay(s, id, j);
  }

  lemma EnqueuerKeepsHandshake(s: Peer, id: nat, j: nat)
    requires Handshake(s) && id in s.enqueuers
    ensures Handshake(EnqueuerStep(s, id, j))
  {
    var t := EnqueuerStep(s, id, j);
    EnqueuerEffect(s, id, j, Latency);
    if Covered(s) {
      CoveredStays(s, t, id, -1);
    }
    forall c | t.queues.Get(c) != [] ensures Attended(t, c) {
      EnqueuerEffect(s, id, j, c);
      if s.queues.Get(c) != [] {
        if s.enqueuers[id].pc == SwapRunning || s.enqueuers[id].pc == SpawnSender {
          CoveredIsAttended(t, c);
        }
        AttendedStays(s, t, c, id, -1);
      }
    }
  }

  lemma SenderEffect(s: Peer, i: nat, timedOut: bool)
    requires i in s.senders
    ensures var t := SenderStep(s, i, timedOut); var pc := s.senders[i].pc;
            && OthersStay(s, t, -1, i)
            && (Responsible(pc) && pc != Retract ==> ResponsibleSender(t, i))
            && (pc == Retract ==> !t.running)
            && (pc == Reclaim && !s.running ==> ResponsibleSender(t, i))
            && (pc != Retract && pc != Reclaim ==> t.running == s.running)
  {
    SenderTouchesNobody(s, i, timedOut);
    match s.senders[i].pc
    case Visit(k) =>
    case Drain(k) =>
    case Look(stage, k) =>
    case Wait =>
    case Retract =>
    case Reclaim =>
    case Returned =>
  }

  lemma SenderTouchesNobody(s: Peer, i: nat, timedOut: bool)
    requires i in s.senders
    ensures OthersStay(s, SenderStep(s, i, timedOut), -1, i)
  {
    match s.senders[i].pc
    case Visit(k) =>
    case Drain(k) =>
    case Look(stage, k) =>
    case Wait =>
    case Retract =>
    case Reclaim =>
    case Returned =>
  }

  /** A sender's step never fills an empty queue, and leaves all queues alone unless it pops. */
  lemma SenderQueues(s: Peer, i: nat, timedOut: bool, c: Class)
    requires i in s.senders
    ensures s.queues.Get(c) == [] ==> SenderStep(s, i, timedOut).queues.Get(c) == []
    ensures !s.senders[i].pc.Drain? ==> SenderStep(s, i, timedOut).queues == s.queues
  {
  }

  lemma SenderKeepsLooking(s: Peer, i: nat, timedOut: bool, c: Class)
    requires AttendingSender(s, c, i) && s.queues.Get(c) != []
    ensures AttendingSender(SenderStep(s, i, timedOut), c, i)
  {
    match s.senders[i].pc
    case Visit(k) =>
    case Drain(k) =>
    case Look(stage, k) =>
    case Wait =>
    case Retract =>
    case Reclaim =>
  }

  lemma SenderKeepsHandshake(s: Peer, i: nat, timedOut: bool)
    requires Handshake(s) && i in s.senders
    ensures Handshake(SenderStep(s, i, timedOut))
  {
    var t := SenderStep(s, i, timedOut);
    SenderEffect(s, i, timedOut);
    if t.running && Covered(s) {
      CoveredStays(s, t, -1, i);
    }
    forall c | t.queues.Get(c) != [] ensures Attended(t, c) {
      SenderQueues(s, i, timedOut, c);
      if AttendingSender(s, c, i) {
        SenderKeepsLooking(s, i, timedOut, c);
      }
      AttendedStays(s, t, c, -1, i);
    }
  }

  lemma StepKeepsHandshake(s: Peer, step: Step)
    requires Handshake(s)
    ensures Handshake(Apply(s, step))
  {
    match step
    case Arrive(id, c, p) =>
      var t := Apply(s, step);
      assert OthersStay(s, t, -1, -1);
      if t.running {
        CoveredStays(s, t, -1, -1);
      }
      forall k | t.queues.Get(k) != [] ensures Attended(t, k) {
        AttendedStays(s, t, k, -1, -1);
      }
    case Enqueue(id, j) =>
      if id in s.enqueuers {
        EnqueuerKeepsHandshake(s, id, j);
      }
    case Send(i, timedOut) =>
      if i in s.senders {
        SenderKeepsHandshake(s, i, timedOut);
      }
  }

  lemma {:induction false} RunKeepsHandshake(s: Peer, steps: seq<Step>)
    requires Handshake(s)
    ensures Handshake(Run(s, steps))
    decreases |steps|
  {
    if steps == [] {
    } else {
      RunKeepsHandshake(s, steps[..|steps| - 1]);
      StepKeepsHandshake(Run(s, steps[..|steps| - 1]), steps[|steps| - 1]);
    }
  }

  /**
   In every interleaving of any number of enqueuers and senders, a class with
   queued packets has a sender that will look at it again, or an enqueuer that
   has pushed and is about to swap `running` or to start a sender.
   */
  lemma NoPacketIsStranded(mtu: Mtu, steps: seq<Step>, c: Class)
    requires Run(Init(mtu), steps).queues.Get(c) != []
    ensures Attended(Run(Init(mtu), steps), c)
  {
    RunKeepsHandshake(Init(mtu), steps);
  }
}
