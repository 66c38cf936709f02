/** What calls and senders do by themselves: admission, order of eviction, starting, waiting and leaving. */
module QosConduct {
  import opened QosTypes
  import opened QosProtocol
  import opened QosHandshake
  import opened QosProgress
  import opened QosConservation
  import opened QosQueues
  import opened QosRound

  // Admission

  /** At its first try a call gets in if and only if its queue holds fewer than 64, 256 or 512 packets. */
  lemma FirstTryAcceptedIff(s: Peer, id: nat, j: nat)
    requires EnqueuerAt(s, id, Push)
    ensures var t := Apply(s, Enqueue(id, j)); var e := s.enqueuers[id];
            && id in t.enqueuers
            && (Accepted(t.enqueuers[id]) <==>
                  match e.target
                  case Latency => |s.queues.latency| < 64
                  case Normal => |s.queues.normal| < 256
                  case Bulk => |s.queues.bulk| < 512)
            && (Accepted(t.enqueuers[id]) ==> t.queues.Get(e.target) == s.queues.Get(e.target) + [Item(id, e.packet)])
            && (!Accepted(t.enqueuers[id]) ==> t.queues == s.queues)
  {
  }

  function CallSteps(id: nat, n: nat): seq<Step> {
    seq(n, _ => Enqueue(id, 0))
  }

  lemma {:induction false} CallStep(s: Peer, id: nat, n: nat)
    ensures Run(s, CallSteps(id, n + 1)) == Run(Apply(s, Enqueue(id, 0)), CallSteps(id, n))
  {
    var step := Enqueue(id, 0);
    assert CallSteps(id, n + 1) == [step] + CallSteps(id, n);
    RunAppend(s, [step], CallSteps(id, n));
    assert [step][..0] == [];
    assert Run(s, [step]) == Apply(Run(s, []), step);
  }

  function PacketQueues(s: Peer): Queues {
    PerClass(Packets(s.queues.latency), Packets(s.queues.normal), Packets(s.queues.bulk))
  }

  /** Where a call that keeps finding its queue full can be. */
  predicate Evicting(e: Enqueuer) {
    match e.pc
    case EvictBulk => e.target != Bulk
    case RetryAfterBulk => e.target != Bulk
    case EvictNormal => e.target == Latency
    case RetryAfterNormal => e.target == Latency
    case Dropped => true
    case _ => false
  }

  /** Steps such a call has left. */
  function StepsLeft(pc: EnqueuerPc): nat {
    match pc
    case EvictBulk => 4
    case RetryAfterBulk => 3
    case EvictNormal => 2
    case RetryAfterNormal => 1
    case _ => 0
  }

  /** What it still evicts. */
  function AfterRest(e: Enqueuer, q: Queues): Queues {
    match e.pc
    case EvictBulk => AfterDrop(q, e.target)
    case RetryAfterBulk => if e.target == Latency then q.(normal := WithoutOldest(q.normal)) else q
    case EvictNormal => q.(normal := WithoutOldest(q.normal))
    case _ => q
  }

  /** One step on, nothing evicted twice or left out. */
  lemma EvictingStep(s: Peer, id: nat)
    requires id in s.enqueuers && Evicting(s.enqueuers[id])
    requires var c := s.enqueuers[id].target; |s.queues.Get(c)| == Cap(c)
    ensures var t := Apply(s, Enqueue(id, 0)); var e := s.enqueuers[id];
            && id in t.enqueuers && Evicting(t.enqueuers[id]) && t.enqueuers[id].target == e.target
            && t.queues.Get(e.target) == s.queues.Get(e.target)
            && (e.pc == Dropped || StepsLeft(t.enqueuers[id].pc) < StepsLeft(e.pc))
            && AfterRest(t.enqueuers[id], PacketQueues(t)) == AfterRest(e, PacketQueues(s))
  {
    match s.enqueuers[id].pc
    case EvictBulk => PopPackets(s.queues.bulk);
    case EvictNormal => PopPackets(s.queues.normal);
    case RetryAfterBulk =>
    case RetryAfterNormal =>
    case Dropped =>
  }

  lemma PopPackets(q: seq<Item>)
    ensures if q == [] then WithoutOldest(Packets(q)) == Packets(q) else Packets(q[1..]) == WithoutOldest(Packets(q))
  {
    if q != [] {
      assert Packets(q[1..]) == Packets(q)[1..];
    }
  }

  lemma {:induction false} EvictsOn(s: Peer, id: nat, n: nat)
    requires id in s.enqueuers && Evicting(s.enqueuers[id]) && StepsLeft(s.enqueuers[id].pc) <= n
    requires var c := s.enqueuers[id].target; |s.queues.Get(c)| == Cap(c)
    ensures var t := Run(s, CallSteps(id, n));
            EnqueuerAt(t, id, Dropped) && PacketQueues(t) == AfterRest(s.enqueuers[id], PacketQueues(s))
    decreases n
  {
    if n == 0 {
      assert CallSteps(id, 0) == [];
    } else {
      EvictingStep(s, id);
      CallStep(s, id, n - 1);
      EvictsOn(Apply(s, Enqueue(id, 0)), id, n - 1);
    }
  }

  /**
   A call nobody interferes with and that finds its queue full drops its packet and
   costs the lower classes what the queue method says, within five steps of its own.
   */
  lemma {:induction false} SoloCallDrops(s: Peer, id: nat)
    requires EnqueuerAt(s, id, Push)
    requires var c := s.enqueuers[id].target; |s.queues.Get(c)| == Cap(c)
    ensures var t := Run(s, CallSteps(id, 5));
            && EnqueuerAt(t, id, Dropped)
            && PacketQueues(t) == AfterDrop(PacketQueues(s), s.enqueuers[id].target)
  {
    CallStep(s, id, 4);
    var t := Apply(s, Enqueue(id, 0));
    assert t.queues == s.queues && Evicting(t.enqueuers[id]);
    EvictsOn(t, id, 4);
  }

  // Order of eviction

  /** The call has been at the bulk queue, which was empty or gave a packet. */
  ghost predicate TriedBulk(s0: Peer, steps: seq<Step>, id: nat) {
    exists k :: 0 <= k < |steps| && TriesBulk(Run(s0, steps[..k]), steps[k], id)
  }

  predicate TriesBulk(s: Peer, step: Step, id: nat) {
    step.Enqueue? && step.id == id && EnqueuerAt(s, id, EvictBulk)
  }

  predicate PastBulk(s: Peer, id: nat) {
    && id in s.enqueuers
    && s.enqueuers[id].pc in {RetryAfterBulk, EvictNormal, RetryAfterNormal}
  }

  lemma StepPastBulk(s: Peer, step: Step, id: nat)
    requires PastBulk(Apply(s, step), id)
    ensures PastBulk(s, id) || TriesBulk(s, step, id)
  {
    match step
    case Arrive(k, c, p) =>
    case Enqueue(k, j) =>
      if k in s.enqueuers {
        EnqueuerLogs(s, k, j);
      }
    case Send(i, timedOut) =>
      if i in s.senders {
        SenderLeavesCalls(s, i, timedOut);
      }
  }

  /** In every run a call turns to the normal queue only after it tried the bulk queue. */
  lemma {:induction false} BulkGoesFirst(mtu: Mtu, steps: seq<Step>, id: nat)
    requires PastBulk(Run(Init(mtu), steps), id)
    ensures TriedBulk(Init(mtu), steps, id)
    decreases |steps|
  {
    var n := |steps| - 1;
    var s := Run(Init(mtu), steps[..n]);
    StepPastBulk(s, steps[n], id);
    if TriesBulk(s, steps[n], id) {
    } else {
      BulkGoesFirst(mtu, steps[..n], id);
      var k :| 0 <= k < n && TriesBulk(Run(Init(mtu), steps[..n][..k]), steps[..n][k], id);
      assert steps[..n][..k] == steps[..k];
    }
  }

  // Starting senders

  /** No call is about to start a sender. */
  predicate NoneStarting(s: Peer) {
    forall id :: id in s.enqueuers ==> s.enqueuers[id].pc != SpawnSender
  }

  ghost predicate RunningThroughout(s0: Peer, steps: seq<Step>) {
    forall k :: 0 <= k <= |steps| ==> Run(s0, steps[..k]).running
  }

  lemma StepStartsNone(s: Peer, step: Step)
    requires s.running && NoneStarting(s)
    ensures NoneStarting(Apply(s, step)) && Apply(s, step).senders.Keys == s.senders.Keys
  {
    match step
    case Arrive(id, c, p) =>
    case Enqueue(id, j) =>
      if id in s.enqueuers {
        CallStartsNone(s, id, j);
      }
    case Send(i, timedOut) =>
      if i in s.senders {
        SenderLeavesCalls(s, i, timedOut);
        SenderStaysNamed(s, i, timedOut);
      }
  }

  lemma CallStartsNone(s: Peer, id: nat, j: nat)
    requires s.running && NoneStarting(s) && id in s.enqueuers
    ensures var t := EnqueuerStep(s, id, j); NoneStarting(t) && t.senders == s.senders
  {
    match s.enqueuers[id].pc
    case Push =>
    case EvictBulk =>
    case RetryAfterBulk =>
    case EvictNormal =>
    case RetryAfterNormal =>
    case SwapRunning =>
    case NotifySender =>
    case Queued =>
    case Dropped =>
  }

  lemma SenderStaysNamed(s: Peer, i: nat, timedOut: bool)
    requires i in s.senders
    ensures SenderStep(s, i, timedOut).senders.Keys == s.senders.Keys
  {
    match s.senders[i].pc
    case Visit(k) =>
    case Drain(k) =>
    case Look(stage, k) =>
    case Wait =>
    case Retract =>
    case Reclaim =>
    case Returned =>
  }

  /** While `running` stays set no further sender is started, whatever calls come in. */
  lemma {:induction false} NoSecondSender(s0: Peer, steps: seq<Step>)
    requires NoneStarting(s0) && RunningThroughout(s0, steps)
    ensures Run(s0, steps).senders.Keys == s0.senders.Keys && NoneStarting(Run(s0, steps))
    decreases |steps|
  {
    if steps == [] {
    } else {
      var n := |steps| - 1;
      forall k | 0 <= k <= n ensures Run(s0, steps[..n][..k]).running {
        assert steps[..n][..k] == steps[..k];
      }
      NoSecondSender(s0, steps[..n]);
      StepStartsNone(Run(s0, steps[..n]), steps[n]);
    }
  }

  // Waiting and leaving

  /** The sender is on its way out, or out. */
  predicate Leaving(pc: SenderPc) {
    || pc == Retract || pc == Reclaim || pc == Returned
    || (pc.Look? && pc.stage != AfterRound)
  }

  predicate TimesOut(s: Peer, step: Step, i: nat) {
    step == Send(i, true) && i in s.senders && s.senders[i].pc == Wait
  }

  lemma StepLeaving(s: Peer, step: Step, i: nat)
    requires i in Apply(s, step).senders && Leaving(Apply(s, step).senders[i].pc)
    ensures (i in s.senders && Leaving(s.senders[i].pc)) || TimesOut(s, step, i)
  {
    match step
    case Arrive(id, c, p) =>
    case Enqueue(id, j) =>
      if id in s.enqueuers {
        match s.enqueuers[id].pc
        case SpawnSender =>
        case _ =>
      }
    case Send(j, timedOut) =>
      if j in s.senders {
        if j == i {
          OwnStepLeaving(s, i, timedOut);
        } else {
          SenderTouchesNobody(s, j, timedOut);
          SenderStaysNamed(s, j, timedOut);
        }
      }
  }

  lemma OwnStepLeaving(s: Peer, i: nat, timedOut: bool)
    requires i in s.senders
    ensures var t := SenderStep(s, i, timedOut);
            i in t.senders && Leaving(t.senders[i].pc) ==>
              Leaving(s.senders[i].pc) || (timedOut && s.senders[i].pc == Wait)
  {
    match s.senders[i].pc
    case Visit(k) =>
    case Drain(k) =>
    case Look(stage, k) =>
    case Wait =>
    case Retract =>
    case Reclaim =>
    case Returned =>
  }

  /** In every run a sender leaves only after one of its waits has timed out. */
  lemma {:induction false} LeavesOnlyAfterTimeout(mtu: Mtu, steps: seq<Step>, i: nat)
    requires var s := Run(Init(mtu), steps); i in s.senders && Leaving(s.senders[i].pc)
    ensures exists k :: 0 <= k < |steps| && TimesOut(Run(Init(mtu), steps[..k]), steps[k], i)
    decreases |steps|
  {
    var n := |steps| - 1;
    var s := Run(Init(mtu), steps[..n]);
    StepLeaving(s, steps[n], i);
    if TimesOut(s, steps[n], i) {
    } else {
      LeavesOnlyAfterTimeout(mtu, steps[..n], i);
      var k :| 0 <= k < n && TimesOut(Run(Init(mtu), steps[..n][..k]), steps[..n][k], i);
      assert steps[..n][..k] == steps[..k];
    }
  }

  /** A wait ends only by timing out or by taking the permit, which it uses up. */
  lemma WaitEndsOnlyBy(s: Peer, i: nat, timedOut: bool)
    requires i in s.senders && s.senders[i].pc == Wait
    ensures var t := Apply(s, Send(i, timedOut));
            if timedOut then t.permit == s.permit && t.senders[i].pc == Look(AfterTimeout, Latency)
            else if s.permit then !t.permit && t.senders[i].pc == Visit(Latency)
            else t == s
  {
  }

  predicate AllEmpty(s: Peer) {
    s.queues.latency == [] && s.queues.normal == [] && s.queues.bulk == []
  }

  predicate BetweenWork(pc: SenderPc) {
    !pc.Visit? && !pc.Drain? && pc != Reclaim
  }

  /** Steps of its own before an idle sender, its wait timed out, has returned. */
  function ToReturn(pc: SenderPc): nat {
    match pc
    case Wait => 11
    case Look(stage, c) =>
      (match stage case AfterRound => 14 case AfterTimeout => 10 case AfterRetract => 6 case Final => 3) - Rank(c)
    case Retract => 7
    case _ => 0
  }

  lemma IdleStep(s: Peer, i: nat)
    requires i in s.senders && AllEmpty(s) && BetweenWork(s.senders[i].pc)
    ensures var t := Apply(s, Send(i, true)); var pc := s.senders[i].pc;
            && i in t.senders && AllEmpty(t)
            && (pc == Returned ==> t == s)
            && (pc != Returned ==> ToReturn(t.senders[i].pc) == ToReturn(pc) - 1)
            && BetweenWork(t.senders[i].pc)
            && (pc == Retract || !s.running ==> !t.running)
  {
    match s.senders[i].pc
    case Look(stage, k) =>
    case Wait =>
    case Retract =>
    case Returned =>
  }

  /** Left idle, a waiting sender gives `running` up and returns once its wait times out, in eleven steps. */
  lemma {:induction false} IdleSenderReturns(s: Peer, i: nat, n: nat)
    requires i in s.senders && AllEmpty(s) && BetweenWork(s.senders[i].pc)
    requires ToReturn(s.senders[i].pc) <= n && (ToReturn(s.senders[i].pc) < 7 ==> !s.running)
    ensures var t := Run(s, Alone(i, n)); i in t.senders && t.senders[i].pc == Returned && !t.running && AllEmpty(t)
    decreases n
  {
    if n == 0 {
      assert Alone(i, 0) == [];
    } else {
      IdleStep(s, i);
      AloneStep(s, i, n - 1);
      IdleSenderReturns(Apply(s, Send(i, true)), i, n - 1);
    }
  }
}
