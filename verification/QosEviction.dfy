/** Who makes room in a full queue. */
module QosEviction {
  import opened QosTypes
  import opened QosProtocol
  import opened QosConservation

  /** A call evicts from bulk only for another class, and from normal only for latency. */
  predicate MayEvict(e: Enqueuer) {
    && (e.pc == EvictBulk || e.pc == RetryAfterBulk ==> e.target != Bulk)
    && (e.pc == EvictNormal || e.pc == RetryAfterNormal ==> e.target == Latency)
  }

  /** A packet that was evicted made way for a call of a class served earlier. */
  predicate VictimOf(s: Peer, r: Removal, c: Class) {
    r.Evicted? ==> r.call in s.enqueuers && Rank(s.enqueuers[r.call].target) < Rank(c)
  }

  predicate VictimsOk(s: Peer, c: Class) {
    && (forall id :: id in s.enqueuers ==> MayEvict(s.enqueuers[id]))
    && (forall r :: r in s.removed.Get(c) ==> VictimOf(s, r, c))
  }

  /** Calls keep their targets, and the logs of class c only grow, by at most one removal. */
  predicate Grows(s: Peer, t: Peer, c: Class) {
    && (forall id :: id in s.enqueuers ==> id in t.enqueuers && t.enqueuers[id].target == s.enqueuers[id].target)
    && s.accepted.Get(c) <= t.accepted.Get(c)
    && s.removed.Get(c) <= t.removed.Get(c)
    && |t.removed.Get(c)| <= |s.removed.Get(c)| + 1
  }

  lemma EvictEffect(s: Peer, id: nat, victim: Class, retry: EnqueuerPc, empty: EnqueuerPc, c: Class)
    requires id in s.enqueuers
    ensures var t := TryEvict(s, id, victim, retry, empty); var q := s.queues.Get(victim);
            && t.accepted == s.accepted
            && t.removed.Get(c) ==
               (if victim == c && q != [] then s.removed.Get(c) + [Evicted(q[0], id)] else s.removed.Get(c))
            && t.enqueuers == s.enqueuers[id := s.enqueuers[id].(pc := if q != [] then retry else empty)]
  {
  }

  lemma EvictGrows(s: Peer, id: nat, victim: Class, retry: EnqueuerPc, empty: EnqueuerPc, c: Class)
    requires id in s.enqueuers
    ensures var t := TryEvict(s, id, victim, retry, empty);
            && Grows(s, t, c)
            && (forall r :: r in t.removed.Get(c) && r !in s.removed.Get(c) ==>
                  r.Evicted? && r.call == id && victim == c)
            && t.enqueuers ==
               s.enqueuers[id := s.enqueuers[id].(pc := if s.queues.Get(victim) != [] then retry else empty)]
  {
    EvictEffect(s, id, victim, retry, empty, c);
  }

  lemma EvictKeepsVictims(s: Peer, id: nat, victim: Class, retry: EnqueuerPc, empty: EnqueuerPc, c: Class)
    requires VictimsOk(s, c) && id in s.enqueuers && Rank(s.enqueuers[id].target) < Rank(victim)
    requires MayEvict(s.enqueuers[id].(pc := retry)) && MayEvict(s.enqueuers[id].(pc := empty))
    ensures VictimsOk(TryEvict(s, id, victim, retry, empty), c)
  {
    var t := TryEvict(s, id, victim, retry, empty);
    EvictGrows(s, id, victim, retry, empty, c);
    forall r | r in t.removed.Get(c) ensures VictimOf(t, r, c) {
      if r in s.removed.Get(c) {
        assert VictimOf(s, r, c);
      }
    }
  }

  /** A step of one call that removes nothing. */
  lemma QuietKeepsVictims(s: Peer, t: Peer, id: nat, pc: EnqueuerPc, c: Class)
    requires VictimsOk(s, c) && id in s.enqueuers && t.removed.Get(c) == s.removed.Get(c)
    requires t.enqueuers == s.enqueuers[id := s.enqueuers[id].(pc := pc)] && MayEvict(s.enqueuers[id].(pc := pc))
    ensures VictimsOk(t, c)
  {
    forall r | r in t.removed.Get(c) ensures VictimOf(t, r, c) {
      assert VictimOf(s, r, c);
    }
  }

  lemma PushEffect(s: Peer, id: nat, full: EnqueuerPc, c: Class)
    requires id in s.enqueuers
    ensures var t := TryPush(s, id, full); var e := s.enqueuers[id];
            && t.removed == s.removed && s.accepted.Get(c) <= t.accepted.Get(c)
            && t.enqueuers ==
               s.enqueuers[id := e.(pc := if |s.queues.Get(e.target)| < Cap(e.target) then SwapRunning else full)]
  {
  }

  lemma PushKeepsVictims(s: Peer, id: nat, full: EnqueuerPc, c: Class)
    requires VictimsOk(s, c) && id in s.enqueuers && MayEvict(s.enqueuers[id].(pc := full))
    ensures VictimsOk(TryPush(s, id, full), c)
  {
    var e := s.enqueuers[id];
    PushEffect(s, id, full, c);
    QuietKeepsVictims(s, TryPush(s, id, full), id,
                      if |s.queues.Get(e.target)| < Cap(e.target) then SwapRunning else full, c);
  }

  lemma EnqueuerKeepsVictims(s: Peer, id: nat, j: nat, c: Class)
    requires VictimsOk(s, c) && id in s.enqueuers
    ensures VictimsOk(EnqueuerStep(s, id, j), c)
  {
    var e, t := s.enqueuers[id], EnqueuerStep(s, id, j);
    assert MayEvict(e);
    match e.pc
    case Push => PushKeepsVictims(s, id, if e.target != Bulk then EvictBulk else Dropped, c);
    case EvictBulk => EvictKeepsVictims(s, id, Bulk, RetryAfterBulk, AfterBulk(e.target), c);
    case RetryAfterBulk => PushKeepsVictims(s, id, AfterBulk(e.target), c);
    case EvictNormal => EvictKeepsVictims(s, id, Normal, RetryAfterNormal, Dropped, c);
    case RetryAfterNormal => PushKeepsVictims(s, id, Dropped, c);
    case SwapRunning => QuietKeepsVictims(s, t, id, if s.running then NotifySender else SpawnSender, c);
    case SpawnSender => QuietKeepsVictims(s, t, id, if j in s.senders then SpawnSender else Queued, c);
    case NotifySender => QuietKeepsVictims(s, t, id, Queued, c);
    case Queued =>
    case Dropped =>
  }

  lemma EnqueuerGrows(s: Peer, id: nat, j: nat, c: Class)
    requires id in s.enqueuers
    ensures Grows(s, EnqueuerStep(s, id, j), c)
  {
    var e := s.enqueuers[id];
    match e.pc
    case Push => PushEffect(s, id, if e.target != Bulk then EvictBulk else Dropped, c);
    case EvictBulk => EvictGrows(s, id, Bulk, RetryAfterBulk, AfterBulk(e.target), c);
    case RetryAfterBulk => PushEffect(s, id, AfterBulk(e.target), c);
    case EvictNormal => EvictGrows(s, id, Normal, RetryAfterNormal, Dropped, c);
    case RetryAfterNormal => PushEffect(s, id, Dropped, c);
    case _ =>
  }

  lemma SenderRemoves(s: Peer, i: nat, timedOut: bool, c: Class)
    requires i in s.senders
    ensures var t := SenderStep(s, i, timedOut);
            || t.removed.Get(c) == s.removed.Get(c)
            || (s.queues.Get(c) != [] && t.removed.Get(c) == s.removed.Get(c) + [Sent(s.queues.Get(c)[0], i)])
  {
    match s.senders[i].pc
    case Drain(k) =>
      var q := s.queues.Get(k);
      if q != [] {
        var popped := PopFront(s, k, Sent(q[0], i));
        assert popped.removed.Get(c) == if k == c then s.removed.Get(c) + [Sent(q[0], i)] else s.removed.Get(c);
      }
    case _ =>
  }

  /** Senders remove only by sending. */
  lemma SenderGrows(s: Peer, i: nat, timedOut: bool, c: Class)
    requires i in s.senders
    ensures var t := SenderStep(s, i, timedOut);
            && Grows(s, t, c) && t.enqueuers == s.enqueuers
            && forall r :: r in t.removed.Get(c) && r !in s.removed.Get(c) ==> r.Sent?
  {
    SenderRemoves(s, i, timedOut, c);
    SenderLeavesCalls(s, i, timedOut);
  }

  /** What was evicted stays so while calls keep their targets and nothing but sending removes. */
  lemma VictimsStay(s: Peer, t: Peer, c: Class)
    requires VictimsOk(s, c)
    requires forall id :: id in s.enqueuers ==> id in t.enqueuers && t.enqueuers[id].target == s.enqueuers[id].target
    requires forall id :: id in t.enqueuers ==> MayEvict(t.enqueuers[id])
    requires forall r :: r in t.removed.Get(c) && r !in s.removed.Get(c) ==> r.Sent?
    ensures VictimsOk(t, c)
  {
    forall r | r in t.removed.Get(c) ensures VictimOf(t, r, c) {
      if r in s.removed.Get(c) {
        assert VictimOf(s, r, c);
      }
    }
  }

  lemma StepKeepsVictims(s: Peer, step: Step, c: Class)
    requires VictimsOk(s, c)
    ensures VictimsOk(Apply(s, step), c) && Grows(s, Apply(s, step), c)
  {
    var t := Apply(s, step);
    match step
    case Arrive(id, k, p) => VictimsStay(s, t, c);
    case Enqueue(id, j) =>
      if id in s.enqueuers {
        EnqueuerKeepsVictims(s, id, j, c);
        EnqueuerGrows(s, id, j, c);
      }
    case Send(i, timedOut) =>
      if i in s.senders {
        SenderGrows(s, i, timedOut, c);
        VictimsStay(s, t, c);
      }
  }

  predicate Extends(s0: Peer, s: Peer, c: Class) {
    && (forall id :: id in s0.enqueuers ==> id in s.enqueuers && s.enqueuers[id].target == s0.enqueuers[id].target)
    && s0.accepted.Get(c) <= s.accepted.Get(c)
    && s0.removed.Get(c) <= s.removed.Get(c)
  }

  lemma {:induction false} RunKeepsVictims(s0: Peer, steps: seq<Step>, c: Class)
    requires VictimsOk(s0, c)
    ensures VictimsOk(Run(s0, steps), c) && Extends(s0, Run(s0, steps), c)
    decreases |steps|
  {
    if steps == [] {
    } else {
      RunKeepsVictims(s0, steps[..|steps| - 1], c);
      StepKeepsVictims(Run(s0, steps[..|steps| - 1]), steps[|steps| - 1], c);
    }
  }

  /** In every run, a packet is evicted only for a call of a class served before its own; nothing evicts latency. */
  lemma {:induction false} EvictionsServeEarlierClasses(mtu: Mtu, steps: seq<Step>, c: Class)
    ensures var s := Run(Init(mtu), steps);
            && (forall r :: r in s.removed.Get(c) ==> VictimOf(s, r, c))
            && (forall r :: r in s.removed.latency ==> r.Sent?)
  {
    RunKeepsVictims(Init(mtu), steps, c);
    RunKeepsVictims(Init(mtu), steps, Latency);
    var s := Run(Init(mtu), steps);
    forall r | r in s.removed.latency ensures r.Sent? {
      assert VictimOf(s, r, Latency);
    }
  }

  // Retries

  function Since<T>(before: seq<T>, now: seq<T>): seq<T>
    requires before <= now
  {
    now[|before|..]
  }

  predicate AtRetry(s: Peer, id: nat) {
    id in s.enqueuers && (s.enqueuers[id].pc == RetryAfterBulk || s.enqueuers[id].pc == RetryAfterNormal)
  }

  /**
   Over every run: a call that found its queue full is accepted when it tries
   again if and only if, since then, more packets have left that queue than have
   joined it.  Whatever left was sent, or was evicted by another call of a class
   served earlier; a call's own victims never make room for it.
   */
  lemma {:induction false} RetryAcceptedIffOthersMadeRoom(mtu: Mtu, past: seq<Step>, steps: seq<Step>, id: nat, j: nat)
    requires var s0 := Run(Init(mtu), past);
             && id in s0.enqueuers && s0.enqueuers[id].pc == Push
             && |s0.queues.Get(s0.enqueuers[id].target)| == Cap(s0.enqueuers[id].target)
    requires AtRetry(Run(Init(mtu), past + steps), id)
    ensures var s0 := Run(Init(mtu), past); var s := Run(Init(mtu), past + steps);
            var c := s0.enqueuers[id].target;
            && s0.accepted.Get(c) <= s.accepted.Get(c) && s0.removed.Get(c) <= s.removed.Get(c)
            && var left := Since(s0.removed.Get(c), s.removed.Get(c));
               var joined := Since(s0.accepted.Get(c), s.accepted.Get(c));
               && (Accepted(Apply(s, Enqueue(id, j)).enqueuers[id]) <==> |left| > |joined|)
               && (forall r :: r in left ==> r.Sent? || (r.Evicted? && r.call != id && c != Latency))
  {
    var s0, s := Run(Init(mtu), past), Run(Init(mtu), past + steps);
    var c := s0.enqueuers[id].target;
    RunAppend(Init(mtu), past, steps);
    RunKeepsVictims(Init(mtu), past, c);
    RunKeepsVictims(s0, steps, c);
    RunKeepsLedger(mtu, past);
    RunKeepsLedger(mtu, past + steps);
    assert Ledger(s0, c) && Ledger(s, c);
    var left := Since(s0.removed.Get(c), s.removed.Get(c));
    forall r | r in left ensures r.Sent? || (r.Evicted? && r.call != id && c != Latency) {
      assert r in s.removed.Get(c);
      assert VictimOf(s, r, c);
    }
    RetryStep(s, id, j, c);
  }

  lemma {:induction false} RetryStep(s: Peer, id: nat, j: nat, c: Class)
    requires AtRetry(s, id) && s.enqueuers[id].target == c
    ensures Accepted(Apply(s, Enqueue(id, j)).enqueuers[id]) <==> |s.queues.Get(c)| < Cap(c)
  {
    var e := s.enqueuers[id];
    if e.pc == RetryAfterBulk {
      PushEffect(s, id, AfterBulk(c), c);
    } else {
      PushEffect(s, id, Dropped, c);
    }
  }

  // Room made by another call

  /** With no sender at all, a latency call's victim lets a normal call in that would otherwise be dropped. */
  lemma {:induction false} AnotherCallMakesRoom(s: Peer, a: nat, b: nat)
    requires AtRetry(s, a) && s.enqueuers[a].pc == RetryAfterBulk && s.enqueuers[a].target == Normal
    requires b in s.enqueuers && s.enqueuers[b].pc == EvictNormal
    requires |s.queues.normal| == Cap(Normal)
    ensures Apply(s, Enqueue(a, 0)).enqueuers[a].pc == Dropped
    ensures Apply(Apply(s, Enqueue(b, 0)), Enqueue(a, 0)).enqueuers[a].pc == SwapRunning
  {
    PushEffect(s, a, Dropped, Normal);
    var t := Apply(s, Enqueue(b, 0));
    EvictGrows(s, b, Normal, RetryAfterNormal, Dropped, Normal);
    assert |t.queues.normal| == Cap(Normal) - 1;
    PushEffect(t, a, Dropped, Normal);
  }

  /** Queue lengths, with no sender started and every call name so far below `next`. */
  predicate Filled(s: Peer, l: nat, n: nat, b: nat, next: nat) {
    && |s.queues.latency| == l && |s.queues.normal| == n && |s.queues.bulk| == b
    && s.senders == map[] && forall id :: id in s.enqueuers ==> id < next
  }

  /** Calls that stop right after their push fill a queue one by one. */
  lemma {:induction false} FillQueue(mtu: Mtu, past: seq<Step>, c: Class, k: nat, l: nat, n: nat, b: nat, next: nat)
    returns (steps: seq<Step>, next': nat)
    requires Filled(Run(Init(mtu), past), l, n, b, next)
    requires |Run(Init(mtu), past).queues.Get(c)| + k <= Cap(c)
    ensures Filled(Run(Init(mtu), steps), if c == Latency then l + k else l, if c == Normal then n + k else n,
                   if c == Bulk then b + k else b, next')
    decreases k
  {
    if k == 0 {
      return past, next;
    }
    var s := Run(Init(mtu), past);
    var more := past + [Arrive(next, c, [0]), Enqueue(next, 0)];
    assert more[..|past| + 1] == past + [Arrive(next, c, [0])];
    assert (past + [Arrive(next, c, [0])])[..|past|] == past;
    PushOne(s, next, c, l, n, b);
    steps, next' := FillQueue(mtu, more, c, k - 1, if c == Latency then l + 1 else l, if c == Normal then n + 1 else n,
                               if c == Bulk then b + 1 else b, next + 1);
  }

  lemma {:induction false} PushOne(s: Peer, id: nat, c: Class, l: nat, n: nat, b: nat)
    requires Filled(s, l, n, b, id) && |s.queues.Get(c)| < Cap(c)
    ensures Filled(Apply(Apply(s, Arrive(id, c, [0])), Enqueue(id, 0)), if c == Latency then l + 1 else l,
                   if c == Normal then n + 1 else n, if c == Bulk then b + 1 else b, id + 1)
  {
    var t := Apply(s, Arrive(id, c, [0]));
    assert t.queues == s.queues && t.enqueuers[id] == Enqueuer(c, [0], Push);
    var u := Apply(t, Enqueue(id, 0));
    assert u.queues == s.queues.Set(c, s.queues.Get(c) + [Item(id, [0])]);
  }

  /** That situation is reached by a run of calls alone. */
  lemma {:induction false} AnotherCallCanMakeRoom(mtu: Mtu) returns (steps: seq<Step>, a: nat, b: nat)
    ensures var s := Run(Init(mtu), steps);
            && s.senders == map[] && |s.queues.normal| == Cap(Normal)
            && AtRetry(s, a) && s.enqueuers[a].target == Normal && s.enqueuers[a].pc == RetryAfterBulk
            && b in s.enqueuers && s.enqueuers[b].pc == EvictNormal
  {
    var next;
    steps, next := FillQueue(mtu, [], Latency, 64, 0, 0, 0, 0);
    steps, next := FillQueue(mtu, steps, Normal, 256, 64, 0, 0, next);
    steps, next := FillQueue(mtu, steps, Bulk, 1, 64, 256, 0, next);
    a, b := next, next + 1;
    var s := Run(Init(mtu), steps);
    var more := [Arrive(a, Normal, [0]), Enqueue(a, 0), Enqueue(a, 0),
                 Arrive(b, Latency, [0]), Enqueue(b, 0), Enqueue(b, 0)];
    LastCalls(s, a, b);
    RunAppend(Init(mtu), steps, more);
    RunSix(s, more);
    steps := steps + more;
  }

  lemma {:induction false} RunSix(s: Peer, m: seq<Step>)
    requires |m| == 6
    ensures Run(s, m) == Apply(Apply(Apply(Apply(Apply(Apply(s, m[0]), m[1]), m[2]), m[3]), m[4]), m[5])
  {
    assert m[..5][..4] == m[..4] && m[..4][..3] == m[..3] && m[..3][..2] == m[..2];
    assert m[..2][..1] == m[..1] && m[..1][..0] == [];
    assert Run(s, m[..1]) == Apply(Run(s, []), m[0]);
    assert Run(s, m[..2]) == Apply(Run(s, m[..1]), m[1]);
    assert Run(s, m[..3]) == Apply(Run(s, m[..2]), m[2]);
    assert Run(s, m[..4]) == Apply(Run(s, m[..3]), m[3]);
    assert Run(s, m[..5]) == Apply(Run(s, m[..4]), m[4]);
  }

  lemma {:induction false} LastCalls(s: Peer, a: nat, b: nat)
    requires Filled(s, 64, 256, 1, a) && b == a + 1
    ensures var s3 := Apply(Apply(Apply(s, Arrive(a, Normal, [0])), Enqueue(a, 0)), Enqueue(a, 0));
            var t := Apply(Apply(Apply(s3, Arrive(b, Latency, [0])), Enqueue(b, 0)), Enqueue(b, 0));
            && t.senders == map[] && |t.queues.normal| == 256
            && a in t.enqueuers && t.enqueuers[a] == Enqueuer(Normal, [0], RetryAfterBulk)
            && b in t.enqueuers && t.enqueuers[b].pc == EvictNormal
  {
    var s1 := Apply(s, Arrive(a, Normal, [0]));
    assert s1.queues == s.queues && s1.enqueuers[a] == Enqueuer(Normal, [0], Push);
    var s2 := Apply(s1, Enqueue(a, 0));
    assert s2.queues == s.queues && s2.enqueuers[a] == Enqueuer(Normal, [0], EvictBulk);
    var s3 := Apply(s2, Enqueue(a, 0));
    assert s3.queues == s.queues.(bulk := s.queues.bulk[1..]);
    assert s3.enqueuers[a] == Enqueuer(Normal, [0], RetryAfterBulk);
    assert b !in s3.enqueuers;
    var s4 := Apply(s3, Arrive(b, Latency, [0]));
    assert s4.queues == s3.queues && s4.enqueuers[b] == Enqueuer(Latency, [0], Push);
    var s5 := Apply(s4, Enqueue(b, 0));
    assert s5.queues == s3.queues && s5.enqueuers[b] == Enqueuer(Latency, [0], EvictBulk);
    var s6 := Apply(s5, Enqueue(b, 0));
    assert s6.queues == s3.queues && s6.enqueuers[b] == Enqueuer(Latency, [0], EvictNormal);
  }
}
