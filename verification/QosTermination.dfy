/**
 How long anything takes in steps of one sender, whatever everybody else does:
 a visit ends, and a queued packet leaves, within a bound known beforehand.
 */
module QosTermination {
  import opened QosTypes
  import opened QosProtocol
  import opened QosHandshake
  import opened QosConservation
  import opened QosAccounts
  import opened QosProgress
  import opened QosServiceBound

  /** The step is one in which sender i runs; a waiting sender runs only when woken. */
  predicate RunsIn(s: Peer, step: Step, i: nat) {
    && step.Send? && step.sender == i && i in s.senders
    && (s.senders[i].pc == Wait ==> step.timedOut || s.permit)
  }

  /** How often sender i runs in a sequence of steps. */
  function Acts(s0: Peer, steps: seq<Step>, i: nat): nat
    decreases |steps|
  {
    if steps == [] then 0
    else
      var init := steps[..|steps| - 1];
      Acts(s0, init, i) + (if RunsIn(Run(s0, init), steps[|steps| - 1], i) then 1 else 0)
  }

  // Packets without bytes

  /** No offered packet is empty, and so, by the ledger, no queued one. */
  predicate Solid(s: Peer) {
    && Complete(s) && (forall c :: Ledger(s, c))
    && (forall id :: id in s.enqueuers ==> s.enqueuers[id].packet != [])
  }

  lemma HeadIsSolid(s: Peer, c: Class)
    requires Solid(s) && s.queues.Get(c) != []
    ensures s.queues.Get(c)[0].packet != []
  {
    var k := |s.removed.Get(c)|;
    assert Ledger(s, c);
    assert s.accepted.Get(c)[k] == s.queues.Get(c)[0];
    assert OfferedBy(s, c, s.accepted.Get(c)[k]);
  }

  predicate SolidSteps(steps: seq<Step>) {
    forall k :: 0 <= k < |steps| && steps[k].Arrive? ==> steps[k].packet != []
  }

  lemma StepStaysSolid(s: Peer, step: Step)
    requires Solid(s) && (step.Arrive? ==> step.packet != [])
    ensures Solid(Apply(s, step))
  {
    StepKeepsLedger(s, step);
    match step
    case Arrive(id, c, p) =>
    case Enqueue(id, j) =>
      if id in s.enqueuers {
        EnqueuerLogs(s, id, j);
      }
    case Send(i, timedOut) =>
      if i in s.senders {
        SenderLeavesCalls(s, i, timedOut);
      }
  }

  lemma {:induction false} RunStaysSolid(s0: Peer, steps: seq<Step>)
    requires Solid(s0) && SolidSteps(steps)
    ensures Solid(Run(s0, steps))
    decreases |steps|
  {
    if steps == [] {
    } else {
      RunStaysSolid(s0, steps[..|steps| - 1]);
      StepStaysSolid(Run(s0, steps[..|steps| - 1]), steps[|steps| - 1]);
    }
  }

  // One visit

  /** Nobody else touches a sender. */
  lemma OthersLeaveSender(s: Peer, step: Step, i: nat)
    requires i in s.senders && !(step.Send? && step.sender == i)
    ensures i in Apply(s, step).senders && Apply(s, step).senders[i] == s.senders[i]
  {
    match step
    case Arrive(id, c, p) =>
    case Enqueue(id, j) =>
      if id in s.enqueuers {
        match s.enqueuers[id].pc
        case SpawnSender =>
        case _ =>
      }
    case Send(j, timedOut) =>
      if j in s.senders {
        SenderTouchesNobody(s, j, timedOut);
      }
  }

  /** The visit has finished, or every step the sender ran in it was paid for from the deficit. */
  predicate Paid(s0: Peer, s: Peer, i: nat, c: Class, acts: nat) {
    && i in s0.senders && i in s.senders
    && AccountOf(s0, i, c).visits <= AccountOf(s, i, c).visits
    && (AccountOf(s0, i, c).visits == AccountOf(s, i, c).visits ==>
          InVisit(s, i, c) && acts + AccountOf(s, i, c).deficit <= AccountOf(s0, i, c).deficit)
  }

  lemma OwnStepPays(s0: Peer, s: Peer, timedOut: bool, i: nat, c: Class, acts: nat)
    requires Paid(s0, s, i, c, acts) && Solid(s)
    ensures Paid(s0, SenderStep(s, i, timedOut), i, c, acts + 1)
  {
    if InVisit(s, i, c) {
      if s.queues.Get(c) != [] {
        HeadIsSolid(s, c);
      }
      OwnDrainEnds(s, i, c);
      PaysInVisit(s0, s, DrainStep(s, i, c), i, c, acts);
    } else {
      SenderMoves(s, i, timedOut, i, c);
      PaysLater(s0, s, SenderStep(s, i, timedOut), i, c, acts);
    }
  }

  lemma PaysInVisit(s0: Peer, s: Peer, t: Peer, i: nat, c: Class, acts: nat)
    requires Paid(s0, s, i, c, acts) && i in t.senders && (Popped(s, t, i, c) || Ended(s, t, i, c))
    requires s.queues.Get(c) != [] ==> s.queues.Get(c)[0].packet != []
    ensures Paid(s0, t, i, c, acts + 1)
  {
  }

  /** Outside the visit it has been finished already. */
  lemma PaysLater(s0: Peer, s: Peer, t: Peer, i: nat, c: Class, acts: nat)
    requires Paid(s0, s, i, c, acts) && !InVisit(s, i, c) && Moved(s, t, i, c)
    ensures Paid(s0, t, i, c, acts + 1)
  {
  }

  lemma OwnDrainEnds(s: Peer, i: nat, c: Class)
    requires i in s.senders && InVisit(s, i, c)
    requires s.queues.Get(c) != [] ==> s.queues.Get(c)[0].packet != []
    ensures Popped(s, DrainStep(s, i, c), i, c) || Ended(s, DrainStep(s, i, c), i, c)
  {
    var t := DrainStep(s, i, c);
    if s.queues.Get(c) != [] && |s.queues.Get(c)[0].packet| <= AccountOf(s, i, c).deficit {
      PopEffect(s, c, Sent(s.queues.Get(c)[0], i), c);
      assert Popped(s, t, i, c);
    } else {
      assert Ended(s, t, i, c);
    }
  }

  lemma {:induction false} RunPays(s0: Peer, steps: seq<Step>, i: nat, c: Class)
    requires i in s0.senders && InVisit(s0, i, c) && Solid(s0) && SolidSteps(steps)
    ensures Paid(s0, Run(s0, steps), i, c, Acts(s0, steps, i))
    decreases |steps|
  {
    if steps == [] {
    } else {
      var init, step := steps[..|steps| - 1], steps[|steps| - 1];
      var s := Run(s0, init);
      RunPays(s0, init, i, c);
      RunStaysSolid(s0, init);
      if step.Send? && step.sender == i {
        OwnStepPays(s0, s, step.timedOut, i, c, Acts(s0, init, i));
        if !RunsIn(s, step, i) {
          assert Apply(s, step) == s;
        }
      } else {
        OthersLeaveSender(s, step, i);
      }
    }
  }

  /**
   With packets that are not empty, every visit ends: under any interleaving, a
   sender that has run more often since then than its deficit had bytes has
   finished the visit it was in.
   */
  lemma {:induction false} VisitTerminates(mtu: Mtu, past: seq<Step>, steps: seq<Step>, i: nat, c: Class)
    requires SolidSteps(past) && SolidSteps(steps)
    requires var s0 := Run(Init(mtu), past);
             i in s0.senders && InVisit(s0, i, c) && Acts(s0, steps, i) > AccountOf(s0, i, c).deficit
    ensures var s0 := Run(Init(mtu), past); var s := Run(Init(mtu), past + steps);
            i in s.senders && AccountOf(s, i, c).visits > AccountOf(s0, i, c).visits
  {
    var s0 := Run(Init(mtu), past);
    RunAppend(Init(mtu), past, steps);
    RunStaysSolid(Init(mtu), past);
    RunPays(s0, steps, i, c);
  }

  // Empty packets

  /** Sender i stands in an open visit of class c with its queue drained; call names from `next` on are unused. */
  predicate Drained(s: Peer, i: nat, c: Class, next: nat) {
    && i in s.senders && InVisit(s, i, c) && s.queues.Get(c) == []
    && forall id :: id in s.enqueuers ==> id < next
  }

  lemma {:induction false} EmptyPacketChangesNothing(s: Peer, i: nat, c: Class, next: nat)
    requires Drained(s, i, c, next)
    ensures var t := Apply(Apply(s, Arrive(next, c, [])), Enqueue(next, 0));
            && t.senders == s.senders && !RunsIn(s, Arrive(next, c, []), i)
            && RunsIn(t, Send(i, false), i)
            && var u := Apply(t, Send(i, false));
               Drained(u, i, c, next + 1) && AccountOf(u, i, c) == AccountOf(s, i, c)
  {
    var t1 := Apply(s, Arrive(next, c, []));
    assert t1.enqueuers[next] == Enqueuer(c, [], Push) && t1.queues == s.queues && t1.senders == s.senders;
    var t := Apply(t1, Enqueue(next, 0));
    assert t.queues.Get(c) == [Item(next, [])] && t.senders == s.senders;
    assert t.enqueuers.Keys == s.enqueuers.Keys + {next};
    EmptyPacketIsFree(t, i, c);
  }

  /** Sending an empty packet costs nothing and ends nothing. */
  lemma {:induction false} EmptyPacketIsFree(t: Peer, i: nat, c: Class)
    requires i in t.senders && InVisit(t, i, c) && |t.queues.Get(c)| == 1 && t.queues.Get(c)[0].packet == []
    ensures var u := Apply(t, Send(i, false));
            && i in u.senders && InVisit(u, i, c) && u.queues.Get(c) == [] && u.enqueuers == t.enqueuers
            && AccountOf(u, i, c) == AccountOf(t, i, c)
  {
    PopEffect(t, c, Sent(t.queues.Get(c)[0], i), c);
  }

  /** Empty packets arriving one per step keep a visit open for any number of steps, account unchanged. */
  lemma {:induction false} EmptyPacketsHoldVisit(s: Peer, i: nat, c: Class, next: nat, n: nat)
    returns (steps: seq<Step>)
    requires Drained(s, i, c, next)
    ensures Acts(s, steps, i) == n
    ensures var t := Run(s, steps); Drained(t, i, c, next + n) && AccountOf(t, i, c) == AccountOf(s, i, c)
    decreases n
  {
    if n == 0 {
      return [];
    }
    var front := EmptyPacketsHoldVisit(s, i, c, next, n - 1);
    steps := HoldOnce(s, front, i, c, next + n - 1);
  }

  lemma {:induction false} HoldOnce(s: Peer, front: seq<Step>, i: nat, c: Class, id: nat) returns (steps: seq<Step>)
    requires Drained(Run(s, front), i, c, id)
    ensures Acts(s, steps, i) == Acts(s, front, i) + 1
    ensures var t := Run(s, steps); Drained(t, i, c, id + 1) && AccountOf(t, i, c) == AccountOf(Run(s, front), i, c)
  {
    var t := Run(s, front);
    EmptyPacketChangesNothing(t, i, c, id);
    var s1 := front + [Arrive(id, c, [])];
    var s2 := s1 + [Enqueue(id, 0)];
    steps := s2 + [Send(i, false)];
    assert s1[..|front|] == front && s2[..|s1|] == s1 && steps[..|s2|] == s2;
    assert Run(s, s1) == Apply(t, Arrive(id, c, []));
    assert Run(s, s2) == Apply(Run(s, s1), Enqueue(id, 0));
    assert Acts(s, s1, i) == Acts(s, s2, i) == Acts(s, front, i);
  }

  /** So the condition is needed: a run in which a visit is still open after any given number of steps. */
  lemma {:induction false} VisitNeedNotEnd(mtu: Mtu, n: nat) returns (past: seq<Step>, steps: seq<Step>)
    ensures var s0 := Run(Init(mtu), past); var s := Run(Init(mtu), past + steps);
            && 0 in s0.senders && InVisit(s0, 0, Latency) && Acts(s0, steps, 0) == n
            && 0 in s.senders && InVisit(s, 0, Latency) && AccountOf(s, 0, Latency) == AccountOf(s0, 0, Latency)
  {
    past := [Arrive(0, Latency, []), Enqueue(0, 0), Enqueue(0, 0), Enqueue(0, 0), Send(0, false), Send(0, false)];
    FirstVisit(mtu, past);
    steps := EmptyPacketsHoldVisit(Run(Init(mtu), past), 0, Latency, 1, n);
    RunAppend(Init(mtu), past, steps);
  }

  /** One call brings a sender up, which takes its packet. */
  lemma {:induction false} FirstVisit(mtu: Mtu, m: seq<Step>)
    requires m == [Arrive(0, Latency, []), Enqueue(0, 0), Enqueue(0, 0), Enqueue(0, 0), Send(0, false), Send(0, false)]
    ensures Drained(Run(Init(mtu), m), 0, Latency, 1)
  {
    FirstCall(mtu, m[..4]);
    var s := Run(Init(mtu), m[..4]);
    assert m[..5][..4] == m[..4];
    var t := Apply(s, m[4]);
    assert Run(Init(mtu), m[..5]) == t && Run(Init(mtu), m) == Apply(t, m[5]);
    assert t.queues == s.queues && t.senders[0].pc == Drain(Latency) && t.enqueuers == s.enqueuers;
    PopEffect(t, Latency, Sent(t.queues.latency[0], 0), Latency);
  }

  lemma {:induction false} FirstCall(mtu: Mtu, m: seq<Step>)
    requires m == [Arrive(0, Latency, []), Enqueue(0, 0), Enqueue(0, 0), Enqueue(0, 0)]
    ensures var s := Run(Init(mtu), m);
            s.enqueuers.Keys == {0} && s.queues.latency == [Item(0, [])] && s.senders == map[0 := NEW_SENDER]
  {
    var s := Init(mtu);
    assert m[..3][..2] == m[..2] && m[..2][..1] == m[..1] && m[..1][..0] == [];
    var s1 := Apply(s, m[0]);
    assert Run(s, m[..1]) == Apply(Run(s, []), m[0]) == s1;
    assert s1.enqueuers == map[0 := Enqueuer(Latency, [], Push)] && s1.queues == s.queues;
    var s2 := Apply(s1, m[1]);
    assert Run(s, m[..2]) == s2;
    assert s2.enqueuers == map[0 := Enqueuer(Latency, [], SwapRunning)] && s2.queues.latency == [Item(0, [])];
    var s3 := Apply(s2, m[2]);
    assert Run(s, m[..3]) == s3;
    assert s3.enqueuers == map[0 := Enqueuer(Latency, [], SpawnSender)];
    assert s3.queues == s2.queues && s3.senders == map[];
  }

  // A queued packet

  /** Quanta it takes to make up a shortfall. */
  function Grants(short: nat, q: nat): nat
    requires q > 0
  {
    if short == 0 then 0 else if short <= q then 1 else 1 + Grants(short - q, q)
  }

  lemma {:induction false} GrantsMonotone(a: nat, b: nat, q: nat)
    requires q > 0 && a <= b
    ensures Grants(a, q) <= Grants(b, q)
    decreases b
  {
    if a > q {
      GrantsMonotone(a - q, b - q, q);
    }
  }

  function Short(ahead: nat, deficit: nat): nat {
    if deficit < ahead then ahead - deficit else 0
  }

  /** One more quantum, or all there is room for, leaves one grant less to go. */
  lemma {:induction false} GrantCounts(ahead: nat, deficit: nat, q: nat)
    requires q > 0 && deficit < ahead <= USIZE_MAX
    ensures Grants(Short(ahead, SaturatingAdd(deficit, q)), q) + 1 <= Grants(Short(ahead, deficit), q)
  {
    var short := ahead - deficit;
    if short > q {
      assert Short(ahead, SaturatingAdd(deficit, q)) == short - q;
    }
  }

  /**
   Steps a sender may still run: `grants` rounds of at most 50 moves, each paid for
   by the largest quantum, and the bytes in hand.
   */
  function Budget(grants: nat, moves: nat, bytes: nat, mtu: nat): nat {
    (grants * 51 + moves) * (8 * mtu + 1) + bytes
  }

  lemma {:induction false} FewerMoves(g: nat, moves: nat, bytes: nat, moves': nat, bytes': nat, mtu: nat)
    requires moves' < moves && bytes' <= bytes + 8 * mtu
    ensures Budget(g, moves', bytes', mtu) < Budget(g, moves, bytes, mtu)
  {
    Product(g * 51 + moves' + 1, g * 51 + moves, 8 * mtu + 1);
    assert (g * 51 + moves' + 1) * (8 * mtu + 1) == (g * 51 + moves') * (8 * mtu + 1) + (8 * mtu + 1);
  }

  lemma {:induction false} FewerGrants(g: nat, moves: nat, bytes: nat, g': nat, moves': nat, bytes': nat, mtu: nat)
    requires g' + 1 <= g && moves' <= 50 && bytes' <= bytes + 8 * mtu
    ensures Budget(g', moves', bytes', mtu) < Budget(g, moves, bytes, mtu)
  {
    Product(g' * 51 + moves' + 1, g * 51 + moves, 8 * mtu + 1);
    assert (g' * 51 + moves' + 1) * (8 * mtu + 1) == (g' * 51 + moves') * (8 * mtu + 1) + (8 * mtu + 1);
  }

  lemma {:induction false} NoMore(g: nat, moves: nat, bytes: nat, g': nat, moves': nat, bytes': nat, mtu: nat)
    requires g' <= g && moves' <= moves && bytes' <= bytes
    ensures Budget(g', moves', bytes', mtu) + (bytes - bytes') <= Budget(g, moves, bytes, mtu)
  {
    Product(g' * 51 + moves', g * 51 + moves, 8 * mtu + 1);
  }

  lemma {:induction false} Product(a: nat, b: nat, m: nat)
    requires a <= b
    ensures a * m <= b * m
  {
  }

  function Deficits(x: Sender): nat {
    x.accounts.latency.deficit + x.accounts.normal.deficit + x.accounts.bulk.deficit
  }

  /** What is left to run for a sender with `ahead` bytes of class c to get out of the way. */
  function Patience(x: Sender, ahead: nat, mtu: Mtu, c: Class): nat {
    var d := x.accounts.Get(c).deficit;
    Budget(Grants(Short(ahead, d), Quantum(c, mtu)), Distance(x.pc, ahead <= d, c), Deficits(x), mtu)
  }

  /** Fewer bytes ahead need no more patience. */
  lemma {:induction false} ShorterWait(x: Sender, ahead: nat, ahead': nat, mtu: Mtu, c: Class)
    requires ahead' <= ahead
    ensures Patience(x, ahead', mtu, c) <= Patience(x, ahead, mtu, c)
  {
    var d, q := x.accounts.Get(c).deficit, Quantum(c, mtu);
    GrantsMonotone(Short(ahead', d), Short(ahead, d), q);
    NoMore(Grants(Short(ahead, d), q), Distance(x.pc, ahead <= d, c), Deficits(x),
           Grants(Short(ahead', d), q), Distance(x.pc, ahead' <= d, c), Deficits(x), mtu);
  }

  /** The sender moved on and gained at most one quantum of a class. */
  lemma {:induction false} MovedOn(x: Sender, y: Sender, ahead: nat, mtu: Mtu, c: Class)
    requires y.accounts.Get(c).deficit == x.accounts.Get(c).deficit
    requires Deficits(y) <= Deficits(x) + 8 * mtu
    requires var ready := ahead <= x.accounts.Get(c).deficit; Distance(y.pc, ready, c) < Distance(x.pc, ready, c)
    ensures Patience(y, ahead, mtu, c) < Patience(x, ahead, mtu, c)
  {
    var d := x.accounts.Get(c).deficit;
    FewerMoves(Grants(Short(ahead, d), Quantum(c, mtu)), Distance(x.pc, ahead <= d, c), Deficits(x),
               Distance(y.pc, ahead <= d, c), Deficits(y), mtu);
  }

  /** The sender paid for a packet of another class. */
  lemma {:induction false} PaidElsewhere(x: Sender, y: Sender, ahead: nat, mtu: Mtu, c: Class)
    requires y.accounts.Get(c).deficit == x.accounts.Get(c).deficit && y.pc == x.pc
    requires Deficits(y) < Deficits(x)
    ensures Patience(y, ahead, mtu, c) < Patience(x, ahead, mtu, c)
  {
    var d := x.accounts.Get(c).deficit;
    NoMore(Grants(Short(ahead, d), Quantum(c, mtu)), Distance(x.pc, ahead <= d, c), Deficits(x),
           Grants(Short(ahead, d), Quantum(c, mtu)), Distance(y.pc, ahead <= d, c), Deficits(y), mtu);
  }

  /** The sender paid for a packet of class c itself, which shortens what is ahead as much as the deficit. */
  lemma {:induction false} PaidHere(x: Sender, y: Sender, ahead: nat, n: nat, mtu: Mtu, c: Class)
    requires 0 < n <= ahead && n <= x.accounts.Get(c).deficit && x.pc == y.pc == Drain(c)
    requires y.accounts.Get(c).deficit == x.accounts.Get(c).deficit - n && Deficits(y) == Deficits(x) - n
    ensures Patience(y, ahead - n, mtu, c) < Patience(x, ahead, mtu, c)
  {
    var d, q := x.accounts.Get(c).deficit, Quantum(c, mtu);
    NoMore(Grants(Short(ahead, d), q), Distance(x.pc, ahead <= d, c), Deficits(x),
           Grants(Short(ahead, d), q), Distance(x.pc, ahead <= d, c), Deficits(y), mtu);
  }

  /** The sender got a quantum for class c. */
  lemma {:induction false} GotGrant(x: Sender, y: Sender, ahead: nat, mtu: Mtu, c: Class)
    requires x.pc == Visit(c) && y.pc == Drain(c) && ahead <= USIZE_MAX
    requires y.accounts.Get(c).deficit == SaturatingAdd(x.accounts.Get(c).deficit, Quantum(c, mtu))
    requires Deficits(y) <= Deficits(x) + 8 * mtu
    ensures Patience(y, ahead, mtu, c) < Patience(x, ahead, mtu, c)
  {
    var d, e, q := x.accounts.Get(c).deficit, y.accounts.Get(c).deficit, Quantum(c, mtu);
    if ahead <= d {
      FewerMoves(0, Distance(x.pc, true, c), Deficits(x), Distance(y.pc, true, c), Deficits(y), mtu);
    } else {
      GrantCounts(ahead, d, q);
      FewerGrants(Grants(Short(ahead, d), q), Distance(x.pc, false, c), Deficits(x),
                  Grants(Short(ahead, e), q), Distance(y.pc, ahead <= e, c), Deficits(y), mtu);
    }
  }

  lemma {:induction false} DeficitsAfter(x: Sender, c: Class, a: Account, pc: SenderPc)
    ensures Deficits(Sender(pc, x.accounts.Set(c, a))) == Deficits(x) - x.accounts.Get(c).deficit + a.deficit
  {
    match c
    case Latency =>
    case Normal =>
    case Bulk =>
  }

  /** The sender after its turn at class k, which is not the one waited for. */
  lemma {:induction false} TurnElsewhereCalms(
      x: Sender, k: Class, a: Account, pc: SenderPc, ahead: nat, mtu: Mtu, c: Class)
    requires k != c && a.deficit <= x.accounts.Get(k).deficit + 8 * mtu
    requires || (x.pc == Visit(k) && pc in {Drain(k), AfterVisit(k)})
             || (x.pc == Drain(k) && pc == AfterVisit(k))
             || (x.pc == pc && a.deficit < x.accounts.Get(k).deficit)
    ensures Patience(Sender(pc, x.accounts.Set(k, a)), ahead, mtu, c) < Patience(x, ahead, mtu, c)
  {
    var y := Sender(pc, x.accounts.Set(k, a));
    assert y.accounts.Get(c) == x.accounts.Get(c);
    DeficitsAfter(x, k, a, pc);
    if x.pc == pc {
      PaidElsewhere(x, y, ahead, mtu, c);
    } else {
      VisitIsCloser(k, ahead <= x.accounts.Get(c).deficit, c);
      AfterVisitIsCloser(k, ahead <= x.accounts.Get(c).deficit, c);
      MovedOn(x, y, ahead, mtu, c);
    }
  }

  lemma {:induction false} VisitCalms(s: Peer, i: nat, k: Class, c: Class, ahead: nat)
    requires i in s.senders && s.senders[i].pc == Visit(k) && s.queues.Get(c) != [] && ahead <= USIZE_MAX
    ensures Patience(VisitStep(s, i, k).senders[i], ahead, s.mtu, c) < Patience(s.senders[i], ahead, s.mtu, c)
  {
    var x := s.senders[i];
    var a := x.accounts.Get(k);
    var granted := a.(deficit := SaturatingAdd(a.deficit, Quantum(k, s.mtu)), grants := a.grants + 1);
    QuantumBound(k, s.mtu);
    if k == c {
      DeficitsAfter(x, k, granted, Drain(k));
      GotGrant(x, Sender(Drain(k), x.accounts.Set(k, granted)), ahead, s.mtu, c);
    } else if s.queues.Get(k) == [] {
      var dry := a.(deficit := 0, visits := a.visits + 1, dry := a.dry + 1);
      TurnElsewhereCalms(x, k, dry, AfterVisit(k), ahead, s.mtu, c);
    } else {
      TurnElsewhereCalms(x, k, granted, Drain(k), ahead, s.mtu, c);
    }
  }

  /** Draining another class, with a packet that has bytes at its head or none. */
  lemma {:induction false} DrainElsewhereCalms(s: Peer, i: nat, k: Class, c: Class, ahead: nat)
    requires i in s.senders && s.senders[i].pc == Drain(k) && k != c
    requires s.queues.Get(k) != [] ==> s.queues.Get(k)[0].packet != []
    ensures Patience(DrainStep(s, i, k).senders[i], ahead, s.mtu, c) < Patience(s.senders[i], ahead, s.mtu, c)
  {
    var x := s.senders[i];
    var a, q := x.accounts.Get(k), s.queues.Get(k);
    if q == [] {
      TurnElsewhereCalms(x, k, a.(visits := a.visits + 1, dry := a.dry + 1), AfterVisit(k), ahead, s.mtu, c);
    } else if |q[0].packet| > a.deficit {
      TurnElsewhereCalms(x, k, a.(visits := a.visits + 1), AfterVisit(k), ahead, s.mtu, c);
    } else {
      var n := |q[0].packet|;
      TurnElsewhereCalms(x, k, a.(deficit := a.deficit - n, sent := a.sent + n), Drain(k), ahead, s.mtu, c);
    }
  }

  /** Draining class c while the packet waited for is still in it. */
  lemma {:induction false} DrainHereCalms(s: Peer, i: nat, c: Class, ahead: nat)
    requires i in s.senders && s.senders[i].pc == Drain(c) && s.queues.Get(c) != []
    requires 0 < |s.queues.Get(c)[0].packet| <= ahead
    ensures var t := DrainStep(s, i, c); var n := |s.queues.Get(c)[0].packet|;
            if n <= s.senders[i].accounts.Get(c).deficit
            then && |t.removed.Get(c)| == |s.removed.Get(c)| + 1
                 && Patience(t.senders[i], ahead - n, s.mtu, c) < Patience(s.senders[i], ahead, s.mtu, c)
            else && |t.removed.Get(c)| == |s.removed.Get(c)|
                 && Patience(t.senders[i], ahead, s.mtu, c) < Patience(s.senders[i], ahead, s.mtu, c)
  {
    var x, y := s.senders[i], DrainStep(s, i, c).senders[i];
    var a, n := x.accounts.Get(c), |s.queues.Get(c)[0].packet|;
    if n <= a.deficit {
      DeficitsAfter(x, c, a.(deficit := a.deficit - n, sent := a.sent + n), Drain(c));
      PopEffect(s, c, Sent(s.queues.Get(c)[0], i), c);
      PaidHere(x, y, ahead, n, s.mtu, c);
    } else {
      DeficitsAfter(x, c, a.(visits := a.visits + 1), AfterVisit(c));
      LeavingIsCloser(c);
      MovedOn(x, y, ahead, s.mtu, c);
    }
  }

  lemma {:induction false} LeavingIsCloser(c: Class)
    ensures Distance(AfterVisit(c), false, c) < Distance(Drain(c), false, c)
  {
  }

  /** Looking, waiting and handing over. */
  lemma {:induction false} MoveCalms(s: Peer, i: nat, timedOut: bool, c: Class, ahead: nat)
    requires AttendingSender(s, c, i) && s.queues.Get(c) != [] && RunsIn(s, Send(i, timedOut), i)
    requires !s.senders[i].pc.Visit? && !s.senders[i].pc.Drain?
    ensures Patience(SenderStep(s, i, timedOut).senders[i], ahead, s.mtu, c) < Patience(s.senders[i], ahead, s.mtu, c)
  {
    var x, y := s.senders[i], SenderStep(s, i, timedOut).senders[i];
    var ready := ahead <= x.accounts.Get(c).deficit;
    var empty := x.pc.Look? && s.queues.Get(x.pc.c) == [];
    MoveIsCloser(x.pc, empty, s.running, ready, c);
    assert y.accounts == x.accounts;
    assert y.pc == NextPc(x.pc, empty, s.running) || (x.pc == Wait && y.pc == Visit(Latency));
    MovedOn(x, y, ahead, s.mtu, c);
  }

  /** After a step: the packet has gone, or is still attended with less patience needed, by `spent` at least. */
  predicate Nearer(s0: Peer, s: Peer, t: Peer, i: nat, c: Class, m: nat, spent: nat)
    requires Follows(s0, s, c) && m < |s0.queues.Get(c)| && !Gone(s0, s, c, m) && i in s.senders
  {
    && Follows(s0, t, c) && t.mtu == s.mtu
    && (|| Gone(s0, t, c, m)
        || (&& AttendingSender(t, c, i)
            && Patience(t.senders[i], Ahead(s0, t, c, m), t.mtu, c) + spent <=
               Patience(s.senders[i], Ahead(s0, s, c, m), s.mtu, c)))
  }

  lemma {:induction false} OwnDrainNears(s0: Peer, s: Peer, i: nat, timedOut: bool, c: Class, m: nat)
    requires Follows(s0, s, c) && m < |s0.queues.Get(c)| && !Gone(s0, s, c, m)
    requires i in s.senders && s.senders[i].pc == Drain(c) && Solid(s)
    ensures Nearer(s0, s, SenderStep(s, i, timedOut), i, c, m, 1)
  {
    var t := SenderStep(s, i, timedOut);
    AheadStartsAtHead(s0, s, c, m);
    StepFollows(s0, s, Send(i, timedOut), i, c);
    SenderKeepsLooking(s, i, timedOut, c);
    HeadIsSolid(s, c);
    DrainHereCalms(s, i, c, Ahead(s0, s, c, m));
    if !Gone(s0, t, c, m) {
      RemovalShortens(s0, s, t, c, m);
    }
  }

  /** A step that removes nothing of class c but gets the sender on. */
  lemma {:induction false} QuietNears(s0: Peer, s: Peer, t: Peer, i: nat, c: Class, m: nat)
    requires Follows(s0, s, c) && m < |s0.queues.Get(c)| && !Gone(s0, s, c, m) && i in s.senders
    requires Follows(s0, t, c) && t.removed.Get(c) == s.removed.Get(c) && AttendingSender(t, c, i)
    requires Patience(t.senders[i], Ahead(s0, s, c, m), s.mtu, c) < Patience(s.senders[i], Ahead(s0, s, c, m), s.mtu, c)
    ensures Nearer(s0, s, t, i, c, m, 1)
  {
  }

  lemma {:induction false} OwnStepNears(s0: Peer, s: Peer, i: nat, timedOut: bool, c: Class, m: nat)
    requires Follows(s0, s, c) && m < |s0.queues.Get(c)| && !Gone(s0, s, c, m)
    requires AttendingSender(s, c, i) && Solid(s) && Ahead(s0, s, c, m) <= USIZE_MAX
    requires RunsIn(s, Send(i, timedOut), i)
    ensures Nearer(s0, s, SenderStep(s, i, timedOut), i, c, m, 1)
  {
    var t, pc := SenderStep(s, i, timedOut), s.senders[i].pc;
    if pc == Drain(c) {
      OwnDrainNears(s0, s, i, timedOut, c, m);
    } else {
      AheadStartsAtHead(s0, s, c, m);
      StepFollows(s0, s, Send(i, timedOut), i, c);
      SenderKeepsLooking(s, i, timedOut, c);
      ElsewhereCalms(s, i, timedOut, c, Ahead(s0, s, c, m));
      QuietNears(s0, s, t, i, c, m);
    }
  }

  lemma {:induction false} ElsewhereCalms(s: Peer, i: nat, timedOut: bool, c: Class, ahead: nat)
    requires AttendingSender(s, c, i) && Solid(s) && s.queues.Get(c) != [] && ahead <= USIZE_MAX
    requires RunsIn(s, Send(i, timedOut), i) && s.senders[i].pc != Drain(c)
    ensures var t := SenderStep(s, i, timedOut);
            && t.removed.Get(c) == s.removed.Get(c)
            && Patience(t.senders[i], ahead, s.mtu, c) < Patience(s.senders[i], ahead, s.mtu, c)
  {
    match s.senders[i].pc
    case Visit(k) =>
      VisitCalms(s, i, k, c, ahead);
    case Drain(k) =>
      if s.queues.Get(k) != [] {
        HeadIsSolid(s, k);
      }
      DrainElsewhereCalms(s, i, k, c, ahead);
      DrainOtherEffect(s, i, k, c);
    case _ =>
      MoveCalms(s, i, timedOut, c, ahead);
  }

  /** A step in which the sender does not run takes nothing back. */
  lemma {:induction false} OtherStepNears(s0: Peer, s: Peer, step: Step, i: nat, c: Class, m: nat)
    requires Follows(s0, s, c) && m < |s0.queues.Get(c)| && !Gone(s0, s, c, m)
    requires AttendingSender(s, c, i) && !RunsIn(s, step, i)
    ensures Nearer(s0, s, Apply(s, step), i, c, m, 0)
  {
    var t := Apply(s, step);
    StepMoves(s, step, i, c);
    StepFollows(s0, s, step, i, c);
    if step.Send? && step.sender == i {
      assert t == s;
    } else {
      OthersLeaveSender(s, step, i);
      OneAtMost(s, step, i, c);
      if !Gone(s0, t, c, m) {
        RemovalShortens(s0, s, t, c, m);
        ShorterWait(s.senders[i], Ahead(s0, s, c, m), Ahead(s0, t, c, m), s.mtu, c);
      }
    }
  }

  lemma {:induction false} OneAtMost(s: Peer, step: Step, i: nat, c: Class)
    requires i in s.senders
    ensures var t := Apply(s, step);
            |t.removed.Get(c)| == |s.removed.Get(c)| || |t.removed.Get(c)| == |s.removed.Get(c)| + 1
  {
    StepMoves(s, step, i, c);
  }

  /** Every step the sender ran was taken from the patience it started with. */
  predicate Waited(s0: Peer, s: Peer, i: nat, c: Class, m: nat, acts: nat) {
    && i in s0.senders && Follows(s0, s, c) && m < |s0.queues.Get(c)|
    && (|| Gone(s0, s, c, m)
        || (&& AttendingSender(s, c, i) && Ahead(s0, s, c, m) <= Ahead(s0, s0, c, m)
            && acts + Patience(s.senders[i], Ahead(s0, s, c, m), s.mtu, c) <=
               Patience(s0.senders[i], Ahead(s0, s0, c, m), s0.mtu, c)))
  }

  lemma {:induction false} AheadShrinks(s0: Peer, s: Peer, step: Step, i: nat, c: Class, m: nat)
    requires i in s.senders && Follows(s0, s, c) && Follows(s0, Apply(s, step), c) && m < |s0.queues.Get(c)|
    requires !Gone(s0, s, c, m) && !Gone(s0, Apply(s, step), c, m)
    ensures Ahead(s0, Apply(s, step), c, m) <= Ahead(s0, s, c, m)
  {
    OneAtMost(s, step, i, c);
    RemovalShortens(s0, s, Apply(s, step), c, m);
  }

  lemma {:induction false} StepWaits(s0: Peer, s: Peer, step: Step, i: nat, c: Class, m: nat, acts: nat)
    requires Waited(s0, s, i, c, m, acts) && Solid(s) && Follows(s0, s0, c) && Ahead(s0, s0, c, m) <= USIZE_MAX
    requires i in s.senders
    ensures i in Apply(s, step).senders
    ensures Waited(s0, Apply(s, step), i, c, m, acts + (if RunsIn(s, step, i) then 1 else 0))
  {
    var t := Apply(s, step);
    StepMoves(s, step, i, c);
    StepFollows(s0, s, step, i, c);
    if Gone(s0, s, c, m) {
      OneAtMost(s, step, i, c);
    } else {
      if RunsIn(s, step, i) {
        OwnStepNears(s0, s, i, step.timedOut, c, m);
      } else {
        OtherStepNears(s0, s, step, i, c, m);
      }
      if !Gone(s0, t, c, m) {
        AheadShrinks(s0, s, step, i, c, m);
      }
    }
  }

  lemma {:induction false} RunWaits(s0: Peer, steps: seq<Step>, i: nat, c: Class, m: nat)
    requires AttendingSender(s0, c, i) && Balanced(s0, c) && m < |s0.queues.Get(c)|
    requires Solid(s0) && SolidSteps(steps) && Ahead(s0, s0, c, m) <= USIZE_MAX
    ensures i in Run(s0, steps).senders
    ensures Waited(s0, Run(s0, steps), i, c, m, Acts(s0, steps, i))
    decreases |steps|
  {
    if steps == [] {
    } else {
      var init := steps[..|steps| - 1];
      RunWaits(s0, init, i, c, m);
      RunStaysSolid(s0, init);
      StepWaits(s0, Run(s0, init), steps[|steps| - 1], i, c, m, Acts(s0, init, i));
    }
  }

  /**
   Whatever everybody else does, a queued packet leaves: with packets that are not
   empty, once a sender that attends its class has run more often than a bound
   fixed by its deficits, its place in the loop and the bytes queued up to and
   including the packet, that packet has gone.
   */
  lemma {:induction false} AttendedPacketLeaves(mtu: Mtu, past: seq<Step>, steps: seq<Step>, i: nat, c: Class, m: nat)
    requires SolidSteps(past) && SolidSteps(steps)
    requires var s0 := Run(Init(mtu), past);
             && AttendingSender(s0, c, i) && m < |s0.queues.Get(c)|
             && Bytes(s0.queues.Get(c)[..m + 1]) <= USIZE_MAX
             && Acts(s0, steps, i) > Patience(s0.senders[i], Bytes(s0.queues.Get(c)[..m + 1]), mtu, c)
    ensures Gone(Run(Init(mtu), past), Run(Init(mtu), past + steps), c, m)
  {
    var s0 := Run(Init(mtu), past);
    RunAppend(Init(mtu), past, steps);
    RunStaysSolid(Init(mtu), past);
    assert Ledger(s0, c);
    RunKeepsMtu(mtu, past);
    AheadAtStart(s0, c, m);
    RunWaits(s0, steps, i, c, m);
    WaitIsOver(s0, Run(s0, steps), i, c, m, Acts(s0, steps, i));
  }

  lemma {:induction false} AheadAtStart(s0: Peer, c: Class, m: nat)
    requires Balanced(s0, c) && m < |s0.queues.Get(c)|
    ensures Follows(s0, s0, c) && !Gone(s0, s0, c, m)
    ensures Ahead(s0, s0, c, m) == Bytes(s0.queues.Get(c)[..m + 1])
  {
    var r := |s0.removed.Get(c)|;
    assert s0.accepted.Get(c)[r..r + m + 1] == s0.queues.Get(c)[..m + 1];
  }

  lemma {:induction false} WaitIsOver(s0: Peer, s: Peer, i: nat, c: Class, m: nat, acts: nat)
    requires Follows(s0, s0, c) && !Gone(s0, s0, c, m) && Waited(s0, s, i, c, m, acts)
    requires acts > Patience(s0.senders[i], Ahead(s0, s0, c, m), s0.mtu, c)
    ensures Gone(s0, s, c, m)
  {
  }
}
