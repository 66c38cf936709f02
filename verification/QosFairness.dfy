/** Byte fairness between classes that stay backlogged. */
module QosFairness {
  import opened QosTypes
  import opened QosProtocol
  import opened QosConservation
  import opened QosAccounts
  import opened QosServiceBound

  function Abs(x: int): nat {
    if x < 0 then -x else x
  }

  // Rounds

  /** Visits of class `c` already finished in the current round. */
  function Done(pc: SenderPc, c: Class): nat {
    match pc
    case Visit(k) => if Rank(c) < Rank(k) then 1 else 0
    case Drain(k) => if Rank(c) < Rank(k) then 1 else 0
    case _ => 1
  }

  /** Rounds finished before the current one, as seen by class `c`. */
  function PastRounds(s: Peer, i: nat, c: Class): int
    requires i in s.senders
  {
    AccountOf(s, i, c).visits - Done(s.senders[i].pc, c)
  }

  /** A sender serves every class once a round. */
  predicate InStep(s: Peer, i: nat) {
    i in s.senders ==>
      PastRounds(s, i, Latency) == PastRounds(s, i, Normal) == PastRounds(s, i, Bulk)
  }

  lemma VisitStaysInStep(s: Peer, j: nat, k: Class)
    requires InStep(s, j) && j in s.senders && s.senders[j].pc == Visit(k)
    ensures InStep(VisitStep(s, j, k), j)
  {
  }

  lemma DrainStaysInStep(s: Peer, j: nat, k: Class)
    requires InStep(s, j) && j in s.senders && s.senders[j].pc == Drain(k)
    ensures InStep(DrainStep(s, j, k), j)
  {
  }

  /** Between visits every class has had its turn. */
  lemma MoveStaysInStep(s: Peer, j: nat, timedOut: bool)
    requires InStep(s, j) && j in s.senders && !s.senders[j].pc.Visit? && !s.senders[j].pc.Drain?
    ensures InStep(SenderStep(s, j, timedOut), j)
  {
    var x, y := s.senders[j], SenderStep(s, j, timedOut).senders[j];
    assert y.accounts == x.accounts;
    assert y.pc == Visit(Latency) || (!y.pc.Visit? && !y.pc.Drain?);
  }

  lemma OtherSenderStays(s: Peer, j: nat, timedOut: bool, i: nat)
    requires j in s.senders && i != j
    ensures var t := SenderStep(s, j, timedOut); i in t.senders ==> i in s.senders && t.senders[i] == s.senders[i]
  {
    match s.senders[j].pc
    case Visit(k) =>
    case Drain(k) =>
    case Look(stage, k) =>
    case Wait =>
    case Retract =>
    case Reclaim =>
    case Returned =>
  }

  lemma SenderStaysInStep(s: Peer, j: nat, timedOut: bool, i: nat)
    requires InStep(s, i) && j in s.senders
    ensures InStep(SenderStep(s, j, timedOut), i)
  {
    if i != j {
      OtherSenderStays(s, j, timedOut, i);
    } else {
      match s.senders[j].pc
      case Visit(k) => VisitStaysInStep(s, j, k);
      case Drain(k) => DrainStaysInStep(s, j, k);
      case _ => MoveStaysInStep(s, j, timedOut);
    }
  }

  /** A call leaves all senders alone, or starts one. */
  lemma EnqueuerSenders(s: Peer, id: nat, j: nat)
    requires id in s.enqueuers
    ensures var t := EnqueuerStep(s, id, j); t.senders == s.senders || t.senders == s.senders[j := NEW_SENDER]
  {
    match s.enqueuers[id].pc
    case Push =>
    case EvictBulk =>
    case RetryAfterBulk =>
    case EvictNormal =>
    case RetryAfterNormal =>
    case SwapRunning =>
    case SpawnSender =>
    case NotifySender =>
    case Queued =>
    case Dropped =>
  }

  lemma EnqueuerStaysInStep(s: Peer, id: nat, j: nat, i: nat)
    requires InStep(s, i) && id in s.enqueuers
    ensures InStep(EnqueuerStep(s, id, j), i)
  {
    EnqueuerSenders(s, id, j);
  }

  lemma {:induction false} RunStaysInStep(mtu: Mtu, steps: seq<Step>, i: nat)
    ensures InStep(Run(Init(mtu), steps), i)
    decreases |steps|
  {
    if steps == [] {
    } else {
      RunStaysInStep(mtu, steps[..|steps| - 1], i);
      var s := Run(Init(mtu), steps[..|steps| - 1]);
      match steps[|steps| - 1]
      case Arrive(id, c, p) =>
      case Enqueue(id, j) =>
        if id in s.enqueuers {
          EnqueuerStaysInStep(s, id, j, i);
        }
      case Send(j, timedOut) =>
        if j in s.senders {
          SenderStaysInStep(s, j, timedOut, i);
        }
    }
  }

  // Backlogged windows

  /** No packet ever accepted into class `c` exceeds `largest` bytes. */
  predicate AtMost(s: Peer, c: Class, largest: nat) {
    forall x :: x in s.accepted.Get(c) ==> |x.packet| <= largest
  }

  /**
   Unless the class ran dry since `a0`, the account `a` holds what it held then
   plus one quantum a visit, less the bytes sent.
   */
  predicate Square(a0: Account, a: Account, q: nat, open: bool, largest: nat) {
    && a0.dry <= a.dry
    && (a.dry == a0.dry ==>
          && a.deficit + a.sent == a0.deficit + a0.sent + (a.grants - a0.grants) * q
          && a.grants - a0.grants == a.visits - a0.visits + (if open then 1 else 0)
          && (!open ==> a.deficit < largest))
  }

  lemma SquareGrant(a0: Account, a: Account, q: nat, largest: nat)
    requires Square(a0, a, q, false, largest) && largest + q <= USIZE_MAX
    ensures Square(a0, a.(deficit := SaturatingAdd(a.deficit, q), grants := a.grants + 1), q, true, largest)
  {
    assert (a.grants + 1 - a0.grants) * q == (a.grants - a0.grants) * q + q;
  }

  lemma MoveStaysSquare(s: Peer, t: Peer, a0: Account, i: nat, c: Class, largest: nat)
    requires i in s.senders && Moved(s, t, i, c)
    requires Square(a0, AccountOf(s, i, c), Quantum(c, s.mtu), InVisit(s, i, c), largest)
    requires largest + Quantum(c, s.mtu) <= USIZE_MAX
    requires s.queues.Get(c) != [] ==> |s.queues.Get(c)[0].packet| <= largest
    ensures Square(a0, AccountOf(t, i, c), Quantum(c, t.mtu), InVisit(t, i, c), largest)
  {
    if Granted(s, t, i, c) {
      SquareGrant(a0, AccountOf(s, i, c), Quantum(c, s.mtu), largest);
    }
  }

  lemma {:induction false} RunStaysSquare(s0: Peer, steps: seq<Step>, i: nat, c: Class, largest: nat)
    requires i in s0.senders && !InVisit(s0, i, c) && Balanced(s0, c)
    requires AccountOf(s0, i, c).deficit < largest && largest + Quantum(c, s0.mtu) <= USIZE_MAX
    requires AtMost(Run(s0, steps), c, largest)
    ensures var s := Run(s0, steps);
            && i in s.senders && Follows(s0, s, c)
            && Square(AccountOf(s0, i, c), AccountOf(s, i, c), Quantum(c, s.mtu), InVisit(s, i, c), largest)
    decreases |steps|
  {
    if steps == [] {
    } else {
      var front, step := steps[..|steps| - 1], steps[|steps| - 1];
      var s := Run(s0, front);
      RunFollows(s0, front, i, c);
      StepMoves(s, step, i, c);
      PrefixAtMost(s, Apply(s, step), c, largest);
      RunStaysSquare(s0, front, i, c, largest);
      StepFollows(s0, s, step, i, c);
      assert forall x :: x in s.queues.Get(c) ==> x in s.accepted.Get(c);
      MoveStaysSquare(s, Apply(s, step), AccountOf(s0, i, c), i, c, largest);
    }
  }

  lemma PrefixAtMost(s: Peer, t: Peer, c: Class, largest: nat)
    requires s.accepted.Get(c) <= t.accepted.Get(c) && AtMost(t, c, largest)
    ensures AtMost(s, c, largest)
  {
    forall x | x in s.accepted.Get(c) ensures |x.packet| <= largest {
      assert x in t.accepted.Get(c);
    }
  }

  lemma {:induction false} RunFollows(s0: Peer, steps: seq<Step>, i: nat, c: Class)
    requires i in s0.senders && Balanced(s0, c)
    ensures i in Run(s0, steps).senders && Follows(s0, Run(s0, steps), c)
    decreases |steps|
  {
    if steps == [] {
    } else {
      var s := Run(s0, steps[..|steps| - 1]);
      RunFollows(s0, steps[..|steps| - 1], i, c);
      StepMoves(s, steps[|steps| - 1], i, c);
      StepFollows(s0, s, steps[|steps| - 1], i, c);
    }
  }

  /** Between rounds: every class has had the same number of visits. */
  predicate BetweenRounds(pc: SenderPc) {
    pc == Visit(Latency) || !(pc.Visit? || pc.Drain?)
  }

  /** The class was never found empty between two looks at its account. */
  predicate Backlogged(s0: Peer, s: Peer, i: nat, c: Class)
    requires i in s0.senders && i in s.senders
  {
    AccountOf(s, i, c).dry == AccountOf(s0, i, c).dry
  }

  function SentBetween(s0: Peer, s: Peer, i: nat, c: Class): int
    requires i in s0.senders && i in s.senders
  {
    AccountOf(s, i, c).sent - AccountOf(s0, i, c).sent
  }

  /** Over a backlogged window a class sends its quanta, up to one largest packet either way. */
  lemma SentNearShare(s0: Peer, s: Peer, i: nat, c: Class, largest: nat, rounds: int)
    requires i in s0.senders && i in s.senders && !InVisit(s, i, c)
    requires Square(AccountOf(s0, i, c), AccountOf(s, i, c), Quantum(c, s.mtu), false, largest)
    requires Backlogged(s0, s, i, c) && AccountOf(s0, i, c).deficit < largest
    requires rounds == AccountOf(s, i, c).visits - AccountOf(s0, i, c).visits
    ensures Abs(SentBetween(s0, s, i, c) - Weight(c) * (rounds * s.mtu)) < largest
  {
    assert rounds * Quantum(c, s.mtu) == Weight(c) * (rounds * s.mtu);
  }

  /** Bytes sent for two classes are in the ratio of their weights, up to a constant. */
  predicate Fair(a: Class, b: Class, sentA: int, sentB: int, largest: nat) {
    Abs(Weight(b) * sentA - Weight(a) * sentB) < (Weight(a) + Weight(b)) * largest
  }

  /** Weight times x, without a product of two variables. */
  function Times(c: Class, x: int): int {
    match c
    case Latency => 8 * x
    case Normal => 4 * x
    case Bulk => x
  }

  lemma TimesIs(c: Class, x: int)
    ensures Weight(c) * x == Times(c, x)
  {
    match c
    case Latency =>
    case Normal =>
    case Bulk =>
  }

  lemma SharesWithin(a: Class, b: Class, sentA: int, sentB: int, amount: int, largest: nat)
    requires Abs(sentA - Times(a, amount)) < largest
    requires Abs(sentB - Times(b, amount)) < largest
    ensures Abs(Times(b, sentA) - Times(a, sentB)) < Times(a, largest) + Times(b, largest)
  {
  }

  lemma Distribute(x: int, y: int, z: int)
    ensures (x + y) * z == x * z + y * z
  {
  }

  /** Shares within `largest` of weight times a common amount are fair to each other. */
  lemma SharesAreFair(a: Class, b: Class, sentA: int, sentB: int, amount: int, largest: nat)
    requires Abs(sentA - Weight(a) * amount) < largest
    requires Abs(sentB - Weight(b) * amount) < largest
    ensures Fair(a, b, sentA, sentB, largest)
  {
    TimesIs(a, amount);
    TimesIs(b, amount);
    SharesWithin(a, b, sentA, sentB, amount, largest);
    TimesIs(b, sentA);
    TimesIs(a, sentB);
    TimesIs(a, largest);
    TimesIs(b, largest);
    Distribute(Weight(a), Weight(b), largest);
  }

  /** 8, 4 or 1 times the MTU a round, up to one largest packet. */
  predicate QuantaSent(c: Class, sent: int, amount: int, largest: nat) {
    match c
    case Latency => Abs(sent - 8 * amount) < largest
    case Normal => Abs(sent - 4 * amount) < largest
    case Bulk => Abs(sent - amount) < largest
  }

  /** The account of a class over a window between rounds in which it stays backlogged. */
  predicate Window(s0: Peer, s: Peer, i: nat, c: Class, largest: nat) {
    && i in s0.senders && i in s.senders && InStep(s0, i) && InStep(s, i)
    && BetweenRounds(s0.senders[i].pc) && BetweenRounds(s.senders[i].pc)
    && Backlogged(s0, s, i, c) && AccountOf(s0, i, c).deficit < largest
    && Square(AccountOf(s0, i, c), AccountOf(s, i, c), Quantum(c, s.mtu), false, largest)
  }

  function Rounds(s0: Peer, s: Peer, i: nat): int
    requires i in s0.senders && i in s.senders
  {
    AccountOf(s, i, Latency).visits - AccountOf(s0, i, Latency).visits
  }

  lemma {:induction false} WindowIsSquare(
      mtu: Mtu, past: seq<Step>, steps: seq<Step>, i: nat, c: Class, largest: nat)
    requires var s0 := Run(Init(mtu), past); var s := Run(Init(mtu), past + steps);
             && i in s0.senders && i in s.senders
             && BetweenRounds(s0.senders[i].pc) && BetweenRounds(s.senders[i].pc)
             && Backlogged(s0, s, i, c) && AccountOf(s0, i, c).deficit < largest && AtMost(s, c, largest)
    requires largest + 8 * mtu <= USIZE_MAX
    ensures Window(Run(Init(mtu), past), Run(Init(mtu), past + steps), i, c, largest)
    ensures Run(Init(mtu), past + steps).mtu == mtu
  {
    var s0 := Run(Init(mtu), past);
    RunAppend(Init(mtu), past, steps);
    RunKeepsLedger(mtu, past);
    assert Ledger(s0, c);
    RunKeepsMtu(mtu, past);
    RunKeepsMtu(mtu, past + steps);
    RunStaysInStep(mtu, past, i);
    RunStaysInStep(mtu, past + steps, i);
    QuantumBound(c, mtu);
    RunStaysSquare(s0, steps, i, c, largest);
  }

  lemma {:induction false} WindowQuanta(s0: Peer, s: Peer, i: nat, c: Class, largest: nat)
    requires Window(s0, s, i, c, largest)
    ensures QuantaSent(c, SentBetween(s0, s, i, c), Rounds(s0, s, i) * s.mtu, largest)
  {
    var rounds := Rounds(s0, s, i);
    assert rounds == AccountOf(s, i, c).visits - AccountOf(s0, i, c).visits;
    SentNearShare(s0, s, i, c, largest, rounds);
    TimesIs(c, rounds * s.mtu);
  }

  /** Each backlogged class sends 8, 4 or 1 times the MTU a round, up to one largest packet. */
  lemma {:induction false} BackloggedClassSendsItsQuanta(
      mtu: Mtu, past: seq<Step>, steps: seq<Step>, i: nat, c: Class, largest: nat)
    requires var s0 := Run(Init(mtu), past); var s := Run(Init(mtu), past + steps);
             && i in s0.senders && i in s.senders
             && BetweenRounds(s0.senders[i].pc) && BetweenRounds(s.senders[i].pc)
             && Backlogged(s0, s, i, c) && AccountOf(s0, i, c).deficit < largest && AtMost(s, c, largest)
    requires largest + 8 * mtu <= USIZE_MAX
    ensures var s0 := Run(Init(mtu), past); var s := Run(Init(mtu), past + steps);
            && i in s0.senders && i in s.senders
            && QuantaSent(c, SentBetween(s0, s, i, c), Rounds(s0, s, i) * mtu, largest)
  {
    WindowIsSquare(mtu, past, steps, i, c, largest);
    WindowQuanta(Run(Init(mtu), past), Run(Init(mtu), past + steps), i, c, largest);
  }

  /** Twice as much for latency as for normal, four times as much for normal as for bulk. */
  predicate FairNumbers(a: Class, b: Class, sentA: int, sentB: int, largest: nat) {
    && (a == Latency && b == Normal ==> Abs(4 * sentA - 8 * sentB) < 12 * largest)
    && (a == Latency && b == Bulk ==> Abs(sentA - 8 * sentB) < 9 * largest)
    && (a == Normal && b == Bulk ==> Abs(sentA - 4 * sentB) < 5 * largest)
  }

  lemma FairInNumbers(a: Class, b: Class, sentA: int, sentB: int, largest: nat)
    requires Fair(a, b, sentA, sentB, largest)
    ensures FairNumbers(a, b, sentA, sentB, largest)
  {
  }

  /**
   While two classes stay backlogged over the same rounds of one sender, having
   started with deficits below the largest packet, the bytes it sends for them
   are in the ratio of their weights 8:4:1 up to a constant, with arrivals,
   evictions and other senders interleaved anywhere.
   */
  lemma {:induction false} BackloggedClassesShareFairly(
      mtu: Mtu, past: seq<Step>, steps: seq<Step>, i: nat, a: Class, b: Class, largest: nat)
    requires var s0 := Run(Init(mtu), past); var s := Run(Init(mtu), past + steps);
             && i in s0.senders && i in s.senders
             && BetweenRounds(s0.senders[i].pc) && BetweenRounds(s.senders[i].pc)
             && Backlogged(s0, s, i, a) && Backlogged(s0, s, i, b)
             && AccountOf(s0, i, a).deficit < largest && AccountOf(s0, i, b).deficit < largest
             && AtMost(s, a, largest) && AtMost(s, b, largest)
    requires largest + 8 * mtu <= USIZE_MAX
    ensures var s0 := Run(Init(mtu), past); var s := Run(Init(mtu), past + steps);
            && i in s0.senders && i in s.senders
            && Fair(a, b, SentBetween(s0, s, i, a), SentBetween(s0, s, i, b), largest)
            && FairNumbers(a, b, SentBetween(s0, s, i, a), SentBetween(s0, s, i, b), largest)
  {
    WindowIsSquare(mtu, past, steps, i, a, largest);
    WindowIsSquare(mtu, past, steps, i, b, largest);
    WindowIsFair(Run(Init(mtu), past), Run(Init(mtu), past + steps), i, a, b, largest);
  }

  lemma {:induction false} WindowIsFair(s0: Peer, s: Peer, i: nat, a: Class, b: Class, largest: nat)
    requires Window(s0, s, i, a, largest) && Window(s0, s, i, b, largest)
    ensures Fair(a, b, SentBetween(s0, s, i, a), SentBetween(s0, s, i, b), largest)
    ensures FairNumbers(a, b, SentBetween(s0, s, i, a), SentBetween(s0, s, i, b), largest)
  {
    var rounds := Rounds(s0, s, i);
    SentNearShare(s0, s, i, a, largest, rounds);
    SentNearShare(s0, s, i, b, largest, rounds);
    SharesAreFair(a, b, SentBetween(s0, s, i, a), SentBetween(s0, s, i, b), rounds * s.mtu, largest);
    FairInNumbers(a, b, SentBetween(s0, s, i, a), SentBetween(s0, s, i, b), largest);
  }
}
