/** How many rounds a queued packet can wait. */
module QosServiceBound {
  import opened QosTypes
  import opened QosProtocol
  import opened QosConservation
  import opened QosAccounts

  function Bytes(xs: seq<Item>): nat {
    if xs == [] then 0 else |xs[0].packet| + Bytes(xs[1..])
  }

  /** 1 while the sender is visiting class `c`. */
  function Open(s: Peer, i: nat, c: Class): nat
    requires i in s.senders
  {
    if InVisit(s, i, c) then 1 else 0
  }

  /** `s` comes after `s0`: the logs of class `c` only grew, and they balance. */
  predicate Follows(s0: Peer, s: Peer, c: Class) {
    && Balanced(s0, c) && Balanced(s, c)
    && s0.mtu == s.mtu
    && s0.accepted.Get(c) <= s.accepted.Get(c)
    && |s0.removed.Get(c)| <= |s.removed.Get(c)|
  }

  /** The packet at position `m` of the queue in `s0` has left the queue. */
  predicate Gone(s0: Peer, s: Peer, c: Class, m: nat) {
    |s.removed.Get(c)| > |s0.removed.Get(c)| + m
  }

  /** Bytes still queued up to and including that packet. */
  function Ahead(s0: Peer, s: Peer, c: Class, m: nat): nat
    requires Follows(s0, s, c) && m < |s0.queues.Get(c)| && !Gone(s0, s, c, m)
  {
    Bytes(s0.accepted.Get(c)[|s.removed.Get(c)| .. |s0.removed.Get(c)| + m + 1])
  }

  /**
   Grants since counting began are accounted for by bytes that have left:
   `size` bytes were ahead then, `ahead` are now, and `open`, `open0` are 1
   while a visit is under way now and was then.
   */
  predicate Covers(size: nat, ahead: nat, q: nat, deficit: nat, grants: int, visits: int, open: nat, open0: nat) {
    && ahead <= size
    && (ahead + grants * q <= size + deficit || (open == 1 && ahead <= deficit))
    && visits == grants - open + open0
    && (grants - open >= 1 ==> (grants - open) * q < size)
  }

  /** The packet has gone, or the sender's account covers what has left ahead of it. */
  predicate Tracked(s0: Peer, s: Peer, i: nat, c: Class, m: nat, size: nat)
    requires i in s0.senders && i in s.senders
    requires Follows(s0, s, c) && m < |s0.queues.Get(c)|
  {
    var a, a0 := AccountOf(s, i, c), AccountOf(s0, i, c);
    || Gone(s0, s, c, m)
    || Covers(size, Ahead(s0, s, c, m), Quantum(c, s.mtu), a.deficit,
              a.grants - a0.grants, a.visits - a0.visits, Open(s, i, c), Open(s0, i, c))
  }

  lemma CoversGrant(size: nat, ahead: nat, q: nat, deficit: nat, grants: int, visits: int, open0: nat)
    requires Covers(size, ahead, q, deficit, grants, visits, 0, open0) && size <= USIZE_MAX
    ensures Covers(size, ahead, q, SaturatingAdd(deficit, q), grants + 1, visits, 1, open0)
  {
    assert (grants + 1) * q == grants * q + q;
  }

  /** A visit that ends before a packet it cannot afford has spent less than what was ahead. */
  lemma CoversEnd(size: nat, ahead: nat, q: nat, deficit: nat, grants: int, visits: int, open0: nat)
    requires Covers(size, ahead, q, deficit, grants, visits, 1, open0) && ahead > deficit
    ensures Covers(size, ahead, q, deficit, grants, visits + 1, 0, open0)
  {
  }

  /** The oldest queued packet is the first of those counted by `Ahead`. */
  lemma AheadStartsAtHead(s0: Peer, s: Peer, c: Class, m: nat)
    requires Follows(s0, s, c) && m < |s0.queues.Get(c)| && !Gone(s0, s, c, m)
    ensures s.queues.Get(c) != []
    ensures |s.queues.Get(c)[0].packet| <= Ahead(s0, s, c, m)
    ensures var r := |s.removed.Get(c)|;
            && r + 1 <= |s0.accepted.Get(c)|
            && Ahead(s0, s, c, m) ==
               |s.queues.Get(c)[0].packet| + Bytes(s0.accepted.Get(c)[r + 1 .. |s0.removed.Get(c)| + m + 1])
  {
    var r := |s.removed.Get(c)|;
    var end := |s0.removed.Get(c)| + m + 1;
    var all := s0.accepted.Get(c);
    assert s.accepted.Get(c)[r] == s.queues.Get(c)[0];
    assert all[r..end][0] == all[r];
    assert all[r..end][1..] == all[r + 1..end];
  }

  lemma StepFollows(s0: Peer, s: Peer, step: Step, i: nat, c: Class)
    requires i in s.senders && Follows(s0, s, c)
    ensures Follows(s0, Apply(s, step), c)
  {
    StepMoves(s, step, i, c);
    match step
    case Arrive(id, k, p) =>
    case Enqueue(id, j) =>
      if id in s.enqueuers {
        EnqueuerBalances(s, id, j, c);
      }
    case Send(j, timedOut) =>
      if j in s.senders {
        SenderBalances(s, j, timedOut, c);
      }
  }

  /** A packet that leaves, by whatever hand, only shortens what is ahead. */
  lemma RemovalShortens(s0: Peer, s: Peer, t: Peer, c: Class, m: nat)
    requires Follows(s0, s, c) && Follows(s0, t, c) && m < |s0.queues.Get(c)|
    requires !Gone(s0, t, c, m)
    requires |t.removed.Get(c)| == |s.removed.Get(c)| || |t.removed.Get(c)| == |s.removed.Get(c)| + 1
    ensures !Gone(s0, s, c, m) && s.queues.Get(c) != []
    ensures Ahead(s0, t, c, m) ==
            Ahead(s0, s, c, m) - (if |t.removed.Get(c)| == |s.removed.Get(c)| then 0 else |s.queues.Get(c)[0].packet|)
  {
    AheadStartsAtHead(s0, s, c, m);
  }

  lemma UnmovedTracks(s0: Peer, s: Peer, t: Peer, i: nat, c: Class, m: nat, size: nat)
    requires i in s0.senders && i in s.senders && i in t.senders && Unmoved(s, t, i, c)
    requires Follows(s0, s, c) && Follows(s0, t, c) && m < |s0.queues.Get(c)|
    requires Tracked(s0, s, i, c, m, size)
    ensures Tracked(s0, t, i, c, m, size)
  {
    if !Gone(s0, t, c, m) {
      RemovalShortens(s0, s, t, c, m);
    }
  }

  lemma PoppedTracks(s0: Peer, s: Peer, t: Peer, i: nat, c: Class, m: nat, size: nat)
    requires i in s0.senders && i in s.senders && i in t.senders && Popped(s, t, i, c)
    requires Follows(s0, s, c) && Follows(s0, t, c) && m < |s0.queues.Get(c)|
    requires Tracked(s0, s, i, c, m, size)
    ensures Tracked(s0, t, i, c, m, size)
  {
    if !Gone(s0, t, c, m) {
      RemovalShortens(s0, s, t, c, m);
    }
  }

  /** A visit begins or ends; no packet leaves in that step. */
  lemma TurnTracks(s0: Peer, s: Peer, t: Peer, i: nat, c: Class, m: nat, size: nat)
    requires i in s0.senders && i in s.senders && i in t.senders && (Granted(s, t, i, c) || Ended(s, t, i, c))
    requires Follows(s0, s, c) && Follows(s0, t, c) && m < |s0.queues.Get(c)| && size <= USIZE_MAX
    requires Tracked(s0, s, i, c, m, size)
    ensures Tracked(s0, t, i, c, m, size)
  {
    if !Gone(s0, t, c, m) {
      AheadStartsAtHead(s0, s, c, m);
      var ahead, q := Ahead(s0, s, c, m), Quantum(c, s.mtu);
      var a, a0 := AccountOf(s, i, c), AccountOf(s0, i, c);
      if Granted(s, t, i, c) {
        CoversGrant(size, ahead, q, a.deficit, a.grants - a0.grants, a.visits - a0.visits, Open(s0, i, c));
      } else {
        CoversEnd(size, ahead, q, a.deficit, a.grants - a0.grants, a.visits - a0.visits, Open(s0, i, c));
      }
    }
  }

  lemma EmptyMeansGone(s0: Peer, s: Peer, c: Class, m: nat)
    requires Follows(s0, s, c) && m < |s0.queues.Get(c)| && s.queues.Get(c) == []
    ensures Gone(s0, s, c, m)
  {
  }

  lemma MoveTracks(s0: Peer, s: Peer, t: Peer, i: nat, c: Class, m: nat, size: nat)
    requires i in s0.senders && i in s.senders && Moved(s, t, i, c)
    requires Follows(s0, s, c) && Follows(s0, t, c) && m < |s0.queues.Get(c)| && size <= USIZE_MAX
    requires Tracked(s0, s, i, c, m, size)
    ensures Tracked(s0, t, i, c, m, size)
  {
    if Unmoved(s, t, i, c) {
      UnmovedTracks(s0, s, t, i, c, m, size);
    } else if Popped(s, t, i, c) {
      PoppedTracks(s0, s, t, i, c, m, size);
    } else if FoundEmpty(s, t, i, c) {
      EmptyMeansGone(s0, s, c, m);
    } else {
      TurnTracks(s0, s, t, i, c, m, size);
    }
  }

  lemma StepTracks(s0: Peer, s: Peer, step: Step, i: nat, c: Class, m: nat, size: nat)
    requires i in s0.senders && i in s.senders
    requires Follows(s0, s, c) && m < |s0.queues.Get(c)| && size <= USIZE_MAX
    requires Tracked(s0, s, i, c, m, size)
    ensures i in Apply(s, step).senders && Follows(s0, Apply(s, step), c)
    ensures Tracked(s0, Apply(s, step), i, c, m, size)
  {
    StepMoves(s, step, i, c);
    StepFollows(s0, s, step, i, c);
    MoveTracks(s0, s, Apply(s, step), i, c, m, size);
  }

  lemma {:induction false} RunTracks(s0: Peer, steps: seq<Step>, i: nat, c: Class, m: nat)
    requires i in s0.senders && Balanced(s0, c) && m < |s0.queues.Get(c)|
    requires Bytes(s0.queues.Get(c)[..m + 1]) <= USIZE_MAX
    ensures i in Run(s0, steps).senders && Follows(s0, Run(s0, steps), c)
    ensures Tracked(s0, Run(s0, steps), i, c, m, Bytes(s0.queues.Get(c)[..m + 1]))
    decreases |steps|
  {
    if steps == [] {
      var r := |s0.removed.Get(c)|;
      assert s0.accepted.Get(c)[r..r + m + 1] == s0.queues.Get(c)[..m + 1];
    } else {
      RunTracks(s0, steps[..|steps| - 1], i, c, m);
      StepTracks(s0, Run(s0, steps[..|steps| - 1]), steps[|steps| - 1], i, c, m, Bytes(s0.queues.Get(c)[..m + 1]));
    }
  }

  /**
   A packet with `S` bytes queued up to and including itself has left its queue
   once any one sender has finished `k` visits of its class with `k` quanta
   covering `S`, whatever arrives, is evicted or is sent by others meanwhile.  A
   visit already under way when counting starts does not count.
   */
  lemma ServedWithin(mtu: Mtu, past: seq<Step>, steps: seq<Step>, i: nat, c: Class, m: nat, k: nat)
    requires var s0 := Run(Init(mtu), past);
             && i in s0.senders && m < |s0.queues.Get(c)|
             && 1 <= k
             && Bytes(s0.queues.Get(c)[..m + 1]) <= k * Quantum(c, mtu)
             && Bytes(s0.queues.Get(c)[..m + 1]) <= USIZE_MAX
    requires var s0 := Run(Init(mtu), past); var s := Run(Init(mtu), past + steps);
             i in s.senders && AccountOf(s, i, c).visits >= AccountOf(s0, i, c).visits + Open(s0, i, c) + k
    ensures Gone(Run(Init(mtu), past), Run(Init(mtu), past + steps), c, m)
  {
    var s0 := Run(Init(mtu), past);
    RunAppend(Init(mtu), past, steps);
    RunKeepsLedger(mtu, past);
    assert Ledger(s0, c);
    RunKeepsMtu(mtu, past);
    RunTracks(s0, steps, i, c, m);
    TrackedEnough(s0, Run(s0, steps), i, c, m, Bytes(s0.queues.Get(c)[..m + 1]), k);
  }

  lemma TrackedEnough(s0: Peer, s: Peer, i: nat, c: Class, m: nat, size: nat, k: nat)
    requires i in s0.senders && i in s.senders
    requires Follows(s0, s, c) && m < |s0.queues.Get(c)|
    requires Tracked(s0, s, i, c, m, size)
    requires 1 <= k && size <= k * Quantum(c, s0.mtu)
    requires AccountOf(s, i, c).visits >= AccountOf(s0, i, c).visits + Open(s0, i, c) + k
    ensures Gone(s0, s, c, m)
  {
    var finished := AccountOf(s, i, c).grants - AccountOf(s0, i, c).grants - Open(s, i, c);
    if finished >= k {
      TimesMonotone(k, finished, Quantum(c, s.mtu));
    }
  }

  lemma TimesMonotone(a: int, b: int, q: nat)
    requires a <= b
    ensures a * q <= b * q
  {
  }

  lemma StepKeepsMtu(s: Peer, step: Step)
    ensures Apply(s, step).mtu == s.mtu
  {
    match step
    case Arrive(id, k, p) =>
    case Enqueue(id, j) =>
      if id in s.enqueuers {
        match s.enqueuers[id].pc
        case _ =>
      }
    case Send(i, timedOut) =>
      if i in s.senders {
        StepMoves(s, step, i, Latency);
      }
  }

  lemma {:induction false} RunKeepsMtu(mtu: Mtu, steps: seq<Step>)
    ensures Run(Init(mtu), steps).mtu == mtu
    decreases |steps|
  {
    if steps == [] {
    } else {
      RunKeepsMtu(mtu, steps[..|steps| - 1]);
      StepKeepsMtu(Run(Init(mtu), steps[..|steps| - 1]), steps[|steps| - 1]);
    }
  }

  /** Rounds after which any packet of a class has left, when no packet exceeds the MTU. */
  function Rounds(c: Class): nat {
    match c
    case Latency => 8
    case Normal => 64
    case Bulk => 512
  }

  lemma {:induction false} BytesBound(xs: seq<Item>, limit: nat)
    requires forall x :: x in xs ==> |x.packet| <= limit
    ensures Bytes(xs) <= |xs| * limit
    decreases |xs|
  {
    if xs == [] {
    } else {
      BytesBound(xs[1..], limit);
      assert |xs| * limit == limit + |xs[1..]| * limit;
    }
  }

  /**
   With packets no larger than the MTU, every queued packet of a class leaves
   within 8, 64 or 512 visits of any one sender, wherever it stands in its queue.
   */
  lemma EveryPacketLeavesWithin(mtu: Mtu, past: seq<Step>, steps: seq<Step>, i: nat, c: Class, m: nat)
    requires var s0 := Run(Init(mtu), past);
             && i in s0.senders && m < |s0.queues.Get(c)|
             && (forall x :: x in s0.queues.Get(c) ==> |x.packet| <= mtu)
    requires var s0 := Run(Init(mtu), past); var s := Run(Init(mtu), past + steps);
             i in s.senders && AccountOf(s, i, c).visits >= AccountOf(s0, i, c).visits + Open(s0, i, c) + Rounds(c)
    ensures Gone(Run(Init(mtu), past), Run(Init(mtu), past + steps), c, m)
  {
    var s0 := Run(Init(mtu), past);
    PacketsAreConserved(mtu, past, c);
    CapBound(s0.queues.Get(c)[..m + 1], c, mtu);
    ServedWithin(mtu, past, steps, i, c, m, Rounds(c));
  }

  lemma CapBound(front: seq<Item>, c: Class, mtu: Mtu)
    requires |front| <= Cap(c) && forall x :: x in front ==> |x.packet| <= mtu
    ensures Bytes(front) <= Rounds(c) * Quantum(c, mtu) <= USIZE_MAX
  {
    BytesBound(front, mtu);
    TimesMonotone(|front|, Cap(c), mtu);
  }
}
