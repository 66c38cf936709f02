/** Packet accounting over every interleaving. */
module QosConservation {
  import opened QosTypes
  import opened QosProtocol

  function Items(rs: seq<Removal>): seq<Item> {
    seq(|rs|, k requires 0 <= k < |rs| => rs[k].item)
  }

  /** What was accepted is what left, in the same order, followed by what is still queued. */
  predicate Balanced(s: Peer, c: Class) {
    && s.accepted.Get(c) == Items(s.removed.Get(c)) + s.queues.Get(c)
    && |s.queues.Get(c)| <= Cap(c)
  }

  /** The enqueue call has put its packet into its queue. */
  predicate Accepted(e: Enqueuer) {
    e.pc in {SwapRunning, SpawnSender, NotifySender, Queued}
  }

  /** Every accepted item belongs to the accepted call of its name. */
  predicate Genuine(s: Peer, c: Class) {
    forall k :: 0 <= k < |s.accepted.Get(c)| ==> OfferedBy(s, c, s.accepted.Get(c)[k])
  }

  predicate OfferedBy(s: Peer, c: Class, x: Item) {
    && x.id in s.enqueuers
    && s.enqueuers[x.id].target == c
    && s.enqueuers[x.id].packet == x.packet
    && Accepted(s.enqueuers[x.id])
  }

  predicate Distinct(xs: seq<Item>) {
    forall j, k :: 0 <= j < k < |xs| ==> xs[j].id != xs[k].id
  }

  /** Every accepted call has its item. */
  predicate Complete(s: Peer) {
    forall id :: id in s.enqueuers && Accepted(s.enqueuers[id]) ==>
      Item(id, s.enqueuers[id].packet) in s.accepted.Get(s.enqueuers[id].target)
  }

  predicate Ledger(s: Peer, c: Class) {
    Balanced(s, c) && Genuine(s, c) && Distinct(s.accepted.Get(c))
  }

  // Balance

  lemma AppendBalances(s: Peer, k: Class, x: Item, c: Class)
    requires Balanced(s, c) && (k == c ==> |s.queues.Get(c)| < Cap(c))
    ensures Balanced(Append(s, k, x), c)
  {
    assert Items(s.removed.Get(c)) + (s.queues.Get(c) + [x]) == (Items(s.removed.Get(c)) + s.queues.Get(c)) + [x];
  }

  lemma PopBalances(s: Peer, k: Class, r: Removal, c: Class)
    requires Balanced(s, c) && s.queues.Get(k) != [] && r.item == s.queues.Get(k)[0]
    ensures Balanced(PopFront(s, k, r), c)
  {
    if k == c {
      var q := s.queues.Get(c);
      assert Items(s.removed.Get(c) + [r]) == Items(s.removed.Get(c)) + [q[0]];
      assert Items(s.removed.Get(c)) + q == (Items(s.removed.Get(c)) + [q[0]]) + q[1..];
    }
  }

  lemma TryPushBalances(s: Peer, id: nat, full: EnqueuerPc, c: Class)
    requires Balanced(s, c) && id in s.enqueuers
    ensures Balanced(TryPush(s, id, full), c)
  {
    var e := s.enqueuers[id];
    if |s.queues.Get(e.target)| < Cap(e.target) {
      AppendBalances(s, e.target, Item(id, e.packet), c);
    }
  }

  lemma TryEvictBalances(s: Peer, id: nat, victim: Class, retry: EnqueuerPc, empty: EnqueuerPc, c: Class)
    requires Balanced(s, c) && id in s.enqueuers
    ensures Balanced(TryEvict(s, id, victim, retry, empty), c)
  {
    if s.queues.Get(victim) != [] {
      PopBalances(s, victim, Evicted(s.queues.Get(victim)[0], id), c);
    }
  }

  lemma EnqueuerBalances(s: Peer, id: nat, j: nat, c: Class)
    requires Balanced(s, c) && id in s.enqueuers
    ensures Balanced(EnqueuerStep(s, id, j), c)
  {
    var e := s.enqueuers[id];
    match e.pc
    case Push => TryPushBalances(s, id, if e.target != Bulk then EvictBulk else Dropped, c);
    case EvictBulk => TryEvictBalances(s, id, Bulk, RetryAfterBulk, AfterBulk(e.target), c);
    case RetryAfterBulk => TryPushBalances(s, id, AfterBulk(e.target), c);
    case EvictNormal => TryEvictBalances(s, id, Normal, RetryAfterNormal, Dropped, c);
    case RetryAfterNormal => TryPushBalances(s, id, Dropped, c);
    case _ =>
  }

  lemma SenderBalances(s: Peer, i: nat, timedOut: bool, c: Class)
    requires Balanced(s, c) && i in s.senders
    ensures Balanced(SenderStep(s, i, timedOut), c)
  {
    if s.senders[i].pc.Drain? {
      var k := s.senders[i].pc.c;
      if s.queues.Get(k) != [] {
        PopBalances(s, k, Sent(s.queues.Get(k)[0], i), c);
      }
    }
  }

  // Names

  /** A sender's step touches neither the calls nor the acceptance log. */
  lemma SenderLeavesCalls(s: Peer, i: nat, timedOut: bool)
    requires i in s.senders
    ensures SenderStep(s, i, timedOut).enqueuers == s.enqueuers
    ensures SenderStep(s, i, timedOut).accepted == s.accepted
  {
  }

  /** Only the call `id` has changed; it is logged exactly when it becomes accepted. */
  predicate Logs(s: Peer, t: Peer, id: nat)
    requires id in s.enqueuers
  {
    var e := s.enqueuers[id];
    && t.enqueuers.Keys == s.enqueuers.Keys
    && (forall o :: o in s.enqueuers && o != id ==> t.enqueuers[o] == s.enqueuers[o])
    && t.enqueuers[id].target == e.target
    && t.enqueuers[id].packet == e.packet
    && (Accepted(e) ==> Accepted(t.enqueuers[id]))
    && t.accepted == if Accepted(t.enqueuers[id]) && !Accepted(e)
                     then s.accepted.Set(e.target, s.accepted.Get(e.target) + [Item(id, e.packet)])
                     else s.accepted
  }

  lemma TryPushLogs(s: Peer, id: nat, full: EnqueuerPc)
    requires id in s.enqueuers && !Accepted(s.enqueuers[id])
    requires !Accepted(s.enqueuers[id].(pc := full))
    ensures Logs(s, TryPush(s, id, full), id)
  {
  }

  lemma MoveLogs(s: Peer, t: Peer, id: nat, pc: EnqueuerPc)
    requires id in s.enqueuers && t.enqueuers == s.enqueuers && t.accepted == s.accepted
    requires Accepted(s.enqueuers[id].(pc := pc)) == Accepted(s.enqueuers[id])
    ensures Logs(s, MoveEnqueuer(t, id, pc), id)
  {
  }

  lemma TryEvictLogs(s: Peer, id: nat, victim: Class, retry: EnqueuerPc, empty: EnqueuerPc)
    requires id in s.enqueuers && !Accepted(s.enqueuers[id])
    requires !Accepted(s.enqueuers[id].(pc := retry)) && !Accepted(s.enqueuers[id].(pc := empty))
    ensures Logs(s, TryEvict(s, id, victim, retry, empty), id)
  {
    var q := s.queues.Get(victim);
    if q != [] {
      MoveLogs(s, PopFront(s, victim, Evicted(q[0], id)), id, retry);
    } else {
      MoveLogs(s, s, id, empty);
    }
  }

  lemma EnqueuerLogs(s: Peer, id: nat, j: nat)
    requires id in s.enqueuers
    ensures Logs(s, EnqueuerStep(s, id, j), id)
  {
    var e := s.enqueuers[id];
    match e.pc
    case Push => TryPushLogs(s, id, if e.target != Bulk then EvictBulk else Dropped);
    case EvictBulk => TryEvictLogs(s, id, Bulk, RetryAfterBulk, AfterBulk(e.target));
    case RetryAfterBulk => TryPushLogs(s, id, AfterBulk(e.target));
    case EvictNormal => TryEvictLogs(s, id, Normal, RetryAfterNormal, Dropped);
    case RetryAfterNormal => TryPushLogs(s, id, Dropped);
    case SwapRunning => MoveLogs(s, s.(running := true), id, if s.running then NotifySender else SpawnSender);
    case SpawnSender =>
      MoveLogs(s, s.(senders := s.senders[j := NEW_SENDER]), id, Queued);
    case NotifySender => MoveLogs(s, s.(permit := true), id, Queued);
    case _ =>
  }

  lemma LoggedStayGenuine(s: Peer, t: Peer, id: nat, c: Class)
    requires id in s.enqueuers && Logs(s, t, id) && Genuine(s, c)
    ensures Genuine(t, c)
  {
  }

  lemma LoggedStayDistinct(s: Peer, t: Peer, id: nat, c: Class)
    requires id in s.enqueuers && Logs(s, t, id) && Genuine(s, c) && Distinct(s.accepted.Get(c))
    ensures Distinct(t.accepted.Get(c))
  {
  }

  lemma LoggedStayComplete(s: Peer, t: Peer, id: nat)
    requires id in s.enqueuers && Logs(s, t, id) && Complete(s)
    ensures Complete(t)
  {
    forall o | o in t.enqueuers && Accepted(t.enqueuers[o])
      ensures Item(o, t.enqueuers[o].packet) in t.accepted.Get(t.enqueuers[o].target)
    {
      if o in s.enqueuers && Accepted(s.enqueuers[o]) {
        assert Item(o, s.enqueuers[o].packet) in s.accepted.Get(s.enqueuers[o].target);
      }
    }
  }

  lemma EnqueuerNames(s: Peer, id: nat, j: nat, c: Class)
    requires id in s.enqueuers && Genuine(s, c) && Distinct(s.accepted.Get(c)) && Complete(s)
    ensures var t := EnqueuerStep(s, id, j); Genuine(t, c) && Distinct(t.accepted.Get(c)) && Complete(t)
  {
    var t := EnqueuerStep(s, id, j);
    EnqueuerLogs(s, id, j);
    LoggedStayGenuine(s, t, id, c);
    LoggedStayDistinct(s, t, id, c);
    LoggedStayComplete(s, t, id);
  }

  // Runs

  lemma StepKeepsLedger(s: Peer, step: Step)
    requires Complete(s) && forall c :: Ledger(s, c)
    ensures Complete(Apply(s, step)) && forall c :: Ledger(Apply(s, step), c)
  {
    forall c: Class ensures Ledger(Apply(s, step), c) && Complete(Apply(s, step)) {
      assert Ledger(s, c);
      match step
      case Arrive(id, k, p) =>
      case Enqueue(id, j) =>
        if id in s.enqueuers {
          EnqueuerBalances(s, id, j, c);
          EnqueuerNames(s, id, j, c);
        }
      case Send(i, timedOut) =>
        if i in s.senders {
          SenderBalances(s, i, timedOut, c);
          SenderLeavesCalls(s, i, timedOut);
        }
    }
    assert Ledger(Apply(s, step), Latency);
  }

  lemma {:induction false} RunKeepsLedger(mtu: Mtu, steps: seq<Step>)
    ensures Complete(Run(Init(mtu), steps)) && forall c :: Ledger(Run(Init(mtu), steps), c)
    decreases |steps|
  {
    if steps == [] {
    } else {
      RunKeepsLedger(mtu, steps[..|steps| - 1]);
      StepKeepsLedger(Run(Init(mtu), steps[..|steps| - 1]), steps[|steps| - 1]);
    }
  }

  /**
   Over every run and for every class: the accepted packets are exactly those
   that left (sent or evicted) followed by those still queued, so each class is
   served in acceptance order and nothing is lost or duplicated; each accepted
   enqueue call is in the log once and no refused call is; the queue never
   exceeds its cap.
   */
  lemma PacketsAreConserved(mtu: Mtu, steps: seq<Step>, c: Class)
    ensures var s := Run(Init(mtu), steps);
            && s.accepted.Get(c) == Items(s.removed.Get(c)) + s.queues.Get(c)
            && |s.queues.Get(c)| <= Cap(c)
            && |s.queues.latency| <= 64 && |s.queues.normal| <= 256 && |s.queues.bulk| <= 512
            && Distinct(s.accepted.Get(c))
            && (forall id :: id in s.enqueuers && s.enqueuers[id].target == c ==>
                  (Accepted(s.enqueuers[id]) <==> Item(id, s.enqueuers[id].packet) in s.accepted.Get(c)))
  {
    RunKeepsLedger(mtu, steps);
    var s := Run(Init(mtu), steps);
    assert Ledger(s, c) && Ledger(s, Latency) && Ledger(s, Normal) && Ledger(s, Bulk);
  }
}
