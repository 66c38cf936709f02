/** What any step of the system can do to one sender's account of one class. */
module QosAccounts {
  import opened QosTypes
  import opened QosProtocol

  predicate InVisit(s: Peer, i: nat, c: Class)
    requires i in s.senders
  {
    s.senders[i].pc == Drain(c)
  }

  function AccountOf(s: Peer, i: nat, c: Class): Account
    requires i in s.senders
  {
    s.senders[i].accounts.Get(c)
  }

  ghost predicate Unmoved(s: Peer, t: Peer, i: nat, c: Class)
    requires i in s.senders && i in t.senders
  {
    && AccountOf(t, i, c) == AccountOf(s, i, c)
    && InVisit(t, i, c) == InVisit(s, i, c)
    && (|| t.removed.Get(c) == s.removed.Get(c)
        || (s.queues.Get(c) != [] && exists r :: t.removed.Get(c) == s.removed.Get(c) + [r]))
  }

  predicate FoundEmpty(s: Peer, t: Peer, i: nat, c: Class)
    requires i in s.senders && i in t.senders
  {
    var a := AccountOf(s, i, c);
    && s.queues.Get(c) == []
    && !InVisit(s, i, c) && !InVisit(t, i, c)
    && AccountOf(t, i, c) == a.(deficit := 0, visits := a.visits + 1, dry := a.dry + 1)
    && t.removed.Get(c) == s.removed.Get(c)
  }

  predicate Granted(s: Peer, t: Peer, i: nat, c: Class)
    requires i in s.senders && i in t.senders
  {
    var a := AccountOf(s, i, c);
    && !InVisit(s, i, c) && InVisit(t, i, c)
    && AccountOf(t, i, c) == a.(deficit := SaturatingAdd(a.deficit, Quantum(c, s.mtu)), grants := a.grants + 1)
    && t.removed.Get(c) == s.removed.Get(c)
  }

  predicate Popped(s: Peer, t: Peer, i: nat, c: Class)
    requires i in s.senders && i in t.senders
  {
    var a := AccountOf(s, i, c);
    && InVisit(s, i, c) && InVisit(t, i, c)
    && s.queues.Get(c) != []
    && var n := |s.queues.Get(c)[0].packet|;
    && n <= a.deficit
    && AccountOf(t, i, c) == a.(deficit := a.deficit - n, sent := a.sent + n)
    && t.removed.Get(c) == s.removed.Get(c) + [Sent(s.queues.Get(c)[0], i)]
  }

  predicate Ended(s: Peer, t: Peer, i: nat, c: Class)
    requires i in s.senders && i in t.senders
  {
    var a := AccountOf(s, i, c);
    && InVisit(s, i, c) && !InVisit(t, i, c)
    && t.removed.Get(c) == s.removed.Get(c)
    && if s.queues.Get(c) == []
       then AccountOf(t, i, c) == a.(visits := a.visits + 1, dry := a.dry + 1)
       else |s.queues.Get(c)[0].packet| > a.deficit && AccountOf(t, i, c) == a.(visits := a.visits + 1)
  }

  ghost predicate Moved(s: Peer, t: Peer, i: nat, c: Class)
    requires i in s.senders
  {
    && i in t.senders
    && t.mtu == s.mtu
    && s.accepted.Get(c) <= t.accepted.Get(c)
    && (|| Unmoved(s, t, i, c) || FoundEmpty(s, t, i, c) || Granted(s, t, i, c)
        || Popped(s, t, i, c) || Ended(s, t, i, c))
  }

  lemma VisitMoves(s: Peer, j: nat, k: Class, i: nat, c: Class)
    requires i in s.senders && j in s.senders && s.senders[j].pc == Visit(k)
    ensures Moved(s, VisitStep(s, j, k), i, c)
  {
    if j == i && k == c {
      OwnVisitMoves(s, i, c);
    } else {
      OtherVisitMoves(s, j, k, i, c);
    }
  }

  lemma OwnVisitMoves(s: Peer, i: nat, c: Class)
    requires i in s.senders && s.senders[i].pc == Visit(c)
    ensures Moved(s, VisitStep(s, i, c), i, c)
  {
    var t := VisitStep(s, i, c);
    if s.queues.Get(c) == [] {
      assert FoundEmpty(s, t, i, c);
    } else {
      assert Granted(s, t, i, c);
    }
  }

  lemma OtherVisitMoves(s: Peer, j: nat, k: Class, i: nat, c: Class)
    requires i in s.senders && j in s.senders && s.senders[j].pc == Visit(k) && (j != i || k != c)
    ensures Moved(s, VisitStep(s, j, k), i, c)
  {
    var t := VisitStep(s, j, k);
    assert t.removed == s.removed && t.accepted == s.accepted;
    assert AccountOf(t, i, c) == AccountOf(s, i, c);
    assert Unmoved(s, t, i, c);
  }

  lemma PopEffect(s: Peer, k: Class, r: Removal, c: Class)
    requires s.queues.Get(k) != []
    ensures var t := PopFront(s, k, r);
            && t.accepted == s.accepted
            && t.removed.Get(c) == if k == c then s.removed.Get(c) + [r] else s.removed.Get(c)
  {
  }

  /** The sender serves class `c` itself. */
  lemma OwnDrainMoves(s: Peer, i: nat, c: Class)
    requires i in s.senders && InVisit(s, i, c)
    ensures Moved(s, DrainStep(s, i, c), i, c)
  {
    var t := DrainStep(s, i, c);
    if s.queues.Get(c) != [] && |s.queues.Get(c)[0].packet| <= AccountOf(s, i, c).deficit {
      PopEffect(s, c, Sent(s.queues.Get(c)[0], i), c);
      assert Popped(s, t, i, c);
    } else {
      assert Ended(s, t, i, c);
    }
  }

  /** Another sender is at work, or the sender serves another class. */
  lemma OtherDrainMoves(s: Peer, j: nat, k: Class, i: nat, c: Class)
    requires i in s.senders && j in s.senders && s.senders[j].pc == Drain(k) && (j != i || k != c)
    ensures Moved(s, DrainStep(s, j, k), i, c)
  {
    if s.queues.Get(k) != [] {
      PopEffect(s, k, Sent(s.queues.Get(k)[0], j), c);
    }
    var t := DrainStep(s, j, k);
    assert t.accepted == s.accepted;
    assert AccountOf(t, i, c) == AccountOf(s, i, c) && InVisit(t, i, c) == InVisit(s, i, c);
    assert Unmoved(s, t, i, c);
  }

  lemma SenderMoves(s: Peer, j: nat, timedOut: bool, i: nat, c: Class)
    requires i in s.senders && j in s.senders
    ensures Moved(s, SenderStep(s, j, timedOut), i, c)
  {
    match s.senders[j].pc
    case Visit(k) => VisitMoves(s, j, k, i, c);
    case Drain(k) =>
      if j == i && k == c {
        OwnDrainMoves(s, i, c);
      } else {
        OtherDrainMoves(s, j, k, i, c);
      }
    case _ => BetweenVisits(s, j, timedOut, i, c);
  }

  lemma BetweenVisits(s: Peer, j: nat, timedOut: bool, i: nat, c: Class)
    requires i in s.senders && j in s.senders && !s.senders[j].pc.Visit? && !s.senders[j].pc.Drain?
    ensures Moved(s, SenderStep(s, j, timedOut), i, c)
  {
    var t := SenderStep(s, j, timedOut);
    match s.senders[j].pc {
      case Look(stage, k) =>
      case Wait =>
      case Retract =>
      case Reclaim =>
      case Returned =>
    }
    assert t.queues == s.queues && t.removed == s.removed && t.accepted == s.accepted;
    assert Unmoved(s, t, i, c);
  }

  lemma PushTouches(s: Peer, id: nat, full: EnqueuerPc, c: Class)
    requires id in s.enqueuers
    ensures var t := TryPush(s, id, full);
            && t.senders == s.senders && t.removed == s.removed && t.mtu == s.mtu
            && s.accepted.Get(c) <= t.accepted.Get(c)
  {
  }

  lemma TryPushMoves(s: Peer, id: nat, full: EnqueuerPc, i: nat, c: Class)
    requires i in s.senders && id in s.enqueuers
    ensures Moved(s, TryPush(s, id, full), i, c)
  {
    PushTouches(s, id, full, c);
    assert Unmoved(s, TryPush(s, id, full), i, c);
  }

  lemma TryEvictMoves(s: Peer, id: nat, victim: Class, retry: EnqueuerPc, empty: EnqueuerPc, i: nat, c: Class)
    requires i in s.senders && id in s.enqueuers
    ensures Moved(s, TryEvict(s, id, victim, retry, empty), i, c)
  {
    if s.queues.Get(victim) != [] {
      PopEffect(s, victim, Evicted(s.queues.Get(victim)[0], id), c);
    }
    assert Unmoved(s, TryEvict(s, id, victim, retry, empty), i, c);
  }

  lemma EnqueuerMoves(s: Peer, id: nat, j: nat, i: nat, c: Class)
    requires i in s.senders && id in s.enqueuers
    ensures Moved(s, EnqueuerStep(s, id, j), i, c)
  {
    var e := s.enqueuers[id];
    match e.pc
    case Push => TryPushMoves(s, id, if e.target != Bulk then EvictBulk else Dropped, i, c);
    case EvictBulk => TryEvictMoves(s, id, Bulk, RetryAfterBulk, AfterBulk(e.target), i, c);
    case RetryAfterBulk => TryPushMoves(s, id, AfterBulk(e.target), i, c);
    case EvictNormal => TryEvictMoves(s, id, Normal, RetryAfterNormal, Dropped, i, c);
    case RetryAfterNormal => TryPushMoves(s, id, Dropped, i, c);
    case _ => assert Unmoved(s, EnqueuerStep(s, id, j), i, c);
  }

  lemma StepMoves(s: Peer, step: Step, i: nat, c: Class)
    requires i in s.senders
    ensures Moved(s, Apply(s, step), i, c)
  {
    match step
    case Arrive(id, k, p) => assert Unmoved(s, Apply(s, step), i, c);
    case Enqueue(id, j) =>
      if id in s.enqueuers {
        EnqueuerMoves(s, id, j, i, c);
      }
    case Send(j, timedOut) =>
      if j in s.senders {
        SenderMoves(s, j, timedOut, i, c);
      }
  }
}
