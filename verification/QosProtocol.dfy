/**
 One peer's scheduler state as a transition system.  Any number of enqueuers
 and sender tasks act on it; every step is one critical section of the source
 (one mutex acquisition or one atomic operation), so a run is an arbitrary
 interleaving.  A step whose agent does not exist or cannot move stutters.

 The source's `is_empty` keeps the latency lock while it looks at the other two
 queues; here the three looks are three steps.  That allows more interleavings
 than the source has, so what is proved of every run holds of the source's.
 */
module QosProtocol {
  import opened QosTypes

  /** A queued datagram, named after the enqueue call that offered it. */
  datatype Item = Item(id: nat, packet: Packet)

  datatype Removal = Sent(item: Item, sender: nat) | Evicted(item: Item, call: nat)

  datatype EnqueuerPc =
    | Push
    | EvictBulk
    | RetryAfterBulk
    | EvictNormal
    | RetryAfterNormal
    | SwapRunning
    | SpawnSender
    | NotifySender
    | Queued
    | Dropped

  datatype Enqueuer = Enqueuer(target: Class, packet: Packet, pc: EnqueuerPc)

  /** The four places where a sender evaluates `is_empty`. */
  datatype Stage = AfterRound | AfterTimeout | AfterRetract | Final

  datatype SenderPc =
    | Visit(c: Class)
    | Drain(c: Class)
    | Look(stage: Stage, c: Class)
    | Wait
    | Retract
    | Reclaim
    | Returned

  /**
   A sender's deficit for one class, with running totals that only observe:
   grants of a quantum, finished visits, visits that found the queue empty at
   their start or end, and bytes sent.
   */
  datatype Account = Account(deficit: nat, grants: nat, visits: nat, dry: nat, sent: nat)

  datatype Sender = Sender(pc: SenderPc, accounts: PerClass<Account>)

  datatype Peer = Peer(
    mtu: Mtu,
    queues: PerClass<seq<Item>>,
    running: bool,
    permit: bool,
    enqueuers: map<nat, Enqueuer>,
    senders: map<nat, Sender>,
    accepted: PerClass<seq<Item>>,
    removed: PerClass<seq<Removal>>)

  datatype Step =
    | Arrive(id: nat, target: Class, packet: Packet)
    | Enqueue(id: nat, freshSender: nat)
    | Send(sender: nat, timedOut: bool)

  const NEW_ACCOUNT := Account(0, 0, 0, 0, 0)

  const NEW_SENDER := Sender(Visit(Latency), PerClass(NEW_ACCOUNT, NEW_ACCOUNT, NEW_ACCOUNT))

  function Init(mtu: Mtu): Peer {
    Peer(mtu, PerClass([], [], []), false, false, map[], map[], PerClass([], [], []), PerClass([], [], []))
  }

  // Queue operations

  function Append(s: Peer, c: Class, x: Item): Peer {
    s.(queues := s.queues.Set(c, s.queues.Get(c) + [x]),
       accepted := s.accepted.Set(c, s.accepted.Get(c) + [x]))
  }

  function PopFront(s: Peer, c: Class, r: Removal): Peer
    requires s.queues.Get(c) != []
  {
    s.(queues := s.queues.Set(c, s.queues.Get(c)[1..]),
       removed := s.removed.Set(c, s.removed.Get(c) + [r]))
  }

  // Enqueuers

  function MoveEnqueuer(s: Peer, id: nat, pc: EnqueuerPc): Peer
    requires id in s.enqueuers
  {
    s.(enqueuers := s.enqueuers[id := s.enqueuers[id].(pc := pc)])
  }

  /** Push under the target queue's lock, or go on to `full` when it is at its cap. */
  function TryPush(s: Peer, id: nat, full: EnqueuerPc): Peer
    requires id in s.enqueuers
  {
    var e := s.enqueuers[id];
    if |s.queues.Get(e.target)| < Cap(e.target)
    then MoveEnqueuer(Append(s, e.target, Item(id, e.packet)), id, SwapRunning)
    else MoveEnqueuer(s, id, full)
  }

  /** Drop the oldest packet of a lower class, or go on to `empty`. */
  function TryEvict(s: Peer, id: nat, victim: Class, retry: EnqueuerPc, empty: EnqueuerPc): Peer
    requires id in s.enqueuers
  {
    var q := s.queues.Get(victim);
    if q != []
    then MoveEnqueuer(PopFront(s, victim, Evicted(q[0], id)), id, retry)
    else MoveEnqueuer(s, id, empty)
  }

  /** Where an enqueuer goes once evicting from bulk has not helped. */
  function AfterBulk(c: Class): EnqueuerPc {
    if c == Latency then EvictNormal else Dropped
  }

  function EnqueuerStep(s: Peer, id: nat, freshSender: nat): Peer
    requires id in s.enqueuers
  {
    var e := s.enqueuers[id];
    match e.pc
    case Push => TryPush(s, id, if e.target != Bulk then EvictBulk else Dropped)
    case EvictBulk => TryEvict(s, id, Bulk, RetryAfterBulk, AfterBulk(e.target))
    case RetryAfterBulk => TryPush(s, id, AfterBulk(e.target))
    case EvictNormal => TryEvict(s, id, Normal, RetryAfterNormal, Dropped)
    case RetryAfterNormal => TryPush(s, id, Dropped)
    case SwapRunning =>
      MoveEnqueuer(s.(running := true), id, if s.running then NotifySender else SpawnSender)
    case SpawnSender =>
      if freshSender in s.senders then s
      else MoveEnqueuer(s.(senders := s.senders[freshSender := NEW_SENDER]), id, Queued)
    case NotifySender => MoveEnqueuer(s.(permit := true), id, Queued)
    case Queued => s
    case Dropped => s
  }

  // Senders

  function AfterVisit(c: Class): SenderPc {
    match c
    case Latency => Visit(Normal)
    case Normal => Visit(Bulk)
    case Bulk => Look(AfterRound, Latency)
  }

  function AfterEmptyLook(stage: Stage, c: Class): SenderPc {
    match c
    case Latency => Look(stage, Normal)
    case Normal => Look(stage, Bulk)
    case Bulk =>
      match stage
      case AfterRound => Wait
      case AfterTimeout => Retract
      case AfterRetract => Look(Final, Latency)
      case Final => Returned
  }

  function AfterFullLook(stage: Stage): SenderPc {
    if stage == AfterRetract then Reclaim else Visit(Latency)
  }

  function MoveSender(s: Peer, i: nat, pc: SenderPc): Peer
    requires i in s.senders
  {
    s.(senders := s.senders[i := s.senders[i].(pc := pc)])
  }

  function SetAccount(s: Peer, i: nat, c: Class, a: Account, pc: SenderPc): Peer
    requires i in s.senders
  {
    s.(senders := s.senders[i := Sender(pc, s.senders[i].accounts.Set(c, a))])
  }

  function VisitStep(s: Peer, i: nat, c: Class): Peer
    requires i in s.senders
  {
    var a := s.senders[i].accounts.Get(c);
    if s.queues.Get(c) == []
    then SetAccount(s, i, c, a.(deficit := 0, visits := a.visits + 1, dry := a.dry + 1), AfterVisit(c))
    else
      SetAccount(s, i, c, a.(deficit := SaturatingAdd(a.deficit, Quantum(c, s.mtu)), grants := a.grants + 1), Drain(c))
  }

  function DrainStep(s: Peer, i: nat, c: Class): Peer
    requires i in s.senders
  {
    var a := s.senders[i].accounts.Get(c);
    var q := s.queues.Get(c);
    if q == [] then
      SetAccount(s, i, c, a.(visits := a.visits + 1, dry := a.dry + 1), AfterVisit(c))
    else if |q[0].packet| > a.deficit then
      SetAccount(s, i, c, a.(visits := a.visits + 1), AfterVisit(c))
    else
      var n := |q[0].packet|;
      SetAccount(PopFront(s, c, Sent(q[0], i)), i, c, a.(deficit := a.deficit - n, sent := a.sent + n), Drain(c))
  }

  function SenderStep(s: Peer, i: nat, timedOut: bool): Peer
    requires i in s.senders
  {
    match s.senders[i].pc
    case Visit(c) => VisitStep(s, i, c)
    case Drain(c) => DrainStep(s, i, c)
    case Look(stage, c) =>
      MoveSender(s, i, if s.queues.Get(c) == [] then AfterEmptyLook(stage, c) else AfterFullLook(stage))
    case Wait =>
      if timedOut then MoveSender(s, i, Look(AfterTimeout, Latency))
      else if s.permit then MoveSender(s.(permit := false), i, Visit(Latency))
      else s
    case Retract => MoveSender(s.(running := false), i, Look(AfterRetract, Latency))
    case Reclaim =>
      if s.running then MoveSender(s, i, Look(Final, Latency))
      else MoveSender(s.(running := true), i, Visit(Latency))
    case Returned => s
  }

  function Apply(s: Peer, step: Step): Peer {
    match step
    case Arrive(id, c, p) =>
      if id in s.enqueuers then s
      else s.(enqueuers := s.enqueuers[id := Enqueuer(c, p, Push)])
    case Enqueue(id, j) => if id in s.enqueuers then EnqueuerStep(s, id, j) else s
    case Send(i, timedOut) => if i in s.senders then SenderStep(s, i, timedOut) else s
  }

  /** The state after a sequence of steps, the earliest first. */
  function Run(s: Peer, steps: seq<Step>): Peer
    decreases |steps|
  {
    if steps == [] then s else Apply(Run(s, steps[..|steps| - 1]), steps[|steps| - 1])
  }

  lemma {:induction false} RunAppend(s: Peer, first: seq<Step>, second: seq<Step>)
    ensures Run(s, first + second) == Run(Run(s, first), second)
    decreases |second|
  {
    if second == [] {
      assert first + second == first;
    } else {
      var n, all := |second| - 1, first + second;
      RunAppend(s, first, second[..n]);
      assert all[..|all| - 1] == first + second[..n] && all[|all| - 1] == second[n];
    }
  }
}
