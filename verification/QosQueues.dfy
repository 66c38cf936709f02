/**
 The queues of one peer as the scheduler's methods update them: the drop policy,
 with others at work in between, and one deficit round when nobody interferes.
 */
module QosQueues {
  import opened QosTypes

  function Size(ps: seq<Packet>): nat {
    if ps == [] then 0 else |ps[0]| + Size(ps[1..])
  }

  /** The longest prefix of the queue that `budget` bytes pay for. */
  function Affordable(q: seq<Packet>, budget: nat): (k: nat)
    ensures k <= |q|
    ensures Size(q[..k]) <= budget
    ensures k < |q| ==> budget < Size(q[..k]) + |q[k]|
  {
    if q == [] || |q[0]| > budget then 0
    else
      var rest := Affordable(q[1..], budget - |q[0]|);
      assert q[..rest + 1][1..] == q[1..][..rest];
      1 + rest
  }

  /** No other prefix length is affordable and cannot be extended. */
  lemma {:induction false} AffordableIsUnique(q: seq<Packet>, budget: nat, k: nat)
    requires k <= |q| && Size(q[..k]) <= budget
    requires k < |q| ==> budget < Size(q[..k]) + |q[k]|
    ensures k == Affordable(q, budget)
    decreases |q|
  {
    if k > 0 {
      assert q[..k][1..] == q[1..][..k - 1];
      AffordableIsUnique(q[1..], budget - |q[0]|, k - 1);
    } else {
      assert q[..0] == [];
    }
  }

  lemma {:induction false} SizeSplit(q: seq<Packet>, k: nat)
    requires k < |q|
    ensures Size(q[..k + 1]) == Size(q[..k]) + |q[k]|
    decreases k
  {
    if k > 0 {
      SizeSplit(q[1..], k - 1);
      assert q[..k + 1][1..] == q[1..][..k];
      assert q[..k][1..] == q[1..][..k - 1];
    } else {
      assert q[..1] == [q[0]] && q[..0] == [];
    }
  }

  function ClassAt(idx: nat): Class
    requires idx < 3
  {
    if idx == 0 then Latency else if idx == 1 then Normal else Bulk
  }

  /** Packets a visit sends: none from an empty queue, else all that deficit and quantum pay for. */
  function VisitCount(q: seq<Packet>, deficit: nat, quantum: nat): (k: nat)
    ensures k <= |q|
  {
    Affordable(q, SaturatingAdd(deficit, quantum))
  }

  /** The deficit a visit leaves: zero for an empty queue, else what was not spent. */
  function VisitDeficit(q: seq<Packet>, deficit: nat, quantum: nat): nat {
    if q == [] then 0 else SaturatingAdd(deficit, quantum) - Size(q[..VisitCount(q, deficit, quantum)])
  }

  function Tagged(c: Class, ps: seq<Packet>): seq<(Class, nat)> {
    seq(|ps|, k requires 0 <= k < |ps| => (c, |ps[k]|))
  }

  type Queues = PerClass<seq<Packet>>

  predicate WithinCaps(q: Queues) {
    forall c :: |q.Get(c)| <= Cap(c)
  }

  lemma ShorterKeepsCaps(q: Queues, c: Class, rest: seq<Packet>)
    requires WithinCaps(q) && |rest| <= |q.Get(c)|
    ensures WithinCaps(q.Set(c, rest)) && q.Set(c, rest).Get(c) == rest
  {
  }

  /** What all other calls and senders do to the queues before a call takes its k-th lock. */
  type Others = (nat, Queues) -> Queues

  ghost predicate KeepCaps(others: Others) {
    forall k, q :: WithinCaps(q) ==> WithinCaps(others(k, q))
  }

  ghost predicate StayAway(others: Others) {
    forall k, q :: others(k, q) == q
  }

  /** Nobody else takes packets out of class c, be it by sending or by evicting. */
  ghost predicate LeaveFull(others: Others, c: Class) {
    forall k, q: Queues :: |q.Get(c)| <= |others(k, q).Get(c)|
  }

  function WithoutOldest(q: seq<Packet>): seq<Packet> {
    if q == [] then [] else q[1..]
  }

  /** What a dropped packet costs the lower classes. */
  function AfterDrop(q: Queues, c: Class): Queues {
    match c
    case Latency => PerClass(q.latency, WithoutOldest(q.normal), WithoutOldest(q.bulk))
    case Normal => q.(bulk := WithoutOldest(q.bulk))
    case Bulk => q
  }

  /** A queue and its deficit after their turn in a round. */
  predicate Served(q: seq<Packet>, deficit: nat, quantum: nat, rest: seq<Packet>, left: nat) {
    rest == q[VisitCount(q, deficit, quantum)..] && left == VisitDeficit(q, deficit, quantum)
  }

  lemma NothingServed(c: Class, q: seq<Packet>, deficit: nat, quantum: nat)
    requires q == []
    ensures VisitCount(q, deficit, quantum) == 0 && Served(q, deficit, quantum, q, 0)
    ensures |Tagged(c, q[..VisitCount(q, deficit, quantum)])| == 0
  {
  }

  /** Send from the front of a queue while the deficit pays for the head. */
  method DrainQueue(c: Class, q: seq<Packet>, budget: nat)
    returns (rest: seq<Packet>, deficit: nat, out: seq<(Class, nat)>)
    ensures var sent := Affordable(q, budget);
            rest == q[sent..] && deficit == budget - Size(q[..sent]) && out == Tagged(c, q[..sent])
  {
    rest, deficit, out := q, budget, [];
    ghost var sent := 0;
    while rest != [] && |rest[0]| <= deficit
      invariant sent <= |q| && rest == q[sent..]
      invariant Size(q[..sent]) <= budget && deficit == budget - Size(q[..sent])
      invariant out == Tagged(c, q[..sent])
      decreases |rest|
    {
      SizeSplit(q, sent);
      assert q[..sent + 1] == q[..sent] + [rest[0]];
      out := out + [(c, |rest[0]|)];
      deficit := deficit - |rest[0]|;
      rest := rest[1..];
      sent := sent + 1;
    }
    AffordableIsUnique(q, budget, sent);
  }

  // A round in bytes

  /** Bytes of class c in a list of packets sent. */
  function SentBytes(out: seq<(Class, nat)>, c: Class): nat {
    if out == [] then 0 else (if out[0].0 == c then out[0].1 else 0) + SentBytes(out[1..], c)
  }

  lemma {:induction false} SentBytesConcat(a: seq<(Class, nat)>, b: seq<(Class, nat)>, c: Class)
    ensures SentBytes(a + b, c) == SentBytes(a, c) + SentBytes(b, c)
    decreases |a|
  {
    if a == [] {
      assert a + b == b;
    } else {
      assert (a + b)[1..] == a[1..] + b;
      SentBytesConcat(a[1..], b, c);
    }
  }

  lemma {:induction false} TaggedBytes(c: Class, ps: seq<Packet>, k: Class)
    ensures SentBytes(Tagged(c, ps), k) == if k == c then Size(ps) else 0
    decreases |ps|
  {
    if ps == [] {
    } else {
      assert Tagged(c, ps)[1..] == Tagged(c, ps[1..]);
      TaggedBytes(c, ps[1..], k);
    }
  }

  lemma {:induction false} SizeConcat(a: seq<Packet>, b: seq<Packet>)
    ensures Size(a + b) == Size(a) + Size(b)
    decreases |a|
  {
    if a == [] {
      assert a + b == b;
    } else {
      assert (a + b)[1..] == a[1..] + b;
      SizeConcat(a[1..], b);
    }
  }

  /**
   A class's turn: bytes are sent or stay; the budget, as far as a counter holds it,
   is kept to, used up to the next packet and carried over, unless there was nothing
   to send.
   */
  predicate WithinBudget(sent: nat, budget: nat, q: seq<Packet>, rest: seq<Packet>, left: nat) {
    var held := if budget <= 0xFFFF_FFFF_FFFF_FFFF then budget else 0xFFFF_FFFF_FFFF_FFFF;
    && sent + Size(rest) == Size(q)
    && sent <= held
    && (rest != [] ==> held < sent + |rest[0]|)
    && left == if q == [] then 0 else held - sent
  }

  lemma TurnInBytes(q: seq<Packet>, deficit: nat, quantum: nat, rest: seq<Packet>, left: nat)
    requires Served(q, deficit, quantum, rest, left)
    ensures WithinBudget(Size(q[..VisitCount(q, deficit, quantum)]), deficit + quantum, q, rest, left)
  {
    var k := VisitCount(q, deficit, quantum);
    assert q == q[..k] + q[k..];
    SizeConcat(q[..k], q[k..]);
  }

  /** What a round sends, class after class. */
  predicate InOrder(out: seq<(Class, nat)>) {
    forall a, b :: 0 <= a < b < |out| ==>
      (out[b].0 == Latency ==> out[a].0 == Latency) && (out[a].0 == Bulk ==> out[b].0 == Bulk)
  }

  lemma RoundSends(queues: Queues, deficit: seq<nat>, mtu: Mtu, c: Class)
    requires |deficit| == 3
    ensures var q, d := queues.Get(c), deficit[Rank(c)];
            SentBytes(SentOf(queues, deficit, mtu, 3), c) == Size(q[..VisitCount(q, d, Quantum(c, mtu))])
  {
    var l, n, b := SentOf(queues, deficit, mtu, 1), SentOf(queues, deficit, mtu, 2), SentOf(queues, deficit, mtu, 3);
    var tl := Tagged(Latency, queues.latency[..VisitCount(queues.latency, deficit[0], Quantum(Latency, mtu))]);
    var tn := Tagged(Normal, queues.normal[..VisitCount(queues.normal, deficit[1], Quantum(Normal, mtu))]);
    var tb := Tagged(Bulk, queues.bulk[..VisitCount(queues.bulk, deficit[2], Quantum(Bulk, mtu))]);
    assert SentOf(queues, deficit, mtu, 0) == [] && l == [] + tl == tl;
    assert n == l + tn && b == n + tb;
    SentBytesConcat(l, tn, c);
    SentBytesConcat(n, tb, c);
    TaggedBytes(Latency, queues.latency[..VisitCount(queues.latency, deficit[0], Quantum(Latency, mtu))], c);
    TaggedBytes(Normal, queues.normal[..VisitCount(queues.normal, deficit[1], Quantum(Normal, mtu))], c);
    TaggedBytes(Bulk, queues.bulk[..VisitCount(queues.bulk, deficit[2], Quantum(Bulk, mtu))], c);
  }

  class PeerState {
    var queues: Queues

    predicate Valid()
      reads this
    {
      WithinCaps(queues)
    }

    constructor ()
      ensures Valid() && queues == PerClass([], [], [])
    {
      queues := PerClass([], [], []);
    }

    method Interfere(others: Others, k: nat)
      requires Valid() && KeepCaps(others)
      modifies this
      ensures Valid() && queues == others(k, old(queues))
    {
      queues := others(k, queues);
    }

    method TryPush(c: Class, packet: Packet) returns (ok: bool)
      requires Valid()
      modifies this
      ensures Valid() && (ok <==> |old(queues).Get(c)| < Cap(c))
      ensures queues == if ok then old(queues).Set(c, old(queues).Get(c) + [packet]) else old(queues)
    {
      ok := |queues.Get(c)| < Cap(c);
      if ok {
        queues := queues.Set(c, queues.Get(c) + [packet]);
      }
    }

    /** Drop the oldest packet of a lower class, if there is one by now, and try the full queue again. */
    method EvictAndRetry(victim: Class, c: Class, packet: Packet, others: Others, k: nat) returns (ok: bool)
      requires Valid() && KeepCaps(others) && victim != c
      modifies this
      ensures Valid()
      ensures ok ==> queues.Get(c) != [] && queues.Get(c)[|queues.Get(c)| - 1] == packet
      ensures |old(queues).Get(c)| == Cap(c) && LeaveFull(others, c) ==> !ok && |queues.Get(c)| == Cap(c)
      ensures |old(queues).Get(c)| == Cap(c) && StayAway(others) ==>
                !ok && queues == old(queues).Set(victim, WithoutOldest(old(queues).Get(victim)))
    {
      Interfere(others, k);
      if queues.Get(victim) == [] {
        return false;
      }
      queues := queues.Set(victim, queues.Get(victim)[1..]);
      Interfere(others, k + 1);
      ok := TryPush(c, packet);
    }

    /**
     Enqueue while others may do anything between any two of the call's locks.  A
     call that finds its queue full is accepted only if somebody else takes a packet
     out of that queue: its own victims never make room for it.  Left alone, it
     accepts exactly when its own queue has room, and otherwise loses the packet
     together with the ones it evicted (the oldest bulk one and, for latency, also
     the oldest normal one).
     */
    method TryEnqueue(c: Class, packet: Packet, others: Others) returns (ok: bool)
      requires Valid() && KeepCaps(others)
      modifies this
      ensures Valid()
      ensures |old(queues).Get(c)| < Cap(c) ==> ok && queues == old(queues).Set(c, old(queues).Get(c) + [packet])
      ensures ok ==> queues.Get(c) != [] && queues.Get(c)[|queues.Get(c)| - 1] == packet
      ensures |old(queues).Get(c)| == Cap(c) && (c == Bulk || LeaveFull(others, c)) ==> !ok
      ensures !ok && c == Bulk ==> queues == old(queues)
      ensures StayAway(others) && |old(queues).Get(c)| == Cap(c) ==> queues == AfterDrop(old(queues), c)
      ensures |queues.latency| <= 64 && |queues.normal| <= 256 && |queues.bulk| <= 512
      ensures c == Latency && |old(queues).latency| < 64 ==> ok
      ensures c == Normal && |old(queues).normal| < 256 ==> ok
      ensures c == Bulk ==> (ok <==> |old(queues).bulk| < 512)
      ensures StayAway(others) && c == Latency ==> (ok <==> |old(queues).latency| < 64)
      ensures StayAway(others) && c == Normal ==> (ok <==> |old(queues).normal| < 256)
    {
      assert |queues.Get(Latency)| <= 64 && |queues.Get(Normal)| <= 256 && |queues.Get(Bulk)| <= 512;
      ok := TryPush(c, packet);
      if ok {
        return;
      }
      if c != Bulk {
        ok := EvictAndRetry(Bulk, c, packet, others, 0);
        if ok {
          return;
        }
      }
      if c == Latency {
        ok := EvictAndRetry(Normal, c, packet, others, 2);
      }
    }

    /** Serve one class once; an empty queue forfeits its deficit. */
    method ServeClass(c: Class, deficit: nat, quantum: nat) returns (left: nat, out: seq<(Class, nat)>)
      requires Valid()
      modifies this
      ensures Valid()
      ensures var q := old(queues).Get(c);
              && Served(q, deficit, quantum, queues.Get(c), left)
              && queues == old(queues).Set(c, queues.Get(c))
              && out == Tagged(c, q[..VisitCount(q, deficit, quantum)])
    {
      var q := queues.Get(c);
      left, out := 0, [];
      if q == [] {
        NothingServed(c, q, deficit, quantum);
        return;
      }
      var rest;
      rest, left, out := DrainQueue(c, q, SaturatingAdd(deficit, quantum));
      ShorterKeepsCaps(queues, c, rest);
      queues := queues.Set(c, rest);
    }

    /** The same for the class at an index of the source's loop. */
    method VisitClass(idx: nat, deficit: array<nat>, mtu: Mtu) returns (out: seq<(Class, nat)>)
      requires Valid() && idx < 3 && deficit.Length == 3
      modifies this, deficit
      ensures Valid()
      ensures var c := ClassAt(idx); var q := old(queues).Get(c); var d := old(deficit[idx]);
              && Served(q, d, Quantum(c, mtu), queues.Get(c), deficit[idx])
              && queues == old(queues).Set(c, queues.Get(c))
              && out == Tagged(c, q[..VisitCount(q, d, Quantum(c, mtu))])
      ensures forall k :: 0 <= k < 3 && k != idx ==> deficit[k] == old(deficit[k])
    {
      var c := ClassAt(idx);
      var left;
      left, out := ServeClass(c, deficit[idx], Quantum(c, mtu));
      deficit[idx] := left;
    }

    /**
     One deficit round: each class in turn sends exactly the longest prefix of its
     queue that its deficit and quantum pay for.  In bytes: at most what is left from
     before and 8, 4 or 1 times the MTU, and no less than the next packet short of it.
     */
    method DrrRound(deficit: array<nat>, mtu: Mtu) returns (out: seq<(Class, nat)>)
      requires Valid() && deficit.Length == 3
      modifies this, deficit
      ensures Valid()
      ensures forall k :: 0 <= k < 3 ==>
                var c := ClassAt(k);
                Served(old(queues).Get(c), old(deficit[..])[k], Quantum(c, mtu), queues.Get(c), deficit[k])
      ensures out == SentOf(old(queues), old(deficit[..]), mtu, 3) && InOrder(out)
      ensures WithinBudget(SentBytes(out, Latency), old(deficit[0]) + 8 * mtu, old(queues).latency, queues.latency,
                           deficit[0])
      ensures WithinBudget(SentBytes(out, Normal), old(deficit[1]) + 4 * mtu, old(queues).normal, queues.normal,
                           deficit[1])
      ensures WithinBudget(SentBytes(out, Bulk), old(deficit[2]) + mtu, old(queues).bulk, queues.bulk,
                           deficit[2])
    {
      out := ServeInTurn(deficit, mtu);
      RoundInBytes(old(queues), old(deficit[..]), mtu, queues, deficit[..]);
    }

    /** The round's loop. */
    method ServeInTurn(deficit: array<nat>, mtu: Mtu) returns (out: seq<(Class, nat)>)
      requires Valid() && deficit.Length == 3
      modifies this, deficit
      ensures Valid()
      ensures forall k :: 0 <= k < 3 ==>
                var c := ClassAt(k);
                Served(old(queues).Get(c), old(deficit[..])[k], Quantum(c, mtu), queues.Get(c), deficit[k])
      ensures out == SentOf(old(queues), old(deficit[..]), mtu, 3)
    {
      out := [];
      for idx := 0 to 3
        invariant Valid()
        invariant forall k :: 0 <= k < idx ==>
                    var c := ClassAt(k);
                    Served(old(queues).Get(c), old(deficit[..])[k], Quantum(c, mtu), queues.Get(c), deficit[k])
        invariant forall k :: idx <= k < 3 ==>
                    queues.Get(ClassAt(k)) == old(queues).Get(ClassAt(k)) && deficit[k] == old(deficit[..])[k]
        invariant out == SentOf(old(queues), old(deficit[..]), mtu, idx)
      {
        var more := VisitClass(idx, deficit, mtu);
        out := out + more;
      }
    }
  }

  lemma RoundInBytes(before: Queues, d: seq<nat>, mtu: Mtu, after: Queues, left: seq<nat>)
    requires |d| == |left| == 3
    requires forall k :: 0 <= k < 3 ==>
               Served(before.Get(ClassAt(k)), d[k], Quantum(ClassAt(k), mtu), after.Get(ClassAt(k)), left[k])
    ensures var out := SentOf(before, d, mtu, 3);
            && InOrder(out)
            && WithinBudget(SentBytes(out, Latency), d[0] + 8 * mtu, before.latency, after.latency, left[0])
            && WithinBudget(SentBytes(out, Normal), d[1] + 4 * mtu, before.normal, after.normal, left[1])
            && WithinBudget(SentBytes(out, Bulk), d[2] + mtu, before.bulk, after.bulk, left[2])
  {
    assert ClassAt(0) == Latency && ClassAt(1) == Normal && ClassAt(2) == Bulk;
    ClassInBytes(before, d, mtu, after, left, Latency, 8 * mtu);
    ClassInBytes(before, d, mtu, after, left, Normal, 4 * mtu);
    ClassInBytes(before, d, mtu, after, left, Bulk, mtu);
    RoundIsInOrder(before, d, mtu);
  }

  lemma ClassInBytes(
      before: Queues, d: seq<nat>, mtu: Mtu, after: Queues, left: seq<nat>, c: Class, quantum: nat)
    requires |d| == |left| == 3 && quantum == Quantum(c, mtu)
    requires Served(before.Get(c), d[Rank(c)], quantum, after.Get(c), left[Rank(c)])
    ensures WithinBudget(SentBytes(SentOf(before, d, mtu, 3), c), d[Rank(c)] + quantum, before.Get(c), after.Get(c),
                         left[Rank(c)])
  {
    RoundSends(before, d, mtu, c);
    TurnInBytes(before.Get(c), d[Rank(c)], quantum, after.Get(c), left[Rank(c)]);
  }

  lemma RoundIsInOrder(queues: Queues, deficit: seq<nat>, mtu: Mtu)
    requires |deficit| == 3
    ensures InOrder(SentOf(queues, deficit, mtu, 3))
  {
    var l, n := SentOf(queues, deficit, mtu, 1), SentOf(queues, deficit, mtu, 2);
    assert SentOf(queues, deficit, mtu, 0) == [];
    assert forall a :: 0 <= a < |l| ==> l[a].0 == Latency;
    assert forall a :: |l| <= a < |n| ==> n[a].0 == Normal;
  }

  /** What the first `n` classes send in a round, in order. */
  function SentOf(queues: Queues, deficit: seq<nat>, mtu: Mtu, n: nat): seq<(Class, nat)>
    requires |deficit| == 3 && n <= 3
  {
    if n == 0 then []
    else
      var c := ClassAt(n - 1);
      var q := queues.Get(c);
      SentOf(queues, deficit, mtu, n - 1) + Tagged(c, q[..VisitCount(q, deficit[n - 1], Quantum(c, mtu))])
  }
}
