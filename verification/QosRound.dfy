/** A sender nobody interferes with serves exactly the deficit round of the queue methods. */
module QosRound {
  import opened QosTypes
  import opened QosProtocol
  import opened QosQueues

  function Packets(q: seq<Item>): seq<Packet> {
    seq(|q|, k requires 0 <= k < |q| => q[k].packet)
  }

  function Solo(i: nat, n: nat): seq<Step> {
    seq(n, _ => Send(i, false))
  }

  function DeficitOf(s: Peer, i: nat, c: Class): nat
    requires i in s.senders
  {
    s.senders[i].accounts.Get(c).deficit
  }

  /** Class c lost its first k packets and its account has the given deficit; nothing else the round looks at moved. */
  predicate Advanced(s: Peer, t: Peer, i: nat, c: Class, k: nat, deficit: nat) {
    && i in s.senders && i in t.senders && t.mtu == s.mtu && k <= |s.queues.Get(c)|
    && t.queues == s.queues.Set(c, s.queues.Get(c)[k..])
    && t.senders[i].accounts.Get(c).deficit == deficit
    && forall b :: b != c ==> t.senders[i].accounts.Get(b) == s.senders[i].accounts.Get(b)
  }

  lemma {:induction false} SoloStep(s: Peer, i: nat, n: nat)
    requires i in s.senders
    ensures Run(s, Solo(i, n + 1)) == Run(SenderStep(s, i, false), Solo(i, n))
  {
    assert Solo(i, n + 1) == [Send(i, false)] + Solo(i, n);
    RunAppend(s, [Send(i, false)], Solo(i, n));
    assert [Send(i, false)][..0] == [];
    assert Run(s, [Send(i, false)]) == Apply(Run(s, []), Send(i, false));
  }

  lemma {:induction false} DrainStops(s: Peer, i: nat, c: Class)
    requires i in s.senders && s.senders[i].pc == Drain(c)
    requires s.queues.Get(c) == [] || |s.queues.Get(c)[0].packet| > DeficitOf(s, i, c)
    ensures var t := SenderStep(s, i, false);
            Advanced(s, t, i, c, 0, DeficitOf(s, i, c)) && t.senders[i].pc == AfterVisit(c)
  {
    var items := s.queues.Get(c);
    assert items[0..] == items;
  }

  lemma {:induction false} DrainPops(s: Peer, i: nat, c: Class)
    requires i in s.senders && s.senders[i].pc == Drain(c)
    requires s.queues.Get(c) != [] && |s.queues.Get(c)[0].packet| <= DeficitOf(s, i, c)
    ensures var t := SenderStep(s, i, false);
            && Advanced(s, t, i, c, 1, DeficitOf(s, i, c) - |s.queues.Get(c)[0].packet|)
            && t.senders[i].pc == Drain(c)
  {
  }

  lemma {:induction false} AdvancedOn(s: Peer, m: Peer, t: Peer, i: nat, c: Class, a: nat, b: nat, d: nat, e: nat)
    requires Advanced(s, m, i, c, a, d) && Advanced(m, t, i, c, b, e)
    ensures Advanced(s, t, i, c, a + b, e)
  {
    assert s.queues.Get(c)[a..][b..] == s.queues.Get(c)[a + b..];
    assert s.queues.Set(c, s.queues.Get(c)[a..]).Set(c, s.queues.Get(c)[a + b..]) ==
        s.queues.Set(c, s.queues.Get(c)[a + b..]);
  }

  lemma {:induction false} AffordNext(q: seq<Packet>, d: nat)
    requires q != [] && |q[0]| <= d
    ensures var k := Affordable(q[1..], d - |q[0]|);
            Affordable(q, d) == k + 1 && Size(q[..k + 1]) == |q[0]| + Size(q[1..][..k])
  {
    var k := Affordable(q[1..], d - |q[0]|);
    assert q[..k + 1][1..] == q[1..][..k];
  }

  /** How many packets a sender about to drain the queue of class c can pay for. */
  function Payable(s: Peer, i: nat, c: Class): nat
    requires i in s.senders
  {
    Affordable(Packets(s.queues.Get(c)), DeficitOf(s, i, c))
  }

  predicate Drained(s: Peer, t: Peer, i: nat, c: Class) {
    && i in s.senders
    && Advanced(s, t, i, c, Payable(s, i, c),
              DeficitOf(s, i, c) - Size(Packets(s.queues.Get(c))[..Payable(s, i, c)]))
    && t.senders[i].pc == AfterVisit(c)
  }

  lemma {:induction false} PopThenDrain(s: Peer, m: Peer, t: Peer, i: nat, c: Class)
    requires i in s.senders && s.queues.Get(c) != [] && |s.queues.Get(c)[0].packet| <= DeficitOf(s, i, c)
    requires Advanced(s, m, i, c, 1, DeficitOf(s, i, c) - |s.queues.Get(c)[0].packet|)
    requires Drained(m, t, i, c)
    ensures Payable(s, i, c) == Payable(m, i, c) + 1
    ensures Drained(s, t, i, c)
  {
    var items, d, k := s.queues.Get(c), DeficitOf(s, i, c), Payable(m, i, c);
    var q := Packets(items);
    AffordNext(q, d);
    assert Packets(items[1..]) == q[1..];
    AdvancedOn(s, m, t, i, c, 1, k, d - |q[0]|, d - Size(q[..k + 1]));
  }

  /** From the start of draining: everything the deficit pays for, and on to the next class. */
  lemma {:induction false} SoloDrain(s: Peer, i: nat, c: Class)
    requires i in s.senders && s.senders[i].pc == Drain(c)
    ensures Drained(s, Run(s, Solo(i, Payable(s, i, c) + 1)), i, c)
    decreases |s.queues.Get(c)|
  {
    var items := s.queues.Get(c);
    var next := SenderStep(s, i, false);
    if items == [] || |items[0].packet| > DeficitOf(s, i, c) {
      DrainStops(s, i, c);
      SoloStep(s, i, 0);
      assert Solo(i, 0) == [] && Packets(items)[..0] == [];
    } else {
      DrainPops(s, i, c);
      SoloDrain(next, i, c);
      PopThenDrain(s, next, Run(next, Solo(i, Payable(next, i, c) + 1)), i, c);
      SoloStep(s, i, Payable(next, i, c) + 1);
    }
  }

  function VisitSteps(s: Peer, i: nat, c: Class): nat
    requires i in s.senders
  {
    var q := Packets(s.queues.Get(c));
    if q == [] then 1 else VisitCount(q, DeficitOf(s, i, c), Quantum(c, s.mtu)) + 2
  }

  predicate Visited(s: Peer, t: Peer, i: nat, c: Class) {
    i in s.senders &&
    var q := Packets(s.queues.Get(c)); var d := DeficitOf(s, i, c); var quantum := Quantum(c, s.mtu);
    Advanced(s, t, i, c, VisitCount(q, d, quantum), VisitDeficit(q, d, quantum))
  }

  lemma {:induction false} VisitStarts(s: Peer, i: nat, c: Class)
    requires i in s.senders && s.senders[i].pc == Visit(c)
    ensures var t := SenderStep(s, i, false);
            if s.queues.Get(c) == [] then Advanced(s, t, i, c, 0, 0) && t.senders[i].pc == AfterVisit(c)
            else && Advanced(s, t, i, c, 0, SaturatingAdd(DeficitOf(s, i, c), Quantum(c, s.mtu)))
                 && t.senders[i].pc == Drain(c)
  {
    var items := s.queues.Get(c);
    assert items[0..] == items;
  }

  lemma {:induction false} GrantThenDrain(s: Peer, m: Peer, t: Peer, i: nat, c: Class)
    requires i in s.senders && s.queues.Get(c) != []
    requires Advanced(s, m, i, c, 0, SaturatingAdd(DeficitOf(s, i, c), Quantum(c, s.mtu))) && Drained(m, t, i, c)
    ensures Payable(m, i, c) == VisitCount(Packets(s.queues.Get(c)), DeficitOf(s, i, c), Quantum(c, s.mtu))
    ensures Visited(s, t, i, c)
  {
    var items, budget := s.queues.Get(c), SaturatingAdd(DeficitOf(s, i, c), Quantum(c, s.mtu));
    assert items[0..] == items && m.queues.Get(c) == items;
    var q, k := Packets(items), Payable(m, i, c);
    AdvancedOn(s, m, t, i, c, 0, k, budget, budget - Size(q[..k]));
  }

  /** One visit leaves queue and deficit as the method that serves one class does. */
  lemma {:induction false} SoloVisit(s: Peer, i: nat, c: Class)
    requires i in s.senders && s.senders[i].pc == Visit(c)
    ensures var t := Run(s, Solo(i, VisitSteps(s, i, c)));
            Visited(s, t, i, c) && t.senders[i].pc == AfterVisit(c)
  {
    var next := SenderStep(s, i, false);
    VisitStarts(s, i, c);
    SoloStep(s, i, VisitSteps(s, i, c) - 1);
    if s.queues.Get(c) == [] {
      assert Solo(i, 0) == [];
    } else {
      SoloDrain(next, i, c);
      GrantThenDrain(s, next, Run(next, Solo(i, Payable(next, i, c) + 1)), i, c);
    }
  }

  /** Class c as the method that serves one class leaves it. */
  predicate ClassServed(s: Peer, t: Peer, i: nat, c: Class) {
    && i in s.senders && i in t.senders && t.mtu == s.mtu
    && Served(Packets(s.queues.Get(c)), DeficitOf(s, i, c), Quantum(c, s.mtu),
              Packets(t.queues.Get(c)), DeficitOf(t, i, c))
  }

  predicate ClassKept(s: Peer, t: Peer, i: nat, c: Class) {
    && i in s.senders && i in t.senders && t.mtu == s.mtu
    && t.queues.Get(c) == s.queues.Get(c) && DeficitOf(t, i, c) == DeficitOf(s, i, c)
  }

  predicate RoundServed(s: Peer, t: Peer, i: nat) {
    ClassServed(s, t, i, Latency) && ClassServed(s, t, i, Normal) && ClassServed(s, t, i, Bulk)
  }

  /**
   A sender left alone at the start of a round serves every class exactly as the
   round method does, then looks whether anything is left.
   */
  lemma {:induction false} SoloRound(s: Peer, i: nat) returns (steps: seq<Step>)
    requires i in s.senders && s.senders[i].pc == Visit(Latency)
    ensures steps == Solo(i, |steps|)
    ensures var t := Run(s, steps);
            RoundServed(s, t, i) && t.senders[i].pc == Look(AfterRound, Latency)
  {
    var n1 := VisitSteps(s, i, Latency);
    var s1 := Run(s, Solo(i, n1));
    SoloVisit(s, i, Latency);
    var n2 := VisitSteps(s1, i, Normal);
    var s2 := Run(s1, Solo(i, n2));
    SoloVisit(s1, i, Normal);
    var n3 := VisitSteps(s2, i, Bulk);
    SoloVisit(s2, i, Bulk);
    var s3 := Run(s2, Solo(i, n3));
    steps := SoloThrice(s, s1, s2, s3, i, n1, n2, n3);
    RoundOfVisits(s, s1, s2, s3, i);
  }

  lemma {:induction false} SoloThrice(s: Peer, s1: Peer, s2: Peer, s3: Peer, i: nat, n1: nat, n2: nat, n3: nat)
    returns (steps: seq<Step>)
    requires s1 == Run(s, Solo(i, n1)) && s2 == Run(s1, Solo(i, n2)) && s3 == Run(s2, Solo(i, n3))
    ensures steps == Solo(i, |steps|) && Run(s, steps) == s3
  {
    SoloOn(s, i, n1, n2);
    SoloOn(s, i, n1 + n2, n3);
    steps := Solo(i, n1 + n2 + n3);
  }

  lemma {:induction false} SoloOn(s: Peer, i: nat, m: nat, n: nat)
    ensures Run(s, Solo(i, m + n)) == Run(Run(s, Solo(i, m)), Solo(i, n))
  {
    assert Solo(i, m + n) == Solo(i, m) + Solo(i, n);
    RunAppend(s, Solo(i, m), Solo(i, n));
  }

  lemma {:induction false} VisitServes(s: Peer, t: Peer, i: nat, c: Class, b: Class)
    requires Visited(s, t, i, c)
    ensures if b == c then ClassServed(s, t, i, c) else ClassKept(s, t, i, b)
  {
    if b == c {
      var k := VisitCount(Packets(s.queues.Get(c)), DeficitOf(s, i, c), Quantum(c, s.mtu));
      assert Packets(s.queues.Get(c)[k..]) == Packets(s.queues.Get(c))[k..];
    }
  }

  lemma {:induction false} RoundOfVisits(s: Peer, s1: Peer, s2: Peer, s3: Peer, i: nat)
    requires Visited(s, s1, i, Latency) && Visited(s1, s2, i, Normal) && Visited(s2, s3, i, Bulk)
    ensures RoundServed(s, s3, i)
  {
    ServedThenKept(s, s1, s2, s3, i);
    KeptThenServed(s, s1, s2, s3, i);
    VisitServes(s, s1, i, Latency, Normal);
    VisitServes(s1, s2, i, Normal, Normal);
    VisitServes(s2, s3, i, Bulk, Normal);
  }

  lemma {:induction false} ServedThenKept(s: Peer, s1: Peer, s2: Peer, s3: Peer, i: nat)
    requires Visited(s, s1, i, Latency) && Visited(s1, s2, i, Normal) && Visited(s2, s3, i, Bulk)
    ensures ClassServed(s, s3, i, Latency)
  {
    VisitServes(s, s1, i, Latency, Latency);
    VisitServes(s1, s2, i, Normal, Latency);
    VisitServes(s2, s3, i, Bulk, Latency);
  }

  lemma {:induction false} KeptThenServed(s: Peer, s1: Peer, s2: Peer, s3: Peer, i: nat)
    requires Visited(s, s1, i, Latency) && Visited(s1, s2, i, Normal) && Visited(s2, s3, i, Bulk)
    ensures ClassServed(s, s3, i, Bulk)
  {
    VisitServes(s, s1, i, Latency, Bulk);
    VisitServes(s1, s2, i, Normal, Bulk);
    VisitServes(s2, s3, i, Bulk, Bulk);
  }
}
