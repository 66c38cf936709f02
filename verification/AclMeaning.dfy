/**
 What bundles mean for flows, from the fields of rules and flows alone: which
 flows a rule is about, which rules are in effect, and what is decided.
 */
module AclMeaning {
  import opened Wrappers
  import opened AclTypes
  import opened AclOrder
  import opened AclEvaluator
  import opened AclTheorems

  /** The same text but for the case of ASCII letters. */
  predicate SameLetters(a: string, b: string) {
    && |a| == |b|
    && forall i :: 0 <= i < |a| ==>
         || a[i] == b[i]
         || ('A' <= a[i] <= 'Z' && b[i] as int == a[i] as int + 32)
         || ('A' <= b[i] <= 'Z' && a[i] as int == b[i] as int + 32)
  }

  /** The address lies in the block of that size, aligned to it, that holds the network's address. */
  predicate InBlock(addr: nat, ip: nat, size: nat)
    requires size > 0
  {
    addr - addr % size <= ip <= addr - addr % size + (size - 1)
  }

  /** A selector is about this side of a flow. */
  predicate Names(s: Selector, e: FlowEndpoint) {
    match s
    case AnyEndpoint => true
    case Endpoint(id) => SameLetters(id, e.hex)
    case Tag(t) => exists i :: 0 <= i < |e.tags| && e.tags[i] == t
    case NetworkName(n) => e.network == n
    case Cidr(V4Net(addr, prefix)) =>
      e.ip.Some? && e.ip.value.V4? && prefix <= 32 && InBlock(addr, e.ip.value.bits, Pow2(32 - prefix))
    case Cidr(V6Net(addr, prefix)) =>
      e.ip.Some? && e.ip.value.V6? && prefix <= 128 && InBlock(addr, e.ip.value.bits, Pow2(128 - prefix))
    case User(id) => exists i :: 0 <= i < |e.tags| && (e.tags[i] == "user:" + id || SameLetters(e.tags[i], id))
  }

  /**
   A rule's protocol and ports cover a flow.  Ports matter to protocols that have
   them, where a list asks for a port in one of its ranges; ICMP has none and
   ignores the list; any other protocol is covered only without a list.
   */
  predicate Covers(r: PolicyRule, protocol: Protocol, port: Option<nat>) {
    && (r.protocol == None || r.protocol == Some(Any) || r.protocol == Some(protocol))
    && match protocol
       case Icmp => true
       case Icmpv6 => true
       case Other(_) => |r.ports| == 0
       case _ =>
         |r.ports| == 0 ||
         (port.Some? && exists i :: 0 <= i < |r.ports| && r.ports[i].start <= port.value <= r.ports[i].end)
  }

  predicate About(r: PolicyRule, flow: FlowContext) {
    Names(r.src, flow.src) && Names(r.dst, flow.dst) && Covers(r, flow.protocol, flow.dstPort)
  }

  lemma SelectorsMean(s: Selector, e: FlowEndpoint)
    ensures MatchesEndpoint(s, e.hex, e.tags, e.network, e.ip) <==> Names(s, e)
  {
    match s
    case AnyEndpoint =>
    case Endpoint(id) => LettersMean(id, e.hex);
    case Tag(t) =>
    case NetworkName(n) =>
    case Cidr(V4Net(addr, prefix)) =>
      if e.ip.Some? && prefix <= 32 {
        PrefixIsRange(addr, e.ip.value.bits, 32, prefix);
      }
    case Cidr(V6Net(addr, prefix)) =>
      if e.ip.Some? && prefix <= 128 {
        PrefixIsRange(addr, e.ip.value.bits, 128, prefix);
      }
    case User(id) =>
      forall i | 0 <= i < |e.tags| ensures EqIgnoreAsciiCase(e.tags[i], id) <==> SameLetters(e.tags[i], id) {
        LettersMean(e.tags[i], id);
      }
  }

  lemma LettersMean(a: string, b: string)
    ensures EqIgnoreAsciiCase(a, b) <==> SameLetters(a, b)
  {
    if |a| == |b| {
      forall i | 0 <= i < |a|
        ensures Lower(a[i]) == Lower(b[i]) <==>
                || a[i] == b[i]
                || ('A' <= a[i] <= 'Z' && b[i] as int == a[i] as int + 32)
                || ('A' <= b[i] <= 'Z' && a[i] as int == b[i] as int + 32)
      {
        LetterMeans(a[i], b[i]);
      }
    }
  }

  lemma LetterMeans(x: char, y: char)
    ensures Lower(x) == Lower(y) <==>
            x == y || ('A' <= x <= 'Z' && y as int == x as int + 32) || ('A' <= y <= 'Z' && x as int == y as int + 32)
  {
    assert 'A' <= x <= 'Z' ==> Lower(x) as int == x as int + 32;
    assert 'A' <= y <= 'Z' ==> Lower(y) as int == y as int + 32;
  }

  lemma RulesMean(r: PolicyRule, flow: FlowContext)
    ensures RuleMatchesFlow(r, flow) <==> About(r, flow)
  {
    SelectorsMean(r.src, flow.src);
    SelectorsMean(r.dst, flow.dst);
    PortsMean(r, flow.protocol, flow.dstPort);
  }

  lemma PortsMean(r: PolicyRule, protocol: Protocol, port: Option<nat>)
    ensures ProtoPortOk(r, protocol, port) <==> Covers(r, protocol, port)
  {
    if port.Some? {
      if range :| range in r.ports && range.Contains(port.value) {
        var i :| 0 <= i < |r.ports| && r.ports[i] == range;
        assert r.ports[i].start <= port.value <= r.ports[i].end;
      }
      if i :| 0 <= i < |r.ports| && r.ports[i].start <= port.value <= r.ports[i].end {
        assert r.ports[i] in r.ports && r.ports[i].Contains(port.value);
      }
    }
  }

  lemma PhaseRuleMeans(r: PolicyRule, flow: FlowContext, scope: RuleScope, action: Action)
    ensures Effective(scope, action, FlowMatcher(flow), flow.srcPostureOk)(r) <==> InEffect(r, flow, scope, action)
    ensures Blocked(scope, action, FlowMatcher(flow), flow.srcPostureOk)(r) <==> HeldBack(r, flow, scope, action)
  {
    RulesMean(r, flow);
    assert FlowMatcher(flow)(r) == RuleMatchesFlow(r, flow);
  }

  // What is decided

  /** The rule is about the flow and takes part in this phase, its posture satisfied. */
  predicate InEffect(r: PolicyRule, flow: FlowContext, scope: RuleScope, action: Action) {
    r.enabled && r.scope == scope && r.action == action && About(r, flow) && (r.srcPosture == [] || flow.srcPostureOk)
  }

  /** The same, but for a posture the source lacks. */
  predicate HeldBack(r: PolicyRule, flow: FlowContext, scope: RuleScope, action: Action) {
    r.enabled && r.scope == scope && r.action == action && About(r, flow) && r.srcPosture != [] && !flow.srcPostureOk
  }

  ghost predicate AnyInEffect(rules: seq<PolicyRule>, flow: FlowContext, scope: RuleScope, action: Action) {
    exists i :: 0 <= i < |rules| && InEffect(rules[i], flow, scope, action)
  }

  ghost predicate AnyHeldBack(rules: seq<PolicyRule>, flow: FlowContext, scope: RuleScope, action: Action) {
    exists i :: 0 <= i < |rules| && HeldBack(rules[i], flow, scope, action)
  }

  /** The decision on a flow, without any evaluation. */
  ghost function Meaning(bundle: PolicyBundle, flow: FlowContext): (Action, EvalReason) {
    if flow.protocol == Icmp && bundle.icmpPolicy == AllowIcmp then (Allow, IcmpGate)
    else if flow.protocol == Icmp && bundle.icmpPolicy == DenyIcmp then (Deny, IcmpGate)
    else if AnyInEffect(bundle.rules, flow, Organization, Deny) then (Deny, OrgDeny)
    else if AnyInEffect(bundle.rules, flow, Network, Deny) then (Deny, NetworkDeny)
    else if AnyInEffect(bundle.rules, flow, Network, Allow) then (Allow, NetworkAllow)
    else if AnyHeldBack(bundle.rules, flow, Organization, Deny) || AnyHeldBack(bundle.rules, flow, Network, Deny) ||
            AnyHeldBack(bundle.rules, flow, Network, Allow)
    then (bundle.defaultAction, PostureSkip)
    else (bundle.defaultAction, if bundle.defaultAction == Allow then DefaultAllow else DefaultDeny)
  }

  lemma PhaseMeans(rules: seq<PolicyRule>, flow: FlowContext, scope: RuleScope, action: Action)
    ensures InForce(rules, scope, action, FlowMatcher(flow), flow.srcPostureOk) <==>
            AnyInEffect(rules, flow, scope, action)
    ensures Skipping(rules, scope, action, FlowMatcher(flow), flow.srcPostureOk) <==>
            AnyHeldBack(rules, flow, scope, action)
  {
    InForceMeans(rules, flow, scope, action);
    SkippingMeans(rules, flow, scope, action);
  }

  lemma InForceMeans(rules: seq<PolicyRule>, flow: FlowContext, scope: RuleScope, action: Action)
    ensures InForce(rules, scope, action, FlowMatcher(flow), flow.srcPostureOk) <==>
            AnyInEffect(rules, flow, scope, action)
  {
    var m, ok := FlowMatcher(flow), flow.srcPostureOk;
    if r :| r in rules && Candidate(r, scope, action) && m(r) && !PostureBlocks(r, ok) {
      var i :| 0 <= i < |rules| && rules[i] == r;
      PhaseRuleMeans(rules[i], flow, scope, action);
    }
    if i :| 0 <= i < |rules| && InEffect(rules[i], flow, scope, action) {
      PhaseRuleMeans(rules[i], flow, scope, action);
      assert rules[i] in rules && Candidate(rules[i], scope, action) && m(rules[i]) && !PostureBlocks(rules[i], ok);
    }
  }

  lemma SkippingMeans(rules: seq<PolicyRule>, flow: FlowContext, scope: RuleScope, action: Action)
    ensures Skipping(rules, scope, action, FlowMatcher(flow), flow.srcPostureOk) <==>
            AnyHeldBack(rules, flow, scope, action)
  {
    var m, ok := FlowMatcher(flow), flow.srcPostureOk;
    if r :| r in rules && Candidate(r, scope, action) && m(r) && PostureBlocks(r, ok) {
      var i :| 0 <= i < |rules| && rules[i] == r;
      PhaseRuleMeans(rules[i], flow, scope, action);
    }
    if i :| 0 <= i < |rules| && HeldBack(rules[i], flow, scope, action) {
      PhaseRuleMeans(rules[i], flow, scope, action);
      assert rules[i] in rules && Candidate(rules[i], scope, action) && m(rules[i]) && PostureBlocks(rules[i], ok);
    }
  }

  /** Every evaluation decides what the bundle means. */
  lemma VerdictIsMeaning(bundle: PolicyBundle, flow: FlowContext)
    ensures var v := FlowVerdict(bundle, flow); (v.action, v.reason) == Meaning(bundle, flow)
  {
    VerdictIsDecision(bundle.rules, bundle.defaultAction, FlowMatcher(flow), flow.srcPostureOk);
    PhaseMeans(bundle.rules, flow, Organization, Deny);
    PhaseMeans(bundle.rules, flow, Network, Deny);
    PhaseMeans(bundle.rules, flow, Network, Allow);
  }

  /** Rule q comes before rule j: by order index, then priority, then place. */
  predicate Precedes(rules: seq<PolicyRule>, q: nat, j: nat)
    requires q < |rules| && j < |rules|
  {
    || rules[q].orderIndex < rules[j].orderIndex
    || (&& rules[q].orderIndex == rules[j].orderIndex
        && (rules[q].priority < rules[j].priority || (rules[q].priority == rules[j].priority && q <= j)))
  }

  /** Rule q is the first in effect. */
  predicate FirstInEffect(rules: seq<PolicyRule>, flow: FlowContext, scope: RuleScope, action: Action, q: nat) {
    && q < |rules| && InEffect(rules[q], flow, scope, action)
    && forall j :: 0 <= j < |rules| && InEffect(rules[j], flow, scope, action) ==> Precedes(rules, q, j)
  }

  /** A verdict reports the first rule in effect of the phase that decided; the gate and the default report none. */
  lemma VerdictReportsFirst(bundle: PolicyBundle, flow: FlowContext)
    ensures var v := FlowVerdict(bundle, flow);
            match v.reason
            case OrgDeny => exists q :: ReportedFrom(v, bundle.rules, flow, Organization, Deny, q)
            case NetworkDeny => exists q :: ReportedFrom(v, bundle.rules, flow, Network, Deny, q)
            case NetworkAllow => exists q :: ReportedFrom(v, bundle.rules, flow, Network, Allow, q)
            case PostureSkip =>
              if AnyHeldBack(bundle.rules, flow, Organization, Deny)
              then exists q :: SkippedFrom(v, bundle.rules, flow, Organization, Deny, q)
              else if AnyHeldBack(bundle.rules, flow, Network, Deny)
              then exists q :: SkippedFrom(v, bundle.rules, flow, Network, Deny, q)
              else exists q :: SkippedFrom(v, bundle.rules, flow, Network, Allow, q)
            case _ => v.ruleSlug == None && v.scope == None
  {
    var v := FlowVerdict(bundle, flow);
    VerdictIsMeaning(bundle, flow);
    if v.reason == OrgDeny {
      LeastIsFirst(bundle, flow, Organization, Deny);
    } else if v.reason == NetworkDeny {
      LeastIsFirst(bundle, flow, Network, Deny);
    } else if v.reason == NetworkAllow {
      LeastIsFirst(bundle, flow, Network, Allow);
    } else if v.reason == PostureSkip {
      LeastIsFirstHeldBack(bundle, flow);
    }
  }

  /** Rule q is the first held back. */
  predicate SkippedFrom(
      v: EvalVerdict, rules: seq<PolicyRule>, flow: FlowContext, scope: RuleScope, action: Action, q: nat)
  {
    && q < |rules| && HeldBack(rules[q], flow, scope, action)
    && (forall j :: 0 <= j < |rules| && HeldBack(rules[j], flow, scope, action) ==> Precedes(rules, q, j))
    && v.ruleSlug == rules[q].slug && v.scope == Some(scope)
  }

  lemma LeastIsFirstHeldBack(bundle: PolicyBundle, flow: FlowContext)
    requires FlowVerdict(bundle, flow).reason == PostureSkip
    ensures var v := FlowVerdict(bundle, flow);
            if AnyHeldBack(bundle.rules, flow, Organization, Deny)
            then exists q :: SkippedFrom(v, bundle.rules, flow, Organization, Deny, q)
            else if AnyHeldBack(bundle.rules, flow, Network, Deny)
            then exists q :: SkippedFrom(v, bundle.rules, flow, Network, Deny, q)
            else exists q :: SkippedFrom(v, bundle.rules, flow, Network, Allow, q)
  {
    var v, m := FlowVerdict(bundle, flow), FlowMatcher(flow);
    assert v == PhaseVerdict(bundle.rules, bundle.defaultAction, m, flow.srcPostureOk);
    SkipNamesLeast(bundle.rules, bundle.defaultAction, m, flow.srcPostureOk);
    SkippingMeans(bundle.rules, flow, Organization, Deny);
    SkippingMeans(bundle.rules, flow, Network, Deny);
    var (scope, action) := SkippingPhase(bundle.rules, m, flow.srcPostureOk);
    var q: nat :| LeastAt(bundle.rules, Blocked(scope, action, m, flow.srcPostureOk), q)
               && v.ruleSlug == bundle.rules[q].slug && v.scope == Some(scope);
    SkippedIs(v, bundle.rules, flow, scope, action, q);
  }

  lemma SkippedIs(
      v: EvalVerdict, rules: seq<PolicyRule>, flow: FlowContext, scope: RuleScope, action: Action, q: nat)
    requires LeastAt(rules, Blocked(scope, action, FlowMatcher(flow), flow.srcPostureOk), q)
    requires v.ruleSlug == rules[q].slug && v.scope == Some(scope)
    ensures SkippedFrom(v, rules, flow, scope, action, q)
  {
    var p := Blocked(scope, action, FlowMatcher(flow), flow.srcPostureOk);
    forall r ensures p(r) <==> HeldBack(r, flow, scope, action) {
      PhaseRuleMeans(r, flow, scope, action);
    }
    forall j | 0 <= j < |rules| && HeldBack(rules[j], flow, scope, action) ensures Precedes(rules, q, j) {
      assert p(rules[j]);
    }
  }

  predicate ReportedFrom(
      v: EvalVerdict, rules: seq<PolicyRule>, flow: FlowContext, scope: RuleScope, action: Action, q: nat)
  {
    FirstInEffect(rules, flow, scope, action, q) && v.ruleSlug == rules[q].slug && v.scope == Some(scope)
  }

  lemma LeastIsFirst(bundle: PolicyBundle, flow: FlowContext, scope: RuleScope, action: Action)
    requires Phase(FlowVerdict(bundle, flow).reason) == Some((scope, action))
    ensures exists q :: ReportedFrom(FlowVerdict(bundle, flow), bundle.rules, flow, scope, action, q)
  {
    var v, m := FlowVerdict(bundle, flow), FlowMatcher(flow);
    assert v == PhaseVerdict(bundle.rules, bundle.defaultAction, m, flow.srcPostureOk);
    VerdictNamesLeast(bundle.rules, bundle.defaultAction, m, flow.srcPostureOk);
    var p := Effective(scope, action, m, flow.srcPostureOk);
    forall r ensures p(r) <==> InEffect(r, flow, scope, action) {
      PhaseRuleMeans(r, flow, scope, action);
    }
    var q: nat :| LeastAt(bundle.rules, p, q) && v.ruleSlug == bundle.rules[q].slug && v.scope == Some(scope);
    forall j | 0 <= j < |bundle.rules| && InEffect(bundle.rules[j], flow, scope, action)
      ensures Precedes(bundle.rules, q, j)
    {
      assert p(bundle.rules[j]);
    }
    assert ReportedFrom(v, bundle.rules, flow, scope, action, q);
  }

  // A bundle of one rule

  /** A single network rule against the opposite default decides exactly the flows it is about. */
  lemma LoneRuleDecides(r: PolicyRule, bundle: PolicyBundle, flow: FlowContext)
    requires bundle.rules == [r] && r.enabled && r.scope == Network && r.srcPosture == []
    requires bundle.defaultAction != r.action && !(flow.protocol == Icmp && bundle.icmpPolicy != AclIcmp)
    ensures FlowVerdict(bundle, flow).action == r.action <==>
            Names(r.src, flow.src) && Names(r.dst, flow.dst) && Covers(r, flow.protocol, flow.dstPort)
  {
    VerdictIsMeaning(bundle, flow);
    assert bundle.rules[0] == r;
    forall scope, action
      ensures AnyInEffect(bundle.rules, flow, scope, action) <==> InEffect(r, flow, scope, action)
      ensures !AnyHeldBack(bundle.rules, flow, scope, action)
    {
      if InEffect(r, flow, scope, action) {
        assert InEffect(bundle.rules[0], flow, scope, action);
      }
    }
  }

  /** Ports 22 to 22 for TCP, denying by default: TCP to port 22 passes, and nothing else. */
  lemma PortRuleInstance(flow: FlowContext)
    ensures var r := PolicyRule(AnyEndpoint, AnyEndpoint, Allow, [PortRange(22, 22)], Some(Tcp), 0, 0, Network, true,
                                None, []);
            FlowVerdict(PolicyBundle([r], 1, "", Deny, AclIcmp), flow).action == Allow <==>
            flow.protocol == Tcp && flow.dstPort == Some(22)
  {
    var r := PolicyRule(AnyEndpoint, AnyEndpoint, Allow, [PortRange(22, 22)], Some(Tcp), 0, 0, Network, true, None, []);
    LoneRuleDecides(r, PolicyBundle([r], 1, "", Deny, AclIcmp), flow);
    assert r.ports[0] == PortRange(22, 22);
  }

  /** 10.0.0.0/8 names the addresses from 10.0.0.0 to 10.255.255.255. */
  lemma PrefixInstance(e: FlowEndpoint)
    ensures Names(Cidr(V4Net(0x0A_00_00_00, 8)), e) <==>
            e.ip.Some? && e.ip.value.V4? && 0x0A_00_00_00 <= e.ip.value.bits <= 0x0A_FF_FF_FF
  {
    Pow2Is(24);
  }

  lemma {:induction false} Pow2Is(n: nat)
    requires n == 24
    ensures Pow2(n) == 0x100_0000
  {
    assert Pow2(4) == 16 && Pow2(8) == 16 * Pow2(4) && Pow2(12) == 16 * Pow2(8);
    assert Pow2(16) == 16 * Pow2(12) && Pow2(20) == 16 * Pow2(16) && Pow2(24) == 16 * Pow2(20);
  }
}
