/** Evaluating a bundle: three phases of sorted rules, posture skips, the ICMP gate. */
module AclEvaluator {
  import opened Wrappers
  import opened AclTypes
  import opened AclOrder

  predicate Candidate(r: PolicyRule, scope: RuleScope, action: Action) {
    r.enabled && r.scope == scope && r.action == action
  }

  /** A rule that asks for a posture the source device does not have. */
  predicate PostureBlocks(r: PolicyRule, postureOk: bool) {
    r.srcPosture != [] && !postureOk
  }

  function Effective(scope: RuleScope, action: Action, matcher: Filter, postureOk: bool): Filter {
    r => Candidate(r, scope, action) && matcher(r) && !PostureBlocks(r, postureOk)
  }

  function Blocked(scope: RuleScope, action: Action, matcher: Filter, postureOk: bool): Filter {
    r => Candidate(r, scope, action) && matcher(r) && PostureBlocks(r, postureOk)
  }

  // Verdicts

  function RuleVerdict(action: Action, reason: EvalReason, r: PolicyRule): EvalVerdict {
    EvalVerdict(action, reason, r.slug, Some(r.scope))
  }

  function DefaultVerdict(action: Action): EvalVerdict {
    EvalVerdict(action, if action.Allow? then DefaultAllow else DefaultDeny, None, None)
  }

  function IcmpVerdict(action: Action): EvalVerdict {
    EvalVerdict(action, IcmpGate, None, None)
  }

  function OrElse(a: Option<PolicyRule>, b: Option<PolicyRule>): Option<PolicyRule> {
    if a.Some? then a else b
  }

  /** The least match of each phase, and the least match of each that only posture rules out. */
  datatype Winners = Winners(
    orgDeny: Option<PolicyRule>,
    networkDeny: Option<PolicyRule>,
    networkAllow: Option<PolicyRule>,
    skippedOrgDeny: Option<PolicyRule>,
    skippedNetworkDeny: Option<PolicyRule>,
    skippedNetworkAllow: Option<PolicyRule>)

  function WinnersOf(rules: seq<PolicyRule>, matcher: Filter, postureOk: bool): Winners {
    Winners(
      Winner(rules, Effective(Organization, Deny, matcher, postureOk)),
      Winner(rules, Effective(Network, Deny, matcher, postureOk)),
      Winner(rules, Effective(Network, Allow, matcher, postureOk)),
      Winner(rules, Blocked(Organization, Deny, matcher, postureOk)),
      Winner(rules, Blocked(Network, Deny, matcher, postureOk)),
      Winner(rules, Blocked(Network, Allow, matcher, postureOk)))
  }

  function Settle(w: Winners, default: Action): EvalVerdict {
    var skipped := OrElse(w.skippedOrgDeny, OrElse(w.skippedNetworkDeny, w.skippedNetworkAllow));
    if w.orgDeny.Some? then RuleVerdict(Deny, OrgDeny, w.orgDeny.value)
    else if w.networkDeny.Some? then RuleVerdict(Deny, NetworkDeny, w.networkDeny.value)
    else if w.networkAllow.Some? then RuleVerdict(Allow, NetworkAllow, w.networkAllow.value)
    else if skipped.Some? then RuleVerdict(default, PostureSkip, skipped.value)
    else DefaultVerdict(default)
  }

  /** The verdict in terms of least matches; no sorting. */
  function PhaseVerdict(rules: seq<PolicyRule>, default: Action, matcher: Filter, postureOk: bool): EvalVerdict {
    Settle(WinnersOf(rules, matcher, postureOk), default)
  }

  function FlowMatcher(flow: FlowContext): Filter {
    r => RuleMatchesFlow(r, flow)
  }

  /** ICMP is decided by the bundle's ICMP policy unless that defers to the rules. */
  function FlowVerdict(bundle: PolicyBundle, flow: FlowContext): EvalVerdict {
    if flow.protocol == Icmp && bundle.icmpPolicy.AllowIcmp? then IcmpVerdict(Allow)
    else if flow.protocol == Icmp && bundle.icmpPolicy.DenyIcmp? then IcmpVerdict(Deny)
    else PhaseVerdict(bundle.rules, bundle.defaultAction, FlowMatcher(flow), flow.srcPostureOk)
  }

  function SelfEndpoint(ctx: EvalCtx): FlowEndpoint {
    FlowEndpoint(ctx.selfHex, ctx.selfTags, ctx.selfNetwork, Some(ctx.selfIp))
  }

  function PeerEndpoint(ctx: EvalCtx): FlowEndpoint {
    FlowEndpoint(ctx.peerHex, ctx.peerTags, ctx.peerNetwork, ctx.peerIp)
  }

  /** The flow a directional context talks about. */
  function FlowOf(ctx: EvalCtx, direction: Direction): FlowContext {
    match direction
    case Inbound => FlowContext(PeerEndpoint(ctx), SelfEndpoint(ctx), ctx.protocol, ctx.dstPort, ctx.srcPostureOk)
    case Outbound => FlowContext(SelfEndpoint(ctx), PeerEndpoint(ctx), ctx.protocol, ctx.dstPort, ctx.srcPostureOk)
  }

  // The evaluator itself

  method CollectCandidates(rules: seq<PolicyRule>, scope: RuleScope, action: Action)
    returns (candidates: seq<PolicyRule>)
    ensures candidates == Select(rules, r => Candidate(r, scope, action))
  {
    candidates := [];
    for i := 0 to |rules|
      invariant candidates == Select(rules[..i], r => Candidate(r, scope, action))
    {
      SelectOneMore(rules[..i], rules[i], r => Candidate(r, scope, action));
      assert rules[..i + 1] == rules[..i] + [rules[i]];
      if Candidate(rules[i], scope, action) {
        candidates := candidates + [rules[i]];
      }
    }
    assert rules[..|rules|] == rules;
  }

  /**
   The rule that decides a phase, if any.  The first match whose posture is
   missing is remembered across phases and never overwritten.
   */
  method FirstMatchingInPhase(rules: seq<PolicyRule>, scope: RuleScope, action: Action,
                              matcher: Filter, postureOk: bool, postureSkip: Option<PolicyRule>)
    returns (found: Option<PolicyRule>, skipped: Option<PolicyRule>)
    ensures found == Winner(rules, Effective(scope, action, matcher, postureOk))
    ensures found.None? ==> skipped == OrElse(postureSkip, Winner(rules, Blocked(scope, action, matcher, postureOk)))
    ensures skipped == postureSkip ||
            skipped == OrElse(postureSkip, Winner(rules, Blocked(scope, action, matcher, postureOk)))
  {
    var candidates := CollectCandidates(rules, scope, action);
    var sorted := StableSort(candidates);
    ghost var effective, blocked :=
      Effective(scope, action, matcher, postureOk), Blocked(scope, action, matcher, postureOk);
    PhaseWinner(rules, scope, action, effective);
    PhaseWinner(rules, scope, action, blocked);
    SortedAreCandidates(rules, scope, action);
    found, skipped := TryInOrder(sorted, matcher, postureOk, postureSkip, effective, blocked);
  }

  /** Walk the sorted candidates to the first match that posture does not rule out. */
  method TryInOrder(sorted: seq<PolicyRule>, matcher: Filter, postureOk: bool, postureSkip: Option<PolicyRule>,
                    ghost effective: Filter, ghost blocked: Filter)
    returns (found: Option<PolicyRule>, skipped: Option<PolicyRule>)
    requires forall r :: r in sorted ==> effective(r) == (matcher(r) && !PostureBlocks(r, postureOk))
    requires forall r :: r in sorted ==> blocked(r) == (matcher(r) && PostureBlocks(r, postureOk))
    ensures found == First(sorted, effective)
    ensures found.None? ==> skipped == OrElse(postureSkip, First(sorted, blocked))
    ensures skipped == postureSkip || skipped == OrElse(postureSkip, First(sorted, blocked))
  {
    skipped := postureSkip;
    for i := 0 to |sorted|
      invariant First(sorted[..i], effective).None?
      invariant skipped == OrElse(postureSkip, First(sorted[..i], blocked))
    {
      var rule := sorted[i];
      FirstOneMore(sorted, i, effective);
      FirstOneMore(sorted, i, blocked);
      if !matcher(rule) {
        continue;
      }
      if rule.srcPosture != [] && !postureOk {
        if skipped.None? {
          skipped := Some(rule);
        }
        continue;
      }
      FirstInPrefix(sorted, i + 1, effective);
      FirstInPrefix(sorted, i, blocked);
      return Some(rule), skipped;
    }
    assert sorted[..|sorted|] == sorted;
    found := None;
  }

  lemma FirstOneMore(rules: seq<PolicyRule>, i: nat, p: Filter)
    requires i < |rules|
    ensures rules[i] in rules
    ensures First(rules[..i + 1], p) == OrElse(First(rules[..i], p), if p(rules[i]) then Some(rules[i]) else None)
  {
    assert rules[..i + 1][..i] == rules[..i];
  }

  lemma FirstInPrefix(rules: seq<PolicyRule>, i: nat, p: Filter)
    requires i <= |rules|
    ensures First(rules[..i], p).Some? ==> First(rules, p) == First(rules[..i], p)
  {
    assert rules == rules[..i] + rules[i..];
    if First(rules[..i], p).Some? {
      FirstKeepsPrefix(rules[..i], rules[i..], p);
    }
  }

  lemma PhaseWinner(rules: seq<PolicyRule>, scope: RuleScope, action: Action, p: Filter)
    requires forall r :: p(r) ==> Candidate(r, scope, action)
    ensures First(StableSort(Select(rules, r => Candidate(r, scope, action))), p) == Winner(rules, p)
  {
    var candidate := r => Candidate(r, scope, action);
    FirstOfSortedWins(Select(rules, candidate), p);
    WinnerOfSelected(rules, candidate, p);
  }

  lemma SortedAreCandidates(rules: seq<PolicyRule>, scope: RuleScope, action: Action)
    ensures forall r :: r in StableSort(Select(rules, x => Candidate(x, scope, action))) ==> Candidate(r, scope, action)
  {
    var candidates := Select(rules, x => Candidate(x, scope, action));
    StableSortSorts(candidates);
    forall r | r in StableSort(candidates) ensures Candidate(r, scope, action) {
      assert r in multiset(StableSort(candidates));
      assert r in candidates;
      SelectKeeps(rules, x => Candidate(x, scope, action), r);
    }
  }

  method EvaluatePhases(bundle: PolicyBundle, matcher: Filter, postureOk: bool) returns (v: EvalVerdict)
    ensures v == PhaseVerdict(bundle.rules, bundle.defaultAction, matcher, postureOk)
  {
    var found, skipped := FirstMatchingInPhase(bundle.rules, Organization, Deny, matcher, postureOk, None);
    if found.Some? {
      return RuleVerdict(Deny, OrgDeny, found.value);
    }
    found, skipped := FirstMatchingInPhase(bundle.rules, Network, Deny, matcher, postureOk, skipped);
    if found.Some? {
      return RuleVerdict(Deny, NetworkDeny, found.value);
    }
    found, skipped := FirstMatchingInPhase(bundle.rules, Network, Allow, matcher, postureOk, skipped);
    if found.Some? {
      return RuleVerdict(Allow, NetworkAllow, found.value);
    }
    if skipped.Some? {
      return RuleVerdict(bundle.defaultAction, PostureSkip, skipped.value);
    }
    return DefaultVerdict(bundle.defaultAction);
  }

  /** Evaluation of an explicit flow. */
  method EvaluateFlow(bundle: PolicyBundle, flow: FlowContext) returns (v: EvalVerdict)
    ensures v == FlowVerdict(bundle, flow)
  {
    if flow.protocol == Icmp {
      match bundle.icmpPolicy {
        case AllowIcmp => return IcmpVerdict(Allow);
        case DenyIcmp => return IcmpVerdict(Deny);
        case AclIcmp =>
      }
    }
    v := EvaluatePhases(bundle, r => RuleMatchesFlow(r, flow), flow.srcPostureOk);
    PhaseVerdictCongruent(bundle.rules, bundle.defaultAction, r => RuleMatchesFlow(r, flow), FlowMatcher(flow),
                          flow.srcPostureOk);
  }

  /**
   Evaluation at one end of a connection, for either address family: the verdict
   is that of the flow the context describes.
   */
  method EvaluateDetailed(bundle: PolicyBundle, ctx: EvalCtx, direction: Direction) returns (v: EvalVerdict)
    ensures v == FlowVerdict(bundle, FlowOf(ctx, direction))
    ensures var self := FlowEndpoint(ctx.selfHex, ctx.selfTags, ctx.selfNetwork, Some(ctx.selfIp));
            var peer := FlowEndpoint(ctx.peerHex, ctx.peerTags, ctx.peerNetwork, ctx.peerIp);
            var (src, dst) := if direction == Outbound then (self, peer) else (peer, self);
            v == FlowVerdict(bundle, FlowContext(src, dst, ctx.protocol, ctx.dstPort, ctx.srcPostureOk))
  {
    if ctx.protocol == Icmp {
      match bundle.icmpPolicy {
        case AllowIcmp => return IcmpVerdict(Allow);
        case DenyIcmp => return IcmpVerdict(Deny);
        case AclIcmp =>
      }
    }
    v := EvaluatePhases(bundle, r => RuleMatches(r, ctx, direction), ctx.srcPostureOk);
    PhaseVerdictCongruent(bundle.rules, bundle.defaultAction, r => RuleMatches(r, ctx, direction),
                          FlowMatcher(FlowOf(ctx, direction)), ctx.srcPostureOk);
  }

  /** The verdict depends on the matcher only through the rules it accepts. */
  lemma PhaseVerdictCongruent(rules: seq<PolicyRule>, default: Action, m: Filter, m': Filter, postureOk: bool)
    requires forall r :: r in rules ==> m(r) == m'(r)
    ensures PhaseVerdict(rules, default, m, postureOk) == PhaseVerdict(rules, default, m', postureOk)
  {
    forall scope, action
      ensures Winner(rules, Effective(scope, action, m, postureOk)) ==
              Winner(rules, Effective(scope, action, m', postureOk))
      ensures Winner(rules, Blocked(scope, action, m, postureOk)) ==
              Winner(rules, Blocked(scope, action, m', postureOk))
    {
      WinnerCongruent(rules, Effective(scope, action, m, postureOk), Effective(scope, action, m', postureOk));
      WinnerCongruent(rules, Blocked(scope, action, m, postureOk), Blocked(scope, action, m', postureOk));
    }
  }
}
