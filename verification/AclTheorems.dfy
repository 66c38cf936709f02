/** What every evaluation promises: precedence, independence of rule order, agreement of both ends. */
module AclTheorems {
  import opened Wrappers
  import opened AclTypes
  import opened AclOrder
  import opened AclEvaluator

  // Precedence

  /** Whether a phase has a rule in force. */
  ghost predicate InForce(rules: seq<PolicyRule>, scope: RuleScope, action: Action, matcher: Filter, postureOk: bool) {
    exists r :: r in rules && Candidate(r, scope, action) && matcher(r) && !PostureBlocks(r, postureOk)
  }

  /** Whether a phase has a match that only posture rules out. */
  ghost predicate Skipping(rules: seq<PolicyRule>, scope: RuleScope, action: Action, matcher: Filter, postureOk: bool) {
    exists r :: r in rules && Candidate(r, scope, action) && matcher(r) && PostureBlocks(r, postureOk)
  }

  ghost predicate SomeSkip(rules: seq<PolicyRule>, matcher: Filter, postureOk: bool) {
    || Skipping(rules, Organization, Deny, matcher, postureOk)
    || Skipping(rules, Network, Deny, matcher, postureOk)
    || Skipping(rules, Network, Allow, matcher, postureOk)
  }

  /** The decision without any order among the rules. */
  ghost function Decision(rules: seq<PolicyRule>, default: Action, matcher: Filter, postureOk: bool)
    : (Action, EvalReason)
  {
    if InForce(rules, Organization, Deny, matcher, postureOk) then (Deny, OrgDeny)
    else if InForce(rules, Network, Deny, matcher, postureOk) then (Deny, NetworkDeny)
    else if InForce(rules, Network, Allow, matcher, postureOk) then (Allow, NetworkAllow)
    else if SomeSkip(rules, matcher, postureOk) then (default, PostureSkip)
    else (default, if default.Allow? then DefaultAllow else DefaultDeny)
  }

  lemma PhaseOutcome(rules: seq<PolicyRule>, scope: RuleScope, action: Action, matcher: Filter, postureOk: bool)
    ensures Winner(rules, Effective(scope, action, matcher, postureOk)).Some? <==>
            InForce(rules, scope, action, matcher, postureOk)
    ensures Winner(rules, Blocked(scope, action, matcher, postureOk)).Some? <==>
            Skipping(rules, scope, action, matcher, postureOk)
  {
    WinnerIsLeast(rules, Effective(scope, action, matcher, postureOk));
    WinnerIsLeast(rules, Blocked(scope, action, matcher, postureOk));
  }

  lemma PhaseOutcomes(rules: seq<PolicyRule>, matcher: Filter, postureOk: bool)
    ensures forall scope, action ::
              Winner(rules, Effective(scope, action, matcher, postureOk)).Some? <==>
              InForce(rules, scope, action, matcher, postureOk)
    ensures forall scope, action ::
              Winner(rules, Blocked(scope, action, matcher, postureOk)).Some? <==>
              Skipping(rules, scope, action, matcher, postureOk)
  {
    forall scope, action
      ensures Winner(rules, Effective(scope, action, matcher, postureOk)).Some? <==>
              InForce(rules, scope, action, matcher, postureOk)
      ensures Winner(rules, Blocked(scope, action, matcher, postureOk)).Some? <==>
              Skipping(rules, scope, action, matcher, postureOk)
    {
      PhaseOutcome(rules, scope, action, matcher, postureOk);
    }
  }

  /**
   Action and reason follow from which rules exist: an organisation deny in force
   beats a network deny, which beats a network allow, which beats the default.
   */
  lemma VerdictIsDecision(rules: seq<PolicyRule>, default: Action, matcher: Filter, postureOk: bool)
    ensures var v := PhaseVerdict(rules, default, matcher, postureOk);
            (v.action, v.reason) == Decision(rules, default, matcher, postureOk)
  {
    PhaseOutcomes(rules, matcher, postureOk);
  }

  /** The phase a verdict's reason belongs to. */
  function Phase(reason: EvalReason): Option<(RuleScope, Action)> {
    match reason
    case OrgDeny => Some((Organization, Deny))
    case NetworkDeny => Some((Network, Deny))
    case NetworkAllow => Some((Network, Allow))
    case _ => None
  }

  /** A verdict from a phase reports the rule in force there that is least by order index, priority and position. */
  lemma VerdictNamesLeast(rules: seq<PolicyRule>, default: Action, matcher: Filter, postureOk: bool)
    ensures var v := PhaseVerdict(rules, default, matcher, postureOk);
            Phase(v.reason).Some? ==>
              var (scope, action) := Phase(v.reason).value;
              exists q: nat :: LeastAt(rules, Effective(scope, action, matcher, postureOk), q)
                          && v.ruleSlug == rules[q].slug && v.scope == Some(scope)
  {
    var v := PhaseVerdict(rules, default, matcher, postureOk);
    if Phase(v.reason).Some? {
      var (scope, action) := Phase(v.reason).value;
      var p := Effective(scope, action, matcher, postureOk);
      WinnerIsLeast(rules, p);
      var q: nat :| LeastAt(rules, p, q) && Winner(rules, p) == Some(rules[q]);
      assert v.ruleSlug == rules[q].slug;
    }
  }

  /** The first phase with a match that only posture rules out. */
  ghost function SkippingPhase(rules: seq<PolicyRule>, matcher: Filter, postureOk: bool): (RuleScope, Action) {
    if Skipping(rules, Organization, Deny, matcher, postureOk) then (Organization, Deny)
    else if Skipping(rules, Network, Deny, matcher, postureOk) then (Network, Deny)
    else (Network, Allow)
  }

  /** A verdict that owns to a posture skip reports the least rule skipped in the first phase that skipped one. */
  lemma SkipNamesLeast(rules: seq<PolicyRule>, default: Action, matcher: Filter, postureOk: bool)
    requires PhaseVerdict(rules, default, matcher, postureOk).reason == PostureSkip
    ensures var v := PhaseVerdict(rules, default, matcher, postureOk);
            var (scope, action) := SkippingPhase(rules, matcher, postureOk);
            exists q: nat :: LeastAt(rules, Blocked(scope, action, matcher, postureOk), q)
                        && v.ruleSlug == rules[q].slug && v.scope == Some(scope)
  {
    var v := PhaseVerdict(rules, default, matcher, postureOk);
    var (scope, action) := SkippingPhase(rules, matcher, postureOk);
    var p := Blocked(scope, action, matcher, postureOk);
    PhaseOutcomes(rules, matcher, postureOk);
    WinnerIsLeast(rules, p);
    var q: nat :| LeastAt(rules, p, q) && Winner(rules, p) == Some(rules[q]);
    assert v.ruleSlug == rules[q].slug;
  }

  // Losing posture

  /** A match in force on any device. */
  ghost predicate Unconditional(rules: seq<PolicyRule>, scope: RuleScope, action: Action, matcher: Filter) {
    exists r :: r in rules && Candidate(r, scope, action) && matcher(r) && r.srcPosture == []
  }

  /** A match in force only on a device with the posture it asks for. */
  ghost predicate Conditional(rules: seq<PolicyRule>, scope: RuleScope, action: Action, matcher: Filter) {
    exists r :: r in rules && Candidate(r, scope, action) && matcher(r) && r.srcPosture != []
  }

  lemma PostureSplits(rules: seq<PolicyRule>, scope: RuleScope, action: Action, matcher: Filter)
    ensures InForce(rules, scope, action, matcher, true) <==>
            Unconditional(rules, scope, action, matcher) || Conditional(rules, scope, action, matcher)
    ensures InForce(rules, scope, action, matcher, false) <==> Unconditional(rules, scope, action, matcher)
  {
  }

  /**
   What a device's posture decides, exactly.  Losing it turns a deny into an allow
   when every deny in force asked for posture and, without them, an allow that asks
   for none or the default lets the flow through; and an allow into a deny when no
   deny matches, the default denies and every allow in force asked for posture.
   */
  lemma LosingPosture(rules: seq<PolicyRule>, default: Action, matcher: Filter)
    ensures var had := PhaseVerdict(rules, default, matcher, true).action;
            var lost := PhaseVerdict(rules, default, matcher, false).action;
            && (had == Deny && lost == Allow <==>
                  && !Unconditional(rules, Organization, Deny, matcher) && !Unconditional(rules, Network, Deny, matcher)
                  && (Conditional(rules, Organization, Deny, matcher) || Conditional(rules, Network, Deny, matcher))
                  && (Unconditional(rules, Network, Allow, matcher) || default == Allow))
            && (had == Allow && lost == Deny <==>
                  && !Unconditional(rules, Organization, Deny, matcher)
                  && !Conditional(rules, Organization, Deny, matcher)
                  && !Unconditional(rules, Network, Deny, matcher) && !Conditional(rules, Network, Deny, matcher)
                  && !Unconditional(rules, Network, Allow, matcher) && Conditional(rules, Network, Allow, matcher)
                  && default == Deny)
  {
    VerdictIsDecision(rules, default, matcher, true);
    VerdictIsDecision(rules, default, matcher, false);
    PostureSplits(rules, Organization, Deny, matcher);
    PostureSplits(rules, Network, Deny, matcher);
    PostureSplits(rules, Network, Allow, matcher);
  }

  // Order of rules

  ghost predicate SameRules(a: seq<PolicyRule>, b: seq<PolicyRule>) {
    forall r :: r in a <==> r in b
  }

  lemma PermutedRulesAreSame(a: seq<PolicyRule>, b: seq<PolicyRule>)
    requires multiset(a) == multiset(b)
    ensures SameRules(a, b)
  {
    forall r ensures r in a <==> r in b {
      assert r in a <==> r in multiset(a);
      assert r in b <==> r in multiset(b);
    }
  }

  /** Action and reason do not depend on how the rules are listed. */
  lemma ListingDoesNotMatter(a: seq<PolicyRule>, b: seq<PolicyRule>, default: Action, matcher: Filter, postureOk: bool)
    requires multiset(a) == multiset(b)
    ensures PhaseVerdict(a, default, matcher, postureOk).action == PhaseVerdict(b, default, matcher, postureOk).action
    ensures PhaseVerdict(a, default, matcher, postureOk).reason == PhaseVerdict(b, default, matcher, postureOk).reason
  {
    PermutedRulesAreSame(a, b);
    VerdictIsDecision(a, default, matcher, postureOk);
    VerdictIsDecision(b, default, matcher, postureOk);
  }

  /** Order index and priority tell any two different rules apart. */
  ghost predicate DistinctKeys(rules: seq<PolicyRule>) {
    forall r, x :: r in rules && x in rules && SameKey(r, x) ==> r == x
  }

  lemma {:induction false} WinnerByKey(a: seq<PolicyRule>, b: seq<PolicyRule>, p: Filter)
    requires SameRules(a, b) && DistinctKeys(a)
    ensures Winner(a, p) == Winner(b, p)
  {
    WinnerIsLeast(a, p);
    WinnerIsLeast(b, p);
    if Winner(a, p).Some? {
      var i: nat :| LeastAt(a, p, i) && Winner(a, p) == Some(a[i]);
      assert a[i] in b;
      var j: nat :| LeastAt(b, p, j) && Winner(b, p) == Some(b[j]);
      assert b[j] in a;
      assert SameKey(a[i], b[j]);
    }
  }

  /** With distinct keys the whole verdict, reported rule included, is independent of the listing. */
  lemma ListingDoesNotMatterAtAll(
      a: seq<PolicyRule>, b: seq<PolicyRule>, default: Action, matcher: Filter, postureOk: bool)
    requires multiset(a) == multiset(b) && DistinctKeys(a)
    ensures PhaseVerdict(a, default, matcher, postureOk) == PhaseVerdict(b, default, matcher, postureOk)
  {
    PermutedRulesAreSame(a, b);
    forall scope, action
      ensures Winner(a, Effective(scope, action, matcher, postureOk)) ==
              Winner(b, Effective(scope, action, matcher, postureOk))
      ensures Winner(a, Blocked(scope, action, matcher, postureOk)) ==
              Winner(b, Blocked(scope, action, matcher, postureOk))
    {
      WinnerByKey(a, b, Effective(scope, action, matcher, postureOk));
      WinnerByKey(a, b, Blocked(scope, action, matcher, postureOk));
    }
  }

  // Both ends

  /** Two nodes' contexts for the same packet. */
  predicate Mirrored(sender: EvalCtx, receiver: EvalCtx) {
    && SelfEndpoint(sender) == PeerEndpoint(receiver)
    && PeerEndpoint(sender) == SelfEndpoint(receiver)
    && sender.protocol == receiver.protocol
    && sender.dstPort == receiver.dstPort
    && sender.srcPostureOk == receiver.srcPostureOk
  }

  /** The sender going out and the receiver coming in reach the same verdict, which is that of the flow. */
  method BothEndsAgree(bundle: PolicyBundle, sender: EvalCtx, receiver: EvalCtx)
    returns (outbound: EvalVerdict, inbound: EvalVerdict, flow: EvalVerdict)
    requires Mirrored(sender, receiver)
    ensures outbound == inbound == flow == FlowVerdict(bundle, FlowOf(sender, Outbound))
  {
    outbound := EvaluateDetailed(bundle, sender, Outbound);
    inbound := EvaluateDetailed(bundle, receiver, Inbound);
    flow := EvaluateFlow(bundle, FlowOf(sender, Outbound));
  }

  // The ICMP gate

  /**
   The ICMP policy decides ICMP alone unless it defers to the rules, and nothing
   else: ICMPv6 is left to the rules.
   */
  lemma IcmpGateIsForIcmpOnly(
      bundle: PolicyBundle, flow: FlowContext, policy: IcmpPolicy, rules: seq<PolicyRule>, default: Action)
    ensures flow.protocol != Icmp ==> FlowVerdict(bundle.(icmpPolicy := policy), flow) == FlowVerdict(bundle, flow)
    ensures flow.protocol == Icmp && !bundle.icmpPolicy.AclIcmp? ==>
              FlowVerdict(bundle.(rules := rules, defaultAction := default), flow) == FlowVerdict(bundle, flow)
  {
  }
}
