/** Merging an organisation's bundle into a network's. */
module AclMerge {
  import opened Wrappers
  import opened AclTypes
  import opened AclOrder
  import opened AclEvaluator
  import opened AclTheorems

  function Rescope(rules: seq<PolicyRule>, scope: RuleScope): (r: seq<PolicyRule>)
    ensures |r| == |rules| && forall i :: 0 <= i < |r| ==> r[i] == rules[i].(scope := scope)
  {
    seq(|rules|, i requires 0 <= i < |rules| => rules[i].(scope := scope))
  }

  function Merged(org: PolicyBundle, network: PolicyBundle): PolicyBundle {
    PolicyBundle(
      Rescope(org.rules, Organization) + Rescope(network.rules, Network),
      if org.version >= network.version then org.version else network.version,
      "",
      network.defaultAction,
      network.icmpPolicy)
  }

  method MergePolicyBundles(org: PolicyBundle, network: PolicyBundle) returns (merged: PolicyBundle)
    ensures merged == Merged(org, network)
    ensures org.version <= merged.version && network.version <= merged.version
    ensures merged.version == org.version || merged.version == network.version
    ensures merged.signature == "" && merged.defaultAction == network.defaultAction
    ensures merged.icmpPolicy == network.icmpPolicy && |merged.rules| == |org.rules| + |network.rules|
    ensures forall i :: 0 <= i < |org.rules| ==> merged.rules[i] == org.rules[i].(scope := Organization)
    ensures forall i :: 0 <= i < |network.rules| ==>
              merged.rules[|org.rules| + i] == network.rules[i].(scope := Network)
  {
    var rules := [];
    for i := 0 to |org.rules|
      invariant rules == Rescope(org.rules[..i], Organization)
    {
      rules := rules + [org.rules[i].(scope := Organization)];
    }
    assert org.rules[..|org.rules|] == org.rules;
    for i := 0 to |network.rules|
      invariant rules == Rescope(org.rules, Organization) + Rescope(network.rules[..i], Network)
    {
      rules := rules + [network.rules[i].(scope := Network)];
    }
    assert network.rules[..|network.rules|] == network.rules;
    var version := if org.version >= network.version then org.version else network.version;
    merged := PolicyBundle(rules, version, "", network.defaultAction, network.icmpPolicy);
    MergedRules(org, network);
  }

  /** The organisation's rules first, then the network's, each read in its own scope. */
  lemma MergedRules(org: PolicyBundle, network: PolicyBundle)
    ensures var rules := Merged(org, network).rules;
            && |rules| == |org.rules| + |network.rules|
            && (forall i :: 0 <= i < |org.rules| ==> rules[i] == org.rules[i].(scope := Organization))
            && (forall i :: 0 <= i < |network.rules| ==>
                  rules[|org.rules| + i] == network.rules[i].(scope := Network))
  {
  }

  /** The network's bundle with every rule read as a network rule. */
  function AsNetwork(network: PolicyBundle): PolicyBundle {
    network.(rules := Rescope(network.rules, Network))
  }

  /** A deny of the organisation that matches the flow, posture satisfied. */
  ghost predicate OrgDenies(org: PolicyBundle, flow: FlowContext) {
    exists r :: r in org.rules && r.enabled && r.action == Deny && RuleMatchesFlow(r, flow) &&
      !PostureBlocks(r, flow.srcPostureOk)
  }

  /** A deny of the organisation that matches the flow but for the posture it asks for. */
  ghost predicate OrgSkips(org: PolicyBundle, flow: FlowContext) {
    exists r :: r in org.rules && r.enabled && r.action == Deny && RuleMatchesFlow(r, flow) &&
      PostureBlocks(r, flow.srcPostureOk)
  }

  /** A rule of the network, whatever its scope says, that matches the flow with posture satisfied. */
  ghost predicate NetworkActs(network: PolicyBundle, action: Action, flow: FlowContext) {
    exists r :: r in network.rules && r.enabled && r.action == action && RuleMatchesFlow(r, flow) &&
      !PostureBlocks(r, flow.srcPostureOk)
  }

  predicate Gated(bundle: PolicyBundle, flow: FlowContext) {
    flow.protocol == Icmp && !bundle.icmpPolicy.AclIcmp?
  }

  lemma RescopedRule(rules: seq<PolicyRule>, scope: RuleScope, r: PolicyRule)
    ensures r in rules ==> r.(scope := scope) in Rescope(rules, scope)
    ensures r in Rescope(rules, scope) ==> r.scope == scope && exists x :: x in rules && r == x.(scope := scope)
  {
    if r in rules {
      var i :| 0 <= i < |rules| && rules[i] == r;
      assert Rescope(rules, scope)[i] == r.(scope := scope);
    }
    if r in Rescope(rules, scope) {
      var i :| 0 <= i < |rules| && Rescope(rules, scope)[i] == r;
      assert rules[i] in rules;
    }
  }

  /** Each phase of the merged list sees only the half it is about. */
  lemma PhasesSeparate(a: seq<PolicyRule>, b: seq<PolicyRule>, action: Action, matcher: Filter, postureOk: bool)
    requires forall r :: r in a ==> r.scope == Organization
    requires forall r :: r in b ==> r.scope == Network
    ensures Winner(a + b, Effective(Organization, action, matcher, postureOk)) ==
            Winner(a, Effective(Organization, action, matcher, postureOk))
    ensures Winner(a + b, Blocked(Organization, action, matcher, postureOk)) ==
            Winner(a, Blocked(Organization, action, matcher, postureOk))
    ensures Winner(a + b, Effective(Network, action, matcher, postureOk)) ==
            Winner(b, Effective(Network, action, matcher, postureOk))
    ensures Winner(a + b, Blocked(Network, action, matcher, postureOk)) ==
            Winner(b, Blocked(Network, action, matcher, postureOk))
    ensures Winner(b, Effective(Organization, action, matcher, postureOk)).None?
    ensures Winner(b, Blocked(Organization, action, matcher, postureOk)).None?
  {
    WinnerDropsSuffix(a, b, Effective(Organization, action, matcher, postureOk));
    WinnerDropsSuffix(a, b, Blocked(Organization, action, matcher, postureOk));
    WinnerDropsPrefix(a, b, Effective(Network, action, matcher, postureOk));
    WinnerDropsPrefix(a, b, Blocked(Network, action, matcher, postureOk));
    WinnerIsLeast(b, Effective(Organization, action, matcher, postureOk));
    WinnerIsLeast(b, Blocked(Organization, action, matcher, postureOk));
  }

  /**
   The merged list has the winners of the network's and, for denies of the
   organisation, those of the organisation's.
   */
  lemma MergedWinners(org: PolicyBundle, network: PolicyBundle, matcher: Filter, postureOk: bool)
    ensures var denies := Rescope(org.rules, Organization);
            var alone := WinnersOf(AsNetwork(network).rules, matcher, postureOk);
            && alone.orgDeny.None? && alone.skippedOrgDeny.None?
            && WinnersOf(Merged(org, network).rules, matcher, postureOk) == alone.(
                 orgDeny := Winner(denies, Effective(Organization, Deny, matcher, postureOk)),
                 skippedOrgDeny := Winner(denies, Blocked(Organization, Deny, matcher, postureOk)))
  {
    var a, b := Rescope(org.rules, Organization), AsNetwork(network).rules;
    forall r | r in a ensures r.scope == Organization { RescopedRule(org.rules, Organization, r); }
    forall r | r in b ensures r.scope == Network { RescopedRule(network.rules, Network, r); }
    PhasesSeparate(a, b, Deny, matcher, postureOk);
    PhasesSeparate(a, b, Allow, matcher, postureOk);
  }

  /** What a phase of a rescoped list sees, in terms of the list it came from. */
  lemma RescopedPhase(rules: seq<PolicyRule>, scope: RuleScope, action: Action, flow: FlowContext)
    ensures InForce(Rescope(rules, scope), scope, action, FlowMatcher(flow), flow.srcPostureOk) <==>
            exists r :: r in rules && r.enabled && r.action == action && RuleMatchesFlow(r, flow) &&
                !PostureBlocks(r, flow.srcPostureOk)
    ensures Skipping(Rescope(rules, scope), scope, action, FlowMatcher(flow), flow.srcPostureOk) <==>
            exists r :: r in rules && r.enabled && r.action == action && RuleMatchesFlow(r, flow) &&
                PostureBlocks(r, flow.srcPostureOk)
  {
    var rescoped := Rescope(rules, scope);
    forall r | r in rules && r.enabled && r.action == action && RuleMatchesFlow(r, flow)
      ensures r.(scope := scope) in rescoped && Candidate(r.(scope := scope), scope, action)
           && FlowMatcher(flow)(r.(scope := scope))
    {
      RescopedRule(rules, scope, r);
    }
    forall r | r in rescoped && Candidate(r, scope, action) && FlowMatcher(flow)(r)
      ensures exists x ::
                x in rules && r == x.(scope := scope) && x.enabled && x.action == action && RuleMatchesFlow(x, flow)
    {
      RescopedRule(rules, scope, r);
    }
  }

  /**
   Outside the ICMP gate an organisation deny in force settles the merged verdict,
   and otherwise the action is the network's own.  The whole verdict is the
   network's exactly when no organisation deny is in force and none is skipped
   for posture, or some network rule is in force.
   */
  lemma OrganisationOnlyTightens(org: PolicyBundle, network: PolicyBundle, flow: FlowContext)
    ensures var merged, alone := FlowVerdict(Merged(org, network), flow), FlowVerdict(AsNetwork(network), flow);
            if Gated(network, flow) then merged == alone
            else
              && (OrgDenies(org, flow) ==> merged.action == Deny && merged.reason == OrgDeny)
              && (!OrgDenies(org, flow) ==> merged.action == alone.action)
              && (merged == alone <==>
                    && !OrgDenies(org, flow)
                    && (NetworkActs(network, Deny, flow) || NetworkActs(network, Allow, flow) || !OrgSkips(org, flow)))
  {
    if !Gated(network, flow) {
      var m, ok := FlowMatcher(flow), flow.srcPostureOk;
      MergedWinners(org, network, m, ok);
      OrgOutcome(org, flow);
      NetworkOutcome(network, Deny, flow);
      NetworkOutcome(network, Allow, flow);
      SkipScopes(org, network, flow);
      SettleTightens(WinnersOf(AsNetwork(network).rules, m, ok), WinnersOf(Merged(org, network).rules, m, ok),
                     network.defaultAction);
    }
  }

  lemma SettleTightens(alone: Winners, merged: Winners, default: Action)
    requires merged == alone.(orgDeny := merged.orgDeny, skippedOrgDeny := merged.skippedOrgDeny)
    requires alone.orgDeny.None? && alone.skippedOrgDeny.None?
    requires merged.skippedOrgDeny.Some? ==> merged.skippedOrgDeny.value.scope == Organization
    requires alone.skippedNetworkDeny.Some? ==> alone.skippedNetworkDeny.value.scope == Network
    requires alone.skippedNetworkAllow.Some? ==> alone.skippedNetworkAllow.value.scope == Network
    ensures var v, w := Settle(merged, default), Settle(alone, default);
            && (merged.orgDeny.Some? ==> v.action == Deny && v.reason == OrgDeny)
            && (merged.orgDeny.None? ==> v.action == w.action)
            && (v == w <==>
                  && merged.orgDeny.None?
                  && (alone.networkDeny.Some? || alone.networkAllow.Some? || merged.skippedOrgDeny.None?))
  {
  }

  lemma OrgOutcome(org: PolicyBundle, flow: FlowContext)
    ensures var m, ok := FlowMatcher(flow), flow.srcPostureOk;
            && (Winner(Rescope(org.rules, Organization), Effective(Organization, Deny, m, ok)).Some? <==>
                OrgDenies(org, flow))
            && (Winner(Rescope(org.rules, Organization), Blocked(Organization, Deny, m, ok)).Some? <==>
                OrgSkips(org, flow))
  {
    PhaseOutcome(Rescope(org.rules, Organization), Organization, Deny, FlowMatcher(flow), flow.srcPostureOk);
    RescopedPhase(org.rules, Organization, Deny, flow);
  }

  lemma NetworkOutcome(network: PolicyBundle, action: Action, flow: FlowContext)
    ensures Winner(AsNetwork(network).rules, Effective(Network, action, FlowMatcher(flow), flow.srcPostureOk)).Some?
            <==>
            NetworkActs(network, action, flow)
  {
    PhaseOutcome(AsNetwork(network).rules, Network, action, FlowMatcher(flow), flow.srcPostureOk);
    RescopedPhase(network.rules, Network, action, flow);
  }

  /** A rule reported as skipped carries the scope of its half. */
  lemma SkipScopes(org: PolicyBundle, network: PolicyBundle, flow: FlowContext)
    ensures var m, ok := FlowMatcher(flow), flow.srcPostureOk;
            var skipped := Winner(Rescope(org.rules, Organization), Blocked(Organization, Deny, m, ok));
            var alone := WinnersOf(AsNetwork(network).rules, m, ok);
            && (skipped.Some? ==> skipped.value.scope == Organization)
            && (alone.skippedNetworkDeny.Some? ==> alone.skippedNetworkDeny.value.scope == Network)
            && (alone.skippedNetworkAllow.Some? ==> alone.skippedNetworkAllow.value.scope == Network)
  {
    var m, ok := FlowMatcher(flow), flow.srcPostureOk;
    WinnerIsLeast(Rescope(org.rules, Organization), Blocked(Organization, Deny, m, ok));
    WinnerIsLeast(AsNetwork(network).rules, Blocked(Network, Deny, m, ok));
    WinnerIsLeast(AsNetwork(network).rules, Blocked(Network, Allow, m, ok));
  }

  /** Rules already scoped to the network are left as they are by the merge. */
  lemma NetworkScopedIsUnchanged(network: PolicyBundle)
    requires forall r :: r in network.rules ==> r.scope == Network
    ensures AsNetwork(network) == network
  {
    forall i | 0 <= i < |network.rules| ensures Rescope(network.rules, Network)[i] == network.rules[i] {
      assert network.rules[i] in network.rules;
    }
    assert Rescope(network.rules, Network) == network.rules;
  }

  /**
   When the merge allows what the network's bundle as delivered denies: a deny
   default, and the only allows in force are rules the network's bundle scopes to
   the organisation, which evaluation ignores until the merge rescopes them.
   */
  lemma {:induction false} WhenMergingWidens(org: PolicyBundle, network: PolicyBundle, flow: FlowContext)
    ensures FlowVerdict(Merged(org, network), flow).action == Allow && FlowVerdict(network, flow).action == Deny <==>
            && !Gated(network, flow)
            && network.defaultAction == Deny
            && !OrgDenies(org, flow)
            && !NetworkActs(network, Deny, flow)
            && !InForce(network.rules, Network, Allow, FlowMatcher(flow), flow.srcPostureOk)
            && InForce(network.rules, Organization, Allow, FlowMatcher(flow), flow.srcPostureOk)
  {
    if !Gated(network, flow) {
      var m, ok := FlowMatcher(flow), flow.srcPostureOk;
      OrganisationOnlyTightens(org, network, flow);
      AloneAction(org, network, flow);
      VerdictIsDecision(network.rules, network.defaultAction, m, ok);
      ByScope(network, Deny, flow);
      ByScope(network, Allow, flow);
    }
  }

  lemma AloneAction(org: PolicyBundle, network: PolicyBundle, flow: FlowContext)
    requires !Gated(network, flow)
    ensures FlowVerdict(AsNetwork(network), flow).action ==
            if NetworkActs(network, Deny, flow) then Deny
            else if NetworkActs(network, Allow, flow) then Allow
            else network.defaultAction
  {
    MergedWinners(org, network, FlowMatcher(flow), flow.srcPostureOk);
    NetworkOutcome(network, Deny, flow);
    NetworkOutcome(network, Allow, flow);
  }

  lemma ByScope(network: PolicyBundle, action: Action, flow: FlowContext)
    ensures NetworkActs(network, action, flow) <==>
            || InForce(network.rules, Organization, action, FlowMatcher(flow), flow.srcPostureOk)
            || InForce(network.rules, Network, action, FlowMatcher(flow), flow.srcPostureOk)
  {
    if NetworkActs(network, action, flow) {
      var r :| r in network.rules && r.enabled && r.action == action && RuleMatchesFlow(r, flow) &&
          !PostureBlocks(r, flow.srcPostureOk);
      assert Candidate(r, r.scope, action) && FlowMatcher(flow)(r);
    }
  }

  /** The merge never allows what a network-scoped bundle denies. */
  lemma MergingNeverWidens(org: PolicyBundle, network: PolicyBundle, flow: FlowContext)
    requires forall r :: r in network.rules ==> r.scope == Network
    ensures FlowVerdict(Merged(org, network), flow).action == Allow ==> FlowVerdict(network, flow).action == Allow
  {
    WhenMergingWidens(org, network, flow);
  }

  /**
   One allow that a deny-by-default network's bundle scopes to the organisation:
   denied as delivered, allowed once merged.
   */
  lemma MergingCanWiden(org: PolicyBundle, flow: FlowContext)
    requires org.rules == [] && flow.protocol == Tcp
    ensures var rule := PolicyRule(AnyEndpoint, AnyEndpoint, Allow, [], None, 0, 0, Organization, true, None, []);
            var network := PolicyBundle([rule], 1, "", Deny, AclIcmp);
            FlowVerdict(Merged(org, network), flow).action == Allow && FlowVerdict(network, flow).action == Deny
  {
    var rule := PolicyRule(AnyEndpoint, AnyEndpoint, Allow, [], None, 0, 0, Organization, true, None, []);
    var network := PolicyBundle([rule], 1, "", Deny, AclIcmp);
    assert RuleMatchesFlow(rule, flow);
    LoneAllow(network, rule, flow);
    WhenMergingWidens(org, network, flow);
  }

  lemma LoneAllow(network: PolicyBundle, rule: PolicyRule, flow: FlowContext)
    requires network.rules == [rule] && Candidate(rule, Organization, Allow)
    requires RuleMatchesFlow(rule, flow) && !PostureBlocks(rule, flow.srcPostureOk)
    ensures !NetworkActs(network, Deny, flow)
    ensures !InForce(network.rules, Network, Allow, FlowMatcher(flow), flow.srcPostureOk)
    ensures InForce(network.rules, Organization, Allow, FlowMatcher(flow), flow.srcPostureOk)
  {
    assert rule in network.rules && FlowMatcher(flow)(rule);
  }

  function ActiveDeny(): Filter {
    (r: PolicyRule) => r.enabled && r.action == Deny
  }

  lemma {:induction false} SelectRescoped(rules: seq<PolicyRule>, scope: RuleScope)
    ensures Select(Rescope(rules, scope), ActiveDeny()) == Rescope(Select(rules, ActiveDeny()), scope)
    decreases |rules|
  {
    if rules == [] {
    } else {
      var init, last := rules[..|rules| - 1], rules[|rules| - 1];
      SelectRescoped(init, scope);
      assert Rescope(rules, scope)[..|rules| - 1] == Rescope(init, scope);
      assert Rescope(rules, scope)[|rules| - 1] == last.(scope := scope);
      assert ActiveDeny()(last.(scope := scope)) == ActiveDeny()(last);
      assert Select(rules, ActiveDeny()) == Select(init, ActiveDeny()) + (if ActiveDeny()(last) then [last] else []);
    }
  }

  /**
   Only an organisation's active denies count: bundles that share them, whatever
   their allows, default, ICMP policy or version, merge to the same verdicts.
   */
  lemma {:induction false} OnlyOrganisationDeniesCount(
      org: PolicyBundle, other: PolicyBundle, network: PolicyBundle, flow: FlowContext)
    requires Select(org.rules, ActiveDeny()) == Select(other.rules, ActiveDeny())
    ensures FlowVerdict(Merged(org, network), flow) == FlowVerdict(Merged(other, network), flow)
  {
    var m, ok := FlowMatcher(flow), flow.srcPostureOk;
    var effective, blocked := Effective(Organization, Deny, m, ok), Blocked(Organization, Deny, m, ok);
    forall r | effective(r) || blocked(r) ensures ActiveDeny()(r) {
      assert Candidate(r, Organization, Deny);
    }
    SameDenyWinner(org, other, effective);
    SameDenyWinner(org, other, blocked);
    MergedWinners(org, network, m, ok);
    MergedWinners(other, network, m, ok);
    assert WinnersOf(Merged(org, network).rules, m, ok) == WinnersOf(Merged(other, network).rules, m, ok);
  }

  lemma {:induction false} SameDenyWinner(org: PolicyBundle, other: PolicyBundle, p: Filter)
    requires Select(org.rules, ActiveDeny()) == Select(other.rules, ActiveDeny())
    requires forall r :: p(r) ==> ActiveDeny()(r)
    ensures Winner(Rescope(org.rules, Organization), p) == Winner(Rescope(other.rules, Organization), p)
  {
    SelectRescoped(org.rules, Organization);
    SelectRescoped(other.rules, Organization);
    WinnerOfSelected(Rescope(org.rules, Organization), ActiveDeny(), p);
    WinnerOfSelected(Rescope(other.rules, Organization), ActiveDeny(), p);
  }
}
