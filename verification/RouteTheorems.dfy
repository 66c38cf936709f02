/** Consequences of one reconcile for the next, and for the tunnel's default route. */
module RouteTheorems {
  import opened Wrappers
  import opened RouteTypes
  import opened RouteBackend
  import opened RoutePlan
  import opened RouteEngine

  /**
   Two reconciles of the same wanted routes.  If no call fails, the second deletes
   and adds nothing if and only if the wanted networks carry no host bits: the
   kernel drops host bits, so a network with some is never found again.  Otherwise
   it adds exactly those networks anew, and before that deletes the live routes the
   kernel made of those on the tunnel, or to a wanted destination.
   */
  method ReconcileTwice(engine: Engine, d: DesiredRoutes, underlay: Option<Underlay>, tun: nat)
    returns (ghost first: seq<Event>, ghost second: seq<Event>)
    requires engine.backend.Valid()
    modifies engine, engine.backend
    ensures engine.backend.trace == old(engine.backend.trace) + first + second
    ensures var want := WantSpecs(d, underlay, tun);
            && (AllFine(first) && WantCanonical(want) ==> OnlyLists(second))
            && (AllFine(first) && AllFine(second) ==>
                  && AddedIn(second) == (set w | w in want && !Canonical(w.id))
                  && DeletedIn(second) == Churned(want, tun)
                  && (OnlyLists(second) <==> WantCanonical(want)))
  {
    ghost var want := WantSpecs(d, underlay, tun);
    ghost var owned0, table0 := engine.owned, engine.backend.table;
    var r1, calls1, history1 := engine.ReconcileNative(d, underlay, Some(tun));
    first := calls1;
    var r2, calls2, history2 := engine.ReconcileNative(d, underlay, Some(tun));
    second := calls2;
    AgainFromTarget(table0, Ids(owned0), want, tun);
    SettlesIffCanonical(table0, Ids(owned0), want, tun);
    OnlyListsIff(second);
    InSyncIff(Target(table0, Ids(owned0), want, tun), Ids(want), want, tun);
  }

  /**
   On a kernel that refuses to add a route it has, a reconcile that was Ok is not
   followed by another, if a wanted network with host bits has a live route that
   the next one does not clear away first: each later reconcile returns an error.
   */
  method ReconcileAgain(engine: Engine, d: DesiredRoutes, underlay: Option<Underlay>, tun: nat, n: nat)
    returns (first: Result<(), RouteError>, later: seq<Result<(), RouteError>>)
    requires engine.backend.Valid()
    modifies engine, engine.backend
    ensures |later| == n
    ensures first.Ok? && engine.backend.strict && Stubborn(WantSpecs(d, underlay, tun), tun) ==>
              forall r :: r in later ==> r.Err?
  {
    ghost var want := WantSpecs(d, underlay, tun);
    ghost var owned0, table0 := engine.owned, engine.backend.table;
    ghost var calls, history;
    first, calls, history := engine.ReconcileNative(d, underlay, Some(tun));
    ghost var stuck := first.Ok? && engine.backend.strict && Stubborn(want, tun);
    ghost var w: RouteSpec;
    if stuck {
      w :| w in want && !Canonical(w.id) && Key(w.id) !in Churned(want, tun);
      StuckAtTarget(table0, Ids(owned0), want, tun, w);
    }
    later := [];
    for i := 0 to n
      invariant engine.backend.Valid() && |later| == i
      invariant stuck ==> Stuck(engine.backend.table, Ids(engine.owned), want, tun, w)
      invariant stuck ==> forall r :: r in later ==> r.Err?
    {
      var r;
      r, calls, history := engine.ReconcileNative(d, underlay, Some(tun));
      later := later + [r];
    }
  }

  /** A wanted network with host bits that no reconcile clears away. */
  predicate Stubborn(want: set<RouteSpec>, tun: nat) {
    exists w :: w in want && !Canonical(w.id) && Key(w.id) !in Churned(want, tun)
  }

  /**
   A split-tunnel network with host bits, going around the tunnel, is one, unless its
   bare network is wanted as well.
   */
  lemma SplitNetIsStubborn(d: DesiredRoutes, underlay: Underlay, tun: nat, net: Ipv4Net)
    requires d.ExitExclude() && underlay.gateway.Some? && net in d.splitCidrs && net.host != 0
    requires forall w :: w in WantSpecs(d, Some(underlay), tun) ==> w.id.dest != Network(net)
    ensures Stubborn(WantSpecs(d, Some(underlay), tun), tun)
  {
    var kind := ViaGw(net, underlay.gateway.value);
    assert kind in KindSet(d, underlay.gateway, true);
    var w := SpecOf(kind, Some(underlay), tun, d.ifName).value;
    assert w in WantSpecs(d, Some(underlay), tun) && !Canonical(w.id);
    assert !OnLink(Key(w.id), tun) && !ToWantedDest(Key(w.id), WantSpecs(d, Some(underlay), tun));
  }

  /** 10.0.0.1/24 excluded from the tunnel of an exit node, say. */
  lemma StubbornInstance(underlay: Underlay, tun: nat)
    requires underlay.gateway.Some?
    ensures var net := Net(0x0A_00_00, 1, 24);
            Stubborn(WantSpecs(DesiredRoutes("tunnet0", Exclude, true, false, [net], false, [], [], []),
                               Some(underlay), tun), tun)
  {
    var net := Net(0x0A_00_00, 1, 24);
    var d := DesiredRoutes("tunnet0", Exclude, true, false, [net], false, [], [], []);
    assert KindSet(d, underlay.gateway, true) == {ViaTun(DEFAULT_NET), ViaGw(net, underlay.gateway.value)} by {
      assert Hosts(d.underlayHosts) == [];
      assert GwKinds([net], underlay.gateway.value) == {ViaGw(net, underlay.gateway.value)};
    }
    SplitNetIsStubborn(d, underlay, tun, net);
  }

  /** The table a reconcile leaves is in sync if and only if the wanted networks carry no host bits. */
  lemma SettlesIffCanonical(table: set<Identity>, owned: set<Identity>, want: set<RouteSpec>, tun: nat)
    requires AllKeys(table)
    ensures InSync(Target(table, owned, want, tun), Ids(want), want, tun) <==> WantCanonical(want)
  {
    if WantCanonical(want) {
      TargetIsInSync(table, owned, want, tun);
    } else {
      var w :| w in want && !Canonical(w.id);
      assert w.id in Ids(want) && w.id !in Target(table, owned, want, tun);
    }
  }

  /** One tunnel network with host bits: every further reconcile deletes its live route and adds it again. */
  lemma HostBitsChurn(table: set<Identity>, owned: set<Identity>, net: Ipv4Net, name: string, tun: nat)
    requires AllKeys(table) && net.host != 0
    ensures var w := RouteSpec(Identity(net, None, tun), name);
            var target := Target(table, owned, {w}, tun);
            && MissingIn(target, {w}) == {w}
            && DoomedIn(target, Ids({w}), {w}, tun) == {Identity(Network(net), None, tun)}
  {
    var w := RouteSpec(Identity(net, None, tun), name);
    AgainFromTarget(table, owned, {w}, tun);
    assert Keys({w}) == {Key(w.id)} && Ids({w}) == {w.id};
    assert Key(w.id) in Churned({w}, tun);
  }

  /** 10.0.0.1/24, say. */
  lemma HostBitsInstance(table: set<Identity>, owned: set<Identity>, tun: nat)
    requires AllKeys(table)
    ensures var w := RouteSpec(Identity(Net(0x0A_00_00, 1, 24), None, tun), "tunnet0");
            var target := Target(table, owned, {w}, tun);
            && MissingIn(target, {w}) == {w}
            && DoomedIn(target, Ids({w}), {w}, tun) == {Identity(Net(0x0A_00_00, 0, 24), None, tun)}
  {
    HostBitsChurn(table, owned, Net(0x0A_00_00, 1, 24), "tunnet0", tun);
  }

  /** The tunnel's default route, under whatever notation of the empty prefix. */
  ghost predicate DefaultTunIn(table: set<Identity>, tun: nat) {
    exists id :: id in table && id.gateway.None? && id.dest.prefix == 0 && id.ifIndex == tun
  }

  /**
   After an undisturbed reconcile the tunnel has a default route if and only if an
   exit node is in use and the underlay gateway known, so that traffic can get
   around the tunnel, or an empty prefix is itself among the subnets, peer routes or
   included networks; whatever was there before.
   */
  lemma DefaultRouteIff(
      d: DesiredRoutes, underlay: Option<Underlay>, tun: nat, table: set<Identity>, owned: set<Identity>)
    ensures DefaultTunIn(Target(table, owned, WantSpecs(d, underlay, tun), tun), tun) <==>
            || (&& (d.hasExit || d.exitNode) && d.mode == Exclude
                && underlay.Some? && underlay.value.gateway.Some?)
            || (exists n: Ipv4Net :: n.prefix == 0 &&
                  (n in d.remoteSubnets || n in d.peerRoutes || (d.mode == Include && n in d.splitCidrs)))
  {
    var want := WantSpecs(d, underlay, tun);
    var target := Target(table, owned, want, tun);
    if DefaultTunIn(target, tun) {
      var id :| id in target && id.gateway.None? && id.dest.prefix == 0 && id.ifIndex == tun;
      assert OnLink(id, tun);
      var w: RouteSpec :| w in want && w.id.dest.prefix == 0 && w.id.gateway.None? by {
        if id in Ids(want) {
          var v :| v in want && v.id == id;
          assert v.id.dest.prefix == 0 && v.id.gateway.None?;
        } else {
          assert id in Keys(want);
          var v :| v in want && Key(v.id) == id;
          assert v.id.dest.prefix == 0 && v.id.gateway.None?;
        }
      }
      WantedExactly(d, underlay, tun, w);
    } else {
      forall n: Ipv4Net | n.prefix == 0 ensures RouteSpec(Identity(n, None, tun), d.ifName) !in want {
        NoDefaultWanted(target, want, tun, RouteSpec(Identity(n, None, tun), d.ifName));
      }
      forall n: Ipv4Net | n.prefix == 0
        ensures n !in d.remoteSubnets && n !in d.peerRoutes && !(d.mode == Include && n in d.splitCidrs)
      {
        WantedExactly(d, underlay, tun, RouteSpec(Identity(n, None, tun), d.ifName));
      }
      WantedExactly(d, underlay, tun, RouteSpec(Identity(Net(0, 0, 0), None, tun), d.ifName));
    }
  }

  lemma NoDefaultWanted(target: set<Identity>, want: set<RouteSpec>, tun: nat, w: RouteSpec)
    requires Keys(want) <= target && !DefaultTunIn(target, tun)
    requires w.id.gateway.None? && w.id.dest.prefix == 0 && w.id.ifIndex == tun
    ensures w !in want
  {
    assert w in want ==> Key(w.id) in Keys(want);
  }

  /** So with an exit node but no gateway there is none of its own, even when an earlier run had installed one. */
  lemma NoGatewayNoDefault(
      d: DesiredRoutes, underlay: Option<Underlay>, tun: nat, table: set<Identity>, owned: set<Identity>)
    requires (d.hasExit || d.exitNode) && d.mode == Exclude && !(underlay.Some? && underlay.value.gateway.Some?)
    ensures DefaultTunIn(Target(table, owned, WantSpecs(d, underlay, tun), tun), tun) <==>
            exists n: Ipv4Net :: n.prefix == 0 && (n in d.remoteSubnets || n in d.peerRoutes)
  {
    DefaultRouteIff(d, underlay, tun, table, owned);
  }
}
