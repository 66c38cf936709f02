/** IPv4 route identities, ranks and the routes the agent wants. */
module RouteTypes {
  import opened Wrappers

  type Ipv4 = a: nat | a < 0x1_0000_0000

  /**
   A network: the number formed by the `prefix` leading bits of its address and
   the number formed by the remaining host bits, which need not be zero.
   */
  datatype Net = Net(network: nat, host: nat, prefix: nat)

  /** A full-length prefix leaves no host bits; tighter bit widths play no part. */
  type Ipv4Net = n: Net | n.prefix <= 32 && (n.prefix == 32 ==> n.host == 0) witness Net(0, 0, 0)

  const DEFAULT_NET: Ipv4Net := Net(0, 0, 0)

  /** The network with its host bits cleared. */
  function Network(n: Ipv4Net): Ipv4Net {
    n.(host := 0)
  }

  function HostNet(host: Ipv4): Ipv4Net {
    Net(host, 0, 32)
  }

  /** What the kernel tells routes apart by. */
  datatype Identity = Identity(dest: Ipv4Net, gateway: Option<Ipv4>, ifIndex: nat)

  datatype RouteSpec = RouteSpec(id: Identity, ifName: string)

  function Ids(specs: set<RouteSpec>): set<Identity> {
    set r | r in specs :: r.id
  }

  /** The kernel stores a route under its network, whatever host bits it was given. */
  function Key(id: Identity): Identity {
    id.(dest := Network(id.dest))
  }

  predicate Canonical(id: Identity) {
    Key(id) == id
  }

  function Keys(specs: set<RouteSpec>): set<Identity> {
    set r | r in specs :: Key(r.id)
  }

  function AddRank(id: Identity): nat {
    if id.gateway.Some? then (if id.dest.prefix == 32 then 0 else 1)
    else if id.dest.prefix == 0 then 3 else 2
  }

  function DelRank(id: Identity): nat {
    3 - AddRank(id)
  }

  predicate IsDefaultTun(id: Identity) {
    id.gateway.None? && id.dest.prefix == 0
  }

  predicate IsHostEscape(id: Identity) {
    id.gateway.Some? && id.dest.prefix == 32
  }

  // Stable sorting by one of the two ranks

  function Rank(id: Identity, adding: bool): (r: nat)
    ensures r <= 3
  {
    if adding then AddRank(id) else DelRank(id)
  }

  function OfRank(s: seq<RouteSpec>, adding: bool, rank: nat): (r: seq<RouteSpec>)
    ensures forall x :: x in r <==> x in s && Rank(x.id, adding) == rank
  {
    if s == [] then []
    else if Rank(s[0].id, adding) == rank then [s[0]] + OfRank(s[1..], adding, rank)
    else OfRank(s[1..], adding, rank)
  }

  /** The routes of rank 0, then of rank 1, 2 and 3, each in their original order. */
  function SortByRank(s: seq<RouteSpec>, adding: bool): seq<RouteSpec> {
    OfRank(s, adding, 0) + OfRank(s, adding, 1) + OfRank(s, adding, 2) + OfRank(s, adding, 3)
  }

  predicate SortedByRank(s: seq<RouteSpec>, adding: bool) {
    forall i, j :: 0 <= i < j < |s| ==> Rank(s[i].id, adding) <= Rank(s[j].id, adding)
  }

  lemma AppendRank(s: seq<RouteSpec>, more: seq<RouteSpec>, adding: bool, rank: nat)
    requires SortedByRank(s, adding) && forall x :: x in s ==> Rank(x.id, adding) < rank
    requires forall x :: x in more ==> Rank(x.id, adding) == rank
    ensures SortedByRank(s + more, adding)
    ensures forall x :: x in s + more ==> Rank(x.id, adding) < rank + 1
  {
    assert forall i :: 0 <= i < |s| ==> s[i] in s;
    assert forall i :: 0 <= i < |more| ==> more[i] in more;
  }

  /** Sorting orders the routes by rank and keeps exactly the same routes. */
  lemma SortByRankSorts(s: seq<RouteSpec>, adding: bool)
    ensures SortedByRank(SortByRank(s, adding), adding)
    ensures forall x :: x in SortByRank(s, adding) <==> x in s
    ensures multiset(SortByRank(s, adding)) == multiset(s)
  {
    var r0, r1, r2, r3 := OfRank(s, adding, 0), OfRank(s, adding, 1), OfRank(s, adding, 2), OfRank(s, adding, 3);
    AppendRank([], r0, adding, 0);
    assert [] + r0 == r0;
    AppendRank(r0, r1, adding, 1);
    AppendRank(r0 + r1, r2, adding, 2);
    AppendRank(r0 + r1 + r2, r3, adding, 3);
    RanksPartition(s, adding);
  }

  lemma {:induction false} OfRankCounts(s: seq<RouteSpec>, adding: bool, rank: nat, x: RouteSpec)
    ensures multiset(OfRank(s, adding, rank))[x] == if Rank(x.id, adding) == rank then multiset(s)[x] else 0
  {
    if s == [] {
    } else {
      OfRankCounts(s[1..], adding, rank, x);
      assert s == [s[0]] + s[1..];
    }
  }

  /** Each route keeps its multiplicity when the four ranks are put together. */
  lemma RanksPartition(s: seq<RouteSpec>, adding: bool)
    ensures multiset(SortByRank(s, adding)) == multiset(s)
  {
    forall x ensures multiset(SortByRank(s, adding))[x] == multiset(s)[x] {
      OfRankCounts(s, adding, 0, x);
      OfRankCounts(s, adding, 1, x);
      OfRankCounts(s, adding, 2, x);
      OfRankCounts(s, adding, 3, x);
    }
  }

  // Desired routes

  datatype SplitTunnelMode = Include | Exclude

  datatype Underlay = Underlay(ifIndex: nat, ifName: string, gateway: Option<Ipv4>)

  datatype DesiredRoutes = DesiredRoutes(
    ifName: string,
    mode: SplitTunnelMode,
    exitNode: bool,
    hasExit: bool,
    splitCidrs: seq<Ipv4Net>,
    allowLocalLan: bool,
    remoteSubnets: seq<Ipv4Net>,
    peerRoutes: seq<Ipv4Net>,
    underlayHosts: seq<Ipv4>)
  {
    predicate ExitExclude() {
      (hasExit || exitNode) && mode == Exclude
    }
  }

  /** A route through the tunnel, or around it through the underlay gateway. */
  datatype RouteKind = ViaTun(cidr: Ipv4Net) | ViaGw(cidr: Ipv4Net, gw: Ipv4)

  const RFC1918: seq<Ipv4Net> :=
    [Net(10, 0, 8), Net(0xAC1, 0, 12), Net(0xC0A8, 0, 16)]

  function TunKinds(nets: seq<Ipv4Net>): set<RouteKind> {
    set n | n in nets :: ViaTun(n)
  }

  function GwKinds(nets: seq<Ipv4Net>, gw: Ipv4): set<RouteKind> {
    set n | n in nets :: ViaGw(n, gw)
  }

  function Hosts(hosts: seq<Ipv4>): seq<Ipv4Net> {
    seq(|hosts|, i requires 0 <= i < |hosts| => HostNet(hosts[i]))
  }

  /** Routes around the tunnel while an exit node is in use. */
  function BypassKinds(d: DesiredRoutes, gw: Ipv4): set<RouteKind> {
    GwKinds(d.splitCidrs, gw) + (if d.allowLocalLan then GwKinds(RFC1918, gw) else {}) +
    GwKinds(Hosts(d.underlayHosts), gw)
  }

  function KindSet(d: DesiredRoutes, gateway: Option<Ipv4>, allowDefault: bool): set<RouteKind> {
    TunKinds(d.remoteSubnets) + TunKinds(d.peerRoutes) +
    (if d.mode == Include then TunKinds(d.splitCidrs)
     else if !d.ExitExclude() then {}
     else
       (if allowDefault then {ViaTun(DEFAULT_NET)} else {}) +
       (if gateway.Some? then BypassKinds(d, gateway.value) else {}))
  }

  method AddTunRoutes(kinds: set<RouteKind>, nets: seq<Ipv4Net>) returns (r: set<RouteKind>)
    ensures r == kinds + TunKinds(nets)
  {
    r := kinds;
    for i := 0 to |nets|
      invariant r == kinds + TunKinds(nets[..i])
    {
      r := r + {ViaTun(nets[i])};
      assert nets[..i + 1] == nets[..i] + [nets[i]];
      assert TunKinds(nets[..i + 1]) == TunKinds(nets[..i]) + {ViaTun(nets[i])} by {
        assert nets[i] in nets[..i + 1];
      }
    }
    assert nets[..|nets|] == nets;
  }

  method AddGwRoutes(kinds: set<RouteKind>, nets: seq<Ipv4Net>, gw: Ipv4) returns (r: set<RouteKind>)
    ensures r == kinds + GwKinds(nets, gw)
  {
    r := kinds;
    for i := 0 to |nets|
      invariant r == kinds + GwKinds(nets[..i], gw)
    {
      r := r + {ViaGw(nets[i], gw)};
      assert nets[..i + 1] == nets[..i] + [nets[i]];
      assert GwKinds(nets[..i + 1], gw) == GwKinds(nets[..i], gw) + {ViaGw(nets[i], gw)} by {
        assert nets[i] in nets[..i + 1];
      }
    }
    assert nets[..|nets|] == nets;
  }

  /** The set filled loop by loop is the desired one. */
  method Kinds(d: DesiredRoutes, gateway: Option<Ipv4>, allowDefault: bool) returns (r: set<RouteKind>)
    ensures r == KindSet(d, gateway, allowDefault)
  {
    r := AddTunRoutes({}, d.remoteSubnets);
    r := AddTunRoutes(r, d.peerRoutes);
    match d.mode
    case Include =>
      r := AddTunRoutes(r, d.splitCidrs);
    case Exclude =>
      if d.hasExit || d.exitNode {
        if allowDefault {
          r := r + {ViaTun(DEFAULT_NET)};
        }
        if gateway.Some? {
          r := AddGwRoutes(r, d.splitCidrs, gateway.value);
          if d.allowLocalLan {
            r := AddGwRoutes(r, RFC1918, gateway.value);
          }
          r := AddGwRoutes(r, Hosts(d.underlayHosts), gateway.value);
        }
      }
  }

  /** The tunnel may take the default route only if traffic can still get around it. */
  predicate AllowDefault(d: DesiredRoutes, underlay: Option<Underlay>) {
    d.ExitExclude() ==> underlay.Some? && underlay.value.gateway.Some?
  }

  function GatewayOf(underlay: Option<Underlay>): Option<Ipv4> {
    if underlay.Some? then underlay.value.gateway else None
  }

  function SpecOf(k: RouteKind, underlay: Option<Underlay>, tunIndex: nat, tunName: string): Option<RouteSpec> {
    match k
    case ViaTun(n) => Some(RouteSpec(Identity(n, None, tunIndex), tunName))
    case ViaGw(n, gw) =>
      if underlay.Some?
      then Some(RouteSpec(Identity(n, Some(gw), underlay.value.ifIndex), underlay.value.ifName))
      else None
  }

  function ToSpecs(kinds: set<RouteKind>, underlay: Option<Underlay>, tunIndex: nat, tunName: string): set<RouteSpec> {
    set k | k in kinds && SpecOf(k, underlay, tunIndex, tunName).Some?
      :: SpecOf(k, underlay, tunIndex, tunName).value
  }

  /** The routes the agent wants in the kernel. */
  function WantSpecs(d: DesiredRoutes, underlay: Option<Underlay>, tunIndex: nat): set<RouteSpec> {
    ToSpecs(KindSet(d, GatewayOf(underlay), AllowDefault(d, underlay)), underlay, tunIndex, d.ifName)
  }

  /** A network is wanted through the tunnel for exactly these reasons. */
  lemma WantedThroughTunnel(d: DesiredRoutes, underlay: Option<Underlay>, tunIndex: nat, n: Ipv4Net)
    ensures RouteSpec(Identity(n, None, tunIndex), d.ifName) in WantSpecs(d, underlay, tunIndex) <==>
            || n in d.remoteSubnets
            || n in d.peerRoutes
            || (d.mode == Include && n in d.splitCidrs)
            || (&& (d.hasExit || d.exitNode) && d.mode == Exclude && n == Net(0, 0, 0)
                && underlay.Some? && underlay.value.gateway.Some?)
  {
    var kinds := KindSet(d, GatewayOf(underlay), AllowDefault(d, underlay));
    assert SpecOf(ViaTun(n), underlay, tunIndex, d.ifName).value == RouteSpec(Identity(n, None, tunIndex), d.ifName);
    assert RouteSpec(Identity(n, None, tunIndex), d.ifName) in WantSpecs(d, underlay, tunIndex) <==> ViaTun(n) in kinds;
  }

  /** The networks to be kept around an exit node's tunnel. */
  ghost predicate Bypasses(d: DesiredRoutes, n: Ipv4Net) {
    || n in d.splitCidrs
    || (d.allowLocalLan && (n == Net(10, 0, 8) || n == Net(0xAC1, 0, 12) || n == Net(0xC0A8, 0, 16)))
    || (exists host :: host in d.underlayHosts && n == Net(host, 0, 32))
  }

  /**
   Exactly which routes are wanted.  Through the tunnel: subnets, peers, included
   networks, and the default route for an exit node whose traffic can get around the
   tunnel.  Around it, through the underlay gateway: for an exit node, excluded
   networks, the private ranges if the local network is allowed, underlay hosts.
   */
  lemma WantedExactly(d: DesiredRoutes, underlay: Option<Underlay>, tunIndex: nat, w: RouteSpec)
    ensures var exit := (d.hasExit || d.exitNode) && d.mode == Exclude;
            var around := exit && underlay.Some? && underlay.value.gateway.Some?;
            w in WantSpecs(d, underlay, tunIndex) <==>
            if w.id.gateway.None? then
              && w == RouteSpec(Identity(w.id.dest, None, tunIndex), d.ifName)
              && (|| w.id.dest in d.remoteSubnets || w.id.dest in d.peerRoutes
                  || (d.mode == Include && w.id.dest in d.splitCidrs)
                  || (around && w.id.dest == Net(0, 0, 0)))
            else
              && around && Bypasses(d, w.id.dest)
              && w.id == Identity(w.id.dest, underlay.value.gateway, underlay.value.ifIndex)
              && w.ifName == underlay.value.ifName
  {
    var kinds := KindSet(d, GatewayOf(underlay), AllowDefault(d, underlay));
    if w.id.gateway.None? {
      assert SpecOf(ViaTun(w.id.dest), underlay, tunIndex, d.ifName) ==
             Some(RouteSpec(Identity(w.id.dest, None, tunIndex), d.ifName));
    } else {
      var k := ViaGw(w.id.dest, w.id.gateway.value);
      BypassExactly(d, w.id.gateway.value, w.id.dest);
      if underlay.Some? {
        assert SpecOf(k, underlay, tunIndex, d.ifName) ==
               Some(RouteSpec(Identity(w.id.dest, w.id.gateway, underlay.value.ifIndex), underlay.value.ifName));
      }
    }
  }

  lemma BypassExactly(d: DesiredRoutes, gw: Ipv4, n: Ipv4Net)
    ensures ViaGw(n, gw) in BypassKinds(d, gw) <==> Bypasses(d, n)
  {
    if host :| host in d.underlayHosts && n == Net(host, 0, 32) {
      var i :| 0 <= i < |d.underlayHosts| && d.underlayHosts[i] == host;
      assert Hosts(d.underlayHosts)[i] == n;
    }
    if n in Hosts(d.underlayHosts) {
      var i :| 0 <= i < |Hosts(d.underlayHosts)| && Hosts(d.underlayHosts)[i] == n;
      assert d.underlayHosts[i] in d.underlayHosts;
    }
  }

  /** Every underlay host gets an escape route when an exit node takes the default route. */
  lemma EscapesAreWanted(d: DesiredRoutes, underlay: Underlay, tunIndex: nat, host: Ipv4)
    requires d.ExitExclude() && underlay.gateway.Some? && host in d.underlayHosts
    ensures RouteSpec(Identity(HostNet(host), underlay.gateway, underlay.ifIndex), underlay.ifName)
            in WantSpecs(d, Some(underlay), tunIndex)
  {
    var gw := underlay.gateway.value;
    var i :| 0 <= i < |d.underlayHosts| && d.underlayHosts[i] == host;
    assert Hosts(d.underlayHosts)[i] == HostNet(host);
    assert ViaGw(HostNet(host), gw) in KindSet(d, underlay.gateway, true);
    assert SpecOf(ViaGw(HostNet(host), gw), Some(underlay), tunIndex, d.ifName).Some?;
  }
}
