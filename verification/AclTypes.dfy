/** Policy bundles, rules, selectors and the flows they are matched against. */
module AclTypes {
  import opened Wrappers

  datatype Action = Allow | Deny

  datatype IcmpPolicy = AllowIcmp | AclIcmp | DenyIcmp

  datatype RuleScope = Organization | Network

  datatype EvalReason = OrgDeny | NetworkDeny | NetworkAllow | DefaultAllow | DefaultDeny | IcmpGate | PostureSkip

  datatype EvalVerdict = EvalVerdict(
    action: Action, reason: EvalReason, ruleSlug: Option<string>, scope: Option<RuleScope>)

  datatype Protocol = Tcp | Udp | Icmp | Icmpv6 | Any | Other(number: nat) {
    predicate MatchesRule(rule: Option<Protocol>) {
      rule.None? || rule.value == Any || rule.value == this
    }

    predicate IsIcmp() {
      Icmp? || Icmpv6?
    }
  }

  datatype IpAddr = V4(bits: nat) | V6(bits: nat)

  datatype IpNet = V4Net(addr: nat, prefix: nat) | V6Net(addr: nat, prefix: nat) {
    /** Same family, and the same bits up to the prefix. */
    predicate Contains(ip: IpAddr) {
      match this
      case V4Net(addr, prefix) => ip.V4? && SamePrefix(addr, ip.bits, 32, prefix)
      case V6Net(addr, prefix) => ip.V6? && SamePrefix(addr, ip.bits, 128, prefix)
    }
  }

  function Pow2(n: nat): (r: nat)
    ensures r > 0
  {
    if n == 0 then 1 else 2 * Pow2(n - 1)
  }

  predicate SamePrefix(a: nat, b: nat, width: nat, prefix: nat) {
    prefix <= width && a / Pow2(width - prefix) == b / Pow2(width - prefix)
  }

  /** Sharing a prefix is lying between the network's first and last address. */
  lemma PrefixIsRange(addr: nat, ip: nat, width: nat, prefix: nat)
    requires prefix <= width
    ensures var size := Pow2(width - prefix); var first := addr - addr % size;
            SamePrefix(addr, ip, width, prefix) <==> first <= ip <= first + size - 1
  {
    var size := Pow2(width - prefix);
    var q, x := addr / size, ip / size;
    assert addr == q * size + addr % size && ip == x * size + ip % size;
    if x < q {
      Scale(x + 1, q, size);
    } else if q < x {
      Scale(q + 1, x, size);
    }
  }

  lemma Scale(a: int, b: int, m: nat)
    requires a <= b
    ensures a * m <= b * m
  {
  }

  datatype Selector =
    | AnyEndpoint
    | Endpoint(id: string)
    | Tag(tag: string)
    | NetworkName(name: string)
    | Cidr(net: IpNet)
    | User(user: string)

  datatype PortRange = PortRange(start: nat, end: nat) {
    predicate Contains(p: nat) {
      start <= p <= end
    }
  }

  datatype PolicyRule = PolicyRule(
    src: Selector,
    dst: Selector,
    action: Action,
    ports: seq<PortRange>,
    protocol: Option<Protocol>,
    priority: int,
    orderIndex: int,
    scope: RuleScope,
    enabled: bool,
    slug: Option<string>,
    srcPosture: seq<string>)

  datatype PolicyBundle = PolicyBundle(
    rules: seq<PolicyRule>,
    version: nat,
    signature: string,
    defaultAction: Action,
    icmpPolicy: IcmpPolicy)

  /** One side of a flow: a mesh member, or an external target without identity. */
  datatype FlowEndpoint = FlowEndpoint(hex: string, tags: seq<string>, network: string, ip: Option<IpAddr>)

  function External(ip: Option<IpAddr>): FlowEndpoint {
    FlowEndpoint("", [], "", ip)
  }

  datatype FlowContext = FlowContext(
    src: FlowEndpoint,
    dst: FlowEndpoint,
    protocol: Protocol,
    dstPort: Option<nat>,
    srcPostureOk: bool)

  /** The facts one node has about a packet between itself and a peer, for either address family. */
  datatype EvalCtx = EvalCtx(
    selfHex: string,
    selfIp: IpAddr,
    selfTags: seq<string>,
    selfNetwork: string,
    peerHex: string,
    peerIp: Option<IpAddr>,
    peerTags: seq<string>,
    peerNetwork: string,
    dstPort: Option<nat>,
    protocol: Protocol,
    srcPostureOk: bool)

  datatype Direction = Inbound | Outbound

  function Lower(c: char): char {
    if 'A' <= c <= 'Z' then c - 'A' + 'a' else c
  }

  predicate EqIgnoreAsciiCase(a: string, b: string) {
    |a| == |b| && forall i :: 0 <= i < |a| ==> Lower(a[i]) == Lower(b[i])
  }

  predicate MatchesEndpoint(s: Selector, hex: string, tags: seq<string>, network: string, ip: Option<IpAddr>) {
    match s
    case AnyEndpoint => true
    case Endpoint(id) => EqIgnoreAsciiCase(id, hex)
    case Tag(t) => t in tags
    case NetworkName(n) => n == network
    case Cidr(net) => ip.Some? && net.Contains(ip.value)
    case User(id) => exists t :: t in tags && (t == "user:" + id || EqIgnoreAsciiCase(t, id))
  }

  predicate ProtoPortOk(r: PolicyRule, protocol: Protocol, dstPort: Option<nat>) {
    if !protocol.MatchesRule(r.protocol) then false
    else if protocol.IsIcmp() then true
    else if protocol.Other? then r.ports == []
    else r.ports == [] || (dstPort.Some? && exists range :: range in r.ports && range.Contains(dstPort.value))
  }

  predicate RuleMatchesFlow(r: PolicyRule, flow: FlowContext) {
    && MatchesEndpoint(r.src, flow.src.hex, flow.src.tags, flow.src.network, flow.src.ip)
    && MatchesEndpoint(r.dst, flow.dst.hex, flow.dst.tags, flow.dst.network, flow.dst.ip)
    && ProtoPortOk(r, flow.protocol, flow.dstPort)
  }

  /** Direction decides which of the two nodes the rule's source selector is held against. */
  predicate RuleMatches(r: PolicyRule, ctx: EvalCtx, direction: Direction) {
    var srcOk := match direction
      case Inbound => MatchesEndpoint(r.src, ctx.peerHex, ctx.peerTags, ctx.peerNetwork, ctx.peerIp)
      case Outbound => MatchesEndpoint(r.src, ctx.selfHex, ctx.selfTags, ctx.selfNetwork, Some(ctx.selfIp));
    var dstOk := match direction
      case Inbound => MatchesEndpoint(r.dst, ctx.selfHex, ctx.selfTags, ctx.selfNetwork, Some(ctx.selfIp))
      case Outbound => MatchesEndpoint(r.dst, ctx.peerHex, ctx.peerTags, ctx.peerNetwork, ctx.peerIp);
    srcOk && dstOk && ProtoPortOk(r, ctx.protocol, ctx.dstPort)
  }

  /**
   An external side has no identity, so besides an unrestricted selector only a
   CIDR can match it, except that an empty endpoint id or network name matches
   the empty strings an external side carries.
   */
  lemma ExternalMatches(s: Selector, ip: Option<IpAddr>)
    ensures var e := External(ip);
            MatchesEndpoint(s, e.hex, e.tags, e.network, e.ip) <==>
            || s.AnyEndpoint?
            || (s.Cidr? && ip.Some? && s.net.Contains(ip.value))
            || s == Endpoint("")
            || s == NetworkName("")
  {
    match s
    case Endpoint(id) => assert |id| == 0 ==> id == "";
    case _ =>
  }
}
