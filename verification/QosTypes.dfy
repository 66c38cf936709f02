/** Traffic classes, caps, quanta and byte counts of the per-peer scheduler. */
module QosTypes {

  const USIZE_MAX: nat := 0xFFFF_FFFF_FFFF_FFFF

  /** A datagram's bytes; its length is a `usize`. */
  type Packet = p: seq<bv8> | |p| <= USIZE_MAX witness []

  /** The scheduler clamps the configured u16 MTU from below. */
  type Mtu = m: nat | 576 <= m <= 65535 witness 576

  datatype Class = Latency | Normal | Bulk

  /** One value for each of the three classes. */
  datatype PerClass<T> = PerClass(latency: T, normal: T, bulk: T) {
    function Get(c: Class): T {
      match c
      case Latency => latency
      case Normal => normal
      case Bulk => bulk
    }

    function Set(c: Class, x: T): (r: PerClass<T>)
      ensures r.Get(c) == x
      ensures forall k :: k != c ==> r.Get(k) == Get(k)
    {
      match c
      case Latency => this.(latency := x)
      case Normal => this.(normal := x)
      case Bulk => this.(bulk := x)
    }
  }

  function Cap(c: Class): nat {
    match c
    case Latency => 64
    case Normal => 256
    case Bulk => 512
  }

  function Weight(c: Class): nat {
    match c
    case Latency => 8
    case Normal => 4
    case Bulk => 1
  }

  function Quantum(c: Class, mtu: Mtu): nat {
    Weight(c) * mtu
  }

  lemma {:induction false} QuantumBound(c: Class, mtu: Mtu)
    ensures Quantum(c, mtu) <= 8 * mtu
  {
    match c
    case Latency =>
    case Normal =>
    case Bulk =>
  }

  function SaturatingAdd(a: nat, b: nat): nat {
    if a + b <= USIZE_MAX then a + b else USIZE_MAX
  }

  /** Position of a class in the fixed service order. */
  function Rank(c: Class): nat {
    match c
    case Latency => 0
    case Normal => 1
    case Bulk => 2
  }
}
