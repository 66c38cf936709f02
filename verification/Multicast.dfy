/**
 Which platform host holds the multicast lock.  Binding a host stamps it with an
 epoch, so that a handle to a host since released is dead.
 */
module Multicast {
  import opened Wrappers

  /** Epochs are 64-bit counters. */
  const EPOCHS: nat := 0x1_0000_0000_0000_0000

  /** The platform owner of multicast reception; `calls` is what it was told, oldest first. */
  class Host {
    var calls: seq<bool>

    constructor ()
      ensures calls == []
    {
      calls := [];
    }

    method SetHeld(held: bool)
      modifies this
      ensures calls == old(calls) + [held]
    {
      calls := calls + [held];
    }
  }

  /** What a host was told last. */
  ghost predicate LastTold(h: Host, held: bool)
    reads h
  {
    h.calls != [] && h.calls[|h.calls| - 1] == held
  }

  datatype BoundHost = BoundHost(epoch: nat, inner: Host)

  class Demand {
    var host: Option<BoundHost>
    var epoch: nat
    var needed: bool

    /** Every host ever bound, and how often the epoch had been advanced by then. */
    ghost var bound: seq<Host>
    ghost var stamps: seq<nat>
    ghost var advances: nat

    ghost function Hosts(): set<Host>
      reads this
    {
      set h | h in bound
    }

    ghost predicate Wellformed()
      reads this
    {
      && epoch == advances % EPOCHS
      && |bound| == |stamps|
      && (forall i, j :: 0 <= i < j < |bound| ==> bound[i] != bound[j])
      && (forall i :: 0 <= i < |stamps| ==> stamps[i] <= advances)
      && (forall i :: 0 <= i < |stamps| - 1 ==> stamps[i] < advances)
      && (host.None? && bound != [] ==> stamps[|bound| - 1] < advances)
      && (host.Some? ==>
            && bound != [] && host.value == BoundHost(epoch, bound[|bound| - 1])
            && stamps[|bound| - 1] == advances)
    }

    /** Whether the i-th host bound is the one bound now. */
    ghost predicate Current(i: nat)
      reads this
    {
      host.Some? && i == |bound| - 1
    }

    /** The bound host was last told the demand, every other one to let go. */
    ghost predicate Valid()
      reads this, Hosts()
    {
      Wellformed() && forall i :: 0 <= i < |bound| ==> LastTold(bound[i], Current(i) && needed)
    }

    constructor ()
      ensures Valid() && host.None? && !needed && bound == []
    {
      host, epoch, needed := None, 0, false;
      bound, stamps, advances := [], [], 0;
    }

    method Advance()
      modifies this`epoch, this`advances
      requires epoch == advances % EPOCHS
      ensures advances == old(advances) + 1 && epoch == advances % EPOCHS
    {
      epoch := (epoch + 1) % EPOCHS;
      advances := advances + 1;
    }

    /** A call through a handle reaches its host only in the handle's own epoch. */
    method SetHeldThrough(handle: BoundHost, held: bool)
      modifies handle.inner
      ensures handle.inner.calls ==
              if handle.epoch == epoch then old(handle.inner.calls) + [held] else old(handle.inner.calls)
    {
      if epoch != handle.epoch {
        return;
      }
      handle.inner.SetHeld(held);
    }

    method ReleaseCurrentHost()
      requires Valid()
      modifies this`host, this`epoch, this`advances, Hosts()
      ensures Valid() && host.None? && needed == old(needed)
      ensures advances == old(advances) + 1
    {
      var released := host;
      host := None;
      Advance();
      if released.Some? {
        released.value.inner.SetHeld(false);
      }
    }

    method Apply()
      requires Wellformed()
      requires forall i :: 0 <= i < |bound| && !Current(i) ==> LastTold(bound[i], false)
      modifies Hosts()
      ensures Valid()
    {
      if host.Some? {
        SetHeldThrough(host.value, needed);
      }
    }

    /** Bind a host nobody else holds: the one before is told to let go, the new one what is needed now. */
    method SetMulticastHost(h: Host)
      requires Valid() && h !in Hosts()
      modifies this, Hosts(), h
      ensures Valid() && needed == old(needed)
      ensures bound == old(bound) + [h] && host == Some(BoundHost(epoch, h))
      ensures stamps == old(stamps) + [advances] && advances == old(advances) + 2
    {
      ReleaseCurrentHost();
      Advance();
      host := Some(BoundHost(epoch, h));
      bound, stamps := bound + [h], stamps + [advances];
      Apply();
    }

    method ClearMulticastHost()
      requires Valid()
      modifies this`host, this`epoch, this`advances, Hosts()
      ensures Valid() && host.None? && needed == old(needed)
    {
      ReleaseCurrentHost();
    }

    method SetNeeded(need: bool)
      requires Valid()
      modifies this`needed, Hosts()
      ensures Valid() && needed == need
    {
      needed := need;
      Apply();
    }

    /** A lease asks for multicast while it lives; returns whether dropping it withdraws the demand. */
    method Request(need: bool) returns (active: bool)
      requires Valid()
      modifies this`needed, Hosts()
      ensures Valid() && needed == need && active == need
    {
      SetNeeded(need);
      active := need;
    }

    method DropLease(active: bool)
      requires Valid()
      modifies this`needed, Hosts()
      ensures Valid() && needed == (!active && old(needed))
    {
      if active {
        SetNeeded(false);
      }
    }

    /**
     A kept handle to a host since released changes nothing, as long as the epoch
     has not come round.  It comes alive again exactly when the epoch has advanced
     by a multiple of the counter's range since the binding.
     */
    method StaleSetHeld(handle: BoundHost, ghost i: nat, held: bool)
      requires Valid() && i < |bound| && !Current(i)
      requires handle == BoundHost(stamps[i] % EPOCHS, bound[i])
      modifies handle.inner
      ensures advances - stamps[i] < EPOCHS ==> Valid()
      ensures handle.inner.calls == if (advances - stamps[i]) % EPOCHS == 0 then old(handle.inner.calls) + [held]
                                    else old(handle.inner.calls)
    {
      EpochsMeet(stamps[i], advances);
      SetHeldThrough(handle, held);
    }
  }

  lemma EpochsMeet(a: nat, b: nat)
    requires a <= b
    ensures a % EPOCHS == b % EPOCHS <==> (b - a) % EPOCHS == 0
  {
    var k := (b - a) / EPOCHS;
    var r := (b - a) % EPOCHS;
    assert b == a + r + k * EPOCHS;
  }
}
