/**
 The scheduler's map of peer states.  A finished sender removes its peer's
 entry, whichever state that entry names by then, while enqueuers may still
 hold the state it named before; several states of one peer can be alive.
 */
module QosScheduler {
  import opened QosTypes
  import opened QosProtocol
  import opened QosHandshake
  import opened QosWakeup

  type EndpointId = nat

  datatype Shared = Shared(endpoint: EndpointId, peer: Peer)

  /** `entries` names the current state of a peer; `states` are all ever created. */
  datatype World = World(mtu: Mtu, entries: map<EndpointId, nat>, states: map<nat, Shared>)

  datatype WorldStep =
    | Submit(endpoint: EndpointId, freshState: nat, id: nat, c: Class, packet: Packet)
    | Within(state: nat, step: Step)
    | RemoveEntry(state: nat, sender: nat)

  function InitWorld(mtu: Mtu): World {
    World(mtu, map[], map[])
  }

  function StepState(w: World, k: nat, step: Step): World
    requires k in w.states
  {
    w.(states := w.states[k := w.states[k].(peer := Apply(w.states[k].peer, step))])
  }

  function ApplyWorld(w: World, step: WorldStep): World {
    match step
    case Submit(e, k, id, c, p) =>
      if e in w.entries then
        (if w.entries[e] in w.states then StepState(w, w.entries[e], Arrive(id, c, p)) else w)
      else if k in w.states then w
      else
        var created := w.(entries := w.entries[e := k], states := w.states[k := Shared(e, Init(w.mtu))]);
        StepState(created, k, Arrive(id, c, p))
    case Within(k, s) => if k in w.states && !s.Arrive? then StepState(w, k, s) else w
    case RemoveEntry(k, i) =>
      if k in w.states && i in w.states[k].peer.senders && w.states[k].peer.senders[i].pc == Returned
      then w.(entries := w.entries - {w.states[k].endpoint})
      else w
  }

  function RunWorld(w: World, steps: seq<WorldStep>): World
    decreases |steps|
  {
    if steps == [] then w else ApplyWorld(RunWorld(w, steps[..|steps| - 1]), steps[|steps| - 1])
  }

  /** The state went through some run of the per-peer system. */
  ghost predicate IsRun(mtu: Mtu, s: Peer) {
    exists steps :: s == Run(Init(mtu), steps)
  }

  ghost predicate AllRuns(w: World) {
    forall k :: k in w.states ==> IsRun(w.mtu, w.states[k].peer)
  }

  lemma ExtendRun(mtu: Mtu, s: Peer, step: Step)
    requires IsRun(mtu, s)
    ensures IsRun(mtu, Apply(s, step))
  {
    var steps :| s == Run(Init(mtu), steps);
    assert (steps + [step])[..|steps|] == steps;
    assert Apply(s, step) == Run(Init(mtu), steps + [step]);
  }

  lemma StepStateKeepsRuns(w: World, k: nat, step: Step)
    requires AllRuns(w) && k in w.states
    ensures AllRuns(StepState(w, k, step))
  {
    ExtendRun(w.mtu, w.states[k].peer, step);
  }

  lemma StepKeepsRuns(w: World, step: WorldStep)
    requires AllRuns(w)
    ensures AllRuns(ApplyWorld(w, step)) && ApplyWorld(w, step).mtu == w.mtu
  {
    match step
    case Submit(e, k, id, c, p) =>
      if e in w.entries {
        if w.entries[e] in w.states {
          StepStateKeepsRuns(w, w.entries[e], Arrive(id, c, p));
        }
      } else if k !in w.states {
        assert Init(w.mtu) == Run(Init(w.mtu), []);
        var created := w.(entries := w.entries[e := k], states := w.states[k := Shared(e, Init(w.mtu))]);
        StepStateKeepsRuns(created, k, Arrive(id, c, p));
      }
    case Within(k, s) =>
      if k in w.states && !s.Arrive? {
        StepStateKeepsRuns(w, k, s);
      }
    case RemoveEntry(k, i) =>
  }

  /**
   However entries are created and removed, every peer state ever created,
   mapped or not, goes through a run of the per-peer system, so all that is
   proved of such runs holds of it.
   */
  lemma {:induction false} StatesAreRuns(mtu: Mtu, steps: seq<WorldStep>)
    ensures var w := RunWorld(InitWorld(mtu), steps); w.mtu == mtu && AllRuns(w)
    decreases |steps|
  {
    if steps == [] {
    } else {
      StatesAreRuns(mtu, steps[..|steps| - 1]);
      StepKeepsRuns(RunWorld(InitWorld(mtu), steps[..|steps| - 1]), steps[|steps| - 1]);
    }
  }

  // The map

  /** Every entry names a state of its own peer. */
  predicate EntriesOk(w: World) {
    forall e :: e in w.entries ==> w.entries[e] in w.states && w.states[w.entries[e]].endpoint == e
  }

  lemma {:induction false} RunKeepsEntries(mtu: Mtu, steps: seq<WorldStep>)
    ensures EntriesOk(RunWorld(InitWorld(mtu), steps))
    decreases |steps|
  {
    if steps == [] {
    } else {
      RunKeepsEntries(mtu, steps[..|steps| - 1]);
    }
  }

  /**
   After any run a submitted packet arrives as one call at the state its peer's
   entry names, which is a new and empty one exactly when there was no entry; no
   other state and no other entry is touched.
   */
  lemma SubmitLands(mtu: Mtu, steps: seq<WorldStep>, e: EndpointId, k: nat, id: nat, c: Class, p: Packet)
    requires var w := RunWorld(InitWorld(mtu), steps);
             && k !in w.states
             && (e in w.entries && w.entries[e] in w.states ==> id !in w.states[w.entries[e]].peer.enqueuers)
    ensures var w := RunWorld(InitWorld(mtu), steps); var t := ApplyWorld(w, Submit(e, k, id, c, p));
            && e in t.entries && (if e in w.entries then t.entries == w.entries else t.entries == w.entries[e := k])
            && var named := t.entries[e];
               && (e in w.entries ==> named in w.states)
               && named in t.states && t.states[named].endpoint == e
               && t.states[named].peer ==
                  (var before := if e in w.entries then w.states[named].peer else Init(mtu);
                   before.(enqueuers := before.enqueuers[id := Enqueuer(c, p, Push)]))
               && (forall o :: o != named ==> (o in t.states <==> o in w.states))
               && (forall o :: o != named && o in w.states ==> t.states[o] == w.states[o])
  {
    RunKeepsEntries(mtu, steps);
    StatesAreRuns(mtu, steps);
  }

  /** An entry goes exactly when a sender of a state of that peer has returned and says so; states stay as they are. */
  lemma RemovalTakesOneEntry(w: World, k: nat, i: nat)
    ensures var t := ApplyWorld(w, RemoveEntry(k, i));
            && t.states == w.states
            && (forall e :: e in t.entries <==>
                  && e in w.entries
                  && !(k in w.states && w.states[k].endpoint == e &&
                       i in w.states[k].peer.senders && w.states[k].peer.senders[i].pc == Returned))
            && (forall e :: e in t.entries ==> t.entries[e] == w.entries[e])
  {
  }

  /** No packet is stranded in a state that has lost, or lent out, its map entry. */
  lemma NoPacketIsStrandedAnywhere(mtu: Mtu, steps: seq<WorldStep>, k: nat, c: Class)
    requires var w := RunWorld(InitWorld(mtu), steps); k in w.states && w.states[k].peer.queues.Get(c) != []
    ensures Attended(RunWorld(InitWorld(mtu), steps).states[k].peer, c)
  {
    StatesAreRuns(mtu, steps);
    var s := RunWorld(InitWorld(mtu), steps).states[k].peer;
    var run :| s == Run(Init(mtu), run);
    NoPacketIsStranded(mtu, run, c);
  }

  /** Nor does one there depend on a timeout. */
  lemma TimeoutIsNotNeededAnywhere(mtu: Mtu, steps: seq<WorldStep>, k: nat, c: Class)
    returns (more: seq<Step>, j: nat)
    requires var w := RunWorld(InitWorld(mtu), steps); k in w.states && w.states[k].peer.queues.Get(c) != []
    ensures SendsPromptly(RunWorld(InitWorld(mtu), steps).states[k].peer, c, more, j)
  {
    StatesAreRuns(mtu, steps);
    var s := RunWorld(InitWorld(mtu), steps).states[k].peer;
    var run :| s == Run(Init(mtu), run);
    more, j := TimeoutIsNotNeeded(mtu, run, c);
    RunAppend(Init(mtu), run, more);
  }
}
