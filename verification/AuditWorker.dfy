/** The worker and the primary sink as they run, proved to follow the transition system. */
module AuditWorker {
  import opened Wrappers
  import opened AuditTypes
  import opened AuditChain
  import opened AuditStore
  import opened AuditSystem

  /** Split a batch by organisation. */
  method GroupByOrg(batch: seq<AuditEvent>) returns (byOrg: map<string, seq<AuditEvent>>)
    ensures byOrg == Grouped(batch)
  {
    byOrg := map[];
    for i := 0 to |batch|
      invariant byOrg == Grouped(batch[..i])
    {
      var e := batch[i];
      var org := e.organizationId;
      GroupedGrows(batch[..i], e);
      assert batch[..i + 1] == batch[..i] + [e];
      byOrg := byOrg[org := (if org in byOrg then byOrg[org] else []) + [e]];
    }
    assert batch[..|batch|] == batch;
  }

  lemma {:induction false} OrgsGrow(batch: seq<AuditEvent>, e: AuditEvent)
    ensures Orgs(batch + [e]) == Orgs(batch) + {e.organizationId}
  {
    forall o | o in Orgs(batch) + {e.organizationId} ensures o in Orgs(batch + [e]) {
      var x :| (x in batch || x == e) && x.organizationId == o;
      assert x in batch + [e];
    }
  }

  lemma {:induction false} OfOrgGrows(batch: seq<AuditEvent>, e: AuditEvent, o: string)
    ensures OfOrg(batch + [e], o) == if o == e.organizationId then OfOrg(batch, o) + [e] else OfOrg(batch, o)
  {
    OfOrgConcat(batch, [e], o);
    assert [e][1..] == [];
  }

  lemma {:induction false} GroupedGrows(batch: seq<AuditEvent>, e: AuditEvent)
    ensures var g := Grouped(batch); var org := e.organizationId;
            Grouped(batch + [e]) == g[org := (if org in g then g[org] else []) + [e]]
  {
    var g, org := Grouped(batch), e.organizationId;
    var h := g[org := (if org in g then g[org] else []) + [e]];
    OrgsGrow(batch, e);
    forall o | o in Orgs(batch) + {org} ensures OfOrg(batch + [e], o) == h[o] {
      OfOrgGrows(batch, e, o);
      if o !in Orgs(batch) {
        NoneOfOrg(batch, o);
      }
    }
    assert Grouped(batch + [e]).Keys == h.Keys;
  }

  predicate NonEmptyGroups(groups: map<string, seq<AuditEvent>>) {
    forall org :: org in groups ==> groups[org] != []
  }

  lemma {:induction false} GroupsAreNonEmpty(batch: seq<AuditEvent>)
    ensures NonEmptyGroups(Grouped(batch))
  {
    forall org | org in Grouped(batch) ensures OfOrg(batch, org) != [] {
      var e :| e in batch && e.organizationId == org;
      assert e in OfOrg(batch, org);
    }
  }

  class Sink {
    const hash: Hasher
    const db: Storage
    var tables: map<string, seq<Row>>

    constructor (hash: Hasher, db: Storage)
      ensures this.hash == hash && this.db == db && tables == map[]
    {
      this.hash := hash;
      this.db := db;
      tables := map[];
    }

    function RowsOf(org: string): seq<Row>
      reads this
    {
      if org in tables then tables[org] else []
    }

    /**
     Chain and insert one organisation's batch in a transaction that may fail to
     commit; a rejected insert or a failed commit leaves the table as it was.
     */
    method FlushOrgBatch(org: string, events: array<AuditEvent>, commits: bool) returns (ok: bool)
      modifies this, events
      ensures var result := Flush(hash, db, old(RowsOf(org)), old(events[..]));
              && (ok <==> old(events[..]) == [] || (commits && result.Some?))
              && tables == if ok && old(events[..]) != [] then old(tables)[org := result.value] else old(tables)
    {
      if events.Length == 0 {
        return true;
      }
      var rows := RowsOf(org);
      ChainEvents(hash, events, TipSeq(rows), TipPrev(rows));
      ghost var all := events[..];
      var inserted := [];
      for i := 0 to events.Length
        invariant tables == old(tables) && events[..] == all
        invariant StoreAll(db, all[..i]) == Some(inserted)
      {
        var row := StoreRow(db, events[i]);
        StoreNext(db, all, i);
        if row.None? {
          return false;
        }
        inserted := inserted + [row.value];
      }
      assert all[..|all|] == all;
      if !commits {
        return false;
      }
      tables := tables[org := rows + inserted];
      return true;
    }
  }

  /** Storing goes on with one more row, or fails as a whole. */
  lemma {:induction false} StoreNext(db: Storage, all: seq<AuditEvent>, i: nat)
    requires i < |all| && StoreAll(db, all[..i]).Some?
    ensures var row := StoreRow(db, all[i]);
            if row.Some? then StoreAll(db, all[..i + 1]) == Some(StoreAll(db, all[..i]).value + [row.value])
            else StoreAll(db, all).None?
  {
    assert all[..i + 1] == all[..i] + [all[i]];
    StoreOneMore(db, all[..i], all[i]);
    if StoreRow(db, all[i]).None? {
      assert all == all[..i + 1] + all[i + 1..];
      StoreAllConcat(db, all[..i + 1], all[i + 1..]);
    }
  }

  lemma {:induction false} StoreOneMore(db: Storage, events: seq<AuditEvent>, e: AuditEvent)
    requires StoreAll(db, events).Some?
    ensures StoreAll(db, events + [e]) ==
            if StoreRow(db, e).Some? then Some(StoreAll(db, events).value + [StoreRow(db, e).value]) else None
  {
    StoreAllConcat(db, events, [e]);
    assert [e][1..] == [] && StoreAll(db, []) == Some([]);
    if StoreRow(db, e).Some? {
      assert [StoreRow(db, e).value] + [] == [StoreRow(db, e).value];
    }
  }

  // One worker from start to end of its channel

  /** What the worker's select loop sees: an event, or a tick of its interval. */
  datatype Input = Event(event: AuditEvent) | Elapsed

  function EventsOf(inputs: seq<Input>): seq<AuditEvent> {
    if inputs == [] then []
    else
      var last := inputs[|inputs| - 1];
      EventsOf(inputs[..|inputs| - 1]) + (if last.Event? then [last.event] else [])
  }

  predicate AllStored(log: seq<Commit>) {
    forall c :: c in log ==> c.stored
  }

  lemma {:induction false} CommittedIsAttempted(log: seq<Commit>, i: nat, org: string)
    requires AllStored(log) && forall c :: c in log ==> c.worker == i
    ensures Committed(log, org) == Attempted(log, i, org)
  {
    if log == [] {
    } else {
      assert log[|log| - 1] in log && forall c :: c in log[..|log| - 1] ==> c in log;
      CommittedIsAttempted(log[..|log| - 1], i, org);
    }
  }

  lemma {:induction false} OnlyWorkerLogs(hash: Hasher, db: Storage, i: nat, size: nat, steps: seq<Step>)
    ensures var s := Run(hash, db, Init(map[i := size]), steps);
            s.workers.Keys == {i} && forall c :: c in s.log ==> c.worker == i
    decreases |steps|
  {
    if steps == [] {
    } else {
      OnlyWorkerLogs(hash, db, i, size, steps[..|steps| - 1]);
    }
  }

  /** A single worker over its own sink; `steps` records the run it has gone through. */
  class AuditWorker {
    const sink: Sink
    const batchSize: nat
    var batch: seq<AuditEvent>
    ghost var steps: seq<Step>

    ghost function State(): System
      reads this
    {
      AuditSystem.Run(sink.hash, sink.db, Init(map[0 := batchSize]), steps)
    }

    /** The table and the worker's fields are those the recorded run leads to. */
    ghost predicate Matches(held: seq<AuditEvent>, flushing: map<string, seq<AuditEvent>>)
      reads this, sink
    {
      var s := State();
      && s.tables == sink.tables
      && 0 in s.workers && s.workers[0].batch == held && s.workers[0].flushing == flushing
      && s.workers[0].batchSize == batchSize
    }

    ghost predicate Valid()
      reads this, sink
    {
      Matches(batch, map[])
    }

    ghost predicate Open()
      reads this
    {
      0 in State().workers && !State().workers[0].closed
    }

    ghost function Received(): seq<AuditEvent>
      reads this
    {
      if 0 in State().workers then State().workers[0].received else []
    }

    constructor (sink: Sink, batchSize: nat)
      requires sink.tables == map[]
      ensures Valid() && Open() && Received() == [] && this.sink == sink && this.batchSize == batchSize
    {
      this.sink := sink;
      this.batchSize := batchSize;
      batch := [];
      steps := [];
    }

    ghost method Record(step: Step)
      modifies this`steps
      ensures State() == Apply(sink.hash, sink.db, old(State()), step)
    {
      steps := steps + [step];
      assert steps[..|steps| - 1] == old(steps);
    }

    /** The transaction for one group of those still to be flushed. */
    method FlushGroup(byOrg: map<string, seq<AuditEvent>>, org: string, commits: bool)
      requires Matches(batch, byOrg) && org in byOrg && byOrg[org] != []
      modifies this`steps, sink
      ensures Matches(batch, byOrg - {org})
      ensures State().workers[0] == old(State()).workers[0].(flushing := byOrg - {org})
    {
      var group := byOrg[org];
      var events := new AuditEvent[|group|](i requires 0 <= i < |group| => group[i]);
      assert events[..] == group;
      var stored := sink.FlushOrgBatch(org, events, commits);
      Record(Transact(0, org, commits));
    }

    /** One transaction per group, in any order; `commits` says which of them go through. */
    method FlushGroups(groups: map<string, seq<AuditEvent>>, commits: string -> bool)
      requires Matches(batch, groups) && NonEmptyGroups(groups)
      modifies this`steps, sink
      ensures Valid()
      ensures State().workers[0] == old(State()).workers[0].(flushing := map[])
    {
      var byOrg := groups;
      while byOrg != map[]
        invariant Matches(batch, byOrg) && NonEmptyGroups(byOrg)
        invariant State().workers[0] == old(State()).workers[0].(flushing := byOrg)
        decreases |byOrg|
      {
        var org :| org in byOrg;
        FlushGroup(byOrg, org, commits(org));
        byOrg := byOrg - {org};
      }
    }

    /** Drain the batch into groups and flush them; the run has already moved them. */
    method FlushBatch(commits: string -> bool)
      requires Matches([], Grouped(batch))
      modifies this, sink
      ensures Valid() && batch == []
      ensures State().workers[0] == old(State()).workers[0].(flushing := map[])
    {
      var byOrg := GroupByOrg(batch);
      GroupsAreNonEmpty(batch);
      batch := [];
      FlushGroups(byOrg, commits);
    }

    method OnEvent(e: AuditEvent, commits: string -> bool)
      requires Valid() && Open()
      modifies this, sink
      ensures Valid() && Open() && Received() == old(Received()) + [e]
      ensures batch == if |old(batch)| + 1 >= batchSize then [] else old(batch) + [e]
    {
      batch := batch + [e];
      Record(Receive(0, e));
      if |batch| >= batchSize {
        FlushBatch(commits);
      }
    }

    method OnElapsed(commits: string -> bool)
      requires Valid() && Open()
      modifies this, sink
      ensures Valid() && Open() && Received() == old(Received()) && batch == []
    {
      Record(Tick(0));
      if batch != [] {
        FlushBatch(commits);
      }
    }

    method OnClosed(commits: string -> bool)
      requires Valid() && Open()
      modifies this, sink
      ensures Valid() && !Open() && Received() == old(Received()) && batch == []
    {
      Record(Close(0));
      if batch != [] {
        FlushBatch(commits);
      }
    }

    /**
     Serve the channel until it closes.  Whatever the ticks, batch boundaries and
     failing transactions: every event received went into exactly one
     transaction, in arrival order within its organisation; the rows of an
     organisation are one ledger of its committed events; and if no transaction
     failed, they are the ledger of all its events.
     */
    method Serve(inputs: seq<Input>, commits: (nat, string) -> bool)
      requires Valid() && Open() && Received() == []
      modifies this, sink
      ensures Valid() && !Open() && batch == []
      ensures forall org :: OfOrg(EventsOf(inputs), org) == Attempted(State().log, 0, org)
      ensures forall org :: LedgerRows(sink.hash, sink.db, Committed(State().log, org)) == Some(sink.RowsOf(org))
      ensures AllStored(State().log) ==>
                forall org :: LedgerRows(sink.hash, sink.db, OfOrg(EventsOf(inputs), org)) == Some(sink.RowsOf(org))
    {
      for i := 0 to |inputs|
        invariant Valid() && Open() && Received() == EventsOf(inputs[..i])
      {
        assert inputs[..i + 1][..i] == inputs[..i];
        match inputs[i] {
          case Event(e) => OnEvent(e, org => commits(i, org));
          case Elapsed => OnElapsed(org => commits(i, org));
        }
      }
      assert inputs[..|inputs|] == inputs;
      OnClosed(org => commits(|inputs|, org));
      ServedAll(inputs);
    }

    lemma {:induction false} ServedAll(inputs: seq<Input>)
      requires Valid() && batch == [] && Received() == EventsOf(inputs)
      ensures forall org :: OfOrg(EventsOf(inputs), org) == Attempted(State().log, 0, org)
      ensures forall org :: LedgerRows(sink.hash, sink.db, Committed(State().log, org)) == Some(sink.RowsOf(org))
      ensures AllStored(State().log) ==>
                forall org :: LedgerRows(sink.hash, sink.db, OfOrg(EventsOf(inputs), org)) == Some(sink.RowsOf(org))
    {
      var s := State();
      forall org
        ensures OfOrg(EventsOf(inputs), org) == Attempted(s.log, 0, org)
        ensures LedgerRows(sink.hash, sink.db, Committed(s.log, org)) == Some(sink.RowsOf(org))
        ensures AllStored(s.log) ==> Committed(s.log, org) == Attempted(s.log, 0, org)
      {
        RunsStoreTheLedger(sink.hash, sink.db, map[0 := batchSize], steps, org);
        assert Attempted(s.log, 0, org) + [] == Attempted(s.log, 0, org);
        assert Pending(s.workers[0], org) == [];
        OnlyWorkerLogs(sink.hash, sink.db, 0, batchSize, steps);
        if AllStored(s.log) {
          CommittedIsAttempted(s.log, 0, org);
        }
      }
    }
  }
}
