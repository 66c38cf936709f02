/**
 Audit workers and the shared table as a transition system.  Any number of
 workers collect events into batches, group a full or ticked batch by
 organisation and flush the groups one transaction at a time; transactions of
 different workers interleave, and any of them may fail without effect.
 */
module AuditSystem {
  import opened Wrappers
  import opened AuditTypes
  import opened AuditChain
  import opened AuditStore
  import opened AuditTip

  function OfOrg(events: seq<AuditEvent>, org: string): (r: seq<AuditEvent>)
    ensures forall e :: e in r <==> e in events && e.organizationId == org
  {
    if events == [] then []
    else if events[0].organizationId == org then [events[0]] + OfOrg(events[1..], org)
    else OfOrg(events[1..], org)
  }

  lemma {:induction false} OfOrgConcat(a: seq<AuditEvent>, b: seq<AuditEvent>, org: string)
    ensures OfOrg(a + b, org) == OfOrg(a, org) + OfOrg(b, org)
    decreases |a|
  {
    if a == [] {
      assert a + b == b;
    } else {
      assert (a + b)[1..] == a[1..] + b;
      OfOrgConcat(a[1..], b, org);
    }
  }

  function Orgs(events: seq<AuditEvent>): set<string> {
    set e | e in events :: e.organizationId
  }

  /** The batch split by organisation, each group in arrival order. */
  function Grouped(batch: seq<AuditEvent>): map<string, seq<AuditEvent>> {
    map org | org in Orgs(batch) :: OfOrg(batch, org)
  }

  datatype Worker = Worker(
    batchSize: nat,
    batch: seq<AuditEvent>,
    flushing: map<string, seq<AuditEvent>>,
    received: seq<AuditEvent>,
    closed: bool)

  /** One attempted transaction, and whether it took effect. */
  datatype Commit = Commit(worker: nat, org: string, events: seq<AuditEvent>, stored: bool)

  datatype System = System(tables: map<string, seq<Row>>, workers: map<nat, Worker>, log: seq<Commit>)

  datatype Step =
    | Receive(worker: nat, event: AuditEvent)
    | Tick(worker: nat)
    | Close(worker: nat)
    | Transact(worker: nat, org: string, commits: bool)

  function RowsOf(s: System, org: string): seq<Row> {
    if org in s.tables then s.tables[org] else []
  }

  function StartFlush(w: Worker): Worker {
    w.(batch := [], flushing := Grouped(w.batch))
  }

  function OnReceive(w: Worker, e: AuditEvent): Worker {
    var fed := w.(batch := w.batch + [e], received := w.received + [e]);
    if |fed.batch| >= fed.batchSize then StartFlush(fed) else fed
  }

  function OnTick(w: Worker): Worker {
    if w.batch != [] then StartFlush(w) else w
  }

  function AfterTransact(hash: Hasher, db: Storage, s: System, i: nat, org: string, commits: bool): System
    requires i in s.workers && org in s.workers[i].flushing
  {
    var w := s.workers[i];
    var events := w.flushing[org];
    var result := Flush(hash, db, RowsOf(s, org), events);
    var stored := commits && result.Some?;
    System(
      if stored then s.tables[org := result.value] else s.tables,
      s.workers[i := w.(flushing := w.flushing - {org})],
      s.log + [Commit(i, org, events, stored)])
  }

  /** A worker reads its channel and ticks only between flushes; other steps stutter. */
  function Apply(hash: Hasher, db: Storage, s: System, step: Step): System {
    match step
    case Receive(i, e) =>
      if i in s.workers && s.workers[i].flushing == map[] && !s.workers[i].closed
      then s.(workers := s.workers[i := OnReceive(s.workers[i], e)]) else s
    case Tick(i) =>
      if i in s.workers && s.workers[i].flushing == map[] && !s.workers[i].closed
      then s.(workers := s.workers[i := OnTick(s.workers[i])]) else s
    case Close(i) =>
      if i in s.workers && s.workers[i].flushing == map[] && !s.workers[i].closed
      then s.(workers := s.workers[i := OnTick(s.workers[i]).(closed := true)]) else s
    case Transact(i, org, commits) =>
      if i in s.workers && org in s.workers[i].flushing
      then AfterTransact(hash, db, s, i, org, commits) else s
  }

  function Init(sizes: map<nat, nat>): System {
    System(map[], map i | i in sizes :: Worker(sizes[i], [], map[], [], false), [])
  }

  function Run(hash: Hasher, db: Storage, s: System, steps: seq<Step>): System
    decreases |steps|
  {
    if steps == [] then s
    else Apply(hash, db, Run(hash, db, s, steps[..|steps| - 1]), steps[|steps| - 1])
  }

  // What the log says

  /** Events of one organisation whose transactions took effect, in commit order. */
  function Committed(log: seq<Commit>, org: string): seq<AuditEvent> {
    if log == [] then []
    else
      var last := log[|log| - 1];
      Committed(log[..|log| - 1], org) + (if last.org == org && last.stored then last.events else [])
  }

  /** Events of one organisation that one worker has tried to store, in order, failed batches included. */
  function Attempted(log: seq<Commit>, i: nat, org: string): seq<AuditEvent> {
    if log == [] then []
    else
      var last := log[|log| - 1];
      Attempted(log[..|log| - 1], i, org) + (if last.worker == i && last.org == org then last.events else [])
  }

  function Pending(w: Worker, org: string): seq<AuditEvent> {
    (if org in w.flushing then w.flushing[org] else []) + OfOrg(w.batch, org)
  }

  // Invariants

  predicate OwnEvents(events: seq<AuditEvent>, org: string) {
    forall e :: e in events ==> e.organizationId == org
  }

  /** The table is what one flush of all committed events would have written. */
  predicate TableIsLedger(hash: Hasher, db: Storage, s: System, org: string) {
    && LedgerRows(hash, db, Committed(s.log, org)) == Some(RowsOf(s, org))
    && OwnEvents(Committed(s.log, org), org)
  }

  /** What a worker received of one organisation is what it tried to store followed by what it still holds. */
  predicate NothingLost(s: System, i: nat, org: string)
    requires i in s.workers
  {
    OfOrg(s.workers[i].received, org) == Attempted(s.log, i, org) + Pending(s.workers[i], org)
  }

  predicate GroupsOwn(s: System, i: nat, org: string)
    requires i in s.workers
  {
    org in s.workers[i].flushing ==> OwnEvents(s.workers[i].flushing[org], org)
  }

  predicate WorkerOk(s: System, i: nat, org: string) {
    i in s.workers ==> NothingLost(s, i, org) && GroupsOwn(s, i, org)
  }

  ghost predicate Inv(hash: Hasher, db: Storage, s: System) {
    && (forall org :: TableIsLedger(hash, db, s, org))
    && (forall i, org :: WorkerOk(s, i, org))
  }

  lemma FlushMovesGroups(w: Worker, org: string)
    requires w.flushing == map[]
    ensures Pending(StartFlush(w), org) == Pending(w, org)
    ensures org in StartFlush(w).flushing ==> OwnEvents(StartFlush(w).flushing[org], org)
  {
    if org !in Orgs(w.batch) {
      NoneOfOrg(w.batch, org);
    }
  }

  lemma {:induction false} NoneOfOrg(events: seq<AuditEvent>, org: string)
    requires org !in Orgs(events)
    ensures OfOrg(events, org) == []
  {
    if events == [] {
    } else {
      assert events[0] in events && forall e :: e in events[1..] ==> e in events;
      NoneOfOrg(events[1..], org);
    }
  }

  lemma {:induction false} ReceivePends(w: Worker, e: AuditEvent, org: string)
    requires w.flushing == map[]
    ensures Pending(OnReceive(w, e), org) == Pending(w, org) + OfOrg([e], org)
    ensures OfOrg(OnReceive(w, e).received, org) == OfOrg(w.received, org) + OfOrg([e], org)
    ensures org in OnReceive(w, e).flushing ==> OwnEvents(OnReceive(w, e).flushing[org], org)
  {
    var fed := w.(batch := w.batch + [e], received := w.received + [e]);
    OfOrgConcat(w.received, [e], org);
    assert Pending(fed, org) == Pending(w, org) + OfOrg([e], org) by {
      OfOrgConcat(w.batch, [e], org);
      assert Pending(w, org) == OfOrg(w.batch, org) && Pending(fed, org) == OfOrg(fed.batch, org);
    }
    FlushMovesGroups(fed, org);
  }

  /** A step that changes one worker only. */
  lemma WorkerStepKeepsInv(hash: Hasher, db: Storage, s: System, t: System, i: nat)
    requires Inv(hash, db, s) && i in s.workers && i in t.workers
    requires t == s.(workers := s.workers[i := t.workers[i]])
    requires forall org :: WorkerOk(t, i, org)
    ensures Inv(hash, db, t)
  {
    forall org ensures TableIsLedger(hash, db, t, org) {
      assert TableIsLedger(hash, db, s, org);
    }
    forall j, org ensures WorkerOk(t, j, org) {
      assert WorkerOk(s, j, org);
    }
  }

  lemma ReceiveKeepsInv(hash: Hasher, db: Storage, s: System, i: nat, e: AuditEvent)
    requires Inv(hash, db, s) && i in s.workers && s.workers[i].flushing == map[]
    ensures Inv(hash, db, s.(workers := s.workers[i := OnReceive(s.workers[i], e)]))
  {
    var t := s.(workers := s.workers[i := OnReceive(s.workers[i], e)]);
    forall org ensures WorkerOk(t, i, org) {
      assert WorkerOk(s, i, org);
      ReceivePends(s.workers[i], e, org);
    }
    WorkerStepKeepsInv(hash, db, s, t, i);
  }

  lemma TickKeepsInv(hash: Hasher, db: Storage, s: System, i: nat, closed: bool)
    requires Inv(hash, db, s) && i in s.workers && s.workers[i].flushing == map[]
    ensures Inv(hash, db, s.(workers := s.workers[i := OnTick(s.workers[i]).(closed := closed)]))
  {
    var t := s.(workers := s.workers[i := OnTick(s.workers[i]).(closed := closed)]);
    forall org ensures WorkerOk(t, i, org) {
      assert WorkerOk(s, i, org);
      FlushMovesGroups(s.workers[i], org);
    }
    WorkerStepKeepsInv(hash, db, s, t, i);
  }

  lemma LogGrows(log: seq<Commit>, c: Commit, i: nat, org: string)
    ensures Committed(log + [c], org) == Committed(log, org) + (if c.org == org && c.stored then c.events else [])
    ensures Attempted(log + [c], i, org) ==
            Attempted(log, i, org) + (if c.worker == i && c.org == org then c.events else [])
  {
    assert (log + [c])[..|log|] == log;
  }

  lemma TransactKeepsTables(hash: Hasher, db: Storage, s: System, i: nat, org: string, commits: bool, o: string)
    requires Inv(hash, db, s) && i in s.workers && org in s.workers[i].flushing
    ensures TableIsLedger(hash, db, AfterTransact(hash, db, s, i, org, commits), o)
  {
    var events := s.workers[i].flushing[org];
    var t := AfterTransact(hash, db, s, i, org, commits);
    var c := t.log[|s.log|];
    assert TableIsLedger(hash, db, s, o) && TableIsLedger(hash, db, s, org) && WorkerOk(s, i, org);
    LogGrows(s.log, c, i, o);
    if o == org && c.stored {
      FlushExtendsLedger(hash, db, Committed(s.log, org), events);
    } else {
      assert Committed(s.log, o) + [] == Committed(s.log, o);
    }
  }

  lemma TransactKeepsWorkers(
      hash: Hasher, db: Storage, s: System, i: nat, org: string, commits: bool, j: nat, o: string)
    requires Inv(hash, db, s) && i in s.workers && org in s.workers[i].flushing
    ensures WorkerOk(AfterTransact(hash, db, s, i, org, commits), j, o)
  {
    var t := AfterTransact(hash, db, s, i, org, commits);
    assert WorkerOk(s, j, o);
    LogGrows(s.log, t.log[|s.log|], j, o);
    if j in s.workers {
      if j == i && o == org {
        var events, batch := s.workers[i].flushing[org], OfOrg(s.workers[i].batch, org);
        assert Attempted(s.log, i, org) + (events + batch) == (Attempted(s.log, i, org) + events) + ([] + batch);
      } else {
        assert Attempted(s.log, j, o) + [] == Attempted(s.log, j, o);
      }
    }
  }

  lemma StepKeepsInv(hash: Hasher, db: Storage, s: System, step: Step)
    requires Inv(hash, db, s)
    ensures Inv(hash, db, Apply(hash, db, s, step))
  {
    match step
    case Receive(i, e) =>
      if i in s.workers && s.workers[i].flushing == map[] && !s.workers[i].closed {
        ReceiveKeepsInv(hash, db, s, i, e);
      }
    case Tick(i) =>
      if i in s.workers && s.workers[i].flushing == map[] && !s.workers[i].closed {
        TickKeepsInv(hash, db, s, i, false);
        assert OnTick(s.workers[i]).(closed := false) == OnTick(s.workers[i]);
      }
    case Close(i) =>
      if i in s.workers && s.workers[i].flushing == map[] && !s.workers[i].closed {
        TickKeepsInv(hash, db, s, i, true);
      }
    case Transact(i, org, commits) =>
      if i in s.workers && org in s.workers[i].flushing {
        var t := AfterTransact(hash, db, s, i, org, commits);
        forall o ensures TableIsLedger(hash, db, t, o) {
          TransactKeepsTables(hash, db, s, i, org, commits, o);
        }
        forall j, o ensures WorkerOk(t, j, o) {
          TransactKeepsWorkers(hash, db, s, i, org, commits, j, o);
        }
      }
  }

  lemma {:induction false} RunKeepsInv(hash: Hasher, db: Storage, sizes: map<nat, nat>, steps: seq<Step>)
    ensures Inv(hash, db, Run(hash, db, Init(sizes), steps))
    decreases |steps|
  {
    if steps == [] {
    } else {
      RunKeepsInv(hash, db, sizes, steps[..|steps| - 1]);
      StepKeepsInv(hash, db, Run(hash, db, Init(sizes), steps[..|steps| - 1]), steps[|steps| - 1]);
    }
  }

  /**
   For every run of any workers: an organisation's rows are exactly what a single
   flush of its committed events would have written, numbered from 1 without
   gaps, so batch boundaries, ticks and interleavings leave no trace; and what a
   worker received of it is, in arrival order, what went into its transactions
   followed by what it still holds, a failed transaction dropping one whole group.
   */
  lemma RunsStoreTheLedger(hash: Hasher, db: Storage, sizes: map<nat, nat>, steps: seq<Step>, org: string)
    ensures var s := Run(hash, db, Init(sizes), steps);
            && LedgerRows(hash, db, Committed(s.log, org)) == Some(RowsOf(s, org))
            && Numbered(RowsOf(s, org))
            && |RowsOf(s, org)| == |Committed(s.log, org)|
            && forall i :: i in s.workers ==>
                 OfOrg(s.workers[i].received, org) == Attempted(s.log, i, org) + Pending(s.workers[i], org)
  {
    var s := Run(hash, db, Init(sizes), steps);
    RunKeepsInv(hash, db, sizes, steps);
    assert TableIsLedger(hash, db, s, org);
    LedgerTip(hash, db, Committed(s.log, org));
    forall i | i in s.workers
      ensures OfOrg(s.workers[i].received, org) == Attempted(s.log, i, org) + Pending(s.workers[i], org)
    {
      assert WorkerOk(s, i, org);
    }
  }

  /**
   After every run, an organisation's stored chain verifies end to end if and only
   if each of its committed events is intact: the hashed fields survive storage, or
   the MAC collides on that event's own text before and after.
   */
  lemma {:induction false} RunsVerify(text: Text, db: Storage, sizes: map<nat, nat>, steps: seq<Step>, org: string)
    requires var s := Run(HasherOf(text), db, Init(sizes), steps);
             forall e :: e in Committed(s.log, org) ==> PlainIds(db, e)
    ensures var s := Run(HasherOf(text), db, Init(sizes), steps);
            Verifies(HasherOf(text), db.timeInRange, org, RowsOf(s, org)) <==>
            AllIntact(text, db, org, Committed(s.log, org), RowsOf(s, org))
  {
    var s := Run(HasherOf(text), db, Init(sizes), steps);
    RunKeepsInv(HasherOf(text), db, sizes, steps);
    assert TableIsLedger(HasherOf(text), db, s, org);
    LedgerVerifiesIffIntact(text, db, org, Committed(s.log, org));
  }
}
