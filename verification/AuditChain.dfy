/** Stamping events with the hash chain, storing them and verifying the stored chain. */
module AuditChain {
  import opened Wrappers
  import opened AuditTypes

  // The writer

  /** One event as the chain stamps it. */
  function Stamp(hash: Hasher, e: AuditEvent, seqNo: int, prevHash: string): AuditEvent {
    var timed := e.(timeNanos := AsSecond(e.timeNanos) * 1_000_000_000,
                    sequenceNumber := Some(seqNo), prevEntryHash := Some(prevHash));
    timed.(entryHash := Some(hash(timed, prevHash)), schemaVersion := SCHEMA_VERSION)
  }

  /** A batch stamped one by one, each event chained to the one before. */
  function Chained(hash: Hasher, events: seq<AuditEvent>, startSeq: int, startPrev: string): (r: seq<AuditEvent>)
    ensures |r| == |events|
    decreases |events|
  {
    if events == [] then []
    else
      var first := Stamp(hash, events[0], startSeq + 1, startPrev);
      [first] + Chained(hash, events[1..], startSeq + 1, first.entryHash.value)
  }

  /** The hash a batch leaves as the chain's tip. */
  function TipHash(hash: Hasher, events: seq<AuditEvent>, startSeq: int, startPrev: string): string
    decreases |events|
  {
    if events == [] then startPrev
    else
      var first := Stamp(hash, events[0], startSeq + 1, startPrev);
      TipHash(hash, events[1..], startSeq + 1, first.entryHash.value)
  }

  /** Cutting a batch in two and chaining the parts in turn makes no difference. */
  lemma {:induction false} ChainedConcat(
      hash: Hasher, a: seq<AuditEvent>, b: seq<AuditEvent>, startSeq: int, startPrev: string)
    ensures Chained(hash, a + b, startSeq, startPrev) ==
            Chained(hash, a, startSeq, startPrev) +
            Chained(hash, b, startSeq + |a|, TipHash(hash, a, startSeq, startPrev))
    ensures TipHash(hash, a + b, startSeq, startPrev) ==
            TipHash(hash, b, startSeq + |a|, TipHash(hash, a, startSeq, startPrev))
    decreases |a|
  {
    if a == [] {
      assert a + b == b;
    } else {
      var first := Stamp(hash, a[0], startSeq + 1, startPrev);
      assert (a + b)[1..] == a[1..] + b;
      ChainedConcat(hash, a[1..], b, startSeq + 1, first.entryHash.value);
    }
  }

  /** Where each event of a batch stands: numbered consecutively, chained to its predecessor. */
  lemma {:induction false} ChainedAt(hash: Hasher, events: seq<AuditEvent>, startSeq: int, startPrev: string, i: nat)
    requires i < |events|
    ensures var r := Chained(hash, events, startSeq, startPrev);
            && r[i] == Stamp(hash, events[i], startSeq + 1 + i,
                             if i == 0 then startPrev else TextOr(r[i - 1].entryHash))
            && (i == |events| - 1 ==> r[i].entryHash == Some(TipHash(hash, events, startSeq, startPrev)))
    decreases |events|
  {
    var first := Stamp(hash, events[0], startSeq + 1, startPrev);
    if i > 0 {
      ChainedAt(hash, events[1..], startSeq + 1, first.entryHash.value, i - 1);
    }
  }

  /** Rewrites the batch in place. */
  method ChainEvents(hash: Hasher, events: array<AuditEvent>, startSeq: int, startPrev: string)
    modifies events
    ensures events[..] == Chained(hash, old(events[..]), startSeq, startPrev)
  {
    var seqNo, prevHash := startSeq, startPrev;
    ghost var was := events[..];
    for i := 0 to events.Length
      invariant was == old(events[..]) && seqNo == startSeq + i
      invariant events[..i] == Chained(hash, was[..i], startSeq, startPrev)
      invariant prevHash == TipHash(hash, was[..i], startSeq, startPrev)
      invariant events[i..] == was[i..]
    {
      assert events[i] == was[i] by {
        assert events[i..][0] == was[i..][0];
      }
      assert was[..i + 1] == was[..i] + [was[i]];
      ChainedConcat(hash, was[..i], [was[i]], startSeq, startPrev);
      assert [was[i]][1..] == [];
      seqNo := seqNo + 1;
      var e := events[i];
      e := e.(timeNanos := AsSecond(e.timeNanos) * 1_000_000_000);
      e := e.(sequenceNumber := Some(seqNo), prevEntryHash := Some(prevHash));
      var entryHash := hash(e, prevHash);
      e := e.(entryHash := Some(entryHash), schemaVersion := SCHEMA_VERSION);
      ghost var front, back := events[..i], events[i + 1..];
      assert back == was[i + 1..] by {
        assert events[i..][1..] == was[i..][1..];
      }
      events[i] := e;
      assert events[..i] == front && events[i + 1..] == back;
      prevHash := entryHash;
    }
    assert was[..events.Length] == was && events[..events.Length] == events[..];
  }

  // Storage

  function StoredIp(db: Storage, e: AuditEvent): Option<Option<string>> {
    if e.actorIp.None? || e.actorIp.value == "" then Some(None)
    else if db.inet(e.actorIp.value).None? then None
    else Some(db.inet(e.actorIp.value))
  }

  function StoredNetwork(db: Storage, e: AuditEvent): Option<string> {
    if e.networkId.Some? then db.uuid(e.networkId.value) else None
  }

  /** The inserted row as it is read back; None when the insert is rejected. */
  function StoreRow(db: Storage, e: AuditEvent): Option<Row> {
    if StoredIp(db, e).None? then None
    else
      Some(Row(
        if e.sequenceNumber.Some? then e.sequenceNumber.value else 0,
        U16AsI16(e.categoryUid), U16AsI16(e.classUid), e.activityId, U32AsI32(e.typeUid), e.severityId, e.statusId,
        Truncated(e.timeNanos, 1000),
        e.message, e.actorType, e.actorId, StoredIp(db, e).value, e.targetType, e.targetId,
        StoredNetwork(db, e), e.groupId, e.traceId, db.jsonb(e.metadata),
        TextOr(e.prevEntryHash), TextOr(e.entryHash), e.schemaVersion))
  }

  /** All rows of a batch, or None if one insert is rejected. */
  function StoreAll(db: Storage, events: seq<AuditEvent>): (r: Option<seq<Row>>)
    ensures r.Some? ==> |r.value| == |events|
  {
    if events == [] then Some([])
    else
      var first, rest := StoreRow(db, events[0]), StoreAll(db, events[1..]);
      if first.Some? && rest.Some? then Some([first.value] + rest.value) else None
  }

  lemma {:induction false} StoreAllConcat(db: Storage, a: seq<AuditEvent>, b: seq<AuditEvent>)
    ensures StoreAll(db, a + b) ==
            if StoreAll(db, a).Some? && StoreAll(db, b).Some?
            then Some(StoreAll(db, a).value + StoreAll(db, b).value) else None
    decreases |a|
  {
    if a == [] {
      assert a + b == b;
      assert StoreAll(db, b).Some? ==> [] + StoreAll(db, b).value == StoreAll(db, b).value;
    } else {
      assert (a + b)[1..] == a[1..] + b;
      StoreAllConcat(db, a[1..], b);
      var first, ra, rb := StoreRow(db, a[0]), StoreAll(db, a[1..]), StoreAll(db, b);
      if first.Some? && ra.Some? && rb.Some? {
        assert [first.value] + (ra.value + rb.value) == ([first.value] + ra.value) + rb.value;
      }
    }
  }

  lemma {:induction false} StoreAllAt(db: Storage, events: seq<AuditEvent>, i: nat)
    requires i < |events| && StoreAll(db, events).Some?
    ensures StoreRow(db, events[i]) == Some(StoreAll(db, events).value[i])
    decreases |events|
  {
    if i > 0 {
      StoreAllAt(db, events[1..], i - 1);
    }
  }

  // The verifier

  /** The event a verifier rebuilds from a row. */
  function RowEvent(org: string, row: Row): AuditEvent {
    AuditEvent(
      org,
      I16AsU16(row.categoryUid), I16AsU16(row.classUid), I16AsU8(row.activityId), I32AsU32(row.typeUid),
      I16AsU8(row.severityId), I16AsU8(row.statusId),
      row.timeMicros * 1000,
      row.message, row.actorType, row.actorId, row.actorIp, row.targetType, row.targetId,
      row.networkId, row.groupId, row.traceId, row.metadata,
      Some(row.sequenceNumber), Some(row.prevEntryHash), Some(row.entryHash), I16AsU8(row.schemaVersion))
  }

  datatype Fault = SequenceGap | PrevHashMismatch | UnsupportedSchema | EntryHashMismatch

  /** The first check a row fails, time range aside. */
  function FaultOf(hash: Hasher, org: string, row: Row, expected: int, prevHash: string): Option<Fault> {
    if row.sequenceNumber != expected then Some(SequenceGap)
    else if row.prevEntryHash != prevHash then Some(PrevHashMismatch)
    else if row.schemaVersion != 1 then Some(UnsupportedSchema)
    else if row.entryHash != hash(RowEvent(org, row), prevHash) then Some(EntryHashMismatch)
    else None
  }

  function PrevHash(rows: seq<Row>, i: nat): string
    requires i <= |rows|
  {
    if i == 0 then GENESIS_HASH else rows[i - 1].entryHash
  }

  predicate RowOk(hash: Hasher, timeOk: int -> bool, org: string, rows: seq<Row>, i: nat)
    requires i < |rows|
  {
    timeOk(rows[i].timeMicros) && FaultOf(hash, org, rows[i], i + 1, PrevHash(rows, i)).None?
  }

  /** Every row is in sequence, linked to its predecessor and correctly hashed. */
  predicate Verifies(hash: Hasher, timeOk: int -> bool, org: string, rows: seq<Row>) {
    forall i :: 0 <= i < |rows| ==> RowOk(hash, timeOk, org, rows, i)
  }

  datatype VerifyReport = VerifyReport(
    eventsVerified: nat,
    firstSequence: Option<int>,
    lastSequence: Option<int>,
    firstTime: Option<int>,
    lastTime: Option<int>,
    brokenAt: Option<int>,
    fault: Option<Fault>)

  /** A row whose time cannot be represented aborts verification. */
  datatype TimeError = TimeOutOfRange

  /** The report's totals cover exactly the first `n` rows. */
  predicate Totals(report: VerifyReport, rows: seq<Row>, n: nat)
    requires n <= |rows|
  {
    && report.eventsVerified == n
    && report.firstSequence == (if n > 0 then Some(1) else None)
    && report.lastSequence == (if n > 0 then Some(n) else None)
    && report.firstTime == (if n > 0 then Some(rows[0].timeMicros) else None)
    && report.lastTime == (if n > 0 then Some(rows[n - 1].timeMicros) else None)
  }

  predicate PrefixOk(hash: Hasher, timeOk: int -> bool, org: string, rows: seq<Row>, n: nat)
    requires n <= |rows|
  {
    forall i :: 0 <= i < n ==> RowOk(hash, timeOk, org, rows, i)
  }

  /** In sequence and linked, but its time cannot be read, which is looked at before the hash. */
  predicate Unreadable(timeOk: int -> bool, row: Row, expected: int, prevHash: string) {
    row.sequenceNumber == expected && row.prevEntryHash == prevHash && !timeOk(row.timeMicros)
  }

  /** Verification gets as far as row n and gives up there. */
  predicate AbortsAt(hash: Hasher, timeOk: int -> bool, org: string, rows: seq<Row>, n: nat) {
    n < |rows| && PrefixOk(hash, timeOk, org, rows, n) && Unreadable(timeOk, rows[n], n + 1, PrevHash(rows, n))
  }

  ghost predicate Aborts(hash: Hasher, timeOk: int -> bool, org: string, rows: seq<Row>) {
    exists n :: AbortsAt(hash, timeOk, org, rows, n)
  }

  /** With no row at fault, or a first one at fault for another reason, there is no row to give up at. */
  lemma NoAbort(hash: Hasher, timeOk: int -> bool, org: string, rows: seq<Row>, i: nat)
    requires i <= |rows| && PrefixOk(hash, timeOk, org, rows, i)
    requires i < |rows| ==> !RowOk(hash, timeOk, org, rows, i) && !Unreadable(timeOk, rows[i], i + 1, PrevHash(rows, i))
    ensures !Aborts(hash, timeOk, org, rows)
  {
    forall n: nat ensures !AbortsAt(hash, timeOk, org, rows, n) {
      if n < i {
        assert RowOk(hash, timeOk, org, rows, n);
      }
    }
  }

  /** The checks on one row, in the order they are made. */
  method CheckRow(hash: Hasher, timeOk: int -> bool, org: string, row: Row, expected: int, prevHash: string)
    returns (r: Result<Option<Fault>, TimeError>)
    ensures r.Err? <==> Unreadable(timeOk, row, expected, prevHash)
    ensures r.Ok? ==> r.value == FaultOf(hash, org, row, expected, prevHash)
    ensures r.Ok? && r.value.None? ==> timeOk(row.timeMicros)
  {
    if row.sequenceNumber != expected {
      return Ok(Some(SequenceGap));
    }
    if row.prevEntryHash != prevHash {
      return Ok(Some(PrevHashMismatch));
    }
    if !timeOk(row.timeMicros) {
      return Err(TimeOutOfRange);
    }
    if row.schemaVersion != 1 {
      return Ok(Some(UnsupportedSchema));
    }
    if hash(RowEvent(org, row), prevHash) != row.entryHash {
      return Ok(Some(EntryHashMismatch));
    }
    return Ok(None);
  }

  /** The report's totals are those of the rows before the first one at fault, which it names. */
  predicate Covers(hash: Hasher, timeOk: int -> bool, org: string, rows: seq<Row>, report: VerifyReport) {
    var n := report.eventsVerified;
    && n <= |rows| && PrefixOk(hash, timeOk, org, rows, n) && Totals(report, rows, n)
    && if n < |rows|
       then && report.brokenAt == Some(rows[n].sequenceNumber)
            && report.fault == FaultOf(hash, org, rows[n], n + 1, PrevHash(rows, n))
            && report.fault.Some?
       else report.brokenAt.None? && report.fault.None?
  }

  lemma CleanIffVerifies(hash: Hasher, timeOk: int -> bool, org: string, rows: seq<Row>, report: VerifyReport)
    requires Covers(hash, timeOk, org, rows, report)
    ensures report.brokenAt.None? <==> Verifies(hash, timeOk, org, rows)
  {
    var n := report.eventsVerified;
    if n < |rows| {
      assert !RowOk(hash, timeOk, org, rows, n);
    }
  }

  /** What is returned for a verification, exact in all three respects. */
  ghost predicate Reported(hash: Hasher, timeOk: int -> bool, org: string, rows: seq<Row>, report: VerifyReport) {
    && !Aborts(hash, timeOk, org, rows)
    && Covers(hash, timeOk, org, rows, report)
    && (report.brokenAt.None? <==> Verifies(hash, timeOk, org, rows))
  }

  lemma ReportsFault(hash: Hasher, timeOk: int -> bool, org: string, rows: seq<Row>, i: nat, report: VerifyReport)
    requires i < |rows| && PrefixOk(hash, timeOk, org, rows, i) && Totals(report, rows, i)
    requires FaultOf(hash, org, rows[i], i + 1, PrevHash(rows, i)).Some?
    requires !Unreadable(timeOk, rows[i], i + 1, PrevHash(rows, i))
    requires report.brokenAt == Some(rows[i].sequenceNumber)
    requires report.fault == FaultOf(hash, org, rows[i], i + 1, PrevHash(rows, i))
    ensures Reported(hash, timeOk, org, rows, report)
  {
    NoAbort(hash, timeOk, org, rows, i);
    CleanIffVerifies(hash, timeOk, org, rows, report);
  }

  lemma ReportsClean(hash: Hasher, timeOk: int -> bool, org: string, rows: seq<Row>, report: VerifyReport)
    requires PrefixOk(hash, timeOk, org, rows, |rows|) && Totals(report, rows, |rows|)
    requires report.brokenAt.None? && report.fault.None?
    ensures Reported(hash, timeOk, org, rows, report)
  {
    NoAbort(hash, timeOk, org, rows, |rows|);
    CleanIffVerifies(hash, timeOk, org, rows, report);
  }

  lemma PrefixGrows(hash: Hasher, timeOk: int -> bool, org: string, rows: seq<Row>, i: nat)
    requires i < |rows| && PrefixOk(hash, timeOk, org, rows, i)
    requires timeOk(rows[i].timeMicros) && FaultOf(hash, org, rows[i], i + 1, PrevHash(rows, i)).None?
    ensures PrefixOk(hash, timeOk, org, rows, i + 1) && rows[i].sequenceNumber == i + 1
  {
  }

  /** Count a row that has passed. */
  method Count(report: VerifyReport, rows: seq<Row>, i: nat) returns (r: VerifyReport)
    requires i < |rows| && Totals(report, rows, i) && rows[i].sequenceNumber == i + 1
    ensures Totals(r, rows, i + 1) && r.brokenAt == report.brokenAt && r.fault == report.fault
  {
    var row := rows[i];
    r := report;
    if r.firstSequence.None? {
      r := r.(firstSequence := Some(row.sequenceNumber), firstTime := Some(row.timeMicros));
    }
    r := r.(lastSequence := Some(row.sequenceNumber), lastTime := Some(row.timeMicros),
            eventsVerified := r.eventsVerified + 1);
  }

  /**
   The report covers the longest prefix of rows that verify; it names the first
   row that does not, with its first failing check, and is clean exactly when
   the whole chain verifies.  There is none exactly when the first row at fault is
   one whose time cannot be read.
   */
  method VerifyOrgChain(hash: Hasher, timeOk: int -> bool, org: string, rows: seq<Row>)
    returns (r: Result<VerifyReport, TimeError>)
    ensures r.Err? <==> Aborts(hash, timeOk, org, rows)
    ensures r.Ok? ==> Reported(hash, timeOk, org, rows, r.value)
  {
    var report := VerifyReport(0, None, None, None, None, None, None);
    var prevHash := GENESIS_HASH;
    for i := 0 to |rows|
      invariant Totals(report, rows, i) && prevHash == PrevHash(rows, i)
      invariant PrefixOk(hash, timeOk, org, rows, i)
      invariant report.brokenAt.None? && report.fault.None?
    {
      var row := rows[i];
      var check := CheckRow(hash, timeOk, org, row, i + 1, prevHash);
      if check.Err? {
        assert AbortsAt(hash, timeOk, org, rows, i);
        return Err(check.error);
      }
      if check.value.Some? {
        r := Ok(report.(brokenAt := Some(row.sequenceNumber), fault := check.value));
        ReportsFault(hash, timeOk, org, rows, i, r.value);
        return;
      }
      PrefixGrows(hash, timeOk, org, rows, i);
      report := Count(report, rows, i);
      prevHash := row.entryHash;
    }
    ReportsClean(hash, timeOk, org, rows, report);
    r := Ok(report);
  }
}
