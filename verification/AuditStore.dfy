/** One organisation's chain in the table: flushing batches and reading them back. */
module AuditStore {
  import opened Wrappers
  import opened AuditTypes
  import opened AuditChain

  // Batches and the chain's tip

  /** The row with the highest sequence number. */
  function TopRow(rows: seq<Row>): Row
    requires rows != []
  {
    var last := rows[|rows| - 1];
    if |rows| == 1 then last
    else
      var top := TopRow(rows[..|rows| - 1]);
      if last.sequenceNumber > top.sequenceNumber then last else top
  }

  predicate Numbered(rows: seq<Row>) {
    forall i :: 0 <= i < |rows| ==> rows[i].sequenceNumber == i + 1
  }

  lemma {:induction false} TopRowIsLast(rows: seq<Row>)
    requires rows != [] && Numbered(rows)
    ensures TopRow(rows) == rows[|rows| - 1]
    decreases |rows|
  {
    if |rows| > 1 {
      TopRowIsLast(rows[..|rows| - 1]);
    }
  }

  function TipSeq(rows: seq<Row>): int {
    if rows == [] then 0 else TopRow(rows).sequenceNumber
  }

  function TipPrev(rows: seq<Row>): string {
    if rows == [] then GENESIS_HASH else TopRow(rows).entryHash
  }

  /** A batch chained to the tip and inserted; None if an insert is rejected. */
  function Flush(hash: Hasher, db: Storage, rows: seq<Row>, events: seq<AuditEvent>): Option<seq<Row>> {
    if events == [] then Some(rows)
    else
      var stored := StoreAll(db, Chained(hash, events, TipSeq(rows), TipPrev(rows)));
      if stored.Some? then Some(rows + stored.value) else None
  }

  /** The rows a single flush of all these events into an empty table would give. */
  function LedgerRows(hash: Hasher, db: Storage, events: seq<AuditEvent>): (r: Option<seq<Row>>)
    ensures r.Some? ==> |r.value| == |events|
  {
    StoreAll(db, Chained(hash, events, 0, GENESIS_HASH))
  }

  /** The hash a stored row shows is its stamped event's. */
  lemma StoredHash(db: Storage, events: seq<AuditEvent>, i: nat)
    requires i < |events| && StoreAll(db, events).Some?
    ensures StoreAll(db, events).value[i].entryHash == TextOr(events[i].entryHash)
  {
    StoreAllAt(db, events, i);
  }

  /** Row by row: numbered from 1, linked, and carrying the hash of its stamped event. */
  lemma {:induction false} LedgerRowAt(hash: Hasher, db: Storage, events: seq<AuditEvent>, i: nat)
    requires LedgerRows(hash, db, events).Some? && i < |events|
    ensures var rows := LedgerRows(hash, db, events).value;
            && StoreRow(db, Stamp(hash, events[i], i + 1, PrevHash(rows, i))) == Some(rows[i])
            && rows[i].sequenceNumber == i + 1
            && rows[i].prevEntryHash == PrevHash(rows, i)
            && (i == |events| - 1 ==> rows[i].entryHash == TipHash(hash, events, 0, GENESIS_HASH))
  {
    var chained := Chained(hash, events, 0, GENESIS_HASH);
    ChainedAt(hash, events, 0, GENESIS_HASH, i);
    StoreAllAt(db, chained, i);
    if i > 0 {
      StoredHash(db, chained, i - 1);
    }
    StampedRow(hash, db, events[i], i + 1, chained[i], StoreAll(db, chained).value, i);
  }

  lemma StampedRow(hash: Hasher, db: Storage, e: AuditEvent, n: int, stamped: AuditEvent, rows: seq<Row>, i: nat)
    requires i < |rows| && StoreRow(db, stamped) == Some(rows[i])
    requires stamped == Stamp(hash, e, n, PrevHash(rows, i))
    ensures StoreRow(db, Stamp(hash, e, n, PrevHash(rows, i))) == Some(rows[i])
    ensures rows[i].sequenceNumber == n
    ensures rows[i].prevEntryHash == PrevHash(rows, i)
    ensures Some(rows[i].entryHash) == stamped.entryHash
  {
  }

  lemma {:induction false} LedgerTip(hash: Hasher, db: Storage, events: seq<AuditEvent>)
    requires LedgerRows(hash, db, events).Some?
    ensures var rows := LedgerRows(hash, db, events).value;
            && Numbered(rows)
            && TipSeq(rows) == |events|
            && TipPrev(rows) == TipHash(hash, events, 0, GENESIS_HASH)
  {
    var rows := LedgerRows(hash, db, events).value;
    forall i | 0 <= i < |rows| ensures rows[i].sequenceNumber == i + 1 {
      LedgerRowAt(hash, db, events, i);
    }
    if events != [] {
      TopRowIsLast(rows);
      LedgerRowAt(hash, db, events, |events| - 1);
    }
  }

  /** Batching leaves no trace: flushing on top of a ledger gives the ledger of all events. */
  lemma {:induction false} FlushExtendsLedger(hash: Hasher, db: Storage, a: seq<AuditEvent>, b: seq<AuditEvent>)
    requires LedgerRows(hash, db, a).Some?
    ensures Flush(hash, db, LedgerRows(hash, db, a).value, b) == LedgerRows(hash, db, a + b)
  {
    LedgerTip(hash, db, a);
    ChainedConcat(hash, a, b, 0, GENESIS_HASH);
    var first := Chained(hash, a, 0, GENESIS_HASH);
    FlushOn(hash, db, LedgerRows(hash, db, a).value, first, b, |a|, TipHash(hash, a, 0, GENESIS_HASH));
  }

  /** A flush stores what was chained before together with what it chains. */
  lemma {:induction false} FlushOn(
      hash: Hasher, db: Storage, rows: seq<Row>, first: seq<AuditEvent>, b: seq<AuditEvent>, n: nat, tip: string)
    requires StoreAll(db, first) == Some(rows) && TipSeq(rows) == n && TipPrev(rows) == tip
    ensures Flush(hash, db, rows, b) == StoreAll(db, first + Chained(hash, b, n, tip))
  {
    StoreAllConcat(db, first, Chained(hash, b, n, tip));
    if b == [] {
      assert rows + [] == rows;
    }
  }

  // Reading back

  /**
   The hashed texts of the event come back unchanged from storage, and its time
   can be read back: something the emitter can check beforehand.
   */
  predicate Survives(text: Text, db: Storage, e: AuditEvent) {
    && StoredIp(db, e).Some? && TextOr(StoredIp(db, e).value) == TextOr(e.actorIp)
    && TextOr(StoredNetwork(db, e)) == TextOr(e.networkId)
    && text.json(db.jsonb(e.metadata)) == text.json(e.metadata)
    && db.timeInRange(StoredMicros(e))
  }

  function StoredMicros(e: AuditEvent): int {
    AsSecond(e.timeNanos) * 1_000_000
  }

  lemma CastsRoundTrip(a: U16, b: U8, c: U32)
    ensures I16AsU16(U16AsI16(a)) == a && I16AsU8(b) == b && I32AsU32(U32AsI32(c)) == c
  {
  }

  lemma TimeRoundTrip(sec: int)
    ensures Truncated(sec * 1_000_000_000, 1000) == sec * 1_000_000
    ensures AsSecond(sec * 1_000_000 * 1000) == sec
  {
  }

  /** What the verifier rebuilds from a stamped event's row, field by field. */
  lemma RebuiltFields(text: Text, hash: Hasher, db: Storage, e: AuditEvent, n: int, prev: string)
    requires StoreRow(db, Stamp(hash, e, n, prev)).Some?
    ensures var row := StoreRow(db, Stamp(hash, e, n, prev)).value;
            && row.timeMicros == StoredMicros(e)
            && row.schemaVersion == 1
            && row.entryHash == hash(Stamped(e, n, prev), prev)
            && Fields(text, RowEvent(e.organizationId, row), prev) ==
               Fields(text, Stamped(e, n, prev), prev)
                 [13 := TextOr(StoredIp(db, e).value)]
                 [16 := TextOr(StoredNetwork(db, e))]
                 [19 := text.json(db.jsonb(e.metadata))]
  {
    TimeRoundTrip(AsSecond(e.timeNanos));
    WholeSeconds(AsSecond(e.timeNanos));
    CastsRoundTrip(e.categoryUid, e.activityId, e.typeUid);
    CastsRoundTrip(e.classUid, e.severityId, e.typeUid);
    CastsRoundTrip(e.classUid, e.statusId, e.typeUid);
    var row := StoreRow(db, Stamp(hash, e, n, prev)).value;
    assert row.timeMicros * 1000 == AsSecond(e.timeNanos) * 1_000_000_000;
  }

  /** The event as it is when its hash is computed. */
  function Stamped(e: AuditEvent, n: int, prev: string): AuditEvent {
    e.(timeNanos := AsSecond(e.timeNanos) * 1_000_000_000, sequenceNumber := Some(n), prevEntryHash := Some(prev))
  }

  lemma SurvivorsRowVerifies(text: Text, db: Storage, e: AuditEvent, n: int, prev: string)
    requires StoreRow(db, Stamp(HasherOf(text), e, n, prev)).Some? && Survives(text, db, e)
    ensures var row := StoreRow(db, Stamp(HasherOf(text), e, n, prev)).value;
            && db.timeInRange(row.timeMicros)
            && FaultOf(HasherOf(text), e.organizationId, row, n, prev).None?
  {
    RebuiltFields(text, HasherOf(text), db, e, n, prev);
    var row := StoreRow(db, Stamp(HasherOf(text), e, n, prev)).value;
    assert Fields(text, RowEvent(e.organizationId, row), prev) == Fields(text, Stamped(e, n, prev), prev);
  }

  lemma {:induction false} SurvivorsAreStored(text: Text, db: Storage, events: seq<AuditEvent>, n: int, prev: string)
    requires forall e :: e in events ==> Survives(text, db, e)
    ensures StoreAll(db, Chained(HasherOf(text), events, n, prev)).Some?
    decreases |events|
  {
    if events == [] {
    } else {
      var first := Stamp(HasherOf(text), events[0], n + 1, prev);
      assert events[0] in events;
      assert StoredIp(db, first) == StoredIp(db, events[0]);
      assert forall e :: e in events[1..] ==> e in events;
      SurvivorsAreStored(text, db, events[1..], n + 1, first.entryHash.value);
    }
  }

  /** The ledger of events whose hashed fields survive storage is accepted and verifies end to end. */
  lemma {:induction false} LedgerVerifies(text: Text, db: Storage, org: string, events: seq<AuditEvent>)
    requires forall e :: e in events ==> e.organizationId == org && Survives(text, db, e)
    ensures LedgerRows(HasherOf(text), db, events).Some?
    ensures Verifies(HasherOf(text), db.timeInRange, org, LedgerRows(HasherOf(text), db, events).value)
  {
    SurvivorsAreStored(text, db, events, 0, GENESIS_HASH);
    var rows := LedgerRows(HasherOf(text), db, events).value;
    forall i | 0 <= i < |rows| ensures RowOk(HasherOf(text), db.timeInRange, org, rows, i) {
      assert events[i] in events;
      LedgerRowVerifies(text, db, org, events, i);
    }
  }

  lemma {:induction false} LedgerRowVerifies(text: Text, db: Storage, org: string, events: seq<AuditEvent>, i: nat)
    requires LedgerRows(HasherOf(text), db, events).Some? && i < |events|
    requires events[i].organizationId == org && Survives(text, db, events[i])
    ensures RowOk(HasherOf(text), db.timeInRange, org, LedgerRows(HasherOf(text), db, events).value, i)
  {
    LedgerRowAt(HasherOf(text), db, events, i);
    SurvivorsRowVerifies(text, db, events[i], i + 1, PrevHash(LedgerRows(HasherOf(text), db, events).value, i));
  }
}
