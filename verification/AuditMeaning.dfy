/** The frozen formats written out: numbers, hashes, the hashed text, stamped events, stored rows, faults. */
module AuditMeaning {
  import opened Wrappers
  import opened AuditText
  import opened AuditTypes
  import opened AuditChain
  import opened AuditStore

  // Numbers and hashes

  /** Digits only, no leading zero: with `DecimalRoundTrip`, the usual notation. */
  lemma {:induction false} DecimalIsUsual(n: nat)
    ensures var s := Decimal(n);
            && (forall i :: 0 <= i < |s| ==> '0' <= s[i] <= '9')
            && (|s| == 1 || s[0] != '0')
            && (n < 10 ==> |s| == 1)
    decreases n
  {
    if n < 10 {
    } else {
      DecimalIsUsual(n / 10);
      if n < 100 {
        assert Decimal(n / 10) == [DIGITS[n / 10]];
      }
    }
  }

  /** The lower-case character of a hexadecimal digit. */
  predicate IsHexDigit(c: char, d: nat) {
    c as int == if d < 10 then 48 + d else 87 + d
  }

  /** Two lower-case digits a byte, the high one first. */
  lemma {:induction false} HexIsUsual(bytes: seq<Byte>, i: nat)
    requires i < |bytes|
    ensures IsHexDigit(Hex(bytes)[2 * i], bytes[i] / 16) && IsHexDigit(Hex(bytes)[2 * i + 1], bytes[i] % 16)
    decreases |bytes|
  {
    if i == 0 {
      DigitIsUsual(bytes[0] / 16);
      DigitIsUsual(bytes[0] % 16);
    } else {
      HexIsUsual(bytes[1..], i - 1);
      assert Hex(bytes)[2..] == Hex(bytes[1..]);
    }
  }

  lemma DigitIsUsual(d: nat)
    requires d < 16
    ensures IsHexDigit(DIGITS[d], d)
  {
    assert DIGITS[0] == '0' && DIGITS[9] == '9' && DIGITS[10] == 'a' && DIGITS[15] == 'f';
  }

  lemma {:induction false} ZerosAre(n: nat)
    ensures forall i :: 0 <= i < n ==> Zeros(n)[i] == '0'
  {
    if n == 0 {
    } else {
      ZerosAre(n - 1);
    }
  }

  /** A chain starts from sixty-four zeros. */
  lemma GenesisIs()
    ensures |GENESIS_HASH| == 64 && forall i :: 0 <= i < 64 ==> GENESIS_HASH[i] == '0'
  {
    ZerosAre(64);
  }

  // The hashed text

  function Or(o: Option<string>): string {
    match o
    case Some(s) => s
    case None => ""
  }

  /** Twenty-one fields, in this order, with a bar between any two. */
  lemma CanonicalTextIs(text: Text, e: AuditEvent, prev: string)
    ensures CanonicalV1(text, e, prev) == Barred(Head(text, e) + Body(text, e, prev))
    ensures HasherOf(text)(e, prev) == Hex(text.mac(CanonicalV1(text, e, prev)))
  {
    JoinIsBarred(Fields(text, e, prev));
    assert Head(text, e) == HeadFields(text, e);
    assert Body(text, e, prev) == FreeTexts(e) + [text.json(e.metadata), prev];
    assert Fields(text, e, prev) == Head(text, e) + Body(text, e, prev);
  }

  function Head(text: Text, e: AuditEvent): seq<string> {
    ["v1", IntText(match e.sequenceNumber case Some(n) => n case None => 0), e.organizationId,
     IntText(e.categoryUid), IntText(e.classUid), IntText(e.activityId), IntText(e.typeUid),
     IntText(e.severityId), IntText(e.statusId), text.time(AsSecond(e.timeNanos))]
  }

  function Body(text: Text, e: AuditEvent, prev: string): seq<string> {
    [e.message, e.actorType, e.actorId, Or(e.actorIp), e.targetType, e.targetId,
     Or(e.networkId), Or(e.groupId), Or(e.traceId), text.json(e.metadata), prev]
  }

  /** Fields one after the other, each but the first after a bar. */
  function Barred(f: seq<string>): string
    requires f != []
  {
    if |f| == 1 then f[0] else Barred(f[..|f| - 1]) + "|" + f[|f| - 1]
  }

  lemma {:induction false} JoinIsBarred(f: seq<string>)
    requires f != []
    ensures Join(f) == Barred(f)
    decreases |f|
  {
    if |f| == 1 {
    } else {
      var n := |f| - 1;
      JoinIsBarred(f[..n]);
      JoinLast(f);
    }
  }

  lemma {:induction false} JoinLast(f: seq<string>)
    requires |f| >= 2
    ensures Join(f) == Join(f[..|f| - 1]) + "|" + f[|f| - 1]
    decreases |f|
  {
    var n := |f| - 1;
    if |f| == 2 {
      assert Join(f[1..]) == f[1] && Join(f[..1]) == f[0];
    } else {
      JoinLast(f[1..]);
      assert f[1..][..n - 1] == f[..n][1..];
      assert f[0] + "|" + (Join(f[..n][1..]) + "|" + f[n]) == f[0] + "|" + Join(f[..n][1..]) + "|" + f[n];
    }
  }

  // Time

  /** Whole seconds, cut off towards zero. */
  predicate WholeSecondsOf(cut: int, nanos: int) {
    && cut % 1_000_000_000 == 0
    && if nanos >= 0 then 0 <= nanos - cut < 1_000_000_000 else 0 <= cut - nanos < 1_000_000_000
  }

  lemma SecondsAreCut(nanos: int)
    ensures WholeSecondsOf(AsSecond(nanos) * 1_000_000_000, nanos)
  {
  }

  // Stamping

  /**
   Each event of a batch after chaining: its number, its predecessor's hash, its own
   hash over what it says by then, schema version 1, its time cut to whole seconds;
   and nothing else changed.
   */
  lemma {:induction false} ChainedExactly(
      hash: Hasher, events: seq<AuditEvent>, startSeq: int, startPrev: string, i: nat)
    requires i < |events|
    ensures var r := Chained(hash, events, startSeq, startPrev);
            var prev := if i == 0 then startPrev else Or(r[i - 1].entryHash);
            && r[i].sequenceNumber == Some(startSeq + 1 + i)
            && r[i].prevEntryHash == Some(prev)
            && r[i].entryHash ==
               Some(hash(r[i].(entryHash := events[i].entryHash, schemaVersion := events[i].schemaVersion), prev))
            && r[i].schemaVersion == 1
            && WholeSecondsOf(r[i].timeNanos, events[i].timeNanos)
            && events[i] == r[i].(sequenceNumber := events[i].sequenceNumber, timeNanos := events[i].timeNanos,
                                  prevEntryHash := events[i].prevEntryHash, entryHash := events[i].entryHash,
                                  schemaVersion := events[i].schemaVersion)
  {
    ChainedAt(hash, events, startSeq, startPrev, i);
    SecondsAreCut(events[i].timeNanos);
  }

  // Storing

  /** The columns hold the event's values, unsigned numbers by their bits; an empty address is stored as none. */
  lemma StoredRowIs(db: Storage, e: AuditEvent)
    ensures StoreRow(db, e).None? <==>
            e.actorIp.Some? && e.actorIp.value != "" && db.inet(e.actorIp.value).None?
    ensures StoreRow(db, e).Some? ==>
            var row := StoreRow(db, e).value;
            && row.sequenceNumber == (match e.sequenceNumber case Some(n) => n case None => 0)
            && (row.categoryUid - e.categoryUid) % 0x1_0000 == 0 && (row.classUid - e.classUid) % 0x1_0000 == 0
            && row.activityId == e.activityId && (row.typeUid - e.typeUid) % 0x1_0000_0000 == 0
            && row.severityId == e.severityId && row.statusId == e.statusId
            && (e.timeNanos % 1000 == 0 ==> row.timeMicros * 1000 == e.timeNanos)
            && row.message == e.message && row.actorType == e.actorType && row.actorId == e.actorId
            && row.actorIp == (if Or(e.actorIp) == "" then None else db.inet(e.actorIp.value))
            && row.targetType == e.targetType && row.targetId == e.targetId
            && row.networkId == (match e.networkId case Some(s) => db.uuid(s) case None => None)
            && row.groupId == e.groupId && row.traceId == e.traceId && row.metadata == db.jsonb(e.metadata)
            && row.prevEntryHash == Or(e.prevEntryHash) && row.entryHash == Or(e.entryHash)
            && row.schemaVersion == e.schemaVersion
  {
    MicrosAre(e.timeNanos);
  }

  lemma MicrosAre(nanos: int)
    ensures nanos % 1000 == 0 ==> Truncated(nanos, 1000) * 1000 == nanos
  {
  }

  /** A flush goes on from the row with the highest number, or from the start of a chain. */
  lemma {:induction false} TipIsHighest(rows: seq<Row>)
    ensures rows == [] ==> TipSeq(rows) == 0 && TipPrev(rows) == GENESIS_HASH
    ensures forall r :: r in rows ==> r.sequenceNumber <= TipSeq(rows)
    ensures rows != [] ==> exists r :: r in rows && r.sequenceNumber == TipSeq(rows) && r.entryHash == TipPrev(rows)
    decreases |rows|
  {
    if |rows| == 0 {
    } else if |rows| == 1 {
      assert rows[0] in rows;
    } else {
      var init, last := rows[..|rows| - 1], rows[|rows| - 1];
      TipIsHighest(init);
      assert rows == init + [last];
      var r :| r in init && r.sequenceNumber == TipSeq(init) && r.entryHash == TipPrev(init);
      assert r in rows && last in rows;
    }
  }

  // Verifying

  /** Which fault is reported for a row: the first of four checks to fail. */
  lemma FaultMeans(text: Text, org: string, row: Row, expected: int, prev: string)
    ensures var fault := FaultOf(HasherOf(text), org, row, expected, prev);
            var inPlace := row.sequenceNumber == expected; var linked := row.prevEntryHash == prev;
            var hashed := row.entryHash == Hex(text.mac(CanonicalV1(text, RowEvent(org, row), prev)));
            && (fault == Some(SequenceGap) <==> !inPlace)
            && (fault == Some(PrevHashMismatch) <==> inPlace && !linked)
            && (fault == Some(UnsupportedSchema) <==> inPlace && linked && row.schemaVersion != 1)
            && (fault == Some(EntryHashMismatch) <==> inPlace && linked && row.schemaVersion == 1 && !hashed)
            && (fault == None <==> inPlace && linked && row.schemaVersion == 1 && hashed)
  {
  }

  /** The event a verifier hashes has the row's values, the numbers by their low bits. */
  lemma RowEventIs(org: string, row: Row)
    ensures var e := RowEvent(org, row);
            && e.organizationId == org && e.sequenceNumber == Some(row.sequenceNumber)
            && (e.categoryUid - row.categoryUid) % 0x1_0000 == 0 && (e.classUid - row.classUid) % 0x1_0000 == 0
            && (e.activityId - row.activityId) % 0x100 == 0 && (e.typeUid - row.typeUid) % 0x1_0000_0000 == 0
            && (e.severityId - row.severityId) % 0x100 == 0 && (e.statusId - row.statusId) % 0x100 == 0
            && e.timeNanos == row.timeMicros * 1000
            && e.message == row.message && e.actorType == row.actorType && e.actorId == row.actorId
            && e.actorIp == row.actorIp && e.targetType == row.targetType && e.targetId == row.targetId
            && e.networkId == row.networkId && e.groupId == row.groupId && e.traceId == row.traceId
            && e.metadata == row.metadata
  {
    LowByte(row.activityId);
    LowByte(row.severityId);
    LowByte(row.statusId);
  }

  lemma LowByte(n: I16)
    ensures (I16AsU8(n) - n) % 0x100 == 0
  {
  }
}
