/** What the chain's hashes determine, short of two texts of the chain having the same MAC. */
module AuditTip {
  import opened Wrappers
  import opened AuditText
  import opened AuditTypes
  import opened AuditChain
  import opened AuditStore

  /** Two different texts with the same MAC. */
  predicate Collides(text: Text, a: string, b: string) {
    a != b && text.mac(a) == text.mac(b)
  }

  /** The text the verifier hashes for a row. */
  function RowText(text: Text, org: string, rows: seq<Row>, i: nat): string
    requires i < |rows|
  {
    CanonicalV1(text, RowEvent(org, rows[i]), PrevHash(rows, i))
  }

  lemma SameHashSameText(text: Text, e: AuditEvent, p: string, f: AuditEvent, q: string)
    ensures HasherOf(text)(e, p) == HasherOf(text)(f, q) <==>
            || CanonicalV1(text, e, p) == CanonicalV1(text, f, q)
            || Collides(text, CanonicalV1(text, e, p), CanonicalV1(text, f, q))
  {
    var a, b := CanonicalV1(text, e, p), CanonicalV1(text, f, q);
    if Hex(text.mac(a)) == Hex(text.mac(b)) {
      HexInjective(text.mac(a), text.mac(b));
    }
  }

  // Separators in free text

  predicate PlainTexts(f: seq<string>) {
    forall i :: 0 <= i < |f| ==> NoPipe(f[i])
  }

  lemma HeadIsPlain(text: Text, e: AuditEvent)
    requires forall t :: NoPipe(text.time(t))
    ensures HeadFields(text, e)[2] == e.organizationId
    ensures forall i :: 0 <= i < 10 && i != 2 ==> NoPipe(HeadFields(text, e)[i])
  {
  }

  /** With the same organisation and no separator in free text, the text gives back every field. */
  lemma {:induction false} CanonicalInjective(text: Text, e: AuditEvent, p: string, g: AuditEvent, q: string)
    requires e.organizationId == g.organizationId && NoPipe(p) && NoPipe(q)
    requires forall t :: NoPipe(text.time(t))
    requires PlainTexts(FreeTexts(e)) && PlainTexts(FreeTexts(g))
    requires CanonicalV1(text, e, p) == CanonicalV1(text, g, q)
    ensures Fields(text, e, p) == Fields(text, g, q)
  {
    HeadIsPlain(text, e);
    HeadIsPlain(text, g);
    PartsInjective(HeadFields(text, e), FreeTexts(e), text.json(e.metadata), p,
                   HeadFields(text, g), FreeTexts(g), text.json(g.metadata), q);
  }

  lemma {:induction false} PartsInjective(
      h1: seq<string>, f1: seq<string>, j1: string, p1: string,
      h2: seq<string>, f2: seq<string>, j2: string, p2: string)
    requires |h1| == |h2| == 10 && |f1| == |f2| == 9 && h1[2] == h2[2]
    requires forall i :: 0 <= i < 10 && i != 2 ==> NoPipe(h1[i]) && NoPipe(h2[i])
    requires PlainTexts(f1) && PlainTexts(f2) && NoPipe(p1) && NoPipe(p2)
    requires Join(h1 + f1 + [j1, p1]) == Join(h2 + f2 + [j2, p2])
    ensures h1 + f1 + [j1, p1] == h2 + f2 + [j2, p2]
  {
    FieldsInjective(h1 + f1 + [j1, p1], h2 + f2 + [j2, p2]);
  }

  lemma {:induction false} FieldsInjective(f: seq<string>, g: seq<string>)
    requires |f| == |g| == 21 && Join(f) == Join(g)
    requires forall i :: 0 <= i < 19 ==> f[i] == g[i] || (NoPipe(f[i]) && NoPipe(g[i]))
    requires NoPipe(f[20]) && NoPipe(g[20])
    ensures f == g
  {
    PeelFields(f, g, 19);
    LastTwo(f[19..]);
    LastTwo(g[19..]);
    LastPipe(f[19], f[20], g[19], g[20]);
    assert f == f[..19] + [f[19], f[20]] && g == g[..19] + [g[19], g[20]];
  }

  lemma LastTwo(t: seq<string>)
    requires |t| == 2
    ensures Join(t) == t[0] + "|" + t[1]
  {
    assert Join(t[1..]) == t[1];
  }

  /** The event with other free texts. */
  function WithTexts(e: AuditEvent, t: seq<string>): AuditEvent
    requires |t| == 9
  {
    e.(message := t[0], actorType := t[1], actorId := t[2], actorIp := Some(t[3]), targetType := t[4],
       targetId := t[5], networkId := Some(t[6]), groupId := Some(t[7]), traceId := Some(t[8]))
  }

  lemma WithTextsSets(text: Text, e: AuditEvent, p: string, t: seq<string>)
    requires |t| == 9
    ensures Fields(text, WithTexts(e, t), p) == HeadFields(text, e) + t + [text.json(e.metadata), p]
  {
    assert HeadFields(text, WithTexts(e, t)) == HeadFields(text, e);
    assert FreeTexts(WithTexts(e, t)) == t;
  }

  /** A separator in one of nine texts can be moved to a neighbour, leaving the joined text alone. */
  lemma {:induction false} ShiftWithin(h: seq<string>, t: seq<string>, tail: seq<string>, i: nat, a: string, b: string)
    requires |h| == 10 && |t| == 9 && |tail| == 2 && i < 9 && t[i] == a + "|" + b
    ensures exists u :: |u| == 9 && u != t && Join(h + u + tail) == Join(h + t + tail)
  {
    var f := h + t + tail;
    if i < 8 {
      var u := t[i := a][i + 1 := b + "|" + t[i + 1]];
      PipeShift(f, 10 + i, a, b);
      assert h + u + tail == f[10 + i := a][10 + i + 1 := b + "|" + f[10 + i + 1]];
      assert u[i] == a && |a| < |t[i]|;
      assert |u| == 9 && u != t && Join(h + u + tail) == Join(h + t + tail);
    } else {
      var u := t[7 := t[7] + "|" + a][8 := b];
      PipeShift(h + u + tail, 17, t[7], a);
      assert (h + u + tail)[17 := t[7]][18 := a + "|" + b] == f;
      assert u[8] == b && |b| < |t[8]|;
      assert |u| == 9 && u != t && Join(h + u + tail) == Join(h + t + tail);
    }
  }

  /**
   The condition on free text is needed: whenever one of them holds a separator,
   some other event has the same canonical text, by moving the separator to the
   neighbouring field.
   */
  lemma {:induction false} PipesAreAmbiguous(text: Text, e: AuditEvent, p: string, i: nat, a: string, b: string)
    requires i < 9 && FreeTexts(e)[i] == a + "|" + b
    ensures exists g :: FreeTexts(g) != FreeTexts(e) && CanonicalV1(text, g, p) == CanonicalV1(text, e, p)
  {
    var h, tail := HeadFields(text, e), [text.json(e.metadata), p];
    ShiftWithin(h, FreeTexts(e), tail, i, a, b);
    var u :| |u| == 9 && u != FreeTexts(e) && Join(h + u + tail) == Join(h + FreeTexts(e) + tail);
    WithTextsSets(text, e, p, u);
    assert FreeTexts(WithTexts(e, u)) == u;
    assert FreeTexts(WithTexts(e, u)) != FreeTexts(e) &&
        CanonicalV1(text, WithTexts(e, u), p) == CanonicalV1(text, e, p);
  }

  // The tip fixes the history

  predicate PlainRow(org: string, row: Row) {
    PlainTexts(FreeTexts(RowEvent(org, row)))
  }

  /** The rows agree in every hashed value. */
  predicate SameHashed(text: Text, a: Row, b: Row) {
    && a.sequenceNumber == b.sequenceNumber
    && a.categoryUid == b.categoryUid && a.classUid == b.classUid && a.typeUid == b.typeUid
    && I16AsU8(a.activityId) == I16AsU8(b.activityId)
    && I16AsU8(a.severityId) == I16AsU8(b.severityId)
    && I16AsU8(a.statusId) == I16AsU8(b.statusId)
    && text.time(AsSecond(a.timeMicros * 1000)) == text.time(AsSecond(b.timeMicros * 1000))
    && a.message == b.message
    && a.actorType == b.actorType && a.actorId == b.actorId && TextOr(a.actorIp) == TextOr(b.actorIp)
    && a.targetType == b.targetType && a.targetId == b.targetId
    && TextOr(a.networkId) == TextOr(b.networkId)
    && TextOr(a.groupId) == TextOr(b.groupId)
    && TextOr(a.traceId) == TextOr(b.traceId)
    && text.json(a.metadata) == text.json(b.metadata)
  }

  lemma SameFieldsSameHashed(text: Text, org: string, a: Row, p: string, b: Row, q: string)
    requires Fields(text, RowEvent(org, a), p) == Fields(text, RowEvent(org, b), q)
    ensures SameHashed(text, a, b) && p == q
  {
    var f, g := Fields(text, RowEvent(org, a), p), Fields(text, RowEvent(org, b), q);
    var x, y := RowEvent(org, a), RowEvent(org, b);
    assert HeadFields(text, x) == f[..10] && HeadFields(text, y) == g[..10];
    assert FreeTexts(x) == f[10..19] && FreeTexts(y) == g[10..19];
    assert text.json(x.metadata) == f[19] && p == f[20] && text.json(y.metadata) == g[19] && q == g[20];
    SameHead(text, org, a, b);
    SameFree(org, a, b);
  }

  lemma SameFree(org: string, a: Row, b: Row)
    requires FreeTexts(RowEvent(org, a)) == FreeTexts(RowEvent(org, b))
    ensures a.message == b.message
    ensures a.actorType == b.actorType && a.actorId == b.actorId && TextOr(a.actorIp) == TextOr(b.actorIp)
    ensures a.targetType == b.targetType && a.targetId == b.targetId
    ensures TextOr(a.networkId) == TextOr(b.networkId)
    ensures TextOr(a.groupId) == TextOr(b.groupId)
    ensures TextOr(a.traceId) == TextOr(b.traceId)
  {
    var f, g := FreeTexts(RowEvent(org, a)), FreeTexts(RowEvent(org, b));
    assert f[0] == g[0] && f[1] == g[1] && f[2] == g[2] && f[3] == g[3] && f[4] == g[4];
    assert f[5] == g[5] && f[6] == g[6] && f[7] == g[7] && f[8] == g[8];
  }

  lemma {:induction false} SameHead(text: Text, org: string, a: Row, b: Row)
    requires HeadFields(text, RowEvent(org, a)) == HeadFields(text, RowEvent(org, b))
    ensures a.sequenceNumber == b.sequenceNumber
    ensures a.categoryUid == b.categoryUid && a.classUid == b.classUid && a.typeUid == b.typeUid
    ensures I16AsU8(a.activityId) == I16AsU8(b.activityId)
    ensures I16AsU8(a.severityId) == I16AsU8(b.severityId)
    ensures I16AsU8(a.statusId) == I16AsU8(b.statusId)
    ensures text.time(AsSecond(a.timeMicros * 1000)) == text.time(AsSecond(b.timeMicros * 1000))
  {
    var x, y := RowEvent(org, a), RowEvent(org, b);
    var f, g := HeadFields(text, x), HeadFields(text, y);
    assert f[1] == g[1] && f[3] == g[3] && f[4] == g[4] && f[5] == g[5];
    assert f[6] == g[6] && f[7] == g[7] && f[8] == g[8] && f[9] == g[9];
    IntTextInjective(a.sequenceNumber, b.sequenceNumber);
    IntTextInjective(x.categoryUid, y.categoryUid);
    IntTextInjective(x.classUid, y.classUid);
    IntTextInjective(x.activityId, y.activityId);
    IntTextInjective(x.typeUid, y.typeUid);
    IntTextInjective(x.severityId, y.severityId);
    IntTextInjective(x.statusId, y.statusId);
  }

  lemma {:induction false} HashesHaveNoPipe(text: Text, timeOk: int -> bool, org: string, rows: seq<Row>, i: nat)
    requires Verifies(HasherOf(text), timeOk, org, rows) && i <= |rows|
    ensures NoPipe(PrevHash(rows, i))
  {
    if i > 0 {
      assert RowOk(HasherOf(text), timeOk, org, rows, i - 1);
    }
  }

  /** Equal entry hashes at two positions mean equal hashed values and equal predecessors there. */
  lemma {:induction false} SameEntryHash(
      text: Text, timeOk: int -> bool, org: string, r1: seq<Row>, i: nat, r2: seq<Row>, j: nat)
    requires Verifies(HasherOf(text), timeOk, org, r1) && Verifies(HasherOf(text), timeOk, org, r2)
    requires i < |r1| && j < |r2| && r1[i].entryHash == r2[j].entryHash
    requires PlainRow(org, r1[i]) && PlainRow(org, r2[j])
    requires forall t :: NoPipe(text.time(t))
    ensures || Collides(text, RowText(text, org, r1, i), RowText(text, org, r2, j))
            || (SameHashed(text, r1[i], r2[j]) && PrevHash(r1, i) == PrevHash(r2, j) && i == j)
  {
    assert RowOk(HasherOf(text), timeOk, org, r1, i) && RowOk(HasherOf(text), timeOk, org, r2, j);
    var e, p := RowEvent(org, r1[i]), PrevHash(r1, i);
    var g, q := RowEvent(org, r2[j]), PrevHash(r2, j);
    SameHashSameText(text, e, p, g, q);
    if !Collides(text, RowText(text, org, r1, i), RowText(text, org, r2, j)) {
      HashesHaveNoPipe(text, timeOk, org, r1, i);
      HashesHaveNoPipe(text, timeOk, org, r2, j);
      CanonicalInjective(text, e, p, g, q);
      SameFieldsSameHashed(text, org, r1[i], p, r2[j], q);
    }
  }

  predicate PlainRows(org: string, rows: seq<Row>) {
    forall i :: 0 <= i < |rows| ==> PlainRow(org, rows[i])
  }

  /** Same length, and the same hashed values at every position. */
  predicate SameHistory(text: Text, r1: seq<Row>, r2: seq<Row>) {
    && |r1| == |r2|
    && forall i :: 0 <= i < |r1| ==> r1[i].entryHash == r2[i].entryHash && SameHashed(text, r1[i], r2[i])
  }

  /** Some row of one list and some row of the other were hashed from different texts with the same MAC. */
  ghost predicate HistoriesCollide(text: Text, org: string, r1: seq<Row>, r2: seq<Row>) {
    exists i, j :: 0 <= i < |r1| && 0 <= j < |r2| &&
        Collides(text, RowText(text, org, r1, i), RowText(text, org, r2, j))
  }

  /** Equal hashes at any two positions force equal positions, values and predecessors. */
  predicate HashesDetermine(text: Text, r1: seq<Row>, r2: seq<Row>) {
    forall i, j :: 0 <= i < |r1| && 0 <= j < |r2| && r1[i].entryHash == r2[j].entryHash ==>
      i == j && SameHashed(text, r1[i], r2[j]) && PrevHash(r1, i) == PrevHash(r2, j)
  }

  lemma {:induction false} EqualTipsWalkBack(text: Text, r1: seq<Row>, r2: seq<Row>, k: nat)
    requires HashesDetermine(text, r1, r2) && r1 != [] && r2 != []
    requires r1[|r1| - 1].entryHash == r2[|r2| - 1].entryHash
    requires k < |r1|
    ensures |r1| == |r2| && r1[k].entryHash == r2[k].entryHash && SameHashed(text, r1[k], r2[k])
    decreases |r1| - k
  {
    if k < |r1| - 1 {
      EqualTipsWalkBack(text, r1, r2, k + 1);
      assert PrevHash(r1, k + 1) == PrevHash(r2, k + 1);
    }
  }

  /**
   The chain's tip fixes the whole history: two row lists of one organisation that
   both verify and end in the same entry hash have the same length and agree in
   every hashed value at every position, unless the MAC collides on texts of these
   very rows.
   */
  lemma {:induction false} TipFixesHistory(
      text: Text, timeOk: int -> bool, org: string, r1: seq<Row>, r2: seq<Row>)
    requires Verifies(HasherOf(text), timeOk, org, r1) && Verifies(HasherOf(text), timeOk, org, r2)
    requires r1 != [] && r2 != [] && r1[|r1| - 1].entryHash == r2[|r2| - 1].entryHash
    requires PlainRows(org, r1) && PlainRows(org, r2)
    requires forall t :: NoPipe(text.time(t))
    ensures HistoriesCollide(text, org, r1, r2) || SameHistory(text, r1, r2)
  {
    if !HistoriesCollide(text, org, r1, r2) {
      forall i, j | 0 <= i < |r1| && 0 <= j < |r2| && r1[i].entryHash == r2[j].entryHash
        ensures i == j && SameHashed(text, r1[i], r2[j]) && PrevHash(r1, i) == PrevHash(r2, j)
      {
        SameEntryHash(text, timeOk, org, r1, i, r2, j);
      }
      forall k | 0 <= k < |r1|
        ensures |r1| == |r2| && r1[k].entryHash == r2[k].entryHash && SameHashed(text, r1[k], r2[k])
      {
        EqualTipsWalkBack(text, r1, r2, k);
      }
    }
  }

  // Fields that do not survive storage

  /** The addresses and ids concerned hold no separator, before or after storage. */
  predicate PlainIds(db: Storage, e: AuditEvent) {
    && NoPipe(TextOr(e.actorIp)) && (StoredIp(db, e).Some? ==> NoPipe(TextOr(StoredIp(db, e).value)))
    && NoPipe(TextOr(e.networkId)) && NoPipe(TextOr(StoredNetwork(db, e)))
  }

  /** The text an event was hashed from when it was stored on top of `prev`. */
  function StampedText(text: Text, e: AuditEvent, n: int, prev: string): string {
    CanonicalV1(text, Stamped(e, n, prev), prev)
  }

  /** A stored row verifies exactly when its hashed fields survived, or its altered text has the MAC of the original. */
  lemma {:induction false} StoredRowVerifiesIff(text: Text, db: Storage, e: AuditEvent, n: int, prev: string)
    requires StoreRow(db, Stamp(HasherOf(text), e, n, prev)).Some? && PlainIds(db, e) && NoPipe(prev)
    ensures var row := StoreRow(db, Stamp(HasherOf(text), e, n, prev)).value;
            db.timeInRange(row.timeMicros) && FaultOf(HasherOf(text), e.organizationId, row, n, prev).None? <==>
            || Survives(text, db, e)
            || (&& db.timeInRange(StoredMicros(e))
                && Collides(text, StampedText(text, e, n, prev),
                            CanonicalV1(text, RowEvent(e.organizationId, row), prev)))
  {
    RebuiltFields(text, HasherOf(text), db, e, n, prev);
    var row := StoreRow(db, Stamp(HasherOf(text), e, n, prev)).value;
    var rebuilt, stamped := RowEvent(e.organizationId, row), Stamped(e, n, prev);
    SameHashSameText(text, rebuilt, prev, stamped, prev);
    if Survives(text, db, e) {
      SurvivorsRowVerifies(text, db, e, n, prev);
    } else if CanonicalV1(text, rebuilt, prev) == CanonicalV1(text, stamped, prev) {
      SameTextSurvives(text, db, e, n, prev, Fields(text, rebuilt, prev));
    }
  }

  /** If replacing the stored texts leaves the canonical text alone, they were the hashed ones. */
  lemma {:induction false} SameTextSurvives(
      text: Text, db: Storage, e: AuditEvent, n: int, prev: string, f: seq<string>)
    requires StoredIp(db, e).Some? && PlainIds(db, e) && NoPipe(prev)
    requires f == Fields(text, Stamped(e, n, prev), prev)
                    [13 := TextOr(StoredIp(db, e).value)]
                    [16 := TextOr(StoredNetwork(db, e))]
                    [19 := text.json(db.jsonb(e.metadata))]
    requires Join(f) == CanonicalV1(text, Stamped(e, n, prev), prev)
    ensures TextOr(StoredIp(db, e).value) == TextOr(e.actorIp)
    ensures TextOr(StoredNetwork(db, e)) == TextOr(e.networkId)
    ensures text.json(db.jsonb(e.metadata)) == text.json(e.metadata)
  {
    var g := Fields(text, Stamped(e, n, prev), prev);
    assert g[13] == TextOr(e.actorIp) && g[16] == TextOr(e.networkId);
    assert g[19] == text.json(e.metadata) && g[20] == prev;
    FieldsInjective(f, g);
    assert f[13] == g[13] && f[16] == g[16] && f[19] == g[19];
  }

  /** The text of the i-th event of a ledger as stored, and as rebuilt from its row, collide. */
  predicate StorageCollides(text: Text, org: string, events: seq<AuditEvent>, rows: seq<Row>, i: nat)
    requires i < |rows| && i < |events|
  {
    Collides(text, StampedText(text, events[i], i + 1, PrevHash(rows, i)), RowText(text, org, rows, i))
  }

  /** The hashed fields of the i-th event survived storage, or were altered to a text with the same MAC. */
  predicate Intact(text: Text, db: Storage, org: string, events: seq<AuditEvent>, rows: seq<Row>, i: nat)
    requires i < |rows| && i < |events|
  {
    || Survives(text, db, events[i])
    || (db.timeInRange(StoredMicros(events[i])) && StorageCollides(text, org, events, rows, i))
  }

  lemma {:induction false} LedgerRowVerifiesIff(text: Text, db: Storage, org: string, events: seq<AuditEvent>, i: nat)
    requires LedgerRows(HasherOf(text), db, events).Some? && i < |events|
    requires events[i].organizationId == org && PlainIds(db, events[i])
    requires NoPipe(PrevHash(LedgerRows(HasherOf(text), db, events).value, i))
    ensures var rows := LedgerRows(HasherOf(text), db, events).value;
            RowOk(HasherOf(text), db.timeInRange, org, rows, i) <==> Intact(text, db, org, events, rows, i)
  {
    var rows := LedgerRows(HasherOf(text), db, events).value;
    LedgerRowAt(HasherOf(text), db, events, i);
    StoredRowVerifiesIff(text, db, events[i], i + 1, PrevHash(rows, i));
  }

  /** Every hash a ledger shows is hexadecimal. */
  lemma {:induction false} LedgerHashesHaveNoPipe(text: Text, db: Storage, events: seq<AuditEvent>, i: nat)
    requires LedgerRows(HasherOf(text), db, events).Some? && i <= |events|
    ensures NoPipe(PrevHash(LedgerRows(HasherOf(text), db, events).value, i))
  {
    if i > 0 {
      var rows := LedgerRows(HasherOf(text), db, events).value;
      LedgerRowAt(HasherOf(text), db, events, i - 1);
      RebuiltFields(text, HasherOf(text), db, events[i - 1], i, PrevHash(rows, i - 1));
    }
  }

  predicate AllIntact(text: Text, db: Storage, org: string, events: seq<AuditEvent>, rows: seq<Row>) {
    |rows| == |events| && forall i :: 0 <= i < |events| ==> Intact(text, db, org, events, rows, i)
  }

  /**
   The stored chain verifies if and only if every event is intact: its hashed
   fields survive storage or, failing that, the MAC collides on the text it was
   hashed from and the text its row gives back.
   */
  lemma {:induction false} LedgerVerifiesIffIntact(text: Text, db: Storage, org: string, events: seq<AuditEvent>)
    requires LedgerRows(HasherOf(text), db, events).Some?
    requires forall e :: e in events ==> e.organizationId == org && PlainIds(db, e)
    ensures var rows := LedgerRows(HasherOf(text), db, events).value;
            Verifies(HasherOf(text), db.timeInRange, org, rows) <==> AllIntact(text, db, org, events, rows)
  {
    var rows := LedgerRows(HasherOf(text), db, events).value;
    forall i | 0 <= i < |events|
      ensures RowOk(HasherOf(text), db.timeInRange, org, rows, i) <==> Intact(text, db, org, events, rows, i)
    {
      assert events[i] in events;
      LedgerHashesHaveNoPipe(text, db, events, i);
      LedgerRowVerifiesIff(text, db, org, events, i);
    }
  }
}
