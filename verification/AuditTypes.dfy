/** Audit events, stored rows, and the canonical text that is hashed. */
module AuditTypes {
  import opened Wrappers
  import opened AuditText

  type U8 = n: nat | n < 0x100
  type U16 = n: nat | n < 0x1_0000
  type U32 = n: nat | n < 0x1_0000_0000
  type I16 = n: int | -0x8000 <= n < 0x8000
  type I32 = n: int | -0x8000_0000 <= n < 0x8000_0000

  /** A JSON value, of which only its texts matter here. */
  type Json = string

  /** Sixty-four zeros. */
  const GENESIS_HASH: string := Zeros(64)

  function Zeros(n: nat): (s: string)
    ensures |s| == n && NoPipe(s)
  {
    if n == 0 then [] else ['0'] + Zeros(n - 1)
  }

  const SCHEMA_VERSION: U8 := 1

  /** The keyed MAC, and the text of a JSON value and of a timestamp given in seconds. */
  datatype Text = Text(mac: string -> seq<Byte>, json: Json -> string, time: int -> string)

  /** The hash of an event's fields and its predecessor's hash. */
  type Hasher = (AuditEvent, string) -> string

  /**
   What storing and reading back does to an address, a network id and a JSON
   value, and which times can be read back at all.  A rejected address makes the
   insert fail; a network id that is not a UUID is stored as NULL.
   */
  datatype Storage = Storage(
    inet: string -> Option<string>,
    uuid: string -> Option<string>,
    jsonb: Json -> Json,
    timeInRange: int -> bool)

  datatype AuditEvent = AuditEvent(
    organizationId: string,
    categoryUid: U16, classUid: U16, activityId: U8, typeUid: U32, severityId: U8, statusId: U8,
    timeNanos: int,
    message: string,
    actorType: string, actorId: string, actorIp: Option<string>,
    targetType: string, targetId: string,
    networkId: Option<string>, groupId: Option<string>, traceId: Option<string>,
    metadata: Json,
    sequenceNumber: Option<int>,
    prevEntryHash: Option<string>,
    entryHash: Option<string>,
    schemaVersion: U8)

  datatype Row = Row(
    sequenceNumber: int,
    categoryUid: I16, classUid: I16, activityId: I16, typeUid: I32, severityId: I16, statusId: I16,
    timeMicros: int,
    message: string,
    actorType: string, actorId: string, actorIp: Option<string>,
    targetType: string, targetId: string,
    networkId: Option<string>, groupId: Option<string>, traceId: Option<string>,
    metadata: Json,
    prevEntryHash: string,
    entryHash: string,
    schemaVersion: I16)

  // Number casts between the event's unsigned and the table's signed columns

  function U16AsI16(n: U16): I16 {
    if n < 0x8000 then n else n - 0x1_0000
  }

  function I16AsU16(n: I16): U16 {
    if n >= 0 then n else n + 0x1_0000
  }

  function U32AsI32(n: U32): I32 {
    if n < 0x8000_0000 then n else n - 0x1_0000_0000
  }

  function I32AsU32(n: I32): U32 {
    if n >= 0 then n else n + 0x1_0000_0000
  }

  /** Keeps the low byte. */
  function I16AsU8(n: I16): U8 {
    I16AsU16(n) % 0x100
  }

  // Time

  /** Division that truncates towards zero. */
  function Truncated(a: int, b: nat): int
    requires b > 0
  {
    if a >= 0 then a / b else -((-a) / b)
  }

  function AsSecond(nanos: int): int {
    Truncated(nanos, 1_000_000_000)
  }

  lemma WholeSeconds(sec: int)
    ensures AsSecond(sec * 1_000_000_000) == sec
  {
  }

  // Canonical text

  function TextOr(o: Option<string>): string {
    if o.Some? then o.value else ""
  }

  function HeadFields(text: Text, e: AuditEvent): (f: seq<string>)
    ensures |f| == 10
  {
    ["v1",
     IntText(if e.sequenceNumber.Some? then e.sequenceNumber.value else 0),
     e.organizationId,
     IntText(e.categoryUid),
     IntText(e.classUid),
     IntText(e.activityId),
     IntText(e.typeUid),
     IntText(e.severityId),
     IntText(e.statusId),
     text.time(AsSecond(e.timeNanos))]
  }

  function FreeTexts(e: AuditEvent): (f: seq<string>)
    ensures |f| == 9
  {
    [e.message,
     e.actorType,
     e.actorId,
     TextOr(e.actorIp),
     e.targetType,
     e.targetId,
     TextOr(e.networkId),
     TextOr(e.groupId),
     TextOr(e.traceId)]
  }

  /** The hashed fields, in order; the last one is the previous entry's hash. */
  function Fields(text: Text, e: AuditEvent, prevHash: string): (f: seq<string>)
    ensures |f| == 21
  {
    HeadFields(text, e) + FreeTexts(e) + [text.json(e.metadata), prevHash]
  }

  function CanonicalV1(text: Text, e: AuditEvent, prevHash: string): string {
    Join(Fields(text, e, prevHash))
  }

  function ComputeEntryHash(text: Text, canonical: string): string {
    Hex(text.mac(canonical))
  }

  function HasherOf(text: Text): Hasher {
    (e: AuditEvent, prevHash: string) => ComputeEntryHash(text, CanonicalV1(text, e, prevHash))
  }
}
