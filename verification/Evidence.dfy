// The per-task evidence chain: how a row is made from a payload item, how a row
// is checked, and what the hashes of a chain pin down.
module Evidence {
  import opened Wrappers
  import opened Json
  import opened Canonical
  import opened Digests

  // A TEXT column as Python reads it: None or a string.
  type Cell = v: Value | v.Null? || IsString(v) witness Null

  datatype EvidenceRow = EvidenceRow(
    eventId: string, taskId: string, ordinal: int, evidenceType: Cell, sourceRef: Cell, excerpt: Cell,
    contentHash: Hash, provenance: Cell, previousHash: Option<Hash>, eventHash: Hash, createdAt: string,
    kind: string, algorithm: Cell, externalDigest: Cell, state: Cell)

  const INTERNAL := "internal"
  const EXTERNAL := "external_reference"
  const LEGACY_STATE := Str("legacy_unverified")

  predicate Legacy(row: EvidenceRow) {
    row.state == LEGACY_STATE
  }

  // ----- storing a value in a TEXT column -----

  // What the driver can bind of Python's unbounded integers.
  predicate Int64(n: int) {
    -0x8000_0000_0000_0000 <= n <= 0x7fff_ffff_ffff_ffff
  }

  // The driver adapts numbers and booleans, TEXT affinity turns them into text.
  // An integer beyond 64 bits, a list or a dict cannot be bound at all.
  function BindText(v: Value): Option<Cell> {
    match v
    case Null => Some(Null)
    case Str(_) => Some(v)
    case HexStr(_) => Some(v)
    case Int(n) => if Int64(n) then Some(Str(IntText(n))) else None
    case Bool(b) => Some(Str(if b then "1" else "0"))
    case Float(r) => Some(Str(r))
    case Arr(_) => None
    case Obj(_) => None
  }

  // An integer reaches a column exactly when it fits eight bytes, and then as its
  // decimal text or as itself.
  lemma IntegersBind(n: int)
    ensures BindText(Int(n)) == if -9223372036854775808 <= n < 9223372036854775808 then Some(Str(IntText(n))) else None
    ensures BindNumber(Int(n)) == if -9223372036854775808 <= n < 9223372036854775808 then Some(Int(n)) else None
  {
  }

  // A value as it is bound for a REAL or INTEGER column.
  function BindNumber(v: Value): Option<Value> {
    match v
    case Int(n) => if Int64(n) then Some(v) else None
    case Bool(b) => Some(Int(if b then 1 else 0))
    case Arr(_) => None
    case Obj(_) => None
    case _ => Some(v)
  }

  // NOT NULL
  function BindNotNull(v: Value): Option<Cell> {
    if v.Null? then None else BindText(v)
  }

  // ----- canonical content of an item -----

  // value.lower(): digests are printed in lower case already.
  function LowerText(v: Value): Option<Cell> {
    match v
    case Str(s) => Some(Str(Lower(s)))
    case HexStr(_) => Some(v)
    case _ => None
  }

  lemma LowerTextIdempotent(v: Value)
    ensures LowerText(v).Some? ==> LowerText(LowerText(v).value) == LowerText(v)
  {
    if v.Str? { assert Lower(Lower(v.s)) == Lower(v.s); }
  }

  // {keys[0]: values[0], keys[1]: values[1], ...}
  function Record(keys: seq<string>, values: seq<Value>): (r: Value)
    requires |keys| == |values|
    ensures r.Obj? && |r.fields| == |keys|
    ensures forall i :: 0 <= i < |keys| ==> r.fields[i] == Field(keys[i], values[i])
  {
    Obj(seq(|keys|, i requires 0 <= i < |keys| => Field(keys[i], values[i])))
  }

  const INTERNAL_KEYS := ["evidence_type", "source_ref", "provenance", "sanitized_excerpt"]
  const EXTERNAL_KEYS := ["evidence_type", "source_ref", "provenance", "external_digest", "hash_algorithm", "verification_state"]
  const EVENT_KEYS := ["task_id", "ordinal", "evidence_kind", "content_hash", "hash_algorithm", "verification_state", "previous_hash"]
  const ITEM_KEYS := ["evidence_type", "source_ref", "sanitized_excerpt", "provenance", "external_digest", "hash_algorithm", "verification_state"]

  datatype Canonicalized =
    Canonicalized(kind: string, algorithm: Value, externalDigest: Cell, state: Value, contentHash: Hash)

  function ItemType(item: Value): Value { GetOr(item, "evidence_type", Str("conversation_excerpt")) }
  function ItemSource(item: Value): Value { GetOr(item, "source_ref", Null) }
  function ItemProvenance(item: Value): Value { GetOr(item, "provenance", Str("observed")) }
  function ItemExcerpt(item: Value): Value { GetOr(item, "sanitized_excerpt", Null) }

  // None when the Python function raises.
  function CanonicalEvidence(item: Value): Option<Canonicalized> {
    if !item.Obj? then None
    else if Truthy(ItemExcerpt(item)) then
      Some(Canonicalized(INTERNAL, Str("sha256"), Null, Str("internally_verified"),
                         Digest(Record(INTERNAL_KEYS, [ItemType(item), ItemSource(item), ItemProvenance(item), ItemExcerpt(item)]))))
    else
      match (Get(item, "external_digest"), Get(item, "hash_algorithm"), Get(item, "verification_state"))
      case (Some(d), Some(a), Some(s)) =>
        (match LowerText(d)
         case None => None
         case Some(low) =>
           Some(Canonicalized(EXTERNAL, a, low, s,
                              Digest(Record(EXTERNAL_KEYS, [ItemType(item), ItemSource(item), ItemProvenance(item), low, a, s])))))
      case _ => None
  }

  // ----- one link of the chain -----

  function HashOrNull(h: Option<Hash>): Value {
    match h case Some(x) => HexStr(x) case None => Null
  }

  function EventValues(taskId: string, ordinal: int, kind: string, content: Hash, state: Value, previous: Option<Hash>): (r: seq<Value>)
    ensures |r| == |EVENT_KEYS|
  {
    [Str(taskId), Int(ordinal), Str(kind), HexStr(content), Str("sha256"), state, HashOrNull(previous)]
  }

  function EventHash(taskId: string, ordinal: int, kind: string, content: Hash, state: Value, previous: Option<Hash>): Hash {
    Digest(Record(EVENT_KEYS, EventValues(taskId, ordinal, kind, content, state, previous)))
  }

  // The row inserted for an item; None when the statement raises.
  function MakeRow(taskId: string, ordinal: int, item: Value, previous: Option<Hash>, eventId: string, now: string): Option<EvidenceRow> {
    match CanonicalEvidence(item)
    case None => None
    case Some(c) =>
      match (BindNotNull(ItemType(item)), BindText(ItemSource(item)), BindText(ItemExcerpt(item)),
             BindNotNull(ItemProvenance(item)), BindNotNull(c.algorithm), BindNotNull(c.state))
      case (Some(kind), Some(source), Some(excerpt), Some(provenance), Some(algorithm), Some(state)) =>
        Some(EvidenceRow(eventId, taskId, ordinal, kind, source, excerpt, c.contentHash, provenance, previous,
                         EventHash(taskId, ordinal, c.kind, c.contentHash, c.state, previous), now,
                         c.kind, algorithm, c.externalDigest, state))
      case _ => None
  }

  // ----- checking a row -----

  function ItemOf(row: EvidenceRow): Value {
    Record(ITEM_KEYS, [row.evidenceType, row.sourceRef, row.excerpt, row.provenance,
                       row.externalDigest, row.algorithm, row.state])
  }

  // The checker raises on a row with neither an excerpt nor an external digest.
  predicate Checkable(row: EvidenceRow) {
    CanonicalEvidence(ItemOf(row)).Some?
  }

  function Expected(row: EvidenceRow): Canonicalized
    requires Checkable(row)
  {
    CanonicalEvidence(ItemOf(row)).value
  }

  predicate Sound(row: EvidenceRow, previous: Option<Hash>)
    requires Checkable(row)
  {
    && row.contentHash == Expected(row).contentHash
    && row.previousHash == previous
    && row.eventHash == EventHash(row.taskId, row.ordinal, row.kind, Expected(row).contentHash, Expected(row).state, previous)
  }

  // ----- what equal hashes say -----

  ghost predicate Distinct(keys: seq<string>) {
    forall i, j :: 0 <= i < j < |keys| ==> keys[i] != keys[j]
  }

  lemma KeysDistinct()
    ensures Distinct(INTERNAL_KEYS) && Distinct(EXTERNAL_KEYS) && Distinct(EVENT_KEYS) && Distinct(ITEM_KEYS)
  {
  }

  ghost predicate AllSame(vs: seq<Value>, ws: seq<Value>)
    requires |vs| == |ws|
  {
    forall i :: 0 <= i < |vs| ==> Same(vs[i], ws[i])
  }

  ghost predicate AllWellFormed(vs: seq<Value>) {
    forall i :: 0 <= i < |vs| ==> WellFormed(vs[i])
  }

  lemma RecordGet(keys: seq<string>, vs: seq<Value>, i: nat)
    requires |keys| == |vs| && Distinct(keys) && i < |keys|
    ensures Get(Record(keys, vs), keys[i]) == Some(vs[i])
  {
    var r := Record(keys, vs);
    assert UniqueKeys(r.fields);
    GetAt(r.fields, i);
    assert r.fields[i] == Field(keys[i], vs[i]);
  }

  // Two records over the same keys have one digest exactly when they hold the
  // same value under every key.
  lemma RecordsIdentify(keys: seq<string>, vs: seq<Value>, ws: seq<Value>)
    requires |keys| == |vs| == |ws| && Distinct(keys) && AllWellFormed(vs) && AllWellFormed(ws)
    ensures Digest(Record(keys, vs)) == Digest(Record(keys, ws)) <==> AllSame(vs, ws)
  {
    var a, b := Record(keys, vs), Record(keys, ws);
    DigestIdentifies(a, b);
    if Same(a, b) {
      forall i | 0 <= i < |vs| ensures Same(vs[i], ws[i]) {
        RecordGet(keys, vs, i);
        RecordGet(keys, ws, i);
        SameGet(a, b, keys[i]);
      }
    }
    if AllSame(vs, ws) {
      forall f | f in a.fields ensures FoundIn(f, b.fields) {
        var i :| 0 <= i < |keys| && a.fields[i] == f;
        assert b.fields[i] in b.fields && Same(vs[i], ws[i]);
      }
      forall g | g in b.fields ensures Finds(a.fields, g) {
        var i :| 0 <= i < |keys| && b.fields[i] == g;
        assert a.fields[i] in a.fields && Same(vs[i], ws[i]);
      }
    }
  }

  // An internal and an external content never share a digest.
  lemma RecordsOfDifferentShape(vs: seq<Value>, ws: seq<Value>)
    requires |vs| == |INTERNAL_KEYS| && |ws| == |EXTERNAL_KEYS| && AllWellFormed(vs) && AllWellFormed(ws)
    ensures Digest(Record(INTERNAL_KEYS, vs)) != Digest(Record(EXTERNAL_KEYS, ws))
  {
    hide Digest;
    KeysDistinct();
    var a, b := Record(INTERNAL_KEYS, vs), Record(EXTERNAL_KEYS, ws);
    assert UniqueKeys(a.fields) && UniqueKeys(b.fields);
    DigestIdentifies(a, b);
    if Same(a, b) {
      SameGet(a, b, EXTERNAL_KEYS[3]);
      RecordGet(EXTERNAL_KEYS, ws, 3);
    }
  }

  lemma SameCells(a: Value, b: Value)
    requires !a.Arr? && !a.Obj?
    ensures Same(a, b) <==> a == b
    ensures Same(b, a) <==> a == b
  {
  }
}
