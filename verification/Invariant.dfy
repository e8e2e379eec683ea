// The invariant of the capture store, and that every transaction keeps it.
module Invariant {
  import opened Wrappers
  import opened Json
  import opened Canonical
  import opened CanonicalText
  import opened Digests
  import opened Evidence
  import opened Chain
  import opened Selection
  import opened Schema
  import opened Transactions
  import opened Insertion

  // The stored text loads back to a payload with the stored digest.
  ghost predicate StoredPayload(json: Text, hash: Hash) {
    Loads(json).Some? && WellFormed(Loads(json).value) && PayloadDigest(Loads(json).value) == hash
  }

  predicate AllLegacy(rows: seq<EvidenceRow>) {
    forall i :: 0 <= i < |rows| ==> Legacy(rows[i])
  }

  // The rows are exactly those the insertion loop makes for the items.
  ghost predicate BuiltFrom(rows: seq<EvidenceRow>, taskId: string, items: seq<Value>) {
    && |rows| == |items|
    && forall i :: 0 <= i < |rows| ==> Built(rows, i, taskId, items[i])
  }

  ghost predicate Built(rows: seq<EvidenceRow>, i: nat, taskId: string, item: Value)
    requires i < |rows|
  {
    MakeRow(taskId, i + 1, item, Before(rows, i), rows[i].eventId, rows[i].createdAt) == Some(rows[i])
  }

  function StoredItems(task: TaskRow): Option<seq<Value>> {
    match Loads(task.payloadJson) case Some(p) => Items(p) case None => None
  }

  // A task's evidence is either all migrated history or its payload's own chain.
  ghost predicate TaskChain(task: TaskRow, rows: seq<EvidenceRow>) {
    AllLegacy(rows) || (StoredItems(task).Some? && BuiltFrom(rows, task.id, StoredItems(task).value))
  }

  ghost predicate ClaimsMatch(t: Tables) {
    forall i, j :: 0 <= i < |t.confirmations| && 0 <= j < |t.tasks| && t.confirmations[i].taskId == Some(t.tasks[j].id) ==>
      t.tasks[j].payloadHash == t.confirmations[i].payloadHash
  }

  // The row says it is persisted, and the JSON columns that read_task loads
  // besides the payload can be loaded.
  predicate Readable(task: TaskRow) {
    task.captureStatus == PERSISTED && Loads(task.businessJson).Some? && Loads(task.aiJson).Some? && Loads(task.authorizationJson).Some?
  }

  ghost predicate PayloadsStored(t: Tables) {
    && (forall i :: 0 <= i < |t.tasks| ==> Readable(t.tasks[i]))
    && (forall i :: 0 <= i < |t.tasks| ==> StoredPayload(t.tasks[i].payloadJson, t.tasks[i].payloadHash))
    && (forall i :: 0 <= i < |t.confirmations| ==> StoredPayload(t.confirmations[i].payloadJson, t.confirmations[i].payloadHash))
  }

  ghost predicate ChainsBuilt(t: Tables) {
    forall i :: 0 <= i < |t.tasks| ==> TaskChain(t.tasks[i], ChainOf(t.evidence, t.tasks[i].id))
  }

  ghost predicate Inv(t: Tables) {
    Constraints(t) && PayloadsStored(t) && ClaimsMatch(t) && ChainsBuilt(t)
  }

  lemma EmptyStoreInv()
    ensures Inv(NO_ROWS)
  {
  }

  // ----- the chain of a freshly inserted task -----

  lemma NoEvidenceYet(t: Tables, taskId: string)
    requires Constraints(t) && !HasTask(t, taskId)
    ensures forall i :: 0 <= i < |t.evidence| ==> t.evidence[i].taskId != taskId
  {
  }

  lemma BlockChain(earlier: seq<EvidenceRow>, rows: seq<EvidenceRow>, taskId: string, items: seq<Value>)
    requires forall i :: 0 <= i < |earlier| ==> earlier[i].taskId != taskId
    requires BuiltFrom(rows, taskId, items)
    ensures ChainOf(earlier + rows, taskId) == rows
    ensures forall id :: id != taskId ==> ChainOf(earlier + rows, id) == ChainOf(earlier, id)
  {
    hide CanonicalEvidence, EventHash;
    forall i | 0 <= i < |rows| ensures rows[i].taskId == taskId && rows[i].ordinal == i + 1 {
      assert Built(rows, i, taskId, items[i]);
    }
    SelectAppend(earlier, rows, taskId);
    SelectForeign(earlier, taskId);
    SelectOwn(rows, taskId);
    assert [] + rows == rows;
    SortInOrder(rows);
    forall id | id != taskId ensures ChainOf(earlier + rows, id) == ChainOf(earlier, id) {
      SelectAppend(earlier, rows, id);
      SelectForeign(rows, id);
      assert Select(earlier, id) + [] == Select(earlier, id);
    }
  }

  lemma AddedBlock(t: Tables, t': Tables, taskId: string, processId: string, items: seq<Value>, first: nat, uuid: Uuids, now: string)
    requires EvidenceAdded(t, t', taskId, processId, items, 0, None, first, uuid, now)
    ensures t'.evidence == t.evidence + t'.evidence[|t.evidence|..]
    ensures BuiltFrom(t'.evidence[|t.evidence|..], taskId, items)
  {
    hide MakeRow;
    var n := |t.evidence|;
    var rows := t'.evidence[n..];
    forall i | 0 <= i < |rows| ensures Built(rows, i, taskId, items[i]) {
      var previous := if i == 0 then None else Some(t'.evidence[n - 0 + i - 1].eventHash);
      assert EventAt(t', n - 0 + i, |t.lineage| - 0 + i, taskId, processId, items[i], i, previous, first, uuid, now);
      MadeRowIds(taskId, i + 1, items[i], previous, NewId("event", uuid(first + 2 * i)), now);
      assert rows[i] == t'.evidence[n + i] && previous == Before(rows, i);
    }
  }

  lemma MadeRowIds(taskId: string, ordinal: int, item: Value, previous: Option<Hash>, eventId: string, now: string)
    ensures var r := MakeRow(taskId, ordinal, item, previous, eventId, now);
            r.Some? ==> (r.value.eventId == eventId && r.value.createdAt == now && r.value.taskId == taskId
                         && r.value.ordinal == ordinal && r.value.previousHash == previous)
  {
    hide CanonicalEvidence, EventHash;
  }

  // ----- key order does not matter to the rows -----

  lemma CanonScalar(v: Value)
    ensures BindText(Canon(v)) == BindText(v) && Truthy(Canon(v)) == Truthy(v) && LowerText(Canon(v)) == LowerText(v)
    ensures BindNotNull(Canon(v)) == BindNotNull(v)
    ensures BindText(v).Some? || BindNotNull(v).Some? ==> Canon(v) == v
  {
    if v.Obj? { SortedEmpty(v.fields); }
  }

  lemma SortedEmpty(fs: seq<Field>)
    ensures Sort(CanonFields(fs)) == [] <==> fs == []
  {
    Canonical.SortMembers(CanonFields(fs));
  }

  lemma CanonGetOr(v: Value, k: string, default: Value)
    requires WellFormed(v) && v.Obj? && Canon(default) == default
    ensures GetOr(Canon(v), k, default) == Canon(GetOr(v, k, default))
  {
    CanonGet(v, k);
  }

  lemma CanonRecord(keys: seq<string>, vs: seq<Value>, ws: seq<Value>)
    requires |keys| == |vs| == |ws| && Distinct(keys) && AllWellFormed(vs)
    requires forall i :: 0 <= i < |vs| ==> ws[i] == Canon(vs[i])
    ensures Digest(Record(keys, ws)) == Digest(Record(keys, vs))
  {
    hide Digest, Record;
    forall i | 0 <= i < |vs| ensures WellFormed(ws[i]) && Same(ws[i], vs[i]) { CanonIsSame(vs[i]); }
    RecordsIdentify(keys, ws, vs);
  }

  // Canonicalising a key-sorted item gives the same digest, and its other
  // components with their keys sorted.
  ghost predicate CanonAgrees(item: Value) {
    match (CanonicalEvidence(Canon(item)), CanonicalEvidence(item))
    case (Some(c'), Some(c)) => c' == c.(algorithm := Canon(c.algorithm), state := Canon(c.state))
    case (None, None) => true
    case _ => false
  }

  lemma CanonEvidence(item: Value)
    requires WellFormed(item) && item.Obj?
    ensures CanonAgrees(item)
  {
    hide CanonAgrees, Canon;
    CanonItem(item);
    CanonScalar(ItemExcerpt(item));
    if Truthy(ItemExcerpt(item)) {
      CanonInternal(item);
    } else {
      CanonExternal(item);
    }
  }

  lemma CanonInternal(item: Value)
    requires WellFormed(item) && item.Obj? && Truthy(ItemExcerpt(item)) && Truthy(ItemExcerpt(Canon(item)))
    ensures CanonAgrees(item)
  {
    hide Digest, Record, Canon, ItemType, ItemSource, ItemProvenance, ItemExcerpt;
    KeysDistinct();
    CanonItem(item);
    ItemFieldsWellFormed(item);
    CanonRecord(INTERNAL_KEYS, [ItemType(item), ItemSource(item), ItemProvenance(item), ItemExcerpt(item)],
                [Canon(ItemType(item)), Canon(ItemSource(item)), Canon(ItemProvenance(item)), Canon(ItemExcerpt(item))]);
    CanonText("sha256");
    CanonText("internally_verified");
  }

  lemma CanonText(s: string)
    ensures Canon(Str(s)) == Str(s) && Canon(Null) == Null
  {
  }

  lemma CanonItem(item: Value)
    requires WellFormed(item) && item.Obj?
    ensures Canon(item).Obj?
    ensures ItemType(Canon(item)) == Canon(ItemType(item)) && ItemSource(Canon(item)) == Canon(ItemSource(item))
    ensures ItemProvenance(Canon(item)) == Canon(ItemProvenance(item)) && ItemExcerpt(Canon(item)) == Canon(ItemExcerpt(item))
  {
    CanonGetOr(item, "evidence_type", Str("conversation_excerpt"));
    CanonGetOr(item, "source_ref", Null);
    CanonGetOr(item, "provenance", Str("observed"));
    CanonGetOr(item, "sanitized_excerpt", Null);
  }

  lemma CanonExternal(item: Value)
    requires WellFormed(item) && item.Obj? && !Truthy(ItemExcerpt(item)) && !Truthy(ItemExcerpt(Canon(item)))
    ensures CanonAgrees(item)
  {
    hide Digest, Record, Canon, ItemType, ItemSource, ItemProvenance, ItemExcerpt;
    CanonItem(item);
    ItemFieldsWellFormed(item);
    CanonGet(item, "external_digest");
    CanonGet(item, "hash_algorithm");
    CanonGet(item, "verification_state");
    match (Get(item, "external_digest"), Get(item, "hash_algorithm"), Get(item, "verification_state"))
    case (Some(d), Some(a), Some(s)) =>
      CanonScalar(d);
      if LowerText(d).Some? { CanonExternalRecord(item, LowerText(d).value, a, s); }
    case _ =>
  }

  lemma CanonExternalRecord(item: Value, low: Cell, a: Value, s: Value)
    requires WellFormed(item) && WellFormed(a) && WellFormed(s)
    ensures Digest(Record(EXTERNAL_KEYS, [Canon(ItemType(item)), Canon(ItemSource(item)), Canon(ItemProvenance(item)), low, Canon(a), Canon(s)]))
         == Digest(Record(EXTERNAL_KEYS, [ItemType(item), ItemSource(item), ItemProvenance(item), low, a, s]))
  {
    hide Digest, Record, Canon, ItemType, ItemSource, ItemProvenance, ItemExcerpt;
    KeysDistinct();
    ItemFieldsWellFormed(item);
    CanonCell(low);
    CellWellFormed(low);
    CanonRecord(EXTERNAL_KEYS, [ItemType(item), ItemSource(item), ItemProvenance(item), low, a, s],
                [Canon(ItemType(item)), Canon(ItemSource(item)), Canon(ItemProvenance(item)), low, Canon(a), Canon(s)]);
  }

  lemma CanonCell(c: Cell)
    ensures Canon(c) == c
  {
  }

  lemma CanonMakeRow(taskId: string, ordinal: int, item: Value, previous: Option<Hash>, eventId: string, now: string)
    requires WellFormed(item)
    ensures MakeRow(taskId, ordinal, Canon(item), previous, eventId, now) == MakeRow(taskId, ordinal, item, previous, eventId, now)
  {
    hide CanonicalEvidence, EventHash, BindText, BindNotNull, ItemType, ItemSource, ItemProvenance, ItemExcerpt, Canon;
    if item.Obj? {
      CanonEvidence(item);
      CanonItem(item);
      CanonScalar(ItemType(item));
      CanonScalar(ItemSource(item));
      CanonScalar(ItemProvenance(item));
      CanonScalar(ItemExcerpt(item));
      if CanonicalEvidence(item).Some? {
        CanonScalar(CanonicalEvidence(item).value.algorithm);
        CanonScalar(CanonicalEvidence(item).value.state);
      }
    } else {
      NotADict(item);
      NotADict(Canon(item));
    }
  }

  lemma NotADict(item: Value)
    ensures !item.Obj? ==> CanonicalEvidence(item).None? && !Canon(item).Obj?
  {
  }
}
