// Every transaction keeps the invariant, whatever its arguments.
module Preservation {
  import opened Wrappers
  import opened Json
  import opened Canonical
  import opened CanonicalText
  import opened Digests
  import opened Evidence
  import opened Chain
  import opened Selection
  import opened Schema
  import opened Transactions
  import opened Insertion
  import opened Invariant

  // ----- the reloaded payload describes the same chain -----

  lemma BuiltFromCanon(rows: seq<EvidenceRow>, taskId: string, v: Value)
    requires WellFormed(v) && Elements(v).Some? && BuiltFrom(rows, taskId, Elements(v).value)
    ensures Elements(Canon(v)).Some? && BuiltFrom(rows, taskId, Elements(Canon(v)).value)
  {
    hide MakeRow;
    var items := Elements(v).value;
    if v.Arr? {
      assert Elements(Canon(v)).value == Canon(v).items;
      forall i | 0 <= i < |rows| ensures Built(rows, i, taskId, Canon(v).items[i]) {
        assert Built(rows, i, taskId, items[i]);
        CanonMakeRow(taskId, i + 1, items[i], Before(rows, i), rows[i].eventId, rows[i].createdAt);
      }
    } else if v.Obj? {
      if rows != [] {
        assert Built(rows, 0, taskId, items[0]) && items[0].Str?;
        StringsMakeNoRow(rows, taskId, items[0]);
      }
      SortedEmpty(v.fields);
      assert Canon(v) == v;
    }
  }

  lemma StringsMakeNoRow(rows: seq<EvidenceRow>, taskId: string, item: Value)
    requires rows != [] && item.Str?
    ensures !Built(rows, 0, taskId, item)
  {
  }

  lemma StoredItemsBuilt(task: TaskRow, payload: Value, rows: seq<EvidenceRow>)
    requires WellFormed(payload) && payload.Obj? && task.payloadJson == CanonicalJson(payload)
    requires Items(payload).Some? && BuiltFrom(rows, task.id, Items(payload).value)
    ensures TaskChain(task, rows)
  {
    hide BuiltFrom, Elements;
    LoadsCanonicalJson(payload);
    var v := GetOr(payload, "evidence", Arr([]));
    CanonNull();
    CanonGetOr(payload, "evidence", Arr([]));
    GetWellFormed(payload, "evidence");
    BuiltFromCanon(rows, task.id, v);
    CanonIsSame(payload);
  }

  lemma CanonNull()
    ensures Canon(Null) == Null && Canon(Arr([])) == Arr([]) && Canon(Obj([])) == Obj([])
  {
    assert CanonFields([]) == [];
  }

  // ----- insertion -----

  lemma FreshShape(t: Tables, t': Tables, payload: Value, hash: Hash, committedAt: string, mode: Mode,
                   authorization: Value, uuid: Uuids, now: string) returns (task: TaskRow)
    requires FreshAdded(t, t', payload, hash, committedAt, mode, authorization, uuid, now)
    ensures MakeTask(payload, hash, committedAt, mode, authorization, NewId("task", uuid(0)), now) == Some(task)
    ensures task.id == NewId("task", uuid(0)) && task.payloadHash == hash && task.payloadJson == CanonicalJson(payload)
    ensures WellFormed(payload) && WellFormed(authorization) ==> Readable(task)
    ensures TaskFits(t, task) && t'.tasks == t.tasks + [task] && t'.confirmations == t.confirmations
  {
    hide MakeTask, StepsAdded, EvidenceAdded, ReferencesAdded, TaskFits;
    task := MakeTask(payload, hash, committedAt, mode, authorization, NewId("task", uuid(0)), now).value;
    MadeTask(payload, hash, committedAt, mode, authorization, NewId("task", uuid(0)), now);
    if WellFormed(payload) && WellFormed(authorization) {
      MadeReadable(payload, hash, committedAt, mode, authorization, NewId("task", uuid(0)), now);
    }
    var t3 := Parents(t, payload, task, BindText(GetOr(payload, "process_summary", Null)).value, uuid);
    EvidenceOnly(t3.(steps := t'.steps), t'.(references := t.references), task.id, NewId("process", uuid(1)), Items(payload).value,
                 3 + |Steps(payload).value|, uuid, now);
  }

  lemma MadeReadable(payload: Value, hash: Hash, committedAt: string, mode: Mode, authorization: Value, id: string, now: string)
    requires WellFormed(payload) && WellFormed(authorization)
    requires MakeTask(payload, hash, committedAt, mode, authorization, id, now).Some?
    ensures Readable(MakeTask(payload, hash, committedAt, mode, authorization, id, now).value)
  {
    hide CanonicalJson, Loads, Digest, BindText, Canon, Get, SignatureOf, ContextRefHash;
    assert WellFormed(Obj([])) && WellFormed(Null);
    GetWellFormed(payload, "business_context");
    GetWellFormed(payload, "ai_context");
    LoadsCanonicalJson(OrEmpty(GetOr(payload, "business_context", Null)));
    LoadsCanonicalJson(OrEmpty(GetOr(payload, "ai_context", Null)));
    LoadsCanonicalJson(OrEmpty(authorization));
  }

  lemma AppendedTaskKeepsInv(t: Tables, t': Tables, task: TaskRow)
    requires Inv(t) && Constraints(t') && TaskFits(t, task)
    requires t'.tasks == t.tasks + [task] && t'.confirmations == t.confirmations
    requires StoredPayload(task.payloadJson, task.payloadHash) && Readable(task)
    requires TaskChain(task, ChainOf(t'.evidence, task.id))
    requires forall id :: id != task.id ==> ChainOf(t'.evidence, id) == ChainOf(t.evidence, id)
    ensures Inv(t')
  {
    hide Constraints, StoredPayload, Readable, TaskChain, ChainOf;
    TaskIdUnused(t, task);
    NewTaskUnclaimed(t, task);
    forall i | 0 <= i < |t'.tasks| ensures TaskChain(t'.tasks[i], ChainOf(t'.evidence, t'.tasks[i].id)) {
      if i < |t.tasks| { assert t'.tasks[i] == t.tasks[i]; }
    }
  }

  lemma FreshKeepsInv(t: Tables, t': Tables, payload: Value, hash: Hash, committedAt: string, mode: Mode,
                      authorization: Value, uuid: Uuids, now: string)
    requires Inv(t) && Constraints(t') && WellFormed(payload) && WellFormed(authorization) && payload.Obj? && PayloadDigest(payload) == hash
    requires FreshAdded(t, t', payload, hash, committedAt, mode, authorization, uuid, now)
    ensures Inv(t')
  {
    hide Inv, Constraints, FreshAdded, MakeTask, PayloadDigest, StoredPayload, Readable, TaskChain, BuiltFrom, ChainOf, TaskFits;
    InvConstraints(t);
    var task := FreshShape(t, t', payload, hash, committedAt, mode, authorization, uuid, now);
    var rows := FreshChain(t, t', payload, hash, committedAt, mode, authorization, uuid, now);
    NewTaskStored(task, payload, hash);
    StoredItemsBuilt(task, payload, rows);
    AppendedTaskKeepsInv(t, t', task);
  }

  lemma MadeTask(payload: Value, hash: Hash, committedAt: string, mode: Mode, authorization: Value, id: string, now: string)
    requires MakeTask(payload, hash, committedAt, mode, authorization, id, now).Some?
    ensures var r := MakeTask(payload, hash, committedAt, mode, authorization, id, now).value;
            && r.id == id && r.payloadHash == hash && r.payloadJson == CanonicalJson(payload)
            && r.mode == mode && r.captureStatus == PERSISTED && r.schemaVersion == SCHEMA_VERSION
            && BindText(GetOr(payload, SESSION, Null)) == Some(r.session)
            && r.createdAt == now && r.confirmedAt == committedAt && r.authorizationJson == CanonicalJson(OrEmpty(authorization))
  {
    hide CanonicalJson, Digest, BindText, SignatureOf;
  }

  lemma NewTaskStored(task: TaskRow, payload: Value, hash: Hash)
    requires WellFormed(payload) && PayloadDigest(payload) == hash
    requires task.payloadHash == hash && task.payloadJson == CanonicalJson(payload)
    ensures StoredPayload(task.payloadJson, task.payloadHash)
  {
    PayloadDigestReloaded(payload);
    CanonIsSame(payload);
  }

  lemma TaskIdUnused(t: Tables, task: TaskRow)
    requires Constraints(t) && TaskFits(t, task)
    ensures !HasTask(t, task.id)
    ensures forall i :: 0 <= i < |t.tasks| ==> t.tasks[i].id != task.id
  {
  }

  lemma NewTaskUnclaimed(t: Tables, task: TaskRow)
    requires Constraints(t) && TaskFits(t, task)
    ensures forall i :: 0 <= i < |t.confirmations| ==> t.confirmations[i].taskId != Some(task.id)
  {
  }

  lemma FreshChain(t: Tables, t': Tables, payload: Value, hash: Hash, committedAt: string, mode: Mode,
                   authorization: Value, uuid: Uuids, now: string) returns (rows: seq<EvidenceRow>)
    requires Constraints(t)
    requires FreshAdded(t, t', payload, hash, committedAt, mode, authorization, uuid, now)
    ensures Items(payload).Some? && BuiltFrom(rows, NewId("task", uuid(0)), Items(payload).value)
    ensures ChainOf(t'.evidence, NewId("task", uuid(0))) == rows
    ensures forall id :: id != NewId("task", uuid(0)) ==> ChainOf(t'.evidence, id) == ChainOf(t.evidence, id)
    ensures t'.evidence == t.evidence + rows
  {
    hide Constraints, EvidenceAdded, StepsAdded, ReferencesAdded, MakeTask, BuiltFrom;
    var taskId, processId := NewId("task", uuid(0)), NewId("process", uuid(1));
    var task := MakeTask(payload, hash, committedAt, mode, authorization, taskId, now).value;
    TaskIdUnused(t, task);
    NoEvidenceYet(t, taskId);
    var t3 := Parents(t, payload, task, BindText(GetOr(payload, "process_summary", Null)).value, uuid);
    AddedBlock(t3.(steps := t'.steps), t'.(references := t.references), taskId, processId, Items(payload).value, 3 + |Steps(payload).value|,
               uuid, now);
    rows := t'.evidence[|t.evidence|..];
    BlockChain(t.evidence, rows, taskId, Items(payload).value);
  }

  lemma InsertKeepsInv(t: Tables, payload: Value, hash: Hash, committedAt: string, mode: Mode, authorization: Value,
                       uuid: Uuids, now: string)
    requires Inv(t) && WellFormed(payload) && WellFormed(authorization) && PayloadDigest(payload) == hash
    requires InsertTask(t, payload, hash, committedAt, mode, authorization, uuid, now).Ok?
    ensures var ins := InsertTask(t, payload, hash, committedAt, mode, authorization, uuid, now).value;
            && Inv(ins.tables) && ins.tables.confirmations == t.confirmations
            && Names(ins.tables, ins.taskId, hash)
  {
    hide Inv, FreshAdded, InsertFresh, PayloadDigest, BindText, MakeTask, Constraints, TaskFits;
    var ins := InsertTask(t, payload, hash, committedAt, mode, authorization, uuid, now).value;
    var session := GetOr(payload, SESSION, Null);
    var s := if Truthy(session) then FindSession(t.tasks, BindText(session).value) else |t.tasks|;
    var h := FindHash(t.tasks, hash);
    if s == |t.tasks| && h == |t.tasks| {
      FreshInserted(t, payload, hash, committedAt, mode, authorization, uuid, now);
      InvConstraints(t);
      FreshKeepsInv(t, ins.tables, payload, hash, committedAt, mode, authorization, uuid, now);
      var task := FreshShape(t, ins.tables, payload, hash, committedAt, mode, authorization, uuid, now);
      assert ins.tables.tasks[|t.tasks|] == task;
    }
  }

  lemma InvConstraints(t: Tables)
    requires Inv(t)
    ensures Constraints(t)
  {
  }

  // A task with this id and content is in the table.
  ghost predicate Names(t: Tables, taskId: string, hash: Hash) {
    exists i :: 0 <= i < |t.tasks| && t.tasks[i].id == taskId && t.tasks[i].payloadHash == hash
  }

  // ----- confirmations -----

  lemma CreateKeepsInv(t: Tables, payload: Value, uuid: Uuids, now: string)
    requires Inv(t) && WellFormed(payload) && CreateConfirmation(t, payload, uuid, now).Ok?
    ensures Inv(CreateConfirmation(t, payload, uuid, now).value)
  {
    hide Constraints, Digest, PayloadDigest, Loads, CanonicalJson, ConfirmationFits, TaskChain, ChainOf;
    var row := NewConfirmation(payload, uuid, now);
    AppendConfirmation(t, row);
    PayloadDigestReloaded(payload);
    CanonIsSame(payload);
    var t' := CreateConfirmation(t, payload, uuid, now).value;
    assert forall i :: 0 <= i < |t'.confirmations| ==> t'.confirmations[i] == if i < |t.confirmations| then t.confirmations[i] else row;
  }

  // Replacing a row by one with the same key, hash and text, and a claim nobody
  // else holds, keeps everything.
  lemma UpdateKeepsInv(t: Tables, i: nat, row: Confirmation)
    requires Inv(t) && i < |t.confirmations| && RowCheck(row)
    requires row.id == t.confirmations[i].id && row.payloadHash == t.confirmations[i].payloadHash
    requires row.payloadJson == t.confirmations[i].payloadJson
    requires row.taskId.Some? ==> Names(t, row.taskId.value, row.payloadHash) && TaskUnclaimed(t.confirmations, row.taskId.value)
    ensures Inv(t.(confirmations := t.confirmations[i := row]))
  {
    hide StoredPayload, Readable, TaskChain, ChainOf, RowCheck;
    var t' := t.(confirmations := t.confirmations[i := row]);
    KeepsParents(t, t');
    UpdateClaims(t, i, row);
  }

  lemma UpdateClaims(t: Tables, i: nat, row: Confirmation)
    requires TasksUnique(t.tasks) && ClaimsMatch(t) && i < |t.confirmations|
    requires row.taskId.Some? ==> Names(t, row.taskId.value, row.payloadHash)
    ensures ClaimsMatch(t.(confirmations := t.confirmations[i := row]))
    ensures row.taskId.Some? ==> HasTask(t, row.taskId.value)
  {
  }

  lemma ConfirmKeepsInv(t: Tables, id: string, expected: Hash, how: string, identity: Option<string>,
                        source: Option<string>, now: string)
    requires Inv(t) && ConfirmConfirmation(t, id, expected, how, identity, source, now).Ok?
    ensures Inv(ConfirmConfirmation(t, id, expected, how, identity, source, now).value)
  {
    hide StoredPayload, Readable, TaskChain, ChainOf, ChainsBuilt, ClaimsMatch, ForeignKeys;
    var i := FindConfirmation(t.confirmations, id);
    assert RowCheck(t.confirmations[i]);
    UpdateKeepsInv(t, i, ConfirmedRow(t.confirmations[i], how, identity, source, now));
  }

  lemma PersistConfirmedKeepsInv(t: Tables, id: string, expected: Hash, uuid: Uuids, now: string)
    requires Inv(t) && PersistConfirmed(t, id, expected, uuid, now).Ok?
    ensures Inv(PersistConfirmed(t, id, expected, uuid, now).value.tables)
  {
    hide Constraints, TaskChain, ChainOf, ChainsBuilt, ClaimsMatch, InsertTask, Loads, PayloadDigest, Readable;
    var i := FindConfirmation(t.confirmations, id);
    var row := t.confirmations[i];
    assert StoredPayload(row.payloadJson, row.payloadHash);
    var payload := Loads(row.payloadJson).value;
    InsertKeepsInv(t, payload, row.payloadHash, row.confirmedAt.value, Personal, Null, uuid, now);
    var ins := InsertTask(t, payload, row.payloadHash, row.confirmedAt.value, Personal, Null, uuid, now).value;
    UpdateKeepsInv(ins.tables, i, ConsumedRow(row, ins.taskId, now));
  }

  lemma PersistAuthorizedKeepsInv(t: Tables, payload: Value, authorization: Value, uuid: Uuids, now: string)
    requires Inv(t) && WellFormed(payload) && WellFormed(authorization) && PersistAuthorized(t, payload, authorization, uuid, now).Ok?
    ensures Inv(PersistAuthorized(t, payload, authorization, uuid, now).value.tables)
  {
    InsertKeepsInv(t, payload, PayloadDigest(payload), now, Enterprise, authorization, uuid, now);
  }
}
