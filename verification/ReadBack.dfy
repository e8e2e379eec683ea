// What a persisting call leaves in its rows, and what later reads and the
// reports of confirm and commit say of it.
module ReadBack {
  import opened Wrappers
  import opened Json
  import opened Canonical
  import opened CanonicalText
  import opened Digests
  import opened Schema
  import opened Transactions
  import opened Invariant
  import opened Preservation
  import opened Migration
  import O = Operations
  import opened Runs
  import opened Attempts
  import opened Service
  import opened Protocols
  import opened Projection
  import Admission
  import Authorization
  import Insertion
  import Evidence

  // ----- the rows -----

  // A new task's row: the payload's columns, and when, how and by whose leave.
  ghost predicate Written(row: TaskRow, payload: Value, createdAt: string, confirmedAt: string, mode: Mode, authorization: Value) {
    && row.createdAt == createdAt && row.confirmedAt == confirmedAt && row.mode == mode
    && TaskShows(row, payload) && ShowsJson(row.authorizationJson, OrEmpty(authorization))
  }

  // One task more, with this id and content.
  ghost predicate OneMore(t: Tables, u: Tables, id: string, hash: Hash) {
    |u.tasks| == |t.tasks| + 1 && t.tasks <= u.tasks && u.tasks[|t.tasks|].id == id && u.tasks[|t.tasks|].payloadHash == hash
  }

  lemma MadeWritten(p: Value, hash: Hash, committedAt: string, mode: Mode, authorization: Value, id: string, now: string)
    requires WellFormed(p) && WellFormed(authorization) && MakeTask(p, hash, committedAt, mode, authorization, id, now).Some?
    ensures Written(MakeTask(p, hash, committedAt, mode, authorization, id, now).value, p, now, committedAt, mode, authorization)
  {
    hide MakeTask, TaskShows, ShowsJson, CanonicalJson, WellFormed, OrEmpty, Get, Evidence.BindText;
    MadeTask(p, hash, committedAt, mode, authorization, id, now);
    MadeTaskShows(p, hash, committedAt, mode, authorization, id, now);
    AuthorizationShown(authorization);
  }

  lemma AuthorizationShown(v: Value)
    requires WellFormed(v)
    ensures ShowsJson(CanonicalJson(OrEmpty(v)), OrEmpty(v))
  {
    assert WellFormed(OrEmpty(v));
    hide Loads, CanonicalJson, Canon, WellFormed, OrEmpty;
    LoadsCanonicalJson(OrEmpty(v));
  }

  lemma InsertWrites(t: Tables, p: Value, hash: Hash, committedAt: string, mode: Mode, authorization: Value, uuid: Uuids, now: string)
    requires WellFormed(p) && WellFormed(authorization) && InsertTask(t, p, hash, committedAt, mode, authorization, uuid, now).Ok?
    ensures var ins := InsertTask(t, p, hash, committedAt, mode, authorization, uuid, now).value;
            if ins.duplicate then ins.tables == t
            else OneMore(t, ins.tables, ins.taskId, hash) && Written(ins.tables.tasks[|t.tasks|], p, now, committedAt, mode, authorization)
  {
    hide InsertFresh, MakeTask, Insertion.FreshAdded, Constraints, TaskFits, Written, WellFormed, Evidence.BindText;
    if InsertFresh(t, p, hash, committedAt, mode, authorization, uuid, now).Ok? {
      var u := InsertFresh(t, p, hash, committedAt, mode, authorization, uuid, now).value.tables;
      Insertion.FreshInserted(t, p, hash, committedAt, mode, authorization, uuid, now);
      var task := FreshShape(t, u, p, hash, committedAt, mode, authorization, uuid, now);
      MadeWritten(p, hash, committedAt, mode, authorization, NewId("task", uuid(0)), now);
    }
  }

  // persist_confirmed: the draft is consumed at this moment for the task it
  // names; a task it adds was confirmed when the draft was, and created now.
  lemma ConsumeWrites(t: Tables, id: string, expected: Hash, uuid: Uuids, now: string)
    requires Inv(t) && PersistConfirmed(t, id, expected, uuid, now).Ok?
    ensures var i := FindConfirmation(t.confirmations, id);
            var ins := PersistConfirmed(t, id, expected, uuid, now).value;
            && i < |t.confirmations| && t.confirmations[i].status == Confirmed && t.confirmations[i].payloadHash == expected
            && t.confirmations[i].confirmedAt.Some? && Loads(t.confirmations[i].payloadJson).Some?
            && ins.tables.confirmations ==
                 t.confirmations[i := t.confirmations[i].(status := Consumed, consumedAt := Some(now), taskId := Some(ins.taskId))]
            && if ins.duplicate then ins.tables.tasks == t.tasks
               else OneMore(t, ins.tables, ins.taskId, expected)
                    && Written(ins.tables.tasks[|t.tasks|], Loads(t.confirmations[i].payloadJson).value, now,
                               t.confirmations[i].confirmedAt.value, Personal, Null)
  {
    assert WellFormed(Null);
    hide Inv, InsertTask, Loads, RowCheck, TaskUnclaimed, Written, WellFormed;
    var i := FindConfirmation(t.confirmations, id);
    DraftParsed(t, i);
    var row := t.confirmations[i];
    InsertWrites(t, Loads(row.payloadJson).value, row.payloadHash, row.confirmedAt.value, Personal, Null, uuid, now);
  }

  // persist_authorized: a task it adds is confirmed and created now, under the
  // authorization it was given.
  lemma AuthorizeWrites(t: Tables, p: Value, authorization: Value, uuid: Uuids, now: string)
    requires WellFormed(p) && WellFormed(authorization) && PersistAuthorized(t, p, authorization, uuid, now).Ok?
    ensures var ins := PersistAuthorized(t, p, authorization, uuid, now).value;
            if ins.duplicate then ins.tables == t
            else OneMore(t, ins.tables, ins.taskId, PayloadDigest(p))
                 && Written(ins.tables.tasks[|t.tasks|], p, now, now, Enterprise, authorization)
  {
    hide InsertTask, PayloadDigest, Written, WellFormed;
    InsertWrites(t, p, PayloadDigest(p), now, Enterprise, authorization, uuid, now);
  }

  // ----- reading a task -----

  // A record shows this payload: its own two contexts, its session, its times and
  // the digest of its business reference.
  ghost predicate RecordShows(r: O.TaskRecord, p: Value) {
    && r.payload == Canon(p)
    && r.business == Canon(OrEmpty(GetOr(p, "business_context", Null))) && r.ai == Canon(OrEmpty(GetOr(p, "ai_context", Null)))
    && Shows(r.startedAt, GetOr(p, "started_at", Null)) && Shows(r.completedAt, GetOr(p, "completed_at", Null))
    && Shows(r.session, GetOr(p, SESSION, Null)) && RefShows(r.contextRefHash, p)
    && r.schemaVersion == 4 && r.captureStatus == "TASK_COMPLETED_CAPTURE_PERSISTED"
  }

  lemma ReadRow(t: Tables, i: nat, p: Value, authorization: Value)
    requires TasksUnique(t.tasks) && i < |t.tasks| && TaskShows(t.tasks[i], p) && Loads(t.tasks[i].authorizationJson) == Some(authorization)
    ensures var read := O.ReadTask(t, t.tasks[i].id);
            && read.Ok? && read.value.Some? && RecordShows(read.value.value, p)
            && var r := read.value.value;
               r.taskId == t.tasks[i].id && r.createdAt == t.tasks[i].createdAt && r.payloadHash == t.tasks[i].payloadHash
               && r.mode == t.tasks[i].mode && r.authorization == authorization
  {
    hide Loads, Canon, Shows, GetOr, OrEmpty, RefShows, PyStr, Steps, Marks;
    TasksWithId(t.tasks, FindTask(t.tasks, t.tasks[i].id), i);
  }

  lemma InvUnique(t: Tables)
    requires Inv(t)
    ensures TasksUnique(t.tasks)
    ensures forall i :: 0 <= i < |t.tasks| ==>
              Loads(t.tasks[i].authorizationJson).Some? && StoredPayload(t.tasks[i].payloadJson, t.tasks[i].payloadHash)
  {
    hide ClaimsMatch, ChainsBuilt, Loads, StoredPayload;
    assert forall i :: 0 <= i < |t.tasks| ==> Readable(t.tasks[i]);
  }

  // In every store reached from a new database, each task can be read, and the
  // answer shows the stored payload, under its digest.
  lemma EveryTaskReads(actions: seq<O.Action>, i: nat)
    requires ActionsOk(actions) && Run(NEW_DATABASE, actions).layout.V4? && i < |Run(NEW_DATABASE, actions).layout.tables.tasks|
    ensures var t := Run(NEW_DATABASE, actions).layout.tables;
            var read := O.ReadTask(t, t.tasks[i].id);
            && read.Ok? && read.value.Some?
            && var r := read.value.value;
               && RecordShows(r, r.payload) && r.payloadHash == PayloadDigest(r.payload)
               && r.taskId == t.tasks[i].id && r.createdAt == t.tasks[i].createdAt && r.mode == t.tasks[i].mode
               && Some(r.authorization) == Loads(t.tasks[i].authorizationJson)
  {
    hide Run, TaskShows, Loads, Canon, Inv, RecordShows, PayloadDigest, WellFormed;
    var t := Run(NEW_DATABASE, actions).layout.tables;
    EveryTaskReadsBack(actions);
    NewDatabaseInv();
    RunKeepsInv(NEW_DATABASE, actions);
    DbInvTables(Run(NEW_DATABASE, actions));
    InvUnique(t);
    StoredShows(t, i);
    var p := Loads(t.tasks[i].payloadJson).value;
    ReadRow(t, i, p, Loads(t.tasks[i].authorizationJson).value);
    ShownPayload(O.ReadTask(t, t.tasks[i].id).value.value, t.tasks[i], p);
  }

  lemma StoredShows(t: Tables, i: nat)
    requires Projects(t) && i < |t.tasks|
    ensures Loads(t.tasks[i].payloadJson).Some? && TaskShows(t.tasks[i], Loads(t.tasks[i].payloadJson).value)
  {
    hide TaskShows, Loads, LinksNamed, ProcessesOf, PathsOf, StepsOf, LinksOf, ReferencesOf;
    assert TaskProjects(t, t.tasks[i]);
  }

  // What is stored is sorted already.
  lemma ShownPayload(r: O.TaskRecord, row: TaskRow, p: Value)
    requires RecordShows(r, p) && Loads(row.payloadJson) == Some(p) && TaskShows(row, p) && StoredPayload(row.payloadJson, row.payloadHash)
    ensures r.payload == p && PayloadDigest(p) == row.payloadHash
  {
    hide Loads, Canon, Shows, PayloadDigest, RefShows, PyStr, Steps, Marks;
  }

  // ----- what commit and capture report -----

  // A consumption is a duplicate exactly when the content was stored before.
  lemma ConsumeDuplicate(t: Tables, id: string, expected: Hash, uuid: Uuids, now: string)
    requires Inv(t) && PersistConfirmed(t, id, expected, uuid, now).Ok?
    ensures PersistConfirmed(t, id, expected, uuid, now).value.duplicate <==> ContentStored(t, expected)
  {
    hide Inv, InsertTask, Loads, RowCheck, TaskUnclaimed, ContentStored, WellFormed;
    var i := FindConfirmation(t.confirmations, id);
    DraftParsed(t, i);
    InvConstraints(t);
    var row := t.confirmations[i];
    var p := Loads(row.payloadJson).value;
    InsertedSession(t, p, row.payloadHash, row.confirmedAt.value, Personal, Null, uuid, now);
    TwoKeys(t, p, row.payloadHash, row.confirmedAt.value, Personal, Null, uuid, now);
  }

  lemma ConsumeStepDuplicate(db: Database, a: O.Action)
    requires DbInv(db) && a.Consume? && O.Step(db, a).result.Ok?
    ensures O.Step(db, a).result.value.Persisted? && (O.Step(db, a).result.value.duplicate <==> HasContent(db, a.expected))
  {
    hide Inv, Migration.Migrate, PersistConfirmed, ContentStored;
    MigrateKeepsInv(db, SCHEMA_VERSION, {});
    ConsumeDuplicate(Current(db).layout.tables, a.id, a.expected, a.uuid, a.now);
  }

  // After any calls of any clients, commit reports the row that holds the
  // content, the digest and version in that row, its own clock as the moment of
  // consumption, and a replay exactly when the content was there before.
  lemma CommitReported(tl: Tools, db: Database, a: Artifact, uuid: Uuids, now: string, others: seq<O.Action>)
    requires DbInv(db) && ActionsOk(others) && CommitStep(tl, db, a, uuid, now).result.Ok?
    ensures var s := CommitStep(tl, db, a, uuid, now);
            var later := Run(s.db, others);
            && s.result.value.Persisted? && later.layout.V4?
            && var (u, id) := (later.layout.tables, s.result.value.taskId);
               var k := FindTask(u.tasks, id);
               && k < |u.tasks| && u.tasks[k].id == id && u.tasks[k].payloadHash == a.payloadHash
               && CommitConclusion(a, id, s.result.value.duplicate, O.ReadTask(u, id), O.ReadConfirmation(u, a.confirmationId))
                  == Ok(CommitReport(id, a.confirmationId, Some(now), HasContent(db, a.payloadHash), a.payloadHash, u.tasks[k].schemaVersion))
  {
    hide ArtifactGate, O.Step, O.ReadTask, DbInv, Run, Names, PayloadDigest, HasContent;
    var action := O.Consume(a.confirmationId, a.payloadHash, uuid, now);
    ConsumeMeans(db, action);
    ConsumeStepDuplicate(db, action);
    var s := O.Step(db, action);
    StepKeepsInv(db, action);
    RunKeepsInv(s.db, others);
    RunLater(s.db, others);
    var t, u := s.db.layout.tables, Run(s.db, others).layout.tables;
    NamesForward(t, u, s.result.value.taskId, a.payloadHash);
    DbInvTables(Run(s.db, others));
    TaskFound(u, s.result.value.taskId, a.payloadHash);
    ReadVersion(u, s.result.value.taskId);
    ConfirmationStays(t, u, a.confirmationId);
  }

  lemma ReadVersion(t: Tables, id: string)
    requires O.ReadTask(t, id).Ok? && O.ReadTask(t, id).value.Some?
    ensures var k := FindTask(t.tasks, id);
            k < |t.tasks| && t.tasks[k].id == id && O.ReadTask(t, id).value.value.schemaVersion == t.tasks[k].schemaVersion
  {
    hide Loads;
  }

  // A task that commit adds is read back, at any later moment, as the drafted
  // payload under its own contexts, created by the commit and confirmed when the
  // draft was.
  lemma CommitRead(tl: Tools, db: Database, a: Artifact, uuid: Uuids, now: string, others: seq<O.Action>)
    requires DbInv(db) && ActionsOk(others) && CommitStep(tl, db, a, uuid, now).result.Ok?
    requires CommitStep(tl, db, a, uuid, now).result.value.Persisted? && !CommitStep(tl, db, a, uuid, now).result.value.duplicate
    ensures Current(db).layout.V4?
    ensures var s := CommitStep(tl, db, a, uuid, now);
            var later := Run(s.db, others);
            var i := FindConfirmation(Current(db).layout.tables.confirmations, a.confirmationId);
            && later.layout.V4? && i < |Current(db).layout.tables.confirmations|
            && var (u, draft) := (later.layout.tables, Current(db).layout.tables.confirmations[i]);
               && draft.confirmedAt.Some? && Loads(draft.payloadJson).Some?
               && TaskReads(u, s.result.value.taskId, Loads(draft.payloadJson).value, now, draft.confirmedAt.value, Personal, Obj([]))
  {
    hide Inv, DbInv, Run, PersistConfirmed, O.Step, Current, ArtifactGate, Loads, TaskReads, FindConfirmation, Forward, Coherent;
    var action := O.Consume(a.confirmationId, a.payloadHash, uuid, now);
    ConsumeStepIs(db, action);
    var s := O.Step(db, action);
    StepKeepsInv(db, action);
    RunKeepsInv(s.db, others);
    RunLater(s.db, others);
    DbInvTables(Run(s.db, others));
    ConsumedReads(Current(db).layout.tables, Run(s.db, others).layout.tables, a.confirmationId, a.payloadHash, uuid, now);
  }

  lemma ConsumedReads(t: Tables, u: Tables, id: string, expected: Hash, uuid: Uuids, now: string)
    requires Inv(t) && PersistConfirmed(t, id, expected, uuid, now).Ok? && !PersistConfirmed(t, id, expected, uuid, now).value.duplicate
    requires Forward(PersistConfirmed(t, id, expected, uuid, now).value.tables, u) && Inv(u)
    ensures var i := FindConfirmation(t.confirmations, id);
            && i < |t.confirmations| && t.confirmations[i].confirmedAt.Some? && Loads(t.confirmations[i].payloadJson).Some?
            && TaskReads(u, PersistConfirmed(t, id, expected, uuid, now).value.taskId, Loads(t.confirmations[i].payloadJson).value, now,
                         t.confirmations[i].confirmedAt.value, Personal, Obj([]))
  {
    hide Inv, PersistConfirmed, Loads, Written, TaskReads, FindConfirmation, Canon, Forward;
    ConsumeWrites(t, id, expected, uuid, now);
    var draft := t.confirmations[FindConfirmation(t.confirmations, id)];
    WrittenReads(PersistConfirmed(t, id, expected, uuid, now).value.tables, u, |t.tasks|, Loads(draft.payloadJson).value, now,
                 draft.confirmedAt.value, Personal, Null);
    EmptyCanon();
  }

  // A successful consumption is its transaction on the migrated tables.
  lemma ConsumeStepIs(db: Database, a: O.Action)
    requires DbInv(db) && a.Consume? && O.Step(db, a).result.Ok?
    ensures Current(db).layout.V4? && Inv(Current(db).layout.tables) && O.Step(db, a).db.layout.V4?
    ensures var ins := PersistConfirmed(Current(db).layout.tables, a.id, a.expected, a.uuid, a.now);
            && ins.Ok? && O.Step(db, a).db.layout.tables == ins.value.tables
            && O.Step(db, a).result == Ok(O.Persisted(ins.value.taskId, ins.value.duplicate, a.expected))
  {
    hide Inv, Migration.Migrate, PersistConfirmed;
    MigrateKeepsInv(db, SCHEMA_VERSION, {});
  }

  lemma EmptyCanon()
    ensures Canon(Obj([])) == Obj([])
  {
  }

  // The task with this id: its row's moment of confirmation, and its record.
  ghost predicate TaskReads(t: Tables, id: string, p: Value, createdAt: string, confirmedAt: string, mode: Mode, authorization: Value) {
    && (exists i :: 0 <= i < |t.tasks| && t.tasks[i].id == id && t.tasks[i].confirmedAt == confirmedAt)
    && O.ReadTask(t, id).Ok? && O.ReadTask(t, id).value.Some?
    && var r := O.ReadTask(t, id).value.value;
       RecordShows(r, p) && r.taskId == id && r.createdAt == createdAt && r.mode == mode && r.authorization == authorization
  }

  lemma WrittenReads(t: Tables, u: Tables, i: nat, p: Value, createdAt: string, confirmedAt: string, mode: Mode, authorization: Value)
    requires Forward(t, u) && Inv(u) && i < |t.tasks| && Written(t.tasks[i], p, createdAt, confirmedAt, mode, authorization)
    ensures TaskReads(u, t.tasks[i].id, p, createdAt, confirmedAt, mode, Canon(OrEmpty(authorization)))
  {
    hide Inv, TaskShows, Loads, Canon, RecordShows, O.ReadTask, ConfirmationsForward;
    assert u.tasks[i] == t.tasks[i];
    InvUnique(u);
    ReadRow(u, i, p, Canon(OrEmpty(authorization)));
  }

  // The same for a task that capture adds: created and confirmed by its clock,
  // under the authorization of its gate.
  lemma CaptureRead(tl: Tools, db: Database, env: Authorization.Environment, candidate: Value, uuid: Uuids, others: seq<O.Action>)
    requires DbInv(db) && ActionsOk(others) && WellFormed(candidate) && Admission.FilesParsed(env)
    requires var s := CaptureStep(tl, db, env, candidate, uuid);
             s.result.Ok? && s.result.value.Persisted? && !s.result.value.duplicate
    ensures CaptureGate(tl, env, candidate, LOCAL_SQLITE).Ok?
    ensures var s := CaptureStep(tl, db, env, candidate, uuid);
            var adm := CaptureGate(tl, env, candidate, LOCAL_SQLITE).value;
            var later := Run(s.db, others);
            && later.layout.V4?
            && TaskReads(later.layout.tables, s.result.value.taskId, adm.record, env.clock, env.clock, Enterprise,
                         Canon(OrEmpty(adm.authorization)))
  {
    hide Inv, DbInv, Run, PersistAuthorized, Migration.Migrate, CaptureGate, Loads, Written, TaskReads, WellFormed, Admission.FilesParsed,
         PayloadDigest;
    var adm := CaptureGate(tl, env, candidate, LOCAL_SQLITE).value;
    Admission.GateWellFormed(tl, env, candidate, LOCAL_SQLITE);
    var action := O.Authorize(adm.record, adm.authorization, uuid, env.clock);
    var t := Current(db).layout.tables;
    var s := O.Step(db, action);
    AuthorizeWrites(t, adm.record, adm.authorization, uuid, env.clock);
    StepKeepsInv(db, action);
    RunKeepsInv(s.db, others);
    RunLater(s.db, others);
    DbInvTables(Run(s.db, others));
    WrittenReads(s.db.layout.tables, Run(s.db, others).layout.tables, |t.tasks|, adm.record, env.clock, env.clock, Enterprise, adm.authorization);
  }
}
