// What the entry protocols guarantee when other clients run between their calls.
module Protocols {
  import opened Wrappers
  import opened Json
  import opened Canonical
  import opened CanonicalText
  import opened Digests
  import opened Evidence
  import opened Schema
  import opened Transactions
  import opened Invariant
  import opened Preservation
  import opened Migration
  import O = Operations
  import opened Runs
  import opened Attempts
  import opened Redaction
  import opened Validation
  import opened Authorization
  import opened Service
  import Insertion
  import Store

  // ----- finding a row again later -----

  lemma ConfirmationStays(t: Tables, u: Tables, id: string)
    requires Forward(t, u) && FindConfirmation(t.confirmations, id) < |t.confirmations|
    ensures FindConfirmation(u.confirmations, id) == FindConfirmation(t.confirmations, id)
    ensures RowForward(t.confirmations[FindConfirmation(t.confirmations, id)], u.confirmations[FindConfirmation(t.confirmations, id)])
  {
    var i := FindConfirmation(t.confirmations, id);
    assert RowForward(t.confirmations[i], u.confirmations[i]);
    forall k | 0 <= k < i ensures u.confirmations[k].id != id { assert RowForward(t.confirmations[k], u.confirmations[k]); }
  }

  lemma TaskFound(t: Tables, taskId: string, hash: Hash)
    requires Inv(t) && Names(t, taskId, hash)
    ensures FindTask(t.tasks, taskId) < |t.tasks| && t.tasks[FindTask(t.tasks, taskId)].payloadHash == hash
    ensures O.ReadTask(t, taskId).Ok? && O.ReadTask(t, taskId).value.Some?
    ensures O.ReadTask(t, taskId).value.value.payloadHash == hash
    ensures O.ReadTask(t, taskId).value.value.captureStatus == PERSISTED
  {
    hide ClaimsMatch, ChainsBuilt, Loads;
    var i :| 0 <= i < |t.tasks| && t.tasks[i].id == taskId && t.tasks[i].payloadHash == hash;
    var k := FindTask(t.tasks, taskId);
    TasksWithId(t.tasks, k, i);
    assert Readable(t.tasks[k]) && StoredPayload(t.tasks[k].payloadJson, t.tasks[k].payloadHash);
  }

  lemma TasksWithId(rows: seq<TaskRow>, k: nat, i: nat)
    requires TasksUnique(rows) && k < |rows| && i < |rows| && rows[k].id == rows[i].id
    ensures k == i
  {
  }

  // ----- the read-back checks never fail -----

  // After a successful transaction and any calls of any clients, the checks of
  // commit succeed.
  lemma CommitReadBack(tl: Tools, db: Database, a: Artifact, uuid: Uuids, now: string, others: seq<O.Action>)
    requires DbInv(db) && ActionsOk(others) && CommitStep(tl, db, a, uuid, now).result.Ok?
    ensures var s := CommitStep(tl, db, a, uuid, now);
            var later := Run(s.db, others);
            && s.result.value.Persisted? && later.layout.V4?
            && CommitConclusion(a, s.result.value.taskId, s.result.value.duplicate,
                                O.ReadTask(later.layout.tables, s.result.value.taskId),
                                O.ReadConfirmation(later.layout.tables, a.confirmationId)).Ok?
  {
    hide ArtifactGate, O.Step, O.ReadTask, DbInv, Run, Names, PayloadDigest;
    var action := O.Consume(a.confirmationId, a.payloadHash, uuid, now);
    ConsumeMeans(db, action);
    var s := O.Step(db, action);
    StepKeepsInv(db, action);
    RunKeepsInv(s.db, others);
    RunLater(s.db, others);
    var t, u := s.db.layout.tables, Run(s.db, others).layout.tables;
    NamesForward(t, u, s.result.value.taskId, a.payloadHash);
    DbInvTables(Run(s.db, others));
    TaskFound(u, s.result.value.taskId, a.payloadHash);
    ConfirmationStays(t, u, a.confirmationId);
  }

  lemma DbInvTables(db: Database)
    requires DbInv(db)
    ensures Coherent(db) && (db.layout.V4? ==> Inv(db.layout.tables))
  {
  }

  lemma RunLater(db: Database, others: seq<O.Action>)
    requires DbInv(db) && db.layout.V4?
    ensures Run(db, others).layout.V4? && Forward(db.layout.tables, Run(db, others).layout.tables)
  {
    RunForward(db, others);
  }

  // What a successful consumption leaves behind.
  lemma ConsumeMeans(db: Database, a: O.Action)
    requires DbInv(db) && a.Consume? && O.Step(db, a).result.Ok?
    ensures O.Step(db, a).result.value.Persisted? && O.Step(db, a).db.layout.V4? && Current(db).layout.V4?
    ensures var t, u := Current(db).layout.tables, O.Step(db, a).db.layout.tables;
            var i := FindConfirmation(t.confirmations, a.id);
            var id := O.Step(db, a).result.value.taskId;
            && Inv(t) && i < |t.confirmations| && t.confirmations[i].status == Confirmed && t.confirmations[i].payloadHash == a.expected
            && FindConfirmation(u.confirmations, a.id) == i && i < |u.confirmations|
            && u.confirmations[i] == ConsumedRow(t.confirmations[i], id, a.now)
            && Names(u, id, a.expected)
            && ConsumedTask(t, u, t.confirmations[i], id, O.Step(db, a).result.value.duplicate)
  {
    hide Inv, InsertTask, Migration.Migrate, Names, Loads, ConsumedTask;
    MigrateKeepsInv(db, SCHEMA_VERSION, {});
    var t := Current(db).layout.tables;
    var i := FindConfirmation(t.confirmations, a.id);
    var row := t.confirmations[i];
    ConfirmationPayload(t, i);
    var payload := Loads(row.payloadJson).value;
    InsertKeepsInv(t, payload, row.payloadHash, row.confirmedAt.value, Personal, Null, a.uuid, a.now);
    var ins := InsertTask(t, payload, row.payloadHash, row.confirmedAt.value, Personal, Null, a.uuid, a.now).value;
    Store.Refound(t.confirmations, a.id, i, ConsumedRow(row, ins.taskId, a.now));
    SameTasksSameNames(ins.tables, O.Step(db, a).db.layout.tables, ins.taskId, row.payloadHash);
    InsertedTask(t, ins.tables, payload, row, a.uuid, a.now);
    SameTasksConsumed(t, ins.tables, O.Step(db, a).db.layout.tables, row, ins.taskId, ins.duplicate);
  }

  lemma ConfirmationPayload(t: Tables, i: nat)
    requires Inv(t) && i < |t.confirmations|
    ensures StoredPayload(t.confirmations[i].payloadJson, t.confirmations[i].payloadHash)
  {
  }

  lemma SameTasksSameNames(t: Tables, u: Tables, id: string, hash: Hash)
    requires u.tasks == t.tasks
    ensures Names(u, id, hash) == Names(t, id, hash)
  {
  }

  // A consumption that is not a duplicate appended the row's own payload.
  ghost predicate ConsumedTask(t: Tables, u: Tables, row: Confirmation, id: string, duplicate: bool) {
    if duplicate then u.tasks == t.tasks
    else |u.tasks| == |t.tasks| + 1 && t.tasks <= u.tasks
         && var task := u.tasks[|t.tasks|];
            task.id == id && task.mode == Personal && task.payloadHash == row.payloadHash
            && Loads(task.payloadJson).Some? && Loads(row.payloadJson).Some?
            && Loads(task.payloadJson).value == Canon(Loads(row.payloadJson).value)
  }

  lemma SameTasksConsumed(t: Tables, u: Tables, v: Tables, row: Confirmation, id: string, duplicate: bool)
    requires ConsumedTask(t, u, row, id, duplicate) && v.tasks == u.tasks
    ensures ConsumedTask(t, v, row, id, duplicate)
  {
    hide Loads;
  }

  lemma InsertedTask(t: Tables, u: Tables, payload: Value, row: Confirmation, uuid: Uuids, now: string)
    requires row.confirmedAt.Some? && WellFormed(payload) && Loads(row.payloadJson) == Some(payload)
    requires var r := InsertTask(t, payload, row.payloadHash, row.confirmedAt.value, Personal, Null, uuid, now); r.Ok? && r.value.tables == u
    ensures var ins := InsertTask(t, payload, row.payloadHash, row.confirmedAt.value, Personal, Null, uuid, now).value;
            ConsumedTask(t, u, row, ins.taskId, ins.duplicate)
  {
    hide InsertFresh, Loads, BindText, Insertion.FreshAdded, Constraints, CanonicalJson, Canon, MakeTask, TaskFits, WellFormed, Get, OrEmpty;
    var at := row.confirmedAt.value;
    if InsertFresh(t, payload, row.payloadHash, at, Personal, Null, uuid, now).Ok? {
      Insertion.FreshInserted(t, payload, row.payloadHash, at, Personal, Null, uuid, now);
      var inserted := InsertFresh(t, payload, row.payloadHash, at, Personal, Null, uuid, now).value;
      var task := FreshShape(t, inserted.tables, payload, row.payloadHash, at, Personal, Null, uuid, now);
      MadeTask(payload, row.payloadHash, at, Personal, Null, NewId("task", uuid(0)), now);
      LoadsCanonicalJson(payload);
    }
  }

  // After a successful capture and any calls of any clients, the checks of
  // capture succeed and report what the transaction answered.
  lemma CaptureReadBack(tl: Tools, db: Database, env: Environment, candidate: Value, uuid: Uuids, others: seq<O.Action>)
    requires DbInv(db) && ActionsOk(others) && CaptureStep(tl, db, env, candidate, uuid).result.Ok?
    requires WellFormed(CaptureGate(tl, env, candidate, LOCAL_SQLITE).value.record)
    requires WellFormed(CaptureGate(tl, env, candidate, LOCAL_SQLITE).value.authorization)
    ensures var s := CaptureStep(tl, db, env, candidate, uuid);
            var adm := CaptureGate(tl, env, candidate, LOCAL_SQLITE).value;
            var later := Run(s.db, others);
            && s.result.value.Persisted? && later.layout.V4?
            && CaptureConclusion(adm, s.result.value.taskId, s.result.value.duplicate,
                                 O.ReadTask(later.layout.tables, s.result.value.taskId))
               == Ok(PersistedReport(s.result.value.taskId, Fld(adm.record, SESSION), s.result.value.duplicate,
                                     PayloadDigest(adm.record), adm.authorization, adm.trustClass))
  {
    hide CaptureGate, O.Step, O.ReadTask, DbInv, Run, Names, PayloadDigest, ContentStored, WellFormed;
    var adm := CaptureGate(tl, env, candidate, LOCAL_SQLITE).value;
    var action := O.Authorize(adm.record, adm.authorization, uuid, env.clock);
    AuthorizeMeans(db, action);
    var s := O.Step(db, action);
    StepKeepsInv(db, action);
    RunKeepsInv(s.db, others);
    RunLater(s.db, others);
    var u := Run(s.db, others).layout.tables;
    NamesForward(s.db.layout.tables, u, s.result.value.taskId, PayloadDigest(adm.record));
    DbInvTables(Run(s.db, others));
    TaskFound(u, s.result.value.taskId, PayloadDigest(adm.record));
  }

  // ----- personal mode -----

  // After prepare, the store holds a PREPARED row with the sanitised payload.
  lemma PrepareMeans(tl: Tools, db: Database, candidate: Value, uuid: Uuids, now: string)
    requires DbInv(db) && WellFormed(candidate) && PrepareStep(tl, db, candidate, uuid, now).result.Ok?
    ensures var r := PrepareStep(tl, db, candidate, uuid, now);
            var a := r.result.value;
            && a.payload == Clean(tl.redactor, candidate) && WellFormed(a.payload) && Accepts(tl.reader, a.payload)
            && DbInv(r.db) && r.db.layout.V4?
            && var t := r.db.layout.tables;
               var i := FindConfirmation(t.confirmations, a.confirmationId);
               && i < |t.confirmations| && t.confirmations[i].status == Prepared
               && t.confirmations[i].payloadJson == CanonicalJson(a.payload)
               && t.confirmations[i].payloadHash == PayloadDigest(a.payload) == a.payloadHash
  {
    hide Inv, Accepts, Clean, Migration.Migrate, PayloadDigest, CanonicalJson, WellFormed, Found;
    var clean := Clean(tl.redactor, candidate);
    CleanWellFormed(tl.redactor, candidate);
    StepKeepsInv(db, O.Create(clean, uuid, now));
    var t := Current(db).layout.tables;
    NewRowFound(t.confirmations, NewConfirmation(clean, uuid, now));
  }

  lemma NewRowFound(rows: seq<Confirmation>, row: Confirmation)
    requires forall i :: 0 <= i < |rows| ==> rows[i].id != row.id
    ensures FindConfirmation(rows + [row], row.id) == |rows|
  {
    var all := rows + [row];
    assert all[|rows|].id == row.id;
    assert forall k :: 0 <= k < |rows| ==> all[k].id != row.id;
  }

  // A successful confirmation found the row PREPARED with the expected hash.
  lemma ConfirmMeans(db: Database, a: O.Action)
    requires DbInv(db) && a.Confirm? && O.Step(db, a).result.Ok?
    ensures Current(db).layout.V4? && O.Step(db, a).db.layout.V4?
    ensures var t := Current(db).layout.tables;
            var i := FindConfirmation(t.confirmations, a.id);
            i < |t.confirmations| && t.confirmations[i].status == Prepared && t.confirmations[i].payloadHash == a.expected
  {
    hide Inv, Migration.Migrate;
  }

  lemma CurrentIsItself(db: Database)
    requires DbInv(db) && db.layout.V4?
    ensures Current(db) == db
  {
    hide Inv;
    CurrentStep(db, O.Upgrade(0, {}));
  }

  // An artifact that prepare made passes the gate of confirm exactly when no
  // pattern matches any cleaned leaf of the candidate.
  lemma PreparedConfirmsIff(tl: Tools, db: Database, candidate: Value, uuid: Uuids, now: string)
    requires PrepareStep(tl, db, candidate, uuid, now).result.Ok?
    ensures ArtifactGate(tl, PrepareStep(tl, db, candidate, uuid, now).result.value, PREPARED).Ok? <==> QuietAfter(tl.redactor, candidate)
  {
    hide Accepts, Clean, Found, QuietAfter, PayloadDigest, Canon, O.Step;
    SecondPassQuietIff(tl.redactor, candidate);
    CreatedHash(db, O.Create(Clean(tl.redactor, candidate), uuid, now));
  }

  lemma CreatedHash(db: Database, a: O.Action)
    requires a.Create? && O.Step(db, a).result.Ok?
    ensures O.Step(db, a).result.value.Created? && O.Step(db, a).result.value.payloadHash == PayloadDigest(a.payload)
  {
    hide Migration.Migrate, PayloadDigest, CreateConfirmation;
  }

  // What the artifact gate lets through.
  lemma GateMeans(tl: Tools, a: Artifact, status: string)
    requires ArtifactGate(tl, a, status).Ok?
    ensures a.payload.Obj? && PayloadDigest(a.payload) == a.payloadHash && a.status == status
    ensures Clean(tl.redactor, a.payload) == a.payload && NoForbidden(a.payload)
  {
    hide PayloadDigest, Clean, Canon, Scan, NoForbidden;
    AcceptedParts(tl.reader, a.payload);
    NoFindingsNoChange(tl.redactor, a.payload, "$");
  }

  // The row a commit consumes carries the hash fixed by prepare, whatever was
  // done to the artifact and to the store in between.
  lemma CommittedRow(tl: Tools, start: Database, i: nat, id: string, db: Database, c: Artifact, uuid: Uuids, now: string)
    requires DbInv(start) && DbInv(db) && start.layout.V4? && DbForward(start, db)
    requires i == FindConfirmation(start.layout.tables.confirmations, id) < |start.layout.tables.confirmations|
    requires c.confirmationId == id && CommitStep(tl, db, c, uuid, now).result.Ok?
    ensures db.layout.V4? && CommitStep(tl, db, c, uuid, now).db.layout.V4? && CommitStep(tl, db, c, uuid, now).result.value.Persisted?
    ensures i < |db.layout.tables.confirmations| && i < |CommitStep(tl, db, c, uuid, now).db.layout.tables.confirmations|
    ensures var row := start.layout.tables.confirmations[i];
            var s := CommitStep(tl, db, c, uuid, now);
            && c.payloadHash == row.payloadHash
            && db.layout.tables.confirmations[i].status == Confirmed
            && s.db.layout.tables.confirmations[i].status == Consumed
            && s.db.layout.tables.confirmations[i].taskId == Some(s.result.value.taskId)
            && ConsumedTask(db.layout.tables, s.db.layout.tables, db.layout.tables.confirmations[i], s.result.value.taskId, s.result.value.duplicate)
            && db.layout.tables.confirmations[i].payloadJson == row.payloadJson
            && db.layout.tables.confirmations[i].payloadHash == row.payloadHash
  {
    hide Inv, O.Step, ArtifactGate, Names, ConsumedTask;
    ConsumeMeans(db, O.Consume(c.confirmationId, c.payloadHash, uuid, now));
    CurrentIsItself(db);
    ConfirmationStays(start.layout.tables, db.layout.tables, id);
  }

  // Personal-mode binding: after prepare, confirm and commit of one intent, with
  // arbitrary edits to the artifact and arbitrary other calls in between, the
  // payloads confirmed and committed agree with the prepared one on every field
  // but the session, and a newly stored task holds exactly the prepared payload.
  lemma PersonalBinding(tl: Tools, db: Database, candidate: Value, u0: Uuids, n0: string, others1: seq<O.Action>,
                        b: Artifact, how: string, identity: Option<string>, source: Option<string>, n1: string,
                        others2: seq<O.Action>, c: Artifact, u2: Uuids, n2: string)
    requires DbInv(db) && WellFormed(candidate) && WellFormed(b.payload) && WellFormed(c.payload)
    requires ActionsOk(others1) && ActionsOk(others2)
    requires PrepareStep(tl, db, candidate, u0, n0).result.Ok?
    requires var p := PrepareStep(tl, db, candidate, u0, n0);
             var q := ConfirmStep(tl, Run(p.db, others1), b, how, identity, source, n1);
             && b.confirmationId == c.confirmationId == p.result.value.confirmationId
             && q.result.Ok? && CommitStep(tl, Run(q.db, others2), c, u2, n2).result.Ok?
    ensures var p := PrepareStep(tl, db, candidate, u0, n0);
            var q := ConfirmStep(tl, Run(p.db, others1), b, how, identity, source, n1);
            var before := Run(q.db, others2);
            var s := CommitStep(tl, before, c, u2, n2);
            var clean := Clean(tl.redactor, candidate);
            && SameButSession(b.payload, clean) && SameButSession(c.payload, clean)
            && before.layout.V4? && s.db.layout.V4? && s.result.value.Persisted?
            && (!s.result.value.duplicate ==>
                  && |s.db.layout.tables.tasks| == |before.layout.tables.tasks| + 1
                  && var task := s.db.layout.tables.tasks[|before.layout.tables.tasks|];
                     && task.id == s.result.value.taskId && task.mode == Personal && task.payloadHash == PayloadDigest(clean)
                     && Loads(task.payloadJson) == Some(Canon(clean)))
  {
    hide DbInv, DbForward, O.Step, ArtifactGate, Clean, PayloadDigest, Canon, Run, ConsumedTask, SameButSession, Accepts, Found,
         Loads, CanonicalJson;
    var p := PrepareStep(tl, db, candidate, u0, n0);
    PrepareMeans(tl, db, candidate, u0, n0);
    var a := p.result.value;
    var i := FindConfirmation(p.db.layout.tables.confirmations, a.confirmationId);
    var db1 := Run(p.db, others1);
    RunKeepsInv(p.db, others1);
    RunKeepsForward(p.db, others1);
    var confirm := O.Confirm(b.confirmationId, b.payloadHash, how, identity, source, n1);
    var q := ConfirmStep(tl, db1, b, how, identity, source, n1);
    StepKeepsInv(db1, confirm);
    ConfirmedHash(p.db, db1, i, b, confirm);
    StepKeepsForward(db1, confirm);
    RunKeepsInv(q.db, others2);
    RunKeepsForward(q.db, others2);
    DbForwardTransitive(p.db, db1, q.db);
    DbForwardTransitive(p.db, q.db, Run(q.db, others2));
    CommittedRow(tl, p.db, i, a.confirmationId, Run(q.db, others2), c, u2, n2);
    GateMeans(tl, b, PREPARED);
    GateMeans(tl, c, CONFIRMED);
    AcceptedIsObject(tl, a.payload);
    PayloadDigestIdentifies(b.payload, a.payload);
    PayloadDigestIdentifies(c.payload, a.payload);
    LoadsCanonicalJson(a.payload);
    CanonIdempotent(a.payload);
    var s := CommitStep(tl, Run(q.db, others2), c, u2, n2);
    ConsumedPersisted(Run(q.db, others2), O.Consume(c.confirmationId, c.payloadHash, u2, n2));
    if !s.result.value.duplicate {
      FreshlyConsumed(Run(q.db, others2).layout.tables, s.db.layout.tables,
                      Run(q.db, others2).layout.tables.confirmations[i], s.result.value.taskId, s.result.value.duplicate, a.payload);
    }
  }

  lemma ConsumedPersisted(db: Database, a: O.Action)
    requires DbInv(db) && a.Consume? && O.Step(db, a).result.Ok?
    ensures O.Step(db, a).result.value.Persisted?
  {
    hide DbInv;
    ConsumeMeans(db, a);
  }

  lemma FreshlyConsumed(t: Tables, u: Tables, row: Confirmation, id: string, duplicate: bool, payload: Value)
    requires ConsumedTask(t, u, row, id, duplicate) && !duplicate
    requires Loads(row.payloadJson) == Some(Canon(payload)) && Canon(Canon(payload)) == Canon(payload)
    ensures |u.tasks| == |t.tasks| + 1
    ensures var task := u.tasks[|t.tasks|];
            task.id == id && task.mode == Personal && task.payloadHash == row.payloadHash && Loads(task.payloadJson) == Some(Canon(payload))
  {
    hide Loads, Canon;
  }

  lemma AcceptedIsObject(tl: Tools, payload: Value)
    requires Accepts(tl.reader, payload)
    ensures payload.Obj?
  {
  }

  lemma RunKeepsForward(db: Database, actions: seq<O.Action>)
    requires DbInv(db)
    ensures DbForward(db, Run(db, actions))
  {
    hide Inv, Run, DbForward;
    RunForward(db, actions);
  }

  lemma StepKeepsForward(db: Database, a: O.Action)
    requires DbInv(db)
    ensures DbForward(db, O.Step(db, a).db)
  {
    hide Inv, O.Step, DbForward;
    StepForward(db, a);
  }

  lemma DbForwardTransitive(a: Database, b: Database, c: Database)
    requires DbForward(a, b) && DbForward(b, c)
    ensures DbForward(a, c)
  {
    hide Forward;
    if a.layout.V4? { ForwardTransitive(a.layout.tables, b.layout.tables, c.layout.tables); }
  }

  lemma ConfirmedHash(start: Database, db: Database, i: nat, b: Artifact, a: O.Action)
    requires DbInv(start) && DbInv(db) && start.layout.V4? && DbForward(start, db)
    requires a.Confirm? && a.id == b.confirmationId && a.expected == b.payloadHash && O.Step(db, a).result.Ok?
    requires i == FindConfirmation(start.layout.tables.confirmations, a.id) < |start.layout.tables.confirmations|
    ensures b.payloadHash == start.layout.tables.confirmations[i].payloadHash && O.Step(db, a).db.layout.V4?
  {
    hide Inv, O.Step;
    ConfirmMeans(db, a);
    CurrentIsItself(db);
    ConfirmationStays(start.layout.tables, db.layout.tables, a.id);
  }

  // ----- one confirmation, one consumption -----

  // Once an intent has been consumed, no call ever consumes it again.
  lemma ConsumedOnce(db: Database, a: O.Action, others: seq<O.Action>, again: O.Action)
    requires DbInv(db) && a.Consume? && O.Step(db, a).result.Ok? && ActionsOk(others)
    requires again.Consume? && again.id == a.id
    ensures O.Step(Run(O.Step(db, a).db, others), again) == Reply(Run(O.Step(db, a).db, others), Err(ConfirmationError))
  {
    hide Inv, Run, Names, ConsumedTask, Forward;
    var s := O.Step(db, a).db;
    ConsumeMeans(db, a);
    StepKeepsInv(db, a);
    RunKeepsInv(s, others);
    RunLater(s, others);
    var later := Run(s, others);
    ConfirmationStays(s.layout.tables, later.layout.tables, a.id);
    CurrentStep(later, again);
  }

  // A row that was PREPARED and no longer is has been through a successful
  // confirmation of exactly that row.
  lemma {:induction false} ConfirmedOnTheWay(db: Database, actions: seq<O.Action>, i: nat) returns (k: nat)
    requires DbInv(db) && ActionsOk(actions) && db.layout.V4? && i < |db.layout.tables.confirmations|
    requires db.layout.tables.confirmations[i].status == Prepared
    requires Run(db, actions).layout.V4? && i < |Run(db, actions).layout.tables.confirmations|
    requires Run(db, actions).layout.tables.confirmations[i].status != Prepared
    ensures k < |actions| && actions[k].Confirm? && actions[k].id == db.layout.tables.confirmations[i].id
    ensures actions[k].expected == db.layout.tables.confirmations[i].payloadHash
    ensures O.Step(Run(db, actions[..k]), actions[k]).result.Ok?
    decreases |actions|
  {
    hide Inv, O.Step;
    var a := actions[0];
    var next := O.Step(db, a).db;
    StepKeepsInv(db, a);
    StepForward(db, a);
    if next.layout.tables.confirmations[i].status == Prepared {
      var m := ConfirmedOnTheWay(next, actions[1..], i);
      k := m + 1;
      assert RowForward(db.layout.tables.confirmations[i], next.layout.tables.confirmations[i]);
      assert actions[..k][0] == a && actions[..k][1..] == actions[1..][..m];
    } else {
      LeavesPrepared(db, a, i);
      k := 0;
    }
  }

  // Only a successful confirmation takes a row out of PREPARED.
  lemma LeavesPrepared(db: Database, a: O.Action, i: nat)
    requires DbInv(db) && db.layout.V4? && i < |db.layout.tables.confirmations|
    requires db.layout.tables.confirmations[i].status == Prepared
    requires O.Step(db, a).db.layout.V4? && i < |O.Step(db, a).db.layout.tables.confirmations|
    requires O.Step(db, a).db.layout.tables.confirmations[i].status != Prepared
    ensures a.Confirm? && a.id == db.layout.tables.confirmations[i].id && O.Step(db, a).result.Ok?
    ensures a.expected == db.layout.tables.confirmations[i].payloadHash
  {
    hide InsertTask, Loads, PayloadDigest, CanonicalJson, Inv;
    CurrentStep(db, a);
    if a.Authorize? && PersistAuthorized(db.layout.tables, a.payload, a.authorization, a.uuid, a.now).Ok? {
      InsertForward(db.layout.tables, a.payload, PayloadDigest(a.payload), a.now, Enterprise, a.authorization, a.uuid, a.now);
    }
  }
}
