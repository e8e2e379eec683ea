// The SQLite store: one field per table, changed in place. A transaction saves
// the tables it may touch, inserts row by row, and puts them back if a
// statement raises.
module Store {
  import opened Wrappers
  import opened Json
  import opened CanonicalText
  import opened Digests
  import opened Evidence
  import opened Chain
  import opened Selection
  import opened Schema
  import T = Transactions
  import opened Migration
  import O = Operations
  import Report

  // The layout of a database that has not reached version 4.
  type PastLayout = l: Layout | !l.V4? witness Empty

  class SqliteStore {
    var log: seq<nat>          // schema_migrations.version
    var current: bool          // the tables below exist
    var earlier: PastLayout    // otherwise: the tables of an earlier version

    var confirmations: seq<Confirmation>
    var tasks: seq<TaskRow>
    var processes: seq<ProcessRow>
    var paths: seq<PathRow>
    var steps: seq<StepRow>
    var evidence: seq<EvidenceRow>
    var lineage: seq<LineageRow>
    var references: seq<ReferenceRow>

    function Rows(): Tables
      reads this
    {
      Tables(confirmations, tasks, processes, paths, steps, evidence, lineage, references)
    }

    function View(): Database
      reads this
    {
      Database(log, if current then V4(Rows()) else earlier)
    }

    constructor ()
      ensures View() == NEW_DATABASE
    {
      log, current, earlier := [], false, Empty;
      confirmations, tasks, processes, paths, steps, evidence, lineage, references := [], [], [], [], [], [], [], [];
    }

    method SetLayout(layout: Layout)
      modifies this
      ensures View() == Database(old(log), layout)
    {
      current := layout.V4?;
      if !layout.V4? {
        earlier := layout;
      } else {
        var t := layout.tables;
        confirmations, tasks, processes, paths := t.confirmations, t.tasks, t.processes, t.paths;
        steps, evidence, lineage, references := t.steps, t.evidence, t.lineage, t.references;
      }
    }

    // The migrations not yet applied, one transaction each.
    method Migrate(target: nat, faults: set<nat>) returns (r: Outcome<nat>)
      modifies this
      ensures Reply(View(), r) == Migration.Migrate(old(View()), target, faults)
    {
      var version := CurrentVersion(log);
      if version > target { return Err(MigrationError); }
      version := version + 1;
      while version <= target
        invariant MigrateFrom(View(), version, target, faults) == Migration.Migrate(old(View()), target, faults)
        decreases target + 1 - version
      {
        if version > 4 { return Err(MigrationError); }
        if version in faults { return Err(Raised); }
        var layout := Apply(version, View().layout);
        if layout.None? { return Err(Raised); }
        SetLayout(layout.value);
        log := log + [version];
        version := version + 1;
      }
      r := Ok(CurrentVersion(log));
    }

    // Every writing call begins by migrating to the supported version.
    method EnsureSchema() returns (r: Outcome<nat>)
      modifies this
      ensures Reply(View(), r) == Migration.Migrate(old(View()), SCHEMA_VERSION, {})
    {
      r := Migrate(SCHEMA_VERSION, {});
    }

    method CreateConfirmationRows(payload: Value, uuid: T.Uuids, now: string) returns (r: Outcome<O.Response>)
      requires current
      modifies this`confirmations
      ensures current && match O.Transact(old(Rows()), O.Create(payload, uuid, now))
                         case Ok((t, response)) => r == Ok(response) && Rows() == t
                         case Err(e) => r == Err(e) && Rows() == old(Rows())
    {
      var row := T.NewConfirmation(payload, uuid, now);
      if !ConfirmationFits(Rows(), row) { return Err(Raised); }
      confirmations := confirmations + [row];
      r := Ok(O.Created(row.id, row.payloadHash, now));
    }

    method CreateConfirmation(payload: Value, uuid: T.Uuids, now: string) returns (r: Outcome<O.Response>)
      modifies this
      ensures Reply(View(), r) == O.Step(old(View()), O.Create(payload, uuid, now))
    {
      var m := EnsureSchema();
      if m.Err? { return Err(m.error); }
      if !current { return Err(Raised); }
      r := CreateConfirmationRows(payload, uuid, now);
    }

    method ConfirmConfirmationRows(id: string, expected: Hash, how: string, identity: Option<string>, source: Option<string>, now: string)
      returns (r: Outcome<O.Response>)
      requires current
      modifies this`confirmations
      ensures current && match O.Transact(old(Rows()), O.Confirm(id, expected, how, identity, source, now))
                         case Ok((t, response)) => r == Ok(response) && Rows() == t
                         case Err(e) => r == Err(e) && Rows() == old(Rows())
    {
      if Blank(how) { return Err(ConfirmationError); }
      if T.Given(identity) != T.Given(source) { return Err(ConfirmationError); }
      var i := FindConfirmation(confirmations, id);
      if i == |confirmations| || confirmations[i].status != Prepared || confirmations[i].payloadHash != expected {
        return Err(ConfirmationError);
      }
      var row := T.ConfirmedRow(confirmations[i], how, identity, source, now);
      if !RowCheck(row) { return Err(Raised); }
      confirmations := confirmations[i := row];
      Refound(old(confirmations), id, i, row);
      r := Ok(O.ConfirmationIs(confirmations[i]));
    }

    method ConfirmConfirmation(id: string, expected: Hash, how: string, identity: Option<string>, source: Option<string>, now: string)
      returns (r: Outcome<O.Response>)
      modifies this
      ensures Reply(View(), r) == O.Step(old(View()), O.Confirm(id, expected, how, identity, source, now))
    {
      var m := EnsureSchema();
      if m.Err? { return Err(m.error); }
      if !current { return Err(Raised); }
      r := ConfirmConfirmationRows(id, expected, how, identity, source, now);
    }

    // The insertion loops. On an error the tables may be left half filled: the
    // caller rolls back.
    method InsertSteps(pathId: string, items: seq<Value>, uuid: T.Uuids) returns (r: Outcome<()>)
      modifies this`steps
      ensures match T.InsertSteps(old(Rows()), pathId, items, 0, uuid)
              case Ok(t) => r == Ok(()) && Rows() == t
              case Err(e) => r == Err(e)
    {
      hide T.MakeStep, StepFits;
      var i := 0;
      while i < |items|
        invariant 0 <= i <= |items|
        invariant T.InsertSteps(Rows(), pathId, items, i, uuid) == T.InsertSteps(old(Rows()), pathId, items, 0, uuid)
      {
        var row := T.MakeStep(items[i], pathId, i + 1, T.NewId("step", uuid(3 + i)));
        if row.None? || !StepFits(Rows(), row.value) { return Err(Raised); }
        steps := steps + [row.value];
        i := i + 1;
      }
      r := Ok(());
    }

    method InsertEvidence(taskId: string, processId: string, items: seq<Value>, first: nat, uuid: T.Uuids, now: string)
      returns (r: Outcome<()>)
      modifies this`evidence, this`lineage
      ensures match T.InsertEvidence(old(Rows()), taskId, processId, items, 0, None, first, uuid, now)
              case Ok(t) => r == Ok(()) && Rows() == t
              case Err(e) => r == Err(e)
    {
      var i := 0;
      var previous := None;
      while i < |items|
        invariant 0 <= i <= |items|
        invariant T.InsertEvidence(Rows(), taskId, processId, items, i, previous, first, uuid, now) ==
                  T.InsertEvidence(old(Rows()), taskId, processId, items, 0, None, first, uuid, now)
      {
        var row := MakeRow(taskId, i + 1, items[i], previous, T.NewId("event", uuid(first + 2 * i)), now);
        if row.None? || !EvidenceFits(Rows(), row.value) { return Err(Raised); }
        var link := LineageRow(T.NewId("lineage", uuid(first + 2 * i + 1)), processId, row.value.eventId);
        if !LineageFits(Rows(), link) { return Err(Raised); }
        evidence := evidence + [row.value];
        lineage := lineage + [link];
        previous := Some(row.value.eventHash);
        i := i + 1;
      }
      r := Ok(());
    }

    method InsertReferences(taskId: string, items: seq<Value>, first: nat, uuid: T.Uuids) returns (r: Outcome<()>)
      modifies this`references
      ensures match T.InsertReferences(old(Rows()), taskId, items, 0, first, uuid)
              case Ok(t) => r == Ok(()) && Rows() == t
              case Err(e) => r == Err(e)
    {
      hide T.MakeReference, ReferenceFits;
      var i := 0;
      while i < |items|
        invariant 0 <= i <= |items|
        invariant T.InsertReferences(Rows(), taskId, items, i, first, uuid) == T.InsertReferences(old(Rows()), taskId, items, 0, first, uuid)
      {
        var row := T.MakeReference(items[i], taskId, T.NewId("ref", uuid(first + i)));
        if row.None? || !ReferenceFits(Rows(), row.value) { return Err(Raised); }
        references := references + [row.value];
        i := i + 1;
      }
      r := Ok(());
    }

    method InsertChildren(taskId: string, processId: string, pathId: string, stepItems: seq<Value>, items: seq<Value>, refs: seq<Value>,
                          uuid: T.Uuids, now: string) returns (r: Outcome<()>)
      modifies this`steps, this`evidence, this`lineage, this`references
      ensures match T.InsertChildren(old(Rows()), taskId, processId, pathId, stepItems, items, refs, uuid, now)
              case Ok(t) => r == Ok(()) && Rows() == t
              case Err(e) => r == Err(e)
    {
      hide T.InsertSteps, T.InsertEvidence, T.InsertReferences;
      var s := InsertSteps(pathId, stepItems, uuid);
      if s.Err? { return Err(s.error); }
      var e := InsertEvidence(taskId, processId, items, 3 + |stepItems|, uuid, now);
      if e.Err? { return Err(e.error); }
      r := InsertReferences(taskId, refs, 3 + |stepItems| + 2 * |items|, uuid);
    }

    method InsertFresh(payload: Value, hash: Hash, committedAt: string, mode: Mode, authorization: Value,
                       uuid: T.Uuids, now: string) returns (r: Outcome<string>)
      modifies this`tasks, this`processes, this`paths, this`steps, this`evidence, this`lineage, this`references
      ensures match T.InsertFresh(old(Rows()), payload, hash, committedAt, mode, authorization, uuid, now)
              case Ok(ins) => r == Ok(ins.taskId) && Rows() == ins.tables && !ins.duplicate
              case Err(e) => r == Err(e)
    {
      hide T.InsertChildren, T.MakeTask, T.Steps, T.Items, T.References, TaskFits, ProcessFits, PathFits, CanonicalJson, BindText;
      var taskId, processId, pathId := T.NewId("task", uuid(0)), T.NewId("process", uuid(1)), T.NewId("path", uuid(2));
      var task := T.MakeTask(payload, hash, committedAt, mode, authorization, taskId, now);
      var stepItems, items, refs := T.Steps(payload), T.Items(payload), T.References(payload);
      var summary := BindText(GetOr(payload, "process_summary", Null));
      if task.None? || stepItems.None? || items.None? || refs.None? || summary.None? { return Err(Raised); }
      if !TaskFits(Rows(), task.value) { return Err(Raised); }
      tasks := tasks + [task.value];
      var process := ProcessRow(processId, taskId, summary.value, CanonicalJson(GetOr(payload, "prerequisites", Arr([]))));
      if !ProcessFits(Rows(), process) { return Err(Raised); }
      processes := processes + [process];
      var path := PathRow(pathId, processId, task.value.signature, task.value.adoption);
      if !PathFits(Rows(), path) { return Err(Raised); }
      paths := paths + [path];
      var children := InsertChildren(taskId, processId, pathId, stepItems.value, items.value, refs.value, uuid, now);
      if children.Err? { return Err(children.error); }
      r := Ok(taskId);
    }

    method InsertTask(payload: Value, hash: Hash, committedAt: string, mode: Mode, authorization: Value,
                      uuid: T.Uuids, now: string) returns (r: Outcome<(string, bool)>)
      modifies this`tasks, this`processes, this`paths, this`steps, this`evidence, this`lineage, this`references
      ensures match T.InsertTask(old(Rows()), payload, hash, committedAt, mode, authorization, uuid, now)
              case Ok(ins) => r == Ok((ins.taskId, ins.duplicate)) && Rows() == ins.tables
              case Err(e) => r == Err(e)
    {
      hide T.InsertFresh, BindText;
      if !payload.Obj? { return Err(Raised); }
      var session := GetOr(payload, SESSION, Null);
      if Truthy(session) {
        var key := BindText(session);
        if key.None? { return Err(Raised); }
        var s := FindSession(tasks, key.value);
        if s < |tasks| {
          if tasks[s].payloadHash != hash { return Err(SessionConflict); }
          return Ok((tasks[s].id, true));
        }
      }
      var h := FindHash(tasks, hash);
      if h < |tasks| { return Ok((tasks[h].id, true)); }
      var inserted := InsertFresh(payload, hash, committedAt, mode, authorization, uuid, now);
      if inserted.Err? { return Err(inserted.error); }
      r := Ok((inserted.value, false));
    }

    method Rollback(t: Tables)
      modifies this`confirmations, this`tasks, this`processes, this`paths, this`steps, this`evidence, this`lineage, this`references
      ensures Rows() == t
    {
      confirmations, tasks, processes, paths := t.confirmations, t.tasks, t.processes, t.paths;
      steps, evidence, lineage, references := t.steps, t.evidence, t.lineage, t.references;
    }

    method PersistConfirmedRows(id: string, expected: Hash, uuid: T.Uuids, now: string) returns (r: Outcome<O.Response>)
      requires current
      modifies this`confirmations, this`tasks, this`processes, this`paths, this`steps, this`evidence, this`lineage, this`references
      ensures current && match O.Transact(old(Rows()), O.Consume(id, expected, uuid, now))
                         case Ok((t, response)) => r == Ok(response) && Rows() == t
                         case Err(e) => r == Err(e) && Rows() == old(Rows())
    {
      hide T.InsertTask, Loads;
      var begin := Rows();
      var i := FindConfirmation(confirmations, id);
      if !T.Consumable(confirmations, i, expected) { return Err(ConfirmationError); }
      var row := confirmations[i];
      if row.confirmedAt.None? { return Err(Raised); }
      var payload := Loads(row.payloadJson);
      if payload.None? { return Err(Raised); }
      var ins := InsertTask(payload.value, row.payloadHash, row.confirmedAt.value, Personal, Null, uuid, now);
      if ins.Err? {
        Rollback(begin);
        return Err(ins.error);
      }
      var (taskId, duplicate) := ins.value;
      if !T.TaskUnclaimed(confirmations, taskId) {
        Rollback(begin);
        return Err(UniqueViolation);
      }
      var consumed := T.ConsumedRow(row, taskId, now);
      if !RowCheck(consumed) {
        Rollback(begin);
        return Err(Raised);
      }
      confirmations := confirmations[i := consumed];
      r := Ok(O.Persisted(taskId, duplicate, expected));
    }

    method PersistConfirmed(id: string, expected: Hash, uuid: T.Uuids, now: string) returns (r: Outcome<O.Response>)
      modifies this
      ensures Reply(View(), r) == O.Step(old(View()), O.Consume(id, expected, uuid, now))
    {
      var m := EnsureSchema();
      if m.Err? { return Err(m.error); }
      if !current { return Err(Raised); }
      r := PersistConfirmedRows(id, expected, uuid, now);
    }

    method PersistAuthorizedRows(payload: Value, authorization: Value, uuid: T.Uuids, now: string) returns (r: Outcome<O.Response>)
      requires current
      modifies this`confirmations, this`tasks, this`processes, this`paths, this`steps, this`evidence, this`lineage, this`references
      ensures current && match O.Transact(old(Rows()), O.Authorize(payload, authorization, uuid, now))
                         case Ok((t, response)) => r == Ok(response) && Rows() == t
                         case Err(e) => r == Err(e) && Rows() == old(Rows())
    {
      hide T.InsertTask, PayloadDigest;
      var begin := Rows();
      var hash := PayloadDigest(payload);
      var ins := InsertTask(payload, hash, now, Enterprise, authorization, uuid, now);
      if ins.Err? {
        Rollback(begin);
        return Err(ins.error);
      }
      r := Ok(O.Persisted(ins.value.0, ins.value.1, hash));
    }

    method PersistAuthorized(payload: Value, authorization: Value, uuid: T.Uuids, now: string) returns (r: Outcome<O.Response>)
      modifies this
      ensures Reply(View(), r) == O.Step(old(View()), O.Authorize(payload, authorization, uuid, now))
    {
      var m := EnsureSchema();
      if m.Err? { return Err(m.error); }
      if !current { return Err(Raised); }
      r := PersistAuthorizedRows(payload, authorization, uuid, now);
    }

    method ReadTask(id: string) returns (r: Outcome<Option<O.TaskRecord>>)
      ensures r == O.ReadTask(Rows(), id)
    {
      var i := FindTask(tasks, id);
      if i == |tasks| { return Ok(None); }
      var rec := O.Record(tasks[i]);
      r := if rec.Some? then Ok(rec) else Err(Raised);
    }

    // Outer loop over the task ids, inner loop over the rows of one task.
    method VerifyEvidenceChains() returns (r: Outcome<Tally>)
      modifies this
      ensures View() == Migration.Migrate(old(View()), SCHEMA_VERSION, {}).db
      ensures Migration.Migrate(old(View()), SCHEMA_VERSION, {}).result.Ok? && View().layout.V4? ==>
                r == match Report.VerifyTables(View().layout.tables.evidence) case Some(t) => Ok(t) case None => Err(Raised)
      ensures !(Migration.Migrate(old(View()), SCHEMA_VERSION, {}).result.Ok? && View().layout.V4?) ==> r.Err?
    {
      var m := EnsureSchema();
      if m.Err? { return Err(m.error); }
      if !current { return Err(Raised); }
      r := VerifyRows();
    }

    method VerifyRows() returns (r: Outcome<Tally>)
      ensures r == match Report.VerifyTables(evidence) case Some(t) => Ok(t) case None => Err(Raised)
    {
      hide ChainOf, Verify, TaskIds;
      var ids := TaskIds(evidence);
      var tally := NO_TALLY;
      for n := 0 to |ids|
        invariant Report.VerifyIds(evidence, ids, n) == Some(tally)
      {
        var rows := ChainOf(evidence, ids[n]);
        var one := VerifyChain(rows);
        if one.None? {
          VerifyIdsRaises(evidence, ids, n + 1, |ids|);
          return Err(Raised);
        }
        tally := Report.AddTally(tally, one.value);
      }
      r := Ok(tally);
    }
  }

  // Replacing a row by one with the same id leaves it where it is found.
  lemma Refound(rows: seq<Confirmation>, id: string, i: nat, row: Confirmation)
    requires i < |rows| && FindConfirmation(rows, id) == i && row.id == id
    ensures FindConfirmation(rows[i := row], id) == i
  {
    var after := rows[i := row];
    assert after[i].id == id;
    assert forall k :: 0 <= k < i ==> after[k].id != id;
  }

  lemma {:induction false} VerifyIdsRaises(evidence: seq<EvidenceRow>, ids: seq<string>, m: nat, n: nat)
    requires m <= n <= |ids| && Report.VerifyIds(evidence, ids, m).None?
    ensures Report.VerifyIds(evidence, ids, n).None?
    decreases n
  {
    hide ChainOf, Verify;
    if m < n { VerifyIdsRaises(evidence, ids, m, n - 1); }
  }
}
