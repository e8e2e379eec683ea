// Forward migrations: schema versions 1 to 4, each applied in one transaction.
module Migration {
  import opened Wrappers
  import opened Json
  import opened CanonicalText
  import opened Evidence
  import opened Chain
  import opened Selection
  import opened Schema
  import opened Invariant
  import opened Report

  // ----- the tables of the earlier versions -----

  datatype OldTask = OldTask(
    id: string, schemaVersion: nat, taskType: Cell, taskGoal: Cell, adoption: Cell, resultJson: Text,
    payloadJson: Text, payloadHash: Hash, createdAt: string, confirmedAt: string, harnessJson: Text, typeLabel: string, signature: PathText)
  datatype OldStep = OldStep(
    id: string, pathId: string, ordinal: int, actor: Cell, eventType: Cell, summary: Cell, provenance: Cell, confidence: Value,
    metadataJson: Text)
  datatype OldEvidence = OldEvidence(
    eventId: string, taskId: string, ordinal: int, evidenceType: Cell, sourceRef: Cell, excerpt: Cell,
    contentHash: Hash, provenance: Cell, previousHash: Option<Hash>, eventHash: Hash, createdAt: string)
  datatype OldConfirmation = OldConfirmation(id: string, taskId: string, payloadHash: Hash, confirmedAt: string, how: string)

  datatype OldTables = OldTables(
    tasks: seq<OldTask>, processes: seq<ProcessRow>, paths: seq<PathRow>, steps: seq<OldStep>,
    evidence: seq<OldEvidence>, lineage: seq<LineageRow>, references: seq<ReferenceRow>,
    confirmations: seq<OldConfirmation>)

  datatype MidTables = MidTables(
    tasks: seq<OldTask>, processes: seq<ProcessRow>, paths: seq<PathRow>, steps: seq<OldStep>,
    evidence: seq<EvidenceRow>, lineage: seq<LineageRow>, references: seq<ReferenceRow>,
    confirmations: seq<Confirmation>)

  datatype Layout = Empty | V1(old1: OldTables) | V2(old2: OldTables) | V3(mid: MidTables) | V4(tables: Tables)

  // log holds the version column of schema_migrations.
  datatype Database = Database(log: seq<nat>, layout: Layout)

  const NO_OLD_ROWS := OldTables([], [], [], [], [], [], [], [])
  const NEW_DATABASE := Database([], Empty)

  // ----- the scripts -----

  function FindOldTask(rows: seq<OldTask>, id: string): (r: nat)
    ensures r <= |rows| && (r < |rows| ==> rows[r].id == id)
    ensures forall i :: 0 <= i < r ==> rows[i].id != id
  {
    if rows == [] || rows[0].id == id then 0 else 1 + FindOldTask(rows[1..], id)
  }

  function UpConfirmation(c: OldConfirmation, task: OldTask): Confirmation {
    Confirmation(c.id, Some(c.taskId), task.payloadJson, c.payloadHash, c.confirmedAt, Some(c.confirmedAt),
                 Some(c.how), None, Some("legacy_v2"), Consumed, Some(c.confirmedAt))
  }

  // FROM confirmations_v2 c JOIN tasks t ON t.task_id = c.task_id
  function JoinConfirmations(cs: seq<OldConfirmation>, tasks: seq<OldTask>): seq<Confirmation> {
    if cs == [] then []
    else
      var c := cs[|cs| - 1];
      var k := FindOldTask(tasks, c.taskId);
      JoinConfirmations(cs[..|cs| - 1], tasks) + if k < |tasks| then [UpConfirmation(c, tasks[k])] else []
  }

  function UpEvidence(e: OldEvidence): EvidenceRow {
    EvidenceRow(e.eventId, e.taskId, e.ordinal, e.evidenceType, e.sourceRef, e.excerpt, e.contentHash, e.provenance,
                e.previousHash, e.eventHash, e.createdAt, "legacy", Str("sha256"), Null, LEGACY_STATE)
  }

  function UpTask(r: OldTask): TaskRow {
    TaskRow(r.id, r.schemaVersion, r.taskType, r.taskGoal, r.adoption, r.resultJson, r.payloadJson, r.payloadHash,
            r.createdAt, r.confirmedAt, r.harnessJson, Null, Personal, PERSISTED, Null, Null, None,
            Chars("{}"), Chars("{}"), Chars("{}"), r.typeLabel, r.signature)
  }

  function UpStep(s: OldStep): StepRow {
    StepRow(s.id, s.pathId, s.ordinal, s.actor, s.eventType, s.summary, s.provenance, s.confidence, s.metadataJson, Null, Null,
            Chars("{}"), Chars("{}"))
  }

  function UpTo3(o: OldTables): MidTables {
    MidTables(o.tasks, o.processes, o.paths, o.steps,
              seq(|o.evidence|, i requires 0 <= i < |o.evidence| => UpEvidence(o.evidence[i])),
              o.lineage, o.references, JoinConfirmations(o.confirmations, o.tasks))
  }

  function UpTo4(m: MidTables): Tables {
    Tables(m.confirmations, seq(|m.tasks|, i requires 0 <= i < |m.tasks| => UpTask(m.tasks[i])), m.processes, m.paths,
           seq(|m.steps|, i requires 0 <= i < |m.steps| => UpStep(m.steps[i])), m.evidence, m.lineage, m.references)
  }

  // The copied rows meet the new table's constraints.
  predicate CopyAccepted(rows: seq<Confirmation>) {
    && (forall i :: 0 <= i < |rows| ==> RowCheck(rows[i]))
    && forall i, j :: 0 <= i < j < |rows| ==> rows[i].id != rows[j].id && rows[i].taskId != rows[j].taskId
  }

  // One script; None when a statement in it fails.
  function Apply(version: nat, layout: Layout): Option<Layout> {
    match layout
    case Empty => if version == 1 then Some(V1(NO_OLD_ROWS)) else None
    case V1(o) => if version == 2 then Some(V2(o)) else None
    case V2(o) => if version == 3 && CopyAccepted(UpTo3(o).confirmations) then Some(V3(UpTo3(o))) else None
    case V3(m) => if version == 4 then Some(V4(UpTo4(m))) else None
    case V4(_) => None
  }

  // ----- migrate -----

  // COALESCE(MAX(version), 0)
  function CurrentVersion(log: seq<nat>): (v: nat)
    ensures forall i :: 0 <= i < |log| ==> log[i] <= v
  {
    if log == [] then 0
    else
      var v := CurrentVersion(log[..|log| - 1]);
      if log[|log| - 1] > v then log[|log| - 1] else v
  }

  datatype Reply<+T> = Reply(db: Database, result: Outcome<T>)

  // faults: the versions whose transaction fails for a reason outside the model.
  function MigrateFrom(db: Database, version: nat, target: nat, faults: set<nat>): Reply<nat>
    decreases target + 1 - version
  {
    if version > target then Reply(db, Ok(CurrentVersion(db.log)))
    else if version > 4 then Reply(db, Err(MigrationError))
    else if version in faults then Reply(db, Err(Raised))
    else match Apply(version, db.layout)
      case None => Reply(db, Err(Raised))
      case Some(layout) => MigrateFrom(Database(db.log + [version], layout), version + 1, target, faults)
  }

  function Migrate(db: Database, target: nat, faults: set<nat>): Reply<nat> {
    var current := CurrentVersion(db.log);
    if current > target then Reply(db, Err(MigrationError))
    else MigrateFrom(db, current + 1, target, faults)
  }

  // ----- all or nothing -----

  function LayoutVersion(l: Layout): nat {
    match l case Empty => 0 case V1(_) => 1 case V2(_) => 2 case V3(_) => 3 case V4(_) => 4
  }

  // The log is 1..k and the tables are those of version k.
  ghost predicate Coherent(db: Database) {
    |db.log| == LayoutVersion(db.layout) && forall i :: 0 <= i < |db.log| ==> db.log[i] == i + 1
  }

  // No script leads beyond version 4: the refusal, and nothing changes.
  lemma NoLaterVersion(db: Database, target: nat, faults: set<nat>)
    requires Coherent(db) && db.layout.V4? && target != 4
    ensures Migrate(db, target, faults) == Reply(db, Err(MigrationError))
  {
    CoherentVersion(db);
  }

  lemma CoherentVersion(db: Database)
    requires Coherent(db)
    ensures CurrentVersion(db.log) == |db.log|
  {
    CountingLog(db.log);
  }

  lemma {:induction false} CountingLog(log: seq<nat>)
    requires forall i :: 0 <= i < |log| ==> log[i] == i + 1
    ensures CurrentVersion(log) == |log|
  {
    if log != [] { CountingLog(log[..|log| - 1]); }
  }

  // The layout reached by scripts from..version, with nothing failing.
  function Scripts(layout: Layout, from: nat, version: nat): Option<Layout>
    decreases version
  {
    if version < from then Some(layout)
    else if version == 0 then None
    else match Scripts(layout, from, version - 1)
      case None => None
      case Some(l) => Apply(version, l)
  }

  // Whatever fails, the database afterwards is some version fully applied.
  lemma {:induction false} MigrateFromAtomic(db: Database, version: nat, target: nat, faults: set<nat>, start: Layout, from: nat)
    requires Coherent(db) && version == |db.log| + 1 && 1 <= from <= version
    requires Scripts(start, from, version - 1) == Some(db.layout)
    ensures var r := MigrateFrom(db, version, target, faults);
            && Coherent(r.db) && |db.log| <= |r.db.log| && db.log <= r.db.log
            && Scripts(start, from, |r.db.log|) == Some(r.db.layout)
            && (r.result.Ok? ==> r.result.value == |r.db.log| && (version <= target ==> |r.db.log| == target))
            && (r.result.Ok? && version > target ==> r.db == db)
    decreases target + 1 - version
  {
    hide Apply, Scripts, Coherent, CurrentVersion;
    CoherentVersion(db);
    if version <= target && version <= 4 && version !in faults && Apply(version, db.layout).Some? {
      var next := Database(db.log + [version], Apply(version, db.layout).value);
      ScriptApplied(db, version, start, from);
      MigrateFromAtomic(next, version + 1, target, faults, start, from);
      CoherentVersion(next);
    }
  }

  lemma ScriptApplied(db: Database, version: nat, start: Layout, from: nat)
    requires Coherent(db) && version == |db.log| + 1 && 1 <= from <= version
    requires Scripts(start, from, version - 1) == Some(db.layout) && Apply(version, db.layout).Some?
    ensures Coherent(Database(db.log + [version], Apply(version, db.layout).value))
    ensures Scripts(start, from, version) == Apply(version, db.layout)
  {
    hide UpTo3, UpTo4, CopyAccepted;
  }

  lemma MigrationAtomic(db: Database, target: nat, faults: set<nat>)
    requires Coherent(db)
    ensures var r := Migrate(db, target, faults);
            && Coherent(r.db)
            && Scripts(db.layout, |db.log| + 1, |r.db.log|) == Some(r.db.layout)
            && (r.result.Ok? ==> r.result.value == |r.db.log| == target)
            && (|db.log| > target ==> r.result == Err(MigrationError) && r.db == db)
  {
    CoherentVersion(db);
    if |db.log| <= target {
      MigrateFromAtomic(db, |db.log| + 1, target, faults, db.layout, |db.log| + 1);
    }
  }

  // A database newer than the target is refused untouched, coherent or not.
  lemma NewerRefused(db: Database, target: nat, faults: set<nat>, v: nat)
    requires v in db.log && v > target
    ensures Migrate(db, target, faults) == Reply(db, Err(MigrationError))
  {
    var i :| 0 <= i < |db.log| && db.log[i] == v;
  }

  // However an earlier run went, running again reaches what a single
  // uninterrupted run from the original database reaches.
  lemma {:induction false} ResumeFrom(db: Database, version: nat, a: nat, b: nat, faults: set<nat>)
    requires Coherent(db) && version == |db.log| + 1 && version <= a + 1 && a <= b
    ensures var first := MigrateFrom(db, version, a, faults).db;
            |first.log| + 1 <= b + 1 && Coherent(first)
            && MigrateFrom(first, |first.log| + 1, b, {}) == MigrateFrom(db, version, b, {})
    decreases a + 1 - version
  {
    if version <= a && version <= 4 && version !in faults && Apply(version, db.layout).Some? {
      ResumeFrom(Database(db.log + [version], Apply(version, db.layout).value), version + 1, a, b, faults);
    }
  }

  lemma MigrationResumes(db: Database, a: nat, b: nat, faults: set<nat>)
    requires Coherent(db) && a <= b && |db.log| <= b
    ensures Migrate(Migrate(db, a, faults).db, b, {}) == Migrate(db, b, {})
  {
    CoherentVersion(db);
    if |db.log| <= a {
      ResumeFrom(db, |db.log| + 1, a, b, faults);
      CoherentVersion(MigrateFrom(db, |db.log| + 1, a, faults).db);
    }
  }

  // ----- history is conserved -----

  ghost predicate HasOldTask(o: OldTables, id: string) { exists i :: 0 <= i < |o.tasks| && o.tasks[i].id == id }
  ghost predicate HasOldProcess(o: OldTables, id: string) { exists i :: 0 <= i < |o.processes| && o.processes[i].id == id }
  ghost predicate HasOldPath(o: OldTables, id: string) { exists i :: 0 <= i < |o.paths| && o.paths[i].id == id }

  // What SQLite enforces on a version 2 database.
  ghost predicate OldConstraints(o: OldTables) {
    && (forall i, j :: 0 <= i < j < |o.tasks| ==> o.tasks[i].id != o.tasks[j].id && o.tasks[i].payloadHash != o.tasks[j].payloadHash)
    && ProcessesUnique(o.processes) && PathsUnique(o.paths) && LineageUnique(o.lineage) && ReferencesUnique(o.references)
    && (forall i, j :: 0 <= i < j < |o.steps| ==>
          o.steps[i].id != o.steps[j].id && !(o.steps[i].pathId == o.steps[j].pathId && o.steps[i].ordinal == o.steps[j].ordinal))
    && (forall i, j :: 0 <= i < j < |o.evidence| ==>
          && o.evidence[i].eventId != o.evidence[j].eventId && o.evidence[i].eventHash != o.evidence[j].eventHash
          && !(o.evidence[i].taskId == o.evidence[j].taskId && o.evidence[i].ordinal == o.evidence[j].ordinal))
    && (forall i, j :: 0 <= i < j < |o.confirmations| ==>
          o.confirmations[i].id != o.confirmations[j].id && o.confirmations[i].taskId != o.confirmations[j].taskId)
    && (forall i :: 0 <= i < |o.processes| ==> HasOldTask(o, o.processes[i].taskId))
    && (forall i :: 0 <= i < |o.paths| ==> HasOldProcess(o, o.paths[i].processId))
    && (forall i :: 0 <= i < |o.steps| ==> HasOldPath(o, o.steps[i].pathId))
    && (forall i :: 0 <= i < |o.evidence| ==> HasOldTask(o, o.evidence[i].taskId))
    && (forall i :: 0 <= i < |o.references| ==> HasOldTask(o, o.references[i].taskId))
    && (forall i :: 0 <= i < |o.confirmations| ==> HasOldTask(o, o.confirmations[i].taskId))
  }

  lemma {:induction false} JoinKeepsAll(cs: seq<OldConfirmation>, tasks: seq<OldTask>)
    requires forall i :: 0 <= i < |cs| ==> FindOldTask(tasks, cs[i].taskId) < |tasks|
    ensures |JoinConfirmations(cs, tasks)| == |cs|
    ensures forall i :: 0 <= i < |cs| ==>
              JoinConfirmations(cs, tasks)[i] == UpConfirmation(cs[i], tasks[FindOldTask(tasks, cs[i].taskId)])
  {
    if cs != [] { JoinKeepsAll(cs[..|cs| - 1], tasks); }
  }

  lemma OldTaskFound(o: OldTables, id: string)
    requires HasOldTask(o, id)
    ensures FindOldTask(o.tasks, id) < |o.tasks|
  {
  }

  // Every confirmation reappears once, in order, consumed for its own task with
  // its own hash and the task's payload text.
  lemma ConfirmationsConserved(o: OldTables)
    requires OldConstraints(o)
    ensures var cs := UpTo3(o).confirmations;
            && |cs| == |o.confirmations|
            && forall i :: 0 <= i < |cs| ==>
                 var k := FindOldTask(o.tasks, o.confirmations[i].taskId);
                 k < |o.tasks| && o.tasks[k].id == o.confirmations[i].taskId && cs[i] == UpConfirmation(o.confirmations[i], o.tasks[k])
  {
    forall i | 0 <= i < |o.confirmations| ensures FindOldTask(o.tasks, o.confirmations[i].taskId) < |o.tasks| {
      OldTaskFound(o, o.confirmations[i].taskId);
    }
    JoinKeepsAll(o.confirmations, o.tasks);
  }

  // A migrated confirmation: consumed for the same task, at the time and by the
  // method it was confirmed with, under its own hash, with its task's payload.
  ghost predicate ConfirmationKept(o: OldTables, c: OldConfirmation, d: Confirmation) {
    && d.id == c.id && d.status == Consumed && d.taskId == Some(c.taskId) && d.payloadHash == c.payloadHash
    && d.preparedAt == c.confirmedAt && d.confirmedAt == Some(c.confirmedAt) && d.consumedAt == Some(c.confirmedAt)
    && d.how == Some(c.how) && d.identity == None && d.source == Some("legacy_v2")
    && CarriesText(o.tasks, c.taskId, d.payloadJson)
  }

  ghost predicate TaskKept(r: OldTask, s: TaskRow) {
    && s.id == r.id && s.schemaVersion == r.schemaVersion && s.taskType == r.taskType && s.taskGoal == r.taskGoal
    && s.adoption == r.adoption && s.resultJson == r.resultJson && s.payloadJson == r.payloadJson && s.payloadHash == r.payloadHash
    && s.createdAt == r.createdAt && s.confirmedAt == r.confirmedAt && s.harnessJson == r.harnessJson && s.typeLabel == r.typeLabel
    && s.signature == r.signature
    && s.session == Null && s.mode == Personal && s.captureStatus == "TASK_COMPLETED_CAPTURE_PERSISTED"
    && s.startedAt == Null && s.completedAt == Null && s.contextRefHash == None
    && IsEmptyJson(s.businessJson) && IsEmptyJson(s.aiJson) && IsEmptyJson(s.authorizationJson)
  }

  // {}
  ghost predicate IsEmptyJson(json: Text) {
    json == [Ch('{'), Ch('}')]
  }

  ghost predicate EvidenceKept(e: OldEvidence, f: EvidenceRow) {
    && f.eventId == e.eventId && f.taskId == e.taskId && f.ordinal == e.ordinal && f.evidenceType == e.evidenceType
    && f.sourceRef == e.sourceRef && f.excerpt == e.excerpt && f.contentHash == e.contentHash && f.provenance == e.provenance
    && f.previousHash == e.previousHash && f.eventHash == e.eventHash && f.createdAt == e.createdAt
    && f.kind == "legacy" && f.algorithm == Str("sha256") && f.externalDigest == Null && f.state == Str("legacy_unverified")
  }

  ghost predicate StepKept(s: OldStep, r: StepRow) {
    && r.id == s.id && r.pathId == s.pathId && r.ordinal == s.ordinal && r.actor == s.actor && r.eventType == s.eventType
    && r.summary == s.summary && r.provenance == s.provenance && r.confidence == s.confidence && r.metadataJson == s.metadataJson
    && r.occurredAt == Null && r.duration == Null && IsEmptyJson(r.capabilityJson) && IsEmptyJson(r.interventionJson)
  }

  ghost predicate CarriesText(tasks: seq<OldTask>, id: string, json: Text) {
    exists k :: 0 <= k < |tasks| && tasks[k].id == id && tasks[k].payloadJson == json
  }

  // Nothing of the history is lost, repeated or reordered.
  lemma HistoryConserved(o: OldTables)
    requires OldConstraints(o)
    ensures var t := UpTo4(UpTo3(o));
            && |t.confirmations| == |o.confirmations|
            && (forall i :: 0 <= i < |t.confirmations| ==> ConfirmationKept(o, o.confirmations[i], t.confirmations[i]))
            && |t.tasks| == |o.tasks| && (forall i :: 0 <= i < |t.tasks| ==> TaskKept(o.tasks[i], t.tasks[i]))
            && |t.evidence| == |o.evidence| && (forall i :: 0 <= i < |t.evidence| ==> EvidenceKept(o.evidence[i], t.evidence[i]))
            && |t.steps| == |o.steps| && (forall i :: 0 <= i < |t.steps| ==> StepKept(o.steps[i], t.steps[i]))
            && t.processes == o.processes && t.paths == o.paths && t.lineage == o.lineage && t.references == o.references
  {
    hide OldConstraints, FindOldTask;
    ConfirmationsConserved(o);
    var t := UpTo4(UpTo3(o));
    forall i | 0 <= i < |t.confirmations| ensures ConfirmationKept(o, o.confirmations[i], t.confirmations[i]) {
      var k := FindOldTask(o.tasks, o.confirmations[i].taskId);
      assert o.tasks[k].id == o.confirmations[i].taskId && o.tasks[k].payloadJson == t.confirmations[i].payloadJson;
    }
  }

  // The migration of a version 2 database succeeds exactly when every
  // confirmation names a method.
  ghost predicate MethodsNamed(o: OldTables) {
    forall i :: 0 <= i < |o.confirmations| ==> SqlNonempty(Some(o.confirmations[i].how))
  }

  lemma CopyAcceptedIff(o: OldTables)
    requires OldConstraints(o)
    ensures CopyAccepted(UpTo3(o).confirmations) <==> MethodsNamed(o)
  {
    ConfirmationsConserved(o);
    var cs := UpTo3(o).confirmations;
    assert forall i :: 0 <= i < |cs| ==> (RowCheck(cs[i]) <==> SqlNonempty(Some(o.confirmations[i].how)));
  }

  lemma MigrationSucceedsIff(o: OldTables)
    requires OldConstraints(o)
    ensures var db := Database([1, 2], V2(o));
            && Coherent(db)
            && (Migrate(db, 4, {}).result == Ok(4) <==> MethodsNamed(o))
            && (MethodsNamed(o) ==> Migrate(db, 4, {}).db == Database([1, 2, 3, 4], V4(UpTo4(UpTo3(o)))))
            && (!MethodsNamed(o) ==> Migrate(db, 4, {}).db == db)
  {
    hide OldConstraints, UpTo3, UpTo4, CopyAccepted, MethodsNamed, MigrateFrom, Apply;
    var db := Database([1, 2], V2(o));
    CoherentVersion(db);
    CopyAcceptedIff(o);
    MigrateStep(db, 3);
    LastScripts(o);
    if MethodsNamed(o) {
      var db3 := Database([1, 2, 3], V3(UpTo3(o)));
      assert db.log + [3] == db3.log;
      MigrateStep(db3, 4);
      var db4 := Database([1, 2, 3, 4], V4(UpTo4(UpTo3(o))));
      assert db3.log + [4] == db4.log;
      MigrateStep(db4, 5);
      CoherentVersion(db4);
    }
  }

  lemma LastScripts(o: OldTables)
    ensures Apply(3, V2(o)) == if CopyAccepted(UpTo3(o).confirmations) then Some(V3(UpTo3(o))) else None
    ensures Apply(4, V3(UpTo3(o))) == Some(V4(UpTo4(UpTo3(o))))
  {
    hide UpTo3, UpTo4, CopyAccepted;
  }

  lemma MigrateStep(db: Database, version: nat)
    requires 0 < version <= 5
    ensures MigrateFrom(db, version, 4, {}) ==
      if version == 5 then Reply(db, Ok(CurrentVersion(db.log)))
      else match Apply(version, db.layout)
        case None => Reply(db, Err(Raised))
        case Some(layout) => MigrateFrom(Database(db.log + [version], layout), version + 1, 4, {})
  {
    hide Apply;
  }

  // All migrated evidence is legacy and is counted once.
  lemma MigratedEvidence(o: OldTables)
    ensures var t := UpTo4(UpTo3(o));
            && |t.evidence| == |o.evidence|
            && (forall i :: 0 <= i < |t.evidence| ==> Legacy(t.evidence[i]) && t.evidence[i].eventHash == o.evidence[i].eventHash)
            && VerifyTables(t.evidence) == Some(Tally(0, |o.evidence|, []))
  {
    var t := UpTo4(UpTo3(o));
    AllLegacyVerify(t.evidence);
  }

  lemma AllLegacyVerify(rows: seq<EvidenceRow>)
    requires AllLegacy(rows)
    ensures VerifyTables(rows) == Some(Tally(0, |rows|, []))
  {
    hide Legacy;
    var ids := TaskIds(rows);
    AllLegacyIds(rows, ids, |ids|);
    VerifyCounts(rows);
    AllLegacyCount(rows);
  }

  lemma {:induction false} AllLegacyCount(rows: seq<EvidenceRow>)
    requires AllLegacy(rows)
    ensures CountLegacy(rows) == |rows|
  {
    if rows != [] { AllLegacyCount(rows[..|rows| - 1]); }
  }

  lemma {:induction false} AllLegacyIds(rows: seq<EvidenceRow>, ids: seq<string>, n: nat)
    requires AllLegacy(rows) && n <= |ids|
    ensures VerifyIds(rows, ids, n).Some? && VerifyIds(rows, ids, n).value.failed == []
  {
    hide Legacy, AllLegacy, ChainOf, Verify;
    if n > 0 {
      AllLegacyIds(rows, ids, n - 1);
      LegacyChain(rows, ids[n - 1]);
      var chain := ChainOf(rows, ids[n - 1]);
      LegacyVerify(chain, |chain|);
    }
  }

  lemma LegacyChain(rows: seq<EvidenceRow>, taskId: string)
    requires AllLegacy(rows)
    ensures AllLegacy(ChainOf(rows, taskId))
  {
    hide Legacy;
    ChainMembers(rows, taskId);
    var chain := ChainOf(rows, taskId);
    forall i | 0 <= i < |chain| ensures Legacy(chain[i]) { assert chain[i] in chain; }
  }

  lemma {:induction false} LegacyVerify(rows: seq<EvidenceRow>, n: nat)
    requires AllLegacy(rows) && n <= |rows|
    ensures Verify(rows, n) == Some(Tally(0, n, []))
  {
    hide Legacy, Checkable, Link;
    if n > 0 { LegacyVerify(rows, n - 1); }
  }

  // What the version 2 runtime wrote: payload texts that load back to the
  // stored hash, and confirmations carrying their task's hash.
  ghost predicate OldAgrees(o: OldTables) {
    && (forall i :: 0 <= i < |o.tasks| ==> StoredPayload(o.tasks[i].payloadJson, o.tasks[i].payloadHash))
    && forall i, j :: 0 <= i < |o.confirmations| && 0 <= j < |o.tasks| && o.confirmations[i].taskId == o.tasks[j].id ==>
         o.confirmations[i].payloadHash == o.tasks[j].payloadHash
  }

  lemma MigratedConstraints(o: OldTables)
    requires OldConstraints(o) && MethodsNamed(o)
    ensures Constraints(UpTo4(UpTo3(o)))
  {
    var t := UpTo4(UpTo3(o));
    ConfirmationsConserved(o);
    CopyAcceptedIff(o);
    MigratedParents(o, t);
    MigratedRows(o, t);
  }

  lemma MigratedParents(o: OldTables, t: Tables)
    requires t == UpTo4(UpTo3(o))
    ensures forall id :: HasOldTask(o, id) ==> HasTask(t, id)
    ensures forall id :: HasOldProcess(o, id) ==> HasProcess(t, id)
    ensures forall id :: HasOldPath(o, id) ==> HasPath(t, id)
  {
    forall id | HasOldTask(o, id) ensures HasTask(t, id) {
      var i :| 0 <= i < |o.tasks| && o.tasks[i].id == id;
      assert t.tasks[i].id == id;
    }
  }

  lemma MigratedRows(o: OldTables, t: Tables)
    requires t == UpTo4(UpTo3(o)) && OldConstraints(o)
    ensures TasksUnique(t.tasks) && StepsUnique(t.steps) && EvidenceUnique(t.evidence)
  {
  }

  // The migrated database satisfies the full store invariant exactly when the
  // old one agreed with itself.
  lemma MigrationEstablishesInv(o: OldTables)
    requires OldConstraints(o) && MethodsNamed(o)
    ensures Inv(UpTo4(UpTo3(o))) <==> OldAgrees(o)
  {
    hide StoredPayload, Readable, Constraints, OldConstraints, AllLegacy, ChainOf;
    var t := UpTo4(UpTo3(o));
    MigratedConstraints(o);
    MigratedEvidence(o);
    ConfirmationsConserved(o);
    forall i | 0 <= i < |t.tasks| ensures TaskChain(t.tasks[i], ChainOf(t.evidence, t.tasks[i].id)) {
      AllLegacyRows(t.evidence);
      LegacyChain(t.evidence, t.tasks[i].id);
    }
    MigratedPayloads(o, t);
  }

  lemma AllLegacyRows(rows: seq<EvidenceRow>)
    requires forall i :: 0 <= i < |rows| ==> Legacy(rows[i])
    ensures AllLegacy(rows)
  {
  }

  lemma EmptyObjectLoads()
    ensures Loads(Chars("{}")) == Some(Obj([]))
  {
    var t := Chars("{}");
    assert t[0] == Ch('{') && t[1] == Ch('}') && t[2..] == [];
    NotAWord(t);
  }

  ghost predicate OldRowsKept(o: OldTables, t: Tables) {
    && |t.tasks| == |o.tasks| && |t.confirmations| == |o.confirmations|
    && (forall i :: 0 <= i < |t.tasks| ==>
          t.tasks[i].id == o.tasks[i].id && t.tasks[i].payloadJson == o.tasks[i].payloadJson && t.tasks[i].payloadHash == o.tasks[i].payloadHash)
    && (forall i :: 0 <= i < |t.confirmations| ==>
          t.confirmations[i].taskId == Some(o.confirmations[i].taskId) && t.confirmations[i].payloadHash == o.confirmations[i].payloadHash)
  }

  lemma MigratedPayloads(o: OldTables, t: Tables)
    requires t == UpTo4(UpTo3(o)) && OldConstraints(o)
    ensures PayloadsStored(t) && ClaimsMatch(t) <==> OldAgrees(o)
  {
    hide StoredPayload, OldConstraints, Loads, Readable, FindOldTask, UpTo3, UpTo4, PayloadsStored, ClaimsMatch, OldAgrees;
    OldRowsSurvive(o);
    ConfirmationsConserved(o);
    DraftsStored(o, t);
    if OldAgrees(o) { AgreeingPayloads(o, t); }
    if PayloadsStored(t) && ClaimsMatch(t) { StoredAgrees(o, t); }
  }

  lemma OldRowsSurvive(o: OldTables)
    requires OldConstraints(o)
    ensures OldRowsKept(o, UpTo4(UpTo3(o)))
    ensures UpTo4(UpTo3(o)).confirmations == UpTo3(o).confirmations
    ensures forall i :: 0 <= i < |o.tasks| ==> Readable(UpTo4(UpTo3(o)).tasks[i])
  {
    hide StoredPayload, OldConstraints, Loads, FindOldTask;
    ConfirmationsConserved(o);
    EmptyObjectLoads();
  }

  // A migrated confirmation carries its task's payload text.
  lemma DraftsStored(o: OldTables, t: Tables)
    requires OldConstraints(o) && OldRowsKept(o, t) && t.confirmations == UpTo3(o).confirmations
    ensures forall i :: 0 <= i < |t.confirmations| ==>
              CarriesText(o.tasks, o.confirmations[i].taskId, t.confirmations[i].payloadJson)
  {
    hide OldConstraints, UpTo3, FindOldTask;
    ConfirmationsConserved(o);
    forall i | 0 <= i < |t.confirmations| ensures CarriesText(o.tasks, o.confirmations[i].taskId, t.confirmations[i].payloadJson) {
      var k := FindOldTask(o.tasks, o.confirmations[i].taskId);
      assert o.tasks[k].id == o.confirmations[i].taskId;
    }
  }

  lemma AgreeingPayloads(o: OldTables, t: Tables)
    requires OldAgrees(o) && OldRowsKept(o, t) && forall i :: 0 <= i < |t.tasks| ==> Readable(t.tasks[i])
    requires forall i :: 0 <= i < |t.confirmations| ==>
               CarriesText(o.tasks, o.confirmations[i].taskId, t.confirmations[i].payloadJson)
    ensures PayloadsStored(t) && ClaimsMatch(t)
  {
    hide StoredPayload, Readable;
    forall i | 0 <= i < |t.confirmations| ensures StoredPayload(t.confirmations[i].payloadJson, t.confirmations[i].payloadHash) {
      var k :| 0 <= k < |o.tasks| && o.tasks[k].id == o.confirmations[i].taskId && t.confirmations[i].payloadJson == o.tasks[k].payloadJson;
    }
  }

  lemma StoredAgrees(o: OldTables, t: Tables)
    requires PayloadsStored(t) && ClaimsMatch(t) && OldRowsKept(o, t)
    ensures OldAgrees(o)
  {
    hide StoredPayload, Readable;
    forall i, j | 0 <= i < |o.confirmations| && 0 <= j < |o.tasks| && o.confirmations[i].taskId == o.tasks[j].id
      ensures o.confirmations[i].payloadHash == o.tasks[j].payloadHash
    {
      assert t.confirmations[i].taskId == Some(t.tasks[j].id);
    }
    forall i | 0 <= i < |o.tasks| ensures StoredPayload(o.tasks[i].payloadJson, o.tasks[i].payloadHash) {
      assert StoredPayload(t.tasks[i].payloadJson, t.tasks[i].payloadHash);
    }
  }
}
