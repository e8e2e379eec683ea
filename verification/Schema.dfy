// The tables of schema version 4 and the constraints SQLite enforces on them.
// A table is the list of its rows in insertion order.
module Schema {
  import opened Wrappers
  import opened Json
  import opened Evidence

  datatype Status = Prepared | Confirmed | Consumed
  datatype Mode = Personal | Enterprise

  const SCHEMA_VERSION: nat := 4
  const PERSISTED := "TASK_COMPLETED_CAPTURE_PERSISTED"

  datatype Confirmation = Confirmation(
    id: string, taskId: Option<string>, payloadJson: Text, payloadHash: Hash, preparedAt: string,
    confirmedAt: Option<string>, how: Option<string>, identity: Option<string>, source: Option<string>,
    status: Status, consumedAt: Option<string>)

  // A path signature: one mark per step before it is printed, or the text that an
  // earlier version left behind.
  datatype Mark = Mark(actor: string, event: string, summary: Hash)
  datatype PathText = Marked(marks: seq<Mark>) | Printed(text: string)

  datatype TaskRow = TaskRow(
    id: string, schemaVersion: nat, taskType: Cell, taskGoal: Cell, adoption: Cell, resultJson: Text,
    payloadJson: Text, payloadHash: Hash, createdAt: string, confirmedAt: string, harnessJson: Text,
    session: Cell, mode: Mode, captureStatus: string, startedAt: Cell, completedAt: Cell,
    contextRefHash: Option<Hash>, businessJson: Text, aiJson: Text, authorizationJson: Text, typeLabel: string, signature: PathText)

  datatype ProcessRow = ProcessRow(id: string, taskId: string, summary: Cell, prerequisitesJson: Text)
  datatype PathRow = PathRow(id: string, processId: string, signature: PathText, outcome: Cell)
  datatype StepRow = StepRow(
    id: string, pathId: string, ordinal: int, actor: Cell, eventType: Cell, summary: Cell, provenance: Cell,
    confidence: Value, metadataJson: Text, occurredAt: Cell, duration: Value, capabilityJson: Text, interventionJson: Text)
  datatype LineageRow = LineageRow(id: string, derivedId: string, sourceId: string)
  datatype ReferenceRow = ReferenceRow(
    id: string, taskId: string, namespace: Cell, externalIdHash: Hash, relation: Cell, metadataJson: Text)

  datatype Tables = Tables(
    confirmations: seq<Confirmation>, tasks: seq<TaskRow>, processes: seq<ProcessRow>, paths: seq<PathRow>,
    steps: seq<StepRow>, evidence: seq<EvidenceRow>, lineage: seq<LineageRow>, references: seq<ReferenceRow>)

  const NO_ROWS := Tables([], [], [], [], [], [], [], [])

  // ----- CHECK constraints on a confirmation row -----

  // length(text) > 0 stops at the first NUL character.
  predicate SqlNonempty(s: Option<string>) {
    s.Some? && s.value != "" && s.value[0] as int != 0
  }

  predicate RowCheck(c: Confirmation) {
    && (c.identity.Some? ==> c.source.Some?)
    && match c.status
       case Prepared => c.confirmedAt.None? && c.consumedAt.None? && c.taskId.None?
       case Confirmed => c.confirmedAt.Some? && SqlNonempty(c.how) && c.consumedAt.None? && c.taskId.None?
       case Consumed => c.confirmedAt.Some? && SqlNonempty(c.how) && c.consumedAt.Some? && c.taskId.Some?
  }

  // ----- foreign keys -----

  predicate HasTask(t: Tables, id: string) { exists i :: 0 <= i < |t.tasks| && t.tasks[i].id == id }
  predicate HasProcess(t: Tables, id: string) { exists i :: 0 <= i < |t.processes| && t.processes[i].id == id }
  predicate HasPath(t: Tables, id: string) { exists i :: 0 <= i < |t.paths| && t.paths[i].id == id }

  // ----- when an INSERT is accepted -----

  predicate ConfirmationFits(t: Tables, c: Confirmation) {
    && RowCheck(c)
    && (forall i :: 0 <= i < |t.confirmations| ==> t.confirmations[i].id != c.id)
    && (c.taskId.Some? ==> HasTask(t, c.taskId.value))
    && (c.taskId.Some? ==> forall i :: 0 <= i < |t.confirmations| ==> t.confirmations[i].taskId != c.taskId)
  }

  predicate TaskFits(t: Tables, r: TaskRow) {
    forall i :: 0 <= i < |t.tasks| ==>
      && t.tasks[i].id != r.id && t.tasks[i].payloadHash != r.payloadHash
      && (r.session.Null? || t.tasks[i].session != r.session)
  }

  predicate ProcessFits(t: Tables, r: ProcessRow) {
    && HasTask(t, r.taskId)
    && forall i :: 0 <= i < |t.processes| ==> t.processes[i].id != r.id && t.processes[i].taskId != r.taskId
  }

  predicate PathFits(t: Tables, r: PathRow) {
    && HasProcess(t, r.processId)
    && forall i :: 0 <= i < |t.paths| ==> t.paths[i].id != r.id
  }

  predicate StepFits(t: Tables, r: StepRow) {
    && HasPath(t, r.pathId)
    && forall i :: 0 <= i < |t.steps| ==>
         t.steps[i].id != r.id && !(t.steps[i].pathId == r.pathId && t.steps[i].ordinal == r.ordinal)
  }

  predicate EvidenceFits(t: Tables, r: EvidenceRow) {
    && HasTask(t, r.taskId)
    && forall i :: 0 <= i < |t.evidence| ==>
         && t.evidence[i].eventId != r.eventId && t.evidence[i].eventHash != r.eventHash
         && !(t.evidence[i].taskId == r.taskId && t.evidence[i].ordinal == r.ordinal)
  }

  predicate LineageFits(t: Tables, r: LineageRow) {
    forall i :: 0 <= i < |t.lineage| ==> t.lineage[i].id != r.id
  }

  predicate ReferenceFits(t: Tables, r: ReferenceRow) {
    HasTask(t, r.taskId) && forall i :: 0 <= i < |t.references| ==> t.references[i].id != r.id
  }

  // ----- the constraints as properties of whole tables -----

  ghost predicate ConfirmationsUnique(rows: seq<Confirmation>) {
    forall i, j :: 0 <= i < j < |rows| ==>
      rows[i].id != rows[j].id && (rows[i].taskId.None? || rows[i].taskId != rows[j].taskId)
  }

  ghost predicate TasksUnique(rows: seq<TaskRow>) {
    forall i, j :: 0 <= i < j < |rows| ==>
      && rows[i].id != rows[j].id && rows[i].payloadHash != rows[j].payloadHash
      && (rows[i].session.Null? || rows[i].session != rows[j].session)
  }

  ghost predicate ProcessesUnique(rows: seq<ProcessRow>) {
    forall i, j :: 0 <= i < j < |rows| ==> rows[i].id != rows[j].id && rows[i].taskId != rows[j].taskId
  }

  ghost predicate PathsUnique(rows: seq<PathRow>) {
    forall i, j :: 0 <= i < j < |rows| ==> rows[i].id != rows[j].id
  }

  ghost predicate StepsUnique(rows: seq<StepRow>) {
    forall i, j :: 0 <= i < j < |rows| ==>
      rows[i].id != rows[j].id && !(rows[i].pathId == rows[j].pathId && rows[i].ordinal == rows[j].ordinal)
  }

  ghost predicate EvidenceUnique(rows: seq<EvidenceRow>) {
    forall i, j :: 0 <= i < j < |rows| ==>
      && rows[i].eventId != rows[j].eventId && rows[i].eventHash != rows[j].eventHash
      && !(rows[i].taskId == rows[j].taskId && rows[i].ordinal == rows[j].ordinal)
  }

  ghost predicate LineageUnique(rows: seq<LineageRow>) {
    forall i, j :: 0 <= i < j < |rows| ==> rows[i].id != rows[j].id
  }

  ghost predicate ReferencesUnique(rows: seq<ReferenceRow>) {
    forall i, j :: 0 <= i < j < |rows| ==> rows[i].id != rows[j].id
  }

  ghost predicate ForeignKeys(t: Tables) {
    && (forall i :: 0 <= i < |t.processes| ==> HasTask(t, t.processes[i].taskId))
    && (forall i :: 0 <= i < |t.paths| ==> HasProcess(t, t.paths[i].processId))
    && (forall i :: 0 <= i < |t.steps| ==> HasPath(t, t.steps[i].pathId))
    && (forall i :: 0 <= i < |t.evidence| ==> HasTask(t, t.evidence[i].taskId))
    && (forall i :: 0 <= i < |t.references| ==> HasTask(t, t.references[i].taskId))
    && (forall i :: 0 <= i < |t.confirmations| && t.confirmations[i].taskId.Some? ==> HasTask(t, t.confirmations[i].taskId.value))
  }

  ghost predicate Constraints(t: Tables) {
    && ConfirmationsUnique(t.confirmations) && TasksUnique(t.tasks) && ProcessesUnique(t.processes)
    && PathsUnique(t.paths) && StepsUnique(t.steps) && EvidenceUnique(t.evidence) && LineageUnique(t.lineage)
    && ReferencesUnique(t.references)
    && ForeignKeys(t)
    && forall i :: 0 <= i < |t.confirmations| ==> RowCheck(t.confirmations[i])
  }

  // ----- SELECT by a unique column: the index of the row, or the table's length -----

  function FindConfirmation(rows: seq<Confirmation>, id: string): (r: nat)
    ensures r <= |rows| && (r < |rows| ==> rows[r].id == id)
    ensures forall i :: 0 <= i < r ==> rows[i].id != id
  {
    if rows == [] || rows[0].id == id then 0 else 1 + FindConfirmation(rows[1..], id)
  }

  function FindTask(rows: seq<TaskRow>, id: string): (r: nat)
    ensures r <= |rows| && (r < |rows| ==> rows[r].id == id)
    ensures forall i :: 0 <= i < r ==> rows[i].id != id
  {
    if rows == [] || rows[0].id == id then 0 else 1 + FindTask(rows[1..], id)
  }

  function FindSession(rows: seq<TaskRow>, session: Cell): (r: nat)
    ensures r <= |rows| && (r < |rows| ==> rows[r].session == session)
    ensures forall i :: 0 <= i < r ==> rows[i].session != session
  {
    if rows == [] || rows[0].session == session then 0 else 1 + FindSession(rows[1..], session)
  }

  function FindHash(rows: seq<TaskRow>, h: Hash): (r: nat)
    ensures r <= |rows| && (r < |rows| ==> rows[r].payloadHash == h)
    ensures forall i :: 0 <= i < r ==> rows[i].payloadHash != h
  {
    if rows == [] || rows[0].payloadHash == h then 0 else 1 + FindHash(rows[1..], h)
  }
}
