// What a successful insertion adds to the tables, and that every accepted
// statement keeps the constraints of the schema.
module Insertion {
  import opened Wrappers
  import opened Json
  import opened Evidence
  import opened Schema
  import opened Transactions
  import CanonicalText

  // ----- one accepted INSERT keeps every constraint -----

  lemma AppendTask(t: Tables, row: TaskRow)
    requires Constraints(t) && TaskFits(t, row)
    ensures Constraints(t.(tasks := t.tasks + [row])) && HasTask(t.(tasks := t.tasks + [row]), row.id)
  {
    hide ConfirmationsUnique, ProcessesUnique, PathsUnique, StepsUnique, EvidenceUnique, LineageUnique, ReferencesUnique, RowCheck;
    var t' := t.(tasks := t.tasks + [row]);
    assert t'.tasks[|t.tasks|].id == row.id;
    KeepsParents(t, t');
  }

  // More parent rows keep every foreign key satisfied.
  lemma KeepsParents(t: Tables, t': Tables)
    requires t.tasks <= t'.tasks && t.processes <= t'.processes && t.paths <= t'.paths
    ensures forall id :: HasTask(t, id) ==> HasTask(t', id)
    ensures forall id :: HasProcess(t, id) ==> HasProcess(t', id)
    ensures forall id :: HasPath(t, id) ==> HasPath(t', id)
  {
    forall id | HasTask(t, id) ensures HasTask(t', id) {
      var i :| 0 <= i < |t.tasks| && t.tasks[i].id == id;
      assert t'.tasks[i].id == id;
    }
    forall id | HasProcess(t, id) ensures HasProcess(t', id) {
      var i :| 0 <= i < |t.processes| && t.processes[i].id == id;
      assert t'.processes[i].id == id;
    }
    forall id | HasPath(t, id) ensures HasPath(t', id) {
      var i :| 0 <= i < |t.paths| && t.paths[i].id == id;
      assert t'.paths[i].id == id;
    }
  }

  lemma AppendProcess(t: Tables, row: ProcessRow)
    requires Constraints(t) && ProcessFits(t, row)
    ensures Constraints(t.(processes := t.processes + [row])) && HasProcess(t.(processes := t.processes + [row]), row.id)
  {
    hide ConfirmationsUnique, TasksUnique, PathsUnique, StepsUnique, EvidenceUnique, LineageUnique, ReferencesUnique, RowCheck;
    var t' := t.(processes := t.processes + [row]);
    assert t'.processes[|t.processes|].id == row.id;
    KeepsParents(t, t');
  }

  lemma AppendPath(t: Tables, row: PathRow)
    requires Constraints(t) && PathFits(t, row)
    ensures Constraints(t.(paths := t.paths + [row])) && HasPath(t.(paths := t.paths + [row]), row.id)
  {
    hide ConfirmationsUnique, TasksUnique, ProcessesUnique, StepsUnique, EvidenceUnique, LineageUnique, ReferencesUnique, RowCheck;
    var t' := t.(paths := t.paths + [row]);
    assert t'.paths[|t.paths|].id == row.id;
    KeepsParents(t, t');
  }

  lemma AppendStep(t: Tables, row: StepRow)
    requires Constraints(t) && StepFits(t, row)
    ensures Constraints(t.(steps := t.steps + [row]))
  {
    hide ConfirmationsUnique, TasksUnique, ProcessesUnique, PathsUnique, EvidenceUnique, LineageUnique, ReferencesUnique, RowCheck;
    KeepsParents(t, t.(steps := t.steps + [row]));
  }

  lemma AppendEvidence(t: Tables, row: EvidenceRow, link: LineageRow)
    requires Constraints(t) && EvidenceFits(t, row) && LineageFits(t, link)
    ensures Constraints(t.(evidence := t.evidence + [row], lineage := t.lineage + [link]))
  {
    hide ConfirmationsUnique, TasksUnique, ProcessesUnique, PathsUnique, StepsUnique, ReferencesUnique, RowCheck;
    KeepsParents(t, t.(evidence := t.evidence + [row], lineage := t.lineage + [link]));
  }

  lemma AppendReference(t: Tables, row: ReferenceRow)
    requires Constraints(t) && ReferenceFits(t, row)
    ensures Constraints(t.(references := t.references + [row]))
  {
    hide ConfirmationsUnique, TasksUnique, ProcessesUnique, PathsUnique, StepsUnique, EvidenceUnique, LineageUnique, RowCheck;
    KeepsParents(t, t.(references := t.references + [row]));
  }

  lemma AppendConfirmation(t: Tables, row: Confirmation)
    requires Constraints(t) && ConfirmationFits(t, row)
    ensures Constraints(t.(confirmations := t.confirmations + [row]))
  {
    hide TasksUnique, ProcessesUnique, PathsUnique, StepsUnique, EvidenceUnique, LineageUnique, ReferencesUnique, RowCheck;
    KeepsParents(t, t.(confirmations := t.confirmations + [row]));
  }

  // ----- what the loops append -----

  ghost predicate StepsAdded(t: Tables, t': Tables, pathId: string, steps: seq<Value>, i: nat, uuid: Uuids)
    requires i <= |steps|
  {
    && t' == t.(steps := t'.steps)
    && |t'.steps| == |t.steps| + (|steps| - i) && t.steps <= t'.steps
    && forall j :: i <= j < |steps| ==>
         MakeStep(steps[j], pathId, j + 1, NewId("step", uuid(3 + j))) == Some(t'.steps[|t.steps| + (j - i)])
  }

  lemma {:induction false} StepsInserted(t: Tables, pathId: string, steps: seq<Value>, i: nat, uuid: Uuids)
    requires i <= |steps| && InsertSteps(t, pathId, steps, i, uuid).Ok?
    ensures StepsAdded(t, InsertSteps(t, pathId, steps, i, uuid).value, pathId, steps, i, uuid)
    ensures Constraints(t) ==> Constraints(InsertSteps(t, pathId, steps, i, uuid).value)
    decreases |steps| - i
  {
    hide MakeStep, Constraints, StepFits;
    if i < |steps| {
      var row := MakeStep(steps[i], pathId, i + 1, NewId("step", uuid(3 + i))).value;
      var t1 := t.(steps := t.steps + [row]);
      StepsInserted(t1, pathId, steps, i + 1, uuid);
      if Constraints(t) { AppendStep(t, row); }
      assert t1.steps[|t.steps|] == row;
    }
  }

  // The evidence rows from offset `at` on are the rows of items[i..], chained.
  ghost predicate EvidenceAdded(t: Tables, t': Tables, taskId: string, processId: string, items: seq<Value>, i: nat,
                                previous: Option<Hash>, first: nat, uuid: Uuids, now: string)
    requires i <= |items|
  {
    && t' == t.(evidence := t'.evidence, lineage := t'.lineage)
    && |t'.evidence| == |t.evidence| + (|items| - i) && t.evidence <= t'.evidence
    && |t'.lineage| == |t.lineage| + (|items| - i) && t.lineage <= t'.lineage
    && forall j :: i <= j < |items| ==>
         EventAt(t', |t.evidence| - i + j, |t.lineage| - i + j, taskId, processId, items[j], j,
                 if j == i then previous else Some(t'.evidence[|t.evidence| - i + j - 1].eventHash), first, uuid, now)
  }

  // The rows at positions e and l are the event and lineage rows of item j.
  ghost predicate EventAt(t: Tables, e: int, l: int, taskId: string, processId: string, item: Value, j: nat,
                          previous: Option<Hash>, first: nat, uuid: Uuids, now: string) {
    && 0 <= e < |t.evidence| && 0 <= l < |t.lineage|
    && MakeRow(taskId, j + 1, item, previous, NewId("event", uuid(first + 2 * j)), now) == Some(t.evidence[e])
    && t.lineage[l] == LineageRow(NewId("lineage", uuid(first + 2 * j + 1)), processId, t.evidence[e].eventId)
  }

  lemma {:induction false} EvidenceInserted(t: Tables, taskId: string, processId: string, items: seq<Value>, i: nat,
                                            previous: Option<Hash>, first: nat, uuid: Uuids, now: string)
    requires i <= |items| && InsertEvidence(t, taskId, processId, items, i, previous, first, uuid, now).Ok?
    ensures EvidenceAdded(t, InsertEvidence(t, taskId, processId, items, i, previous, first, uuid, now).value,
                          taskId, processId, items, i, previous, first, uuid, now)
    decreases |items| - i
  {
    hide MakeRow, EvidenceFits, LineageFits, EvidenceAdded, NewId;
    if i == |items| {
      NoEvidenceAdded(t, taskId, processId, items, previous, first, uuid, now);
    } else {
      var row := MakeRow(taskId, i + 1, items[i], previous, NewId("event", uuid(first + 2 * i)), now).value;
      var link := LineageRow(NewId("lineage", uuid(first + 2 * i + 1)), processId, row.eventId);
      var t1 := t.(evidence := t.evidence + [row], lineage := t.lineage + [link]);
      EvidenceInserted(t1, taskId, processId, items, i + 1, Some(row.eventHash), first, uuid, now);
      EvidencePrepended(t, InsertEvidence(t, taskId, processId, items, i, previous, first, uuid, now).value, row, link,
                        taskId, processId, items, i, previous, first, uuid, now);
    }
  }

  lemma NoEvidenceAdded(t: Tables, taskId: string, processId: string, items: seq<Value>, previous: Option<Hash>, first: nat, uuid: Uuids, now: string)
    ensures EvidenceAdded(t, t, taskId, processId, items, |items|, previous, first, uuid, now)
  {
    hide EventAt;
  }

  lemma EvidencePrepended(t: Tables, t': Tables, row: EvidenceRow, link: LineageRow, taskId: string, processId: string, items: seq<Value>,
                          i: nat, previous: Option<Hash>, first: nat, uuid: Uuids, now: string)
    requires i < |items|
    requires MakeRow(taskId, i + 1, items[i], previous, NewId("event", uuid(first + 2 * i)), now) == Some(row)
    requires link == LineageRow(NewId("lineage", uuid(first + 2 * i + 1)), processId, row.eventId)
    requires EvidenceAdded(t.(evidence := t.evidence + [row], lineage := t.lineage + [link]), t', taskId, processId, items, i + 1,
                           Some(row.eventHash), first, uuid, now)
    ensures EvidenceAdded(t, t', taskId, processId, items, i, previous, first, uuid, now)
  {
    hide MakeRow, NewId;
    var t1 := t.(evidence := t.evidence + [row], lineage := t.lineage + [link]);
    assert t1.evidence[|t.evidence|] == row && t1.lineage[|t.lineage|] == link;
    assert t'.evidence[|t.evidence|] == row && t'.lineage[|t.lineage|] == link;
    assert EventAt(t', |t.evidence|, |t.lineage|, taskId, processId, items[i], i, previous, first, uuid, now);
    hide EventAt;
  }

  lemma {:induction false} EvidenceKeepsConstraints(t: Tables, taskId: string, processId: string, items: seq<Value>, i: nat,
                                                    previous: Option<Hash>, first: nat, uuid: Uuids, now: string)
    requires i <= |items| && InsertEvidence(t, taskId, processId, items, i, previous, first, uuid, now).Ok?
    requires Constraints(t)
    ensures Constraints(InsertEvidence(t, taskId, processId, items, i, previous, first, uuid, now).value)
    decreases |items| - i
  {
    hide MakeRow, Constraints, EvidenceFits, LineageFits;
    if i < |items| {
      var row := MakeRow(taskId, i + 1, items[i], previous, NewId("event", uuid(first + 2 * i)), now).value;
      var link := LineageRow(NewId("lineage", uuid(first + 2 * i + 1)), processId, row.eventId);
      AppendEvidence(t, row, link);
      EvidenceKeepsConstraints(t.(evidence := t.evidence + [row], lineage := t.lineage + [link]),
                               taskId, processId, items, i + 1, Some(row.eventHash), first, uuid, now);
    }
  }

  // The references from position |t.references| on are those of items[i..].
  ghost predicate ReferencesAdded(t: Tables, t': Tables, taskId: string, items: seq<Value>, i: nat, first: nat, uuid: Uuids)
    requires i <= |items|
  {
    && t' == t.(references := t'.references)
    && |t'.references| == |t.references| + (|items| - i) && t.references <= t'.references
    && forall j :: i <= j < |items| ==>
         MakeReference(items[j], taskId, NewId("ref", uuid(first + j))) == Some(t'.references[|t.references| + (j - i)])
  }

  lemma {:induction false} ReferencesInserted(t: Tables, taskId: string, items: seq<Value>, i: nat, first: nat, uuid: Uuids)
    requires i <= |items| && InsertReferences(t, taskId, items, i, first, uuid).Ok?
    ensures ReferencesAdded(t, InsertReferences(t, taskId, items, i, first, uuid).value, taskId, items, i, first, uuid)
    ensures Constraints(t) ==> Constraints(InsertReferences(t, taskId, items, i, first, uuid).value)
    decreases |items| - i
  {
    hide MakeReference, Constraints, ReferenceFits;
    if i < |items| {
      var row := MakeReference(items[i], taskId, NewId("ref", uuid(first + i))).value;
      var t1 := t.(references := t.references + [row]);
      ReferencesInserted(t1, taskId, items, i + 1, first, uuid);
      if Constraints(t) { AppendReference(t, row); }
      assert t1.references[|t.references|] == row;
    }
  }

  // The tables once the task, its process and its path are in.
  function Parents(t: Tables, payload: Value, task: TaskRow, summary: Cell, uuid: Uuids): Tables {
    var processId := NewId("process", uuid(1));
    t.(tasks := t.tasks + [task],
       processes := t.processes + [ProcessRow(processId, task.id, summary, CanonicalText.CanonicalJson(GetOr(payload, "prerequisites", Arr([]))))],
       paths := t.paths + [PathRow(NewId("path", uuid(2)), processId, task.signature, task.adoption)])
  }

  // A fresh insertion adds exactly one task, one process and one path, the
  // steps numbered 1..n in payload order, the evidence chain numbered 1..m, one
  // lineage row per event pointing at the process, and one row per reference.
  ghost predicate FreshAdded(t: Tables, t': Tables, payload: Value, hash: Hash, committedAt: string, mode: Mode,
                             authorization: Value, uuid: Uuids, now: string) {
    var taskId := NewId("task", uuid(0));
    && Steps(payload).Some? && Items(payload).Some? && References(payload).Some?
    && MakeTask(payload, hash, committedAt, mode, authorization, taskId, now).Some?
    && BindText(GetOr(payload, "process_summary", Null)).Some?
    && var task := MakeTask(payload, hash, committedAt, mode, authorization, taskId, now).value;
       var t3 := Parents(t, payload, task, BindText(GetOr(payload, "process_summary", Null)).value, uuid);
       var (n, m) := (|Steps(payload).value|, |Items(payload).value|);
       && TaskFits(t, task) && task.id == taskId
       && StepsAdded(t3, t3.(steps := t'.steps), NewId("path", uuid(2)), Steps(payload).value, 0, uuid)
       && EvidenceAdded(t3.(steps := t'.steps), t'.(references := t.references), taskId, NewId("process", uuid(1)), Items(payload).value, 0,
                        None, 3 + n, uuid, now)
       && ReferencesAdded(t'.(references := t.references), t', taskId, References(payload).value, 0, 3 + n + 2 * m, uuid)
  }

  lemma ChildrenInserted(t3: Tables, taskId: string, processId: string, pathId: string, steps: seq<Value>, items: seq<Value>,
                         references: seq<Value>, uuid: Uuids, now: string)
    requires InsertChildren(t3, taskId, processId, pathId, steps, items, references, uuid, now).Ok?
    ensures var u := InsertChildren(t3, taskId, processId, pathId, steps, items, references, uuid, now).value;
            && u == t3.(steps := u.steps, evidence := u.evidence, lineage := u.lineage, references := u.references)
            && StepsAdded(t3, t3.(steps := u.steps), pathId, steps, 0, uuid)
            && EvidenceAdded(t3.(steps := u.steps), u.(references := t3.references), taskId, processId, items, 0, None, 3 + |steps|, uuid, now)
            && ReferencesAdded(u.(references := t3.references), u, taskId, references, 0, 3 + |steps| + 2 * |items|, uuid)
            && (Constraints(t3) ==> Constraints(u))
  {
    hide Constraints, InsertSteps, InsertEvidence, InsertReferences, StepsAdded, EvidenceAdded, ReferencesAdded;
    var t4 := InsertSteps(t3, pathId, steps, 0, uuid).value;
    StepsInserted(t3, pathId, steps, 0, uuid);
    StepsOnly(t3, t4, pathId, steps, uuid);
    var t5 := InsertEvidence(t4, taskId, processId, items, 0, None, 3 + |steps|, uuid, now).value;
    EvidenceInserted(t4, taskId, processId, items, 0, None, 3 + |steps|, uuid, now);
    EvidenceOnly(t4, t5, taskId, processId, items, 3 + |steps|, uuid, now);
    ReferencesInserted(t5, taskId, references, 0, 3 + |steps| + 2 * |items|, uuid);
    ReferencesOnly(t5, InsertReferences(t5, taskId, references, 0, 3 + |steps| + 2 * |items|, uuid).value, taskId, references,
                   3 + |steps| + 2 * |items|, uuid);
    if Constraints(t3) { EvidenceKeepsConstraints(t4, taskId, processId, items, 0, None, 3 + |steps|, uuid, now); }
  }

  lemma FreshInserted(t: Tables, payload: Value, hash: Hash, committedAt: string, mode: Mode, authorization: Value,
                      uuid: Uuids, now: string)
    requires InsertFresh(t, payload, hash, committedAt, mode, authorization, uuid, now).Ok?
    ensures var ins := InsertFresh(t, payload, hash, committedAt, mode, authorization, uuid, now).value;
            && ins.taskId == NewId("task", uuid(0)) && !ins.duplicate
            && FreshAdded(t, ins.tables, payload, hash, committedAt, mode, authorization, uuid, now)
            && (Constraints(t) ==> Constraints(ins.tables))
  {
    hide MakeTask, Constraints, TaskFits, InsertFresh, InsertChildren, StepsAdded, EvidenceAdded, ReferencesAdded, Steps, Items, References,
         Parents, BindText;
    var taskId := NewId("task", uuid(0));
    FreshIsChildren(t, payload, hash, committedAt, mode, authorization, uuid, now);
    MadeTaskId(payload, hash, committedAt, mode, authorization, taskId, now);
    var task := MakeTask(payload, hash, committedAt, mode, authorization, taskId, now).value;
    var t3 := Parents(t, payload, task, BindText(GetOr(payload, "process_summary", Null)).value, uuid);
    ParentsOnly(t, payload, task, BindText(GetOr(payload, "process_summary", Null)).value, uuid);
    ChildrenInserted(t3, taskId, NewId("process", uuid(1)), NewId("path", uuid(2)), Steps(payload).value, Items(payload).value,
                     References(payload).value, uuid, now);
  }

  // A fresh insertion that succeeds put in the parents and ran the loops.
  lemma FreshIsChildren(t: Tables, payload: Value, hash: Hash, committedAt: string, mode: Mode, authorization: Value, uuid: Uuids, now: string)
    requires InsertFresh(t, payload, hash, committedAt, mode, authorization, uuid, now).Ok?
    ensures Steps(payload).Some? && Items(payload).Some? && References(payload).Some? && BindText(GetOr(payload, "process_summary", Null)).Some?
    ensures MakeTask(payload, hash, committedAt, mode, authorization, NewId("task", uuid(0)), now).Some?
    ensures var task := MakeTask(payload, hash, committedAt, mode, authorization, NewId("task", uuid(0)), now).value;
            var t3 := Parents(t, payload, task, BindText(GetOr(payload, "process_summary", Null)).value, uuid);
            var u := InsertChildren(t3, task.id, NewId("process", uuid(1)), NewId("path", uuid(2)), Steps(payload).value, Items(payload).value,
                                    References(payload).value, uuid, now);
            && TaskFits(t, task) && u.Ok? && (Constraints(t) ==> Constraints(t3))
            && InsertFresh(t, payload, hash, committedAt, mode, authorization, uuid, now).value == Inserted(u.value, task.id, false)
  {
    hide MakeTask, Constraints, TaskFits, ProcessFits, PathFits, InsertChildren, Steps, Items, References,
         BindText, NewId, CanonicalText.CanonicalJson;
    var taskId, processId, pathId := NewId("task", uuid(0)), NewId("process", uuid(1)), NewId("path", uuid(2));
    var task := MakeTask(payload, hash, committedAt, mode, authorization, taskId, now).value;
    MadeTaskId(payload, hash, committedAt, mode, authorization, taskId, now);
    var process := ProcessRow(processId, taskId, BindText(GetOr(payload, "process_summary", Null)).value,
                              CanonicalText.CanonicalJson(GetOr(payload, "prerequisites", Arr([]))));
    var t1 := t.(tasks := t.tasks + [task]);
    var t2 := t1.(processes := t1.processes + [process]);
    if Constraints(t) {
      AppendTask(t, task);
      AppendProcess(t1, process);
      AppendPath(t2, PathRow(pathId, processId, task.signature, task.adoption));
    }
  }

  lemma ParentsOnly(t: Tables, payload: Value, task: TaskRow, summary: Cell, uuid: Uuids)
    ensures var t3 := Parents(t, payload, task, summary, uuid);
            t3.steps == t.steps && t3.evidence == t.evidence && t3.lineage == t.lineage && t3.references == t.references
  {
  }

  lemma MadeTaskId(payload: Value, hash: Hash, committedAt: string, mode: Mode, authorization: Value, id: string, now: string)
    requires MakeTask(payload, hash, committedAt, mode, authorization, id, now).Some?
    ensures MakeTask(payload, hash, committedAt, mode, authorization, id, now).value.id == id
  {
    hide CanonicalText.CanonicalJson, BindText, SignatureOf;
  }

  lemma ReferencesOnly(t: Tables, t': Tables, taskId: string, items: seq<Value>, first: nat, uuid: Uuids)
    requires ReferencesAdded(t, t', taskId, items, 0, first, uuid)
    ensures t' == t.(references := t'.references)
  {
  }

  lemma StepsOnly(t: Tables, t': Tables, pathId: string, steps: seq<Value>, uuid: Uuids)
    requires StepsAdded(t, t', pathId, steps, 0, uuid)
    ensures t' == t.(steps := t'.steps)
  {
  }

  lemma EvidenceOnly(t: Tables, t': Tables, taskId: string, processId: string, items: seq<Value>, first: nat, uuid: Uuids, now: string)
    requires EvidenceAdded(t, t', taskId, processId, items, 0, None, first, uuid, now)
    ensures t' == t.(evidence := t'.evidence, lineage := t'.lineage)
  {
  }
}
