// The transactions of the capture store as functions on its tables. Each one
// either yields the new tables or an error, in which case nothing has changed.
module Transactions {
  import opened Wrappers
  import opened Json
  import opened CanonicalText
  import opened Digests
  import opened Evidence
  import opened Labels
  import opened Schema

  // The uuid4 values one call draws, in order.
  type Uuids = nat -> string

  function NewId(prefix: string, uuid: string): string {
    prefix + "_" + uuid
  }

  // ----- rows built from a payload; None where Python raises -----

  // What a for loop over the value visits.
  function Elements(v: Value): Option<seq<Value>> {
    match v
    case Arr(xs) => Some(xs)
    case Obj(fs) => Some(seq(|fs|, i requires 0 <= i < |fs| => Str(fs[i].key)))
    case Str(s) => Some(seq(|s|, i requires 0 <= i < |s| => Str([s[i]])))
    case HexStr(_) => Some([Str("<digest>")])
    case _ => None
  }

  function Items(payload: Value): Option<seq<Value>> {
    Elements(GetOr(payload, "evidence", Arr([])))
  }

  function Steps(payload: Value): Option<seq<Value>> {
    match Get(payload, "steps")
    case Some(v) => Elements(v)
    case None => None
  }

  function References(payload: Value): Option<seq<Value>> {
    Elements(GetOr(payload, "external_references", Arr([])))
  }

  function Bind(v: Option<Value>): Option<Cell> {
    match v case Some(x) => BindNotNull(x) case None => None
  }

  function ContextRefHash(business: Value): Option<Hash> {
    var ref := GetOr(business, "ref", Null);
    if Truthy(ref) then Some(Digest(Str(PyStr(ref)))) else None
  }

  // One mark per step; where a key is missing, the step's own row fails too.
  function MarkOf(step: Value): Mark {
    Mark(PyStr(GetOr(step, "actor", Null)), PyStr(GetOr(step, "event_type", Null)),
         Digest(Str(NormalizeLabel(PyStr(GetOr(step, "summary", Null))))))
  }

  function Marks(steps: seq<Value>): (r: seq<Mark>)
    ensures |r| == |steps| && forall i :: 0 <= i < |steps| ==> r[i] == MarkOf(steps[i])
  {
    seq(|steps|, i requires 0 <= i < |steps| => MarkOf(steps[i]))
  }

  function SignatureOf(payload: Value): PathText {
    match Steps(payload) case Some(xs) => Marked(Marks(xs)) case None => Marked([])
  }

  function MakeTask(payload: Value, hash: Hash, committedAt: string, mode: Mode, authorization: Value,
                    id: string, now: string): Option<TaskRow> {
    var result := GetOr(payload, "final_result", Null);
    var business := OrEmpty(GetOr(payload, "business_context", Null));
    if !result.Obj? || !business.Obj? then None
    else
      match (Bind(Get(payload, "task_type")), Bind(Get(payload, "task_goal")), Bind(Get(result, "adoption_status")),
             BindText(GetOr(payload, SESSION, Null)), BindText(GetOr(payload, "started_at", Null)),
             BindText(GetOr(payload, "completed_at", Null)))
      case (Some(kind), Some(goal), Some(adoption), Some(session), Some(startedAt), Some(completedAt)) =>
        Some(TaskRow(id, SCHEMA_VERSION, kind, goal, adoption, CanonicalJson(result), CanonicalJson(payload), hash,
                     now, committedAt, CanonicalJson(GetOr(payload, "harness_metadata", Obj([]))),
                     session, mode, PERSISTED, startedAt, completedAt, ContextRefHash(business),
                     CanonicalJson(business), CanonicalJson(OrEmpty(GetOr(payload, "ai_context", Null))),
                     CanonicalJson(OrEmpty(authorization)), NormalizeLabel(PyStr(GetOr(payload, "task_type", Null))), SignatureOf(payload)))
      case _ => None
  }

  function MakeStep(step: Value, pathId: string, ordinal: int, id: string): Option<StepRow> {
    match (Bind(Get(step, "actor")), Bind(Get(step, "event_type")), Bind(Get(step, "summary")),
           Bind(Get(step, "provenance")), BindText(GetOr(step, "occurred_at", Null)),
           BindNumber(GetOr(step, "confidence", Null)), BindNumber(GetOr(step, "duration_ms", Null)))
    case (Some(actor), Some(eventType), Some(summary), Some(provenance), Some(occurredAt), Some(confidence), Some(duration)) =>
      Some(StepRow(id, pathId, ordinal, actor, eventType, summary, provenance, confidence,
                   CanonicalJson(GetOr(step, "metadata", Obj([]))), occurredAt, duration,
                   CanonicalJson(OrEmpty(GetOr(step, "capability", Null))),
                   CanonicalJson(OrEmpty(GetOr(step, "intervention", Null)))))
    case _ => None
  }

  function MakeReference(item: Value, taskId: string, id: string): Option<ReferenceRow> {
    match (Bind(Get(item, "namespace")), Get(item, "external_id"), BindNotNull(GetOr(item, "relation", Str("context"))))
    case (Some(namespace), Some(external), Some(relation)) =>
      Some(ReferenceRow(id, taskId, namespace, Digest(Str(PyStr(external))), relation, CanonicalJson(GetOr(item, "metadata", Obj([])))))
    case _ => None
  }

  // ----- the insertion loops, from position i on -----

  function InsertSteps(t: Tables, pathId: string, steps: seq<Value>, i: nat, uuid: Uuids): Outcome<Tables>
    requires i <= |steps|
    decreases |steps| - i
  {
    if i == |steps| then Ok(t)
    else match MakeStep(steps[i], pathId, i + 1, NewId("step", uuid(3 + i)))
      case None => Err(Raised)
      case Some(row) =>
        if !StepFits(t, row) then Err(Raised)
        else InsertSteps(t.(steps := t.steps + [row]), pathId, steps, i + 1, uuid)
  }

  // Event i draws the uuids first + 2i and first + 2i + 1.
  function InsertEvidence(t: Tables, taskId: string, processId: string, items: seq<Value>, i: nat,
                          previous: Option<Hash>, first: nat, uuid: Uuids, now: string): Outcome<Tables>
    requires i <= |items|
    decreases |items| - i
  {
    if i == |items| then Ok(t)
    else match MakeRow(taskId, i + 1, items[i], previous, NewId("event", uuid(first + 2 * i)), now)
      case None => Err(Raised)
      case Some(row) =>
        var link := LineageRow(NewId("lineage", uuid(first + 2 * i + 1)), processId, row.eventId);
        if !EvidenceFits(t, row) || !LineageFits(t, link) then Err(Raised)
        else InsertEvidence(t.(evidence := t.evidence + [row], lineage := t.lineage + [link]),
                            taskId, processId, items, i + 1, Some(row.eventHash), first, uuid, now)
  }

  function InsertReferences(t: Tables, taskId: string, items: seq<Value>, i: nat, first: nat, uuid: Uuids): Outcome<Tables>
    requires i <= |items|
    decreases |items| - i
  {
    if i == |items| then Ok(t)
    else match MakeReference(items[i], taskId, NewId("ref", uuid(first + i)))
      case None => Err(Raised)
      case Some(row) =>
        if !ReferenceFits(t, row) then Err(Raised)
        else InsertReferences(t.(references := t.references + [row]), taskId, items, i + 1, first, uuid)
  }

  datatype Inserted = Inserted(tables: Tables, taskId: string, duplicate: bool)

  // The three loops, one after the other.
  function InsertChildren(t: Tables, taskId: string, processId: string, pathId: string, steps: seq<Value>, items: seq<Value>,
                          references: seq<Value>, uuid: Uuids, now: string): Outcome<Tables> {
    match InsertSteps(t, pathId, steps, 0, uuid)
    case Err(e) => Err(e)
    case Ok(t1) =>
      match InsertEvidence(t1, taskId, processId, items, 0, None, 3 + |steps|, uuid, now)
      case Err(e) => Err(e)
      case Ok(t2) => InsertReferences(t2, taskId, references, 0, 3 + |steps| + 2 * |items|, uuid)
  }

  // One task, its process and its path, then the three loops.
  function InsertFresh(t: Tables, payload: Value, hash: Hash, committedAt: string, mode: Mode, authorization: Value,
                       uuid: Uuids, now: string): Outcome<Inserted> {
    var taskId, processId, pathId := NewId("task", uuid(0)), NewId("process", uuid(1)), NewId("path", uuid(2));
    match (MakeTask(payload, hash, committedAt, mode, authorization, taskId, now), Steps(payload), Items(payload),
           References(payload), BindText(GetOr(payload, "process_summary", Null)))
    case (Some(task), Some(steps), Some(items), Some(references), Some(summary)) =>
      if !TaskFits(t, task) then Err(Raised)
      else
        var t1 := t.(tasks := t.tasks + [task]);
        var process := ProcessRow(processId, taskId, summary, CanonicalJson(GetOr(payload, "prerequisites", Arr([]))));
        if !ProcessFits(t1, process) then Err(Raised)
        else
          var t2 := t1.(processes := t1.processes + [process]);
          var path := PathRow(pathId, processId, task.signature, task.adoption);
          if !PathFits(t2, path) then Err(Raised)
          else
            var t3 := t2.(paths := t2.paths + [path]);
            (match InsertChildren(t3, taskId, processId, pathId, steps, items, references, uuid, now)
             case Err(e) => Err(e)
             case Ok(t4) => Ok(Inserted(t4, taskId, false)))
    case _ => Err(Raised)
  }

  // Two-key idempotent insertion: the session first, then the content.
  function InsertTask(t: Tables, payload: Value, hash: Hash, committedAt: string, mode: Mode, authorization: Value,
                      uuid: Uuids, now: string): Outcome<Inserted> {
    if !payload.Obj? then Err(Raised)
    else
      var session := GetOr(payload, SESSION, Null);
      if Truthy(session) && BindText(session).None? then Err(Raised)
      else
        var s := if Truthy(session) then FindSession(t.tasks, BindText(session).value) else |t.tasks|;
        if s < |t.tasks| then
          if t.tasks[s].payloadHash != hash then Err(SessionConflict) else Ok(Inserted(t, t.tasks[s].id, true))
        else
          var h := FindHash(t.tasks, hash);
          if h < |t.tasks| then Ok(Inserted(t, t.tasks[h].id, true))
          else InsertFresh(t, payload, hash, committedAt, mode, authorization, uuid, now)
  }

  // ----- the four writing transactions -----

  function NewConfirmation(payload: Value, uuid: Uuids, now: string): Confirmation {
    Confirmation(NewId("confirm", uuid(0)), None, CanonicalJson(payload), PayloadDigest(payload), now,
                 None, None, None, None, Prepared, None)
  }

  function CreateConfirmation(t: Tables, payload: Value, uuid: Uuids, now: string): Outcome<Tables> {
    var row := NewConfirmation(payload, uuid, now);
    if ConfirmationFits(t, row) then Ok(t.(confirmations := t.confirmations + [row])) else Err(Raised)
  }

  predicate Given(s: Option<string>) {
    s.Some? && s.value != ""
  }

  function ConfirmedRow(c: Confirmation, how: string, identity: Option<string>, source: Option<string>, now: string): Confirmation {
    c.(status := Confirmed, confirmedAt := Some(now), how := Some(how), identity := identity, source := source)
  }

  function ConfirmConfirmation(t: Tables, id: string, expected: Hash, how: string, identity: Option<string>,
                               source: Option<string>, now: string): Outcome<Tables> {
    var i := FindConfirmation(t.confirmations, id);
    if Blank(how) || Given(identity) != Given(source) then Err(ConfirmationError)
    else if i == |t.confirmations| || t.confirmations[i].status != Prepared || t.confirmations[i].payloadHash != expected then
      Err(ConfirmationError)
    else
      var row := ConfirmedRow(t.confirmations[i], how, identity, source, now);
      if RowCheck(row) then Ok(t.(confirmations := t.confirmations[i := row])) else Err(Raised)
  }

  predicate Consumable(rows: seq<Confirmation>, i: nat, expected: Hash) {
    i < |rows| && rows[i].status == Confirmed && rows[i].consumedAt.None? && rows[i].payloadHash == expected
  }

  function ConsumedRow(c: Confirmation, taskId: string, now: string): Confirmation {
    c.(status := Consumed, consumedAt := Some(now), taskId := Some(taskId))
  }

  predicate TaskUnclaimed(rows: seq<Confirmation>, taskId: string) {
    forall i :: 0 <= i < |rows| ==> rows[i].taskId != Some(taskId)
  }

  function PersistConfirmed(t: Tables, id: string, expected: Hash, uuid: Uuids, now: string): Outcome<Inserted> {
    var i := FindConfirmation(t.confirmations, id);
    if !Consumable(t.confirmations, i, expected) then Err(ConfirmationError)
    else
      var row := t.confirmations[i];
      if row.confirmedAt.None? then Err(Raised)
      else match Loads(row.payloadJson)
        case None => Err(Raised)
        case Some(payload) =>
          match InsertTask(t, payload, row.payloadHash, row.confirmedAt.value, Personal, Null, uuid, now)
          case Err(e) => Err(e)
          case Ok(ins) =>
            if !TaskUnclaimed(t.confirmations, ins.taskId) then Err(UniqueViolation)
            else if !RowCheck(ConsumedRow(row, ins.taskId, now)) then Err(Raised)
            else Ok(ins.(tables := ins.tables.(confirmations := t.confirmations[i := ConsumedRow(row, ins.taskId, now)])))
  }

  function PersistAuthorized(t: Tables, payload: Value, authorization: Value, uuid: Uuids, now: string): Outcome<Inserted> {
    InsertTask(t, payload, PayloadDigest(payload), now, Enterprise, authorization, uuid, now)
  }
}
