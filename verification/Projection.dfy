// The stepwise tables read back as the payload: in every store reached from a
// new database, a task's columns, its one process and one path, its steps joined
// through them, its lineage and its references show exactly what its payload holds.
module Projection {
  import opened Wrappers
  import opened Json
  import opened Canonical
  import opened CanonicalText
  import opened Digests
  import opened Evidence
  import opened Labels
  import opened Selection
  import opened Schema
  import opened Transactions
  import opened Insertion
  import opened Invariant
  import opened Preservation
  import opened Freshness
  import opened Migration
  import opened Operations
  import opened Runs

  // ----- the joins -----

  ghost function Where<T>(rows: seq<T>, keep: T -> bool): seq<T> {
    if rows == [] then []
    else Where(rows[..|rows| - 1], keep) + if keep(rows[|rows| - 1]) then [rows[|rows| - 1]] else []
  }

  ghost predicate OfProcess(processes: seq<ProcessRow>, processId: string, taskId: string) {
    exists q :: 0 <= q < |processes| && processes[q].id == processId && processes[q].taskId == taskId
  }

  ghost predicate OfPath(processes: seq<ProcessRow>, paths: seq<PathRow>, pathId: string, taskId: string) {
    exists p :: 0 <= p < |paths| && paths[p].id == pathId && OfProcess(processes, paths[p].processId, taskId)
  }

  // FROM steps JOIN paths JOIN processes WHERE task_id = ?
  ghost function StepsOf(processes: seq<ProcessRow>, paths: seq<PathRow>, steps: seq<StepRow>, taskId: string): seq<StepRow> {
    Where(steps, (row: StepRow) => OfPath(processes, paths, row.pathId, taskId))
  }

  // FROM lineage JOIN processes WHERE task_id = ?
  ghost function LinksOf(processes: seq<ProcessRow>, lineage: seq<LineageRow>, taskId: string): seq<LineageRow> {
    Where(lineage, (row: LineageRow) => OfProcess(processes, row.derivedId, taskId))
  }

  ghost function ProcessesOf(processes: seq<ProcessRow>, taskId: string): seq<ProcessRow> {
    Where(processes, (row: ProcessRow) => row.taskId == taskId)
  }

  ghost function PathsOf(processes: seq<ProcessRow>, paths: seq<PathRow>, taskId: string): seq<PathRow> {
    Where(paths, (row: PathRow) => OfProcess(processes, row.processId, taskId))
  }

  ghost function ReferencesOf(references: seq<ReferenceRow>, taskId: string): seq<ReferenceRow> {
    Where(references, (row: ReferenceRow) => row.taskId == taskId)
  }

  lemma {:induction false} WhereAppend<T>(a: seq<T>, b: seq<T>, keep: T -> bool)
    ensures Where(a + b, keep) == Where(a, keep) + Where(b, keep)
    decreases |b|
  {
    if b == [] {
      assert a + b == a;
    } else {
      var n := |b| - 1;
      WhereAppend(a, b[..n], keep);
      assert (a + b)[..|a + b| - 1] == a + b[..n];
    }
  }

  lemma {:induction false} WhereSame<T>(rows: seq<T>, f: T -> bool, g: T -> bool)
    requires forall i :: 0 <= i < |rows| ==> f(rows[i]) == g(rows[i])
    ensures Where(rows, f) == Where(rows, g)
  {
    if rows != [] { WhereSame(rows[..|rows| - 1], f, g); }
  }

  lemma {:induction false} WhereAll<T>(rows: seq<T>, keep: T -> bool)
    requires forall i :: 0 <= i < |rows| ==> keep(rows[i])
    ensures Where(rows, keep) == rows
  {
    if rows != [] {
      WhereAll(rows[..|rows| - 1], keep);
      assert rows == rows[..|rows| - 1] + [rows[|rows| - 1]];
    }
  }

  lemma {:induction false} WhereNone<T>(rows: seq<T>, keep: T -> bool)
    requires forall i :: 0 <= i < |rows| ==> !keep(rows[i])
    ensures Where(rows, keep) == []
  {
    if rows != [] { WhereNone(rows[..|rows| - 1], keep); }
  }

  // ----- what the columns show -----

  // A string or null is stored as it is, a number or boolean as its text.
  ghost predicate Shows(cell: Cell, v: Value) {
    match v
    case Int(n) => cell == Str(IntText(n))
    case Float(r) => cell == Str(r)
    case Bool(b) => cell == Str(if b then "1" else "0")
    case Arr(_) => true
    case Obj(_) => true
    case _ => cell == v
  }

  // A number, a string or null is bound as it is, a boolean as 1 or 0.
  ghost predicate ShowsNumber(cell: Value, v: Value) {
    match v
    case Bool(b) => cell == Int(if b then 1 else 0)
    case Arr(_) => true
    case Obj(_) => true
    case _ => cell == v
  }

  ghost predicate ShowsJson(json: Text, v: Value) {
    Loads(json) == Some(Canon(v))
  }

  ghost predicate StepShows(row: StepRow, step: Value) {
    && Shows(row.actor, GetOr(step, "actor", Null)) && Shows(row.eventType, GetOr(step, "event_type", Null))
    && Shows(row.summary, GetOr(step, "summary", Null)) && Shows(row.provenance, GetOr(step, "provenance", Null))
    && Shows(row.occurredAt, GetOr(step, "occurred_at", Null))
    && ShowsNumber(row.confidence, GetOr(step, "confidence", Null)) && ShowsNumber(row.duration, GetOr(step, "duration_ms", Null))
    && ShowsJson(row.metadataJson, GetOr(step, "metadata", Obj([])))
    && ShowsJson(row.capabilityJson, OrEmpty(GetOr(step, "capability", Null)))
    && ShowsJson(row.interventionJson, OrEmpty(GetOr(step, "intervention", Null)))
  }

  ghost predicate StepsShow(rows: seq<StepRow>, steps: seq<Value>) {
    |rows| == |steps| && forall i :: 0 <= i < |rows| ==> rows[i].ordinal == i + 1 && StepShows(rows[i], steps[i])
  }

  ghost predicate TaskShows(row: TaskRow, p: Value) {
    && Shows(row.taskType, GetOr(p, "task_type", Null)) && Shows(row.taskGoal, GetOr(p, "task_goal", Null))
    && Shows(row.adoption, GetOr(GetOr(p, "final_result", Null), "adoption_status", Null))
    && Shows(row.session, GetOr(p, SESSION, Null))
    && Shows(row.startedAt, GetOr(p, "started_at", Null)) && Shows(row.completedAt, GetOr(p, "completed_at", Null))
    && ShowsJson(row.resultJson, GetOr(p, "final_result", Null)) && ShowsJson(row.payloadJson, p)
    && ShowsJson(row.harnessJson, GetOr(p, "harness_metadata", Obj([])))
    && ShowsJson(row.businessJson, OrEmpty(GetOr(p, "business_context", Null)))
    && ShowsJson(row.aiJson, OrEmpty(GetOr(p, "ai_context", Null)))
    && (Steps(p).Some? ==> row.signature == Marked(Marks(Steps(p).value)))
    && row.typeLabel == NormalizeLabel(PyStr(GetOr(p, "task_type", Null)))
    && row.schemaVersion == SCHEMA_VERSION && row.captureStatus == PERSISTED && RefShows(row.contextRefHash, p)
  }

  // The digest of the business reference, where there is one.
  ghost predicate RefShows(digest: Option<Hash>, p: Value) {
    var ref := GetOr(OrEmpty(GetOr(p, "business_context", Null)), "ref", Null);
    if Truthy(ref) then digest == Some(Digest(Str(PyStr(ref)))) else digest == None
  }

  // The one process and the one path.
  ghost predicate ParentsShow(processes: seq<ProcessRow>, paths: seq<PathRow>, task: TaskRow, p: Value) {
    && |processes| == 1 && Shows(processes[0].summary, GetOr(p, "process_summary", Null))
    && ShowsJson(processes[0].prerequisitesJson, GetOr(p, "prerequisites", Arr([])))
    && |paths| == 1 && paths[0].outcome == task.adoption && paths[0].signature == task.signature
  }

  ghost predicate ReferenceShows(row: ReferenceRow, item: Value) {
    && Shows(row.namespace, GetOr(item, "namespace", Null)) && Shows(row.relation, GetOr(item, "relation", Str("context")))
    && row.externalIdHash == Digest(Str(PyStr(GetOr(item, "external_id", Null))))
    && ShowsJson(row.metadataJson, GetOr(item, "metadata", Obj([])))
  }

  ghost predicate ReferencesShow(rows: seq<ReferenceRow>, items: seq<Value>) {
    |rows| == |items| && forall i :: 0 <= i < |rows| ==> ReferenceShows(rows[i], items[i])
  }

  // An internal event names SHA-256 and nothing outside; an external one shows
  // what the item says of it, the digest in lower case.
  ghost predicate EventShows(row: EvidenceRow, item: Value) {
    && Shows(row.evidenceType, ItemType(item)) && Shows(row.sourceRef, ItemSource(item))
    && Shows(row.excerpt, ItemExcerpt(item)) && Shows(row.provenance, ItemProvenance(item))
    && if Truthy(ItemExcerpt(item)) then
         row.kind == "internal" && row.algorithm == Str("sha256") && row.externalDigest == Null && row.state == Str("internally_verified")
       else
         && row.kind == "external_reference"
         && Shows(row.algorithm, GetOr(item, "hash_algorithm", Null)) && Shows(row.state, GetOr(item, "verification_state", Null))
         && DigestShows(row.externalDigest, GetOr(item, "external_digest", Null))
  }

  ghost predicate DigestShows(cell: Cell, v: Value) {
    (v.HexStr? ==> cell == v) && (v.Str? ==> cell == Str(Lower(v.s)))
  }

  // Numbered from 1 and written at one moment.
  ghost predicate EventsShow(rows: seq<EvidenceRow>, items: seq<Value>, at: string) {
    |rows| == |items| && forall i :: 0 <= i < |rows| ==> rows[i].ordinal == i + 1 && rows[i].createdAt == at && EventShows(rows[i], items[i])
  }

  lemma BoundShows(v: Value)
    ensures BindText(v).Some? ==> Shows(BindText(v).value, v)
    ensures BindNotNull(v).Some? ==> Shows(BindNotNull(v).value, v)
    ensures BindNumber(v).Some? ==> ShowsNumber(BindNumber(v).value, v)
  {
  }

  lemma FieldShows(v: Value, k: string)
    ensures Bind(Get(v, k)).Some? ==> Shows(Bind(Get(v, k)).value, GetOr(v, k, Null))
  {
    hide Get, BindNotNull, Shows;
    if Get(v, k).Some? { BoundShows(Get(v, k).value); }
  }

  lemma FieldParsed(v: Value, k: string)
    requires WellFormed(v)
    ensures WellFormed(GetOr(v, k, Null)) && WellFormed(GetOr(v, k, Obj([]))) && WellFormed(OrEmpty(GetOr(v, k, Null)))
    ensures ShowsJson(CanonicalJson(GetOr(v, k, Null)), GetOr(v, k, Null))
    ensures ShowsJson(CanonicalJson(GetOr(v, k, Obj([]))), GetOr(v, k, Obj([])))
    ensures ShowsJson(CanonicalJson(OrEmpty(GetOr(v, k, Null))), OrEmpty(GetOr(v, k, Null)))
  {
    hide Loads, CanonicalJson, Canon;
    GetWellFormed(v, k);
    LoadsCanonicalJson(GetOr(v, k, Null));
    LoadsCanonicalJson(GetOr(v, k, Obj([])));
    LoadsCanonicalJson(OrEmpty(GetOr(v, k, Null)));
  }

  lemma MadeStepShows(step: Value, pathId: string, ordinal: int, id: string)
    requires WellFormed(step) && MakeStep(step, pathId, ordinal, id).Some?
    ensures var row := MakeStep(step, pathId, ordinal, id).value; row.pathId == pathId && row.ordinal == ordinal && StepShows(row, step)
  {
    hide Get, GetOr, Bind, BindText, BindNumber, CanonicalJson, Shows, ShowsNumber, ShowsJson, WellFormed, OrEmpty;
    BoundShows(GetOr(step, "confidence", Null));
    BoundShows(GetOr(step, "duration_ms", Null));
    FieldShows(step, "actor");
    FieldShows(step, "event_type");
    FieldShows(step, "summary");
    FieldShows(step, "provenance");
    BoundShows(GetOr(step, "occurred_at", Null));
    FieldParsed(step, "metadata");
    FieldParsed(step, "capability");
    FieldParsed(step, "intervention");
  }

  lemma MadeTaskShows(p: Value, hash: Hash, committedAt: string, mode: Mode, authorization: Value, id: string, now: string)
    requires WellFormed(p) && MakeTask(p, hash, committedAt, mode, authorization, id, now).Some?
    ensures TaskShows(MakeTask(p, hash, committedAt, mode, authorization, id, now).value, p)
  {
    hide Get, GetOr, Bind, BindText, CanonicalJson, Shows, ShowsJson, WellFormed, OrEmpty, NormalizeLabel, Steps, Marks, Digest, PyStr;
    FieldShows(p, "task_type");
    FieldShows(p, "task_goal");
    FieldShows(GetOr(p, "final_result", Null), "adoption_status");
    BoundShows(GetOr(p, SESSION, Null));
    BoundShows(GetOr(p, "started_at", Null));
    BoundShows(GetOr(p, "completed_at", Null));
    FieldParsed(p, "final_result");
    FieldParsed(p, "harness_metadata");
    FieldParsed(p, "business_context");
    FieldParsed(p, "ai_context");
    PayloadShown(p);
  }

  lemma MadeReferenceShows(item: Value, taskId: string, id: string)
    requires WellFormed(item) && MakeReference(item, taskId, id).Some?
    ensures MakeReference(item, taskId, id).value.taskId == taskId && ReferenceShows(MakeReference(item, taskId, id).value, item)
  {
    hide Get, Bind, BindNotNull, CanonicalJson, Shows, ShowsJson, WellFormed, Digest, PyStr;
    FieldShows(item, "namespace");
    BoundShows(GetOr(item, "relation", Str("context")));
    FieldParsed(item, "metadata");
  }

  lemma MadeEventShows(taskId: string, ordinal: int, item: Value, previous: Option<Hash>, eventId: string, now: string)
    requires MakeRow(taskId, ordinal, item, previous, eventId, now).Some?
    ensures var row := MakeRow(taskId, ordinal, item, previous, eventId, now).value;
            row.ordinal == ordinal && row.createdAt == now && EventShows(row, item) && item.Obj?
  {
    hide Digest, Evidence.Record, EventHash, Get, Shows, BindText;
    BoundShows(ItemType(item));
    BoundShows(ItemSource(item));
    BoundShows(ItemExcerpt(item));
    BoundShows(ItemProvenance(item));
    BoundShows(GetOr(item, "hash_algorithm", Null));
    BoundShows(GetOr(item, "verification_state", Null));
    BoundShows(Str("sha256"));
    BoundShows(Str("internally_verified"));
    TextShows();
  }

  lemma TextShows()
    ensures forall cell, s :: Shows(cell, Str(s)) ==> cell == Str(s)
  {
  }

  lemma PayloadShown(p: Value)
    requires WellFormed(p)
    ensures ShowsJson(CanonicalJson(p), p)
  {
    hide Loads, CanonicalJson, Canon;
    LoadsCanonicalJson(p);
  }

  // ----- sorting the payload's keys changes nothing that is shown -----

  lemma ShowsCanon(cell: Cell, v: Value)
    requires Shows(cell, v)
    ensures Shows(cell, Canon(v))
  {
  }

  lemma ShowsJsonCanon(json: Text, v: Value)
    requires ShowsJson(json, v) && WellFormed(v)
    ensures ShowsJson(json, Canon(v))
  {
    hide Loads, Canon;
    CanonIdempotent(v);
  }

  lemma FieldCanon(v: Value, k: string)
    requires WellFormed(v) && v.Obj?
    ensures GetOr(Canon(v), k, Null) == Canon(GetOr(v, k, Null)) && GetOr(Canon(v), k, Obj([])) == Canon(GetOr(v, k, Obj([])))
    ensures OrEmpty(GetOr(Canon(v), k, Null)) == Canon(OrEmpty(GetOr(v, k, Null)))
  {
    hide Canon;
    CanonNull();
    CanonGetOr(v, k, Null);
    CanonGetOr(v, k, Obj([]));
    CanonScalar(GetOr(v, k, Null));
  }

  lemma PyStrCanon(v: Value)
    ensures PyStr(Canon(v)) == PyStr(v)
  {
  }

  lemma NumberCanon(cell: Value, v: Value, k: string)
    requires WellFormed(v) && v.Obj? && ShowsNumber(cell, GetOr(v, k, Null))
    ensures ShowsNumber(cell, GetOr(Canon(v), k, Null))
  {
    hide Canon, GetOr;
    FieldCanon(v, k);
    NumberSorted(GetOr(v, k, Null));
  }

  lemma NumberSorted(v: Value)
    ensures !v.Arr? && !v.Obj? ==> Canon(v) == v
    ensures Canon(v).Arr? == v.Arr? && Canon(v).Obj? == v.Obj?
  {
  }

  lemma MarkCanon(step: Value)
    requires WellFormed(step) && step.Obj?
    ensures MarkOf(Canon(step)) == MarkOf(step)
  {
    hide Canon, GetOr, PyStr, NormalizeLabel, Digest;
    FieldCanon(step, "actor");
    FieldCanon(step, "event_type");
    FieldCanon(step, "summary");
    PyStrCanon(GetOr(step, "actor", Null));
    PyStrCanon(GetOr(step, "event_type", Null));
    PyStrCanon(GetOr(step, "summary", Null));
  }

  lemma ReferenceShowsCanon(row: ReferenceRow, item: Value)
    requires WellFormed(item) && item.Obj? && ReferenceShows(row, item)
    ensures ReferenceShows(row, Canon(item))
  {
    hide Canon, Shows, ShowsJson, GetOr, PyStr, WellFormed, Digest;
    CellCanon(row.namespace, item, "namespace");
    RelationCanon(item);
    ShowsCanon(row.relation, GetOr(item, "relation", Str("context")));
    FieldCanon(item, "external_id");
    PyStrCanon(GetOr(item, "external_id", Null));
    JsonCanon(row.metadataJson, item, "metadata");
  }

  lemma RelationCanon(item: Value)
    requires WellFormed(item) && item.Obj?
    ensures GetOr(Canon(item), "relation", Str("context")) == Canon(GetOr(item, "relation", Str("context")))
  {
    assert Canon(Str("context")) == Str("context");
    hide Canon;
    CanonGetOr(item, "relation", Str("context"));
  }

  lemma CellCanon(cell: Cell, v: Value, k: string)
    requires WellFormed(v) && v.Obj? && Shows(cell, GetOr(v, k, Null))
    ensures Shows(cell, GetOr(Canon(v), k, Null))
  {
    hide Canon, Shows, GetOr;
    FieldCanon(v, k);
    ShowsCanon(cell, GetOr(v, k, Null));
  }

  lemma JsonCanon(json: Text, v: Value, k: string)
    requires WellFormed(v) && v.Obj?
    ensures ShowsJson(json, GetOr(v, k, Null)) ==> ShowsJson(json, GetOr(Canon(v), k, Null))
    ensures ShowsJson(json, GetOr(v, k, Obj([]))) ==> ShowsJson(json, GetOr(Canon(v), k, Obj([])))
    ensures ShowsJson(json, OrEmpty(GetOr(v, k, Null))) ==> ShowsJson(json, OrEmpty(GetOr(Canon(v), k, Null)))
  {
    hide Canon, ShowsJson, GetOr, OrEmpty;
    FieldCanon(v, k);
    FieldParsed(v, k);
    if ShowsJson(json, GetOr(v, k, Null)) { ShowsJsonCanon(json, GetOr(v, k, Null)); }
    if ShowsJson(json, GetOr(v, k, Obj([]))) { ShowsJsonCanon(json, GetOr(v, k, Obj([]))); }
    if ShowsJson(json, OrEmpty(GetOr(v, k, Null))) { ShowsJsonCanon(json, OrEmpty(GetOr(v, k, Null))); }
  }

  lemma StepShowsCanon(row: StepRow, step: Value)
    requires WellFormed(step) && step.Obj? && StepShows(row, step)
    ensures StepShows(row, Canon(step))
  {
    hide Canon, Shows, ShowsNumber, ShowsJson, GetOr, OrEmpty, WellFormed;
    NumberCanon(row.confidence, step, "confidence");
    NumberCanon(row.duration, step, "duration_ms");
    CellCanon(row.actor, step, "actor");
    CellCanon(row.eventType, step, "event_type");
    CellCanon(row.summary, step, "summary");
    CellCanon(row.provenance, step, "provenance");
    CellCanon(row.occurredAt, step, "occurred_at");
    JsonCanon(row.metadataJson, step, "metadata");
    JsonCanon(row.capabilityJson, step, "capability");
    JsonCanon(row.interventionJson, step, "intervention");
  }

  lemma TaskShowsCanon(row: TaskRow, p: Value)
    requires WellFormed(p) && p.Obj? && GetOr(p, "final_result", Null).Obj? && TaskShows(row, p)
    requires Steps(p).Some? && forall i :: 0 <= i < |Steps(p).value| ==> Steps(p).value[i].Obj?
    ensures TaskShows(row, Canon(p))
  {
    hide Canon, Shows, ShowsJson, GetOr, OrEmpty, WellFormed, NormalizeLabel, Steps, Marks;
    MarksCanon(p);
    CellCanon(row.taskType, p, "task_type");
    CellCanon(row.taskGoal, p, "task_goal");
    CellCanon(row.session, p, SESSION);
    CellCanon(row.startedAt, p, "started_at");
    CellCanon(row.completedAt, p, "completed_at");
    FieldParsed(p, "final_result");
    CellCanon(row.adoption, GetOr(p, "final_result", Null), "adoption_status");
    FieldCanon(p, "final_result");
    JsonCanon(row.resultJson, p, "final_result");
    JsonCanon(row.harnessJson, p, "harness_metadata");
    JsonCanon(row.businessJson, p, "business_context");
    JsonCanon(row.aiJson, p, "ai_context");
    ShowsJsonCanon(row.payloadJson, p);
    FieldCanon(p, "task_type");
    PyStrCanon(GetOr(p, "task_type", Null));
    RefCanon(row.contextRefHash, p);
  }

  lemma RefCanon(digest: Option<Hash>, p: Value)
    requires WellFormed(p) && p.Obj? && RefShows(digest, p)
    ensures RefShows(digest, Canon(p))
  {
    hide Canon, GetOr, OrEmpty, WellFormed, PyStr, Digest, Truthy;
    var business := OrEmpty(GetOr(p, "business_context", Null));
    FieldCanon(p, "business_context");
    FieldParsed(p, "business_context");
    RefRead(business);
    TruthyCanon(GetOr(business, "ref", Null));
    PyStrCanon(GetOr(business, "ref", Null));
  }

  lemma RefRead(business: Value)
    requires WellFormed(business)
    ensures GetOr(Canon(business), "ref", Null) == Canon(GetOr(business, "ref", Null))
  {
    if business.Obj? { FieldCanon(business, "ref"); }
  }

  lemma TruthyCanon(v: Value)
    ensures Truthy(Canon(v)) == Truthy(v)
  {
    CanonScalar(v);
  }

  lemma MarksCanon(p: Value)
    requires WellFormed(p) && p.Obj? && Steps(p).Some? && forall i :: 0 <= i < |Steps(p).value| ==> Steps(p).value[i].Obj?
    ensures Steps(Canon(p)).Some? && Marks(Steps(Canon(p)).value) == Marks(Steps(p).value)
  {
    hide Canon, Get, WellFormed, Elements, MarkOf;
    CanonGet(p, "steps");
    GetWellFormed(p, "steps");
    var v := Get(p, "steps").value;
    ElementsCanon(v);
    ElementsWellFormed(v);
    var xs, ys := Elements(v).value, Elements(Canon(v)).value;
    forall i | 0 <= i < |xs| ensures MarkOf(ys[i]) == MarkOf(xs[i]) { MarkCanon(xs[i]); }
    assert Marks(ys) == Marks(xs);
  }

  lemma ReferencesShowCanon(rows: seq<ReferenceRow>, p: Value)
    requires WellFormed(p) && p.Obj? && References(p).Some? && ReferencesShow(rows, References(p).value)
    requires forall i :: 0 <= i < |References(p).value| ==> References(p).value[i].Obj?
    ensures References(Canon(p)).Some? && ReferencesShow(rows, References(Canon(p)).value)
  {
    hide Canon, Get, ReferenceShows, WellFormed, Elements;
    CanonNull();
    CanonGetOr(p, "external_references", Arr([]));
    ReferencesWellFormed(p);
    ElementsCanon(GetOr(p, "external_references", Arr([])));
    var xs := References(p).value;
    forall i | 0 <= i < |xs| ensures ReferenceShows(rows[i], Canon(xs[i])) { ReferenceShowsCanon(rows[i], xs[i]); }
  }

  lemma ReferencesWellFormed(p: Value)
    requires WellFormed(p) && References(p).Some?
    ensures forall i :: 0 <= i < |References(p).value| ==> WellFormed(References(p).value[i])
  {
    hide Elements;
    GetWellFormed(p, "external_references");
    ElementsWellFormed(GetOr(p, "external_references", Arr([])));
  }

  lemma EventShowsCanon(row: EvidenceRow, item: Value)
    requires WellFormed(item) && item.Obj? && EventShows(row, item)
    ensures EventShows(row, Canon(item))
  {
    assert Canon(Str("conversation_excerpt")) == Str("conversation_excerpt") && Canon(Str("observed")) == Str("observed");
    hide Canon, Shows, GetOr, WellFormed, Truthy;
    CanonGetOr(item, "evidence_type", Str("conversation_excerpt"));
    CanonGetOr(item, "provenance", Str("observed"));
    ShowsCanon(row.evidenceType, ItemType(item));
    ShowsCanon(row.provenance, ItemProvenance(item));
    CellCanon(row.sourceRef, item, "source_ref");
    CellCanon(row.excerpt, item, "sanitized_excerpt");
    FieldCanon(item, "sanitized_excerpt");
    TruthyCanon(ItemExcerpt(item));
    if !Truthy(ItemExcerpt(item)) {
      CellCanon(row.algorithm, item, "hash_algorithm");
      CellCanon(row.state, item, "verification_state");
      FieldCanon(item, "external_digest");
      DigestShowsCanon(row.externalDigest, GetOr(item, "external_digest", Null));
    }
  }

  lemma DigestShowsCanon(cell: Cell, v: Value)
    requires DigestShows(cell, v)
    ensures DigestShows(cell, Canon(v))
  {
  }

  lemma EventsShowCanon(rows: seq<EvidenceRow>, p: Value, at: string)
    requires WellFormed(p) && p.Obj? && Items(p).Some? && EventsShow(rows, Items(p).value, at)
    requires forall i :: 0 <= i < |Items(p).value| ==> Items(p).value[i].Obj?
    ensures Items(Canon(p)).Some? && EventsShow(rows, Items(Canon(p)).value, at)
  {
    hide Canon, Get, EventShows, WellFormed, Elements;
    CanonNull();
    CanonGetOr(p, "evidence", Arr([]));
    GetWellFormed(p, "evidence");
    ElementsWellFormed(GetOr(p, "evidence", Arr([])));
    ElementsCanon(GetOr(p, "evidence", Arr([])));
    var xs := Items(p).value;
    forall i | 0 <= i < |xs| ensures EventShows(rows[i], Canon(xs[i])) { EventShowsCanon(rows[i], xs[i]); }
  }

  lemma ParentsShowCanon(processes: seq<ProcessRow>, paths: seq<PathRow>, task: TaskRow, p: Value)
    requires WellFormed(p) && p.Obj? && ParentsShow(processes, paths, task, p)
    ensures ParentsShow(processes, paths, task, Canon(p))
  {
    hide Canon, Shows, ShowsJson, GetOr, WellFormed;
    CellCanon(processes[0].summary, p, "process_summary");
    PrerequisitesCanon(p);
    ShowsJsonCanon(processes[0].prerequisitesJson, GetOr(p, "prerequisites", Arr([])));
  }

  lemma PrerequisitesCanon(p: Value)
    requires WellFormed(p) && p.Obj?
    ensures GetOr(Canon(p), "prerequisites", Arr([])) == Canon(GetOr(p, "prerequisites", Arr([]))) && WellFormed(GetOr(p, "prerequisites", Arr([])))
  {
    hide Canon;
    CanonNull();
    CanonGetOr(p, "prerequisites", Arr([]));
    GetWellFormed(p, "prerequisites");
  }

  lemma StepsShowCanon(rows: seq<StepRow>, p: Value)
    requires WellFormed(p) && p.Obj? && Steps(p).Some? && StepsShow(rows, Steps(p).value)
    requires forall i :: 0 <= i < |Steps(p).value| ==> Steps(p).value[i].Obj?
    ensures Steps(Canon(p)).Some? && StepsShow(rows, Steps(Canon(p)).value)
  {
    hide Canon, Get, StepShows, WellFormed, Elements;
    CanonGet(p, "steps");
    GetWellFormed(p, "steps");
    var v := Get(p, "steps").value;
    ElementsCanon(v);
    ElementsWellFormed(v);
    var xs := Elements(v).value;
    forall i | 0 <= i < |xs| ensures StepShows(rows[i], Canon(xs[i])) { StepShowsCanon(rows[i], xs[i]); }
  }

  lemma ElementsWellFormed(v: Value)
    requires WellFormed(v) && Elements(v).Some?
    ensures forall i :: 0 <= i < |Elements(v).value| ==> WellFormed(Elements(v).value[i])
  {
  }

  // ----- a fresh insertion -----

  // One new process for one new task, one new path for it: what the joins see.
  lemma ProcessesJoin(t: Tables, process: ProcessRow, processId: string, id: string)
    requires forall i :: 0 <= i < |t.processes| ==> t.processes[i].id != process.id
    ensures OfProcess(t.processes + [process], processId, id) <==>
              if processId == process.id then id == process.taskId else OfProcess(t.processes, processId, id)
  {
    var all := t.processes + [process];
    assert all[|t.processes|] == process;
    if OfProcess(t.processes, processId, id) {
      var q :| 0 <= q < |t.processes| && t.processes[q].id == processId && t.processes[q].taskId == id;
      assert all[q] == t.processes[q];
    }
  }

  lemma PathsJoin(t: Tables, process: ProcessRow, path: PathRow, pathId: string, id: string)
    requires Constraints(t) && path.processId == process.id
    requires forall i :: 0 <= i < |t.processes| ==> t.processes[i].id != process.id
    requires forall i :: 0 <= i < |t.paths| ==> t.paths[i].id != path.id
    ensures OfPath(t.processes + [process], t.paths + [path], pathId, id) <==>
              if pathId == path.id then id == process.taskId else OfPath(t.processes, t.paths, pathId, id)
  {
    hide OfProcess, ConfirmationsUnique, TasksUnique, ProcessesUnique, StepsUnique, EvidenceUnique, LineageUnique, ReferencesUnique, RowCheck;
    var all, processes := t.paths + [path], t.processes + [process];
    assert all[|t.paths|] == path;
    ProcessesJoin(t, process, path.processId, id);
    forall p | 0 <= p < |t.paths| ensures OfProcess(processes, t.paths[p].processId, id) == OfProcess(t.processes, t.paths[p].processId, id) {
      ProcessesJoin(t, process, t.paths[p].processId, id);
    }
    if OfPath(t.processes, t.paths, pathId, id) {
      var p :| 0 <= p < |t.paths| && t.paths[p].id == pathId && OfProcess(t.processes, t.paths[p].processId, id);
      assert all[p] == t.paths[p];
    }
  }

  // Every lineage row starts from a process.
  ghost predicate LinksNamed(t: Tables) {
    forall i :: 0 <= i < |t.lineage| ==> HasProcess(t, t.lineage[i].derivedId)
  }

  lemma StepsJoin(t: Tables, process: ProcessRow, path: PathRow, added: seq<StepRow>, id: string)
    requires Constraints(t) && path.processId == process.id && !HasTask(t, process.taskId)
    requires forall i :: 0 <= i < |t.processes| ==> t.processes[i].id != process.id
    requires forall i :: 0 <= i < |t.paths| ==> t.paths[i].id != path.id
    requires forall i :: 0 <= i < |added| ==> added[i].pathId == path.id
    ensures StepsOf(t.processes + [process], t.paths + [path], t.steps + added, id) ==
            if id == process.taskId then added else StepsOf(t.processes, t.paths, t.steps, id)
  {
    hide OfPath, OfProcess;
    var keep := (row: StepRow) => OfPath(t.processes + [process], t.paths + [path], row.pathId, id);
    var kept := (row: StepRow) => OfPath(t.processes, t.paths, row.pathId, id);
    WhereAppend(t.steps, added, keep);
    forall i | 0 <= i < |t.steps| ensures keep(t.steps[i]) == kept(t.steps[i]) {
      OldPath(t, path, t.steps[i].pathId);
      PathsJoin(t, process, path, t.steps[i].pathId, id);
    }
    WhereSame(t.steps, keep, kept);
    forall i | 0 <= i < |added| ensures keep(added[i]) == (id == process.taskId) {
      PathsJoin(t, process, path, added[i].pathId, id);
    }
    if id == process.taskId {
      WhereAll(added, keep);
      forall i | 0 <= i < |t.steps| ensures !kept(t.steps[i]) { NoPathYet(t, t.steps[i].pathId, id); }
      WhereNone(t.steps, kept);
    } else {
      WhereNone(added, keep);
    }
  }

  lemma OldPath(t: Tables, path: PathRow, pathId: string)
    requires Constraints(t) && (forall i :: 0 <= i < |t.paths| ==> t.paths[i].id != path.id)
    ensures forall i :: 0 <= i < |t.steps| && t.steps[i].pathId == pathId ==> pathId != path.id
  {
    hide ConfirmationsUnique, TasksUnique, ProcessesUnique, PathsUnique, StepsUnique, EvidenceUnique, LineageUnique, ReferencesUnique, RowCheck;
  }

  lemma NoPathYet(t: Tables, pathId: string, id: string)
    requires Constraints(t) && !HasTask(t, id)
    ensures !OfPath(t.processes, t.paths, pathId, id) && forall processId :: !OfProcess(t.processes, processId, id)
  {
    hide ConfirmationsUnique, TasksUnique, ProcessesUnique, PathsUnique, StepsUnique, EvidenceUnique, LineageUnique, ReferencesUnique, RowCheck;
  }

  lemma LinksJoin(t: Tables, process: ProcessRow, added: seq<LineageRow>, id: string)
    requires Constraints(t) && LinksNamed(t) && !HasTask(t, process.taskId)
    requires forall i :: 0 <= i < |t.processes| ==> t.processes[i].id != process.id
    requires forall i :: 0 <= i < |added| ==> added[i].derivedId == process.id
    ensures LinksOf(t.processes + [process], t.lineage + added, id) ==
            if id == process.taskId then added else LinksOf(t.processes, t.lineage, id)
  {
    hide OfProcess, Constraints;
    var keep := (row: LineageRow) => OfProcess(t.processes + [process], row.derivedId, id);
    var kept := (row: LineageRow) => OfProcess(t.processes, row.derivedId, id);
    WhereAppend(t.lineage, added, keep);
    forall i | 0 <= i < |t.lineage| ensures keep(t.lineage[i]) == kept(t.lineage[i]) {
      ProcessesJoin(t, process, t.lineage[i].derivedId, id);
      assert HasProcess(t, t.lineage[i].derivedId);
    }
    WhereSame(t.lineage, keep, kept);
    forall i | 0 <= i < |added| ensures keep(added[i]) == (id == process.taskId) {
      ProcessesJoin(t, process, added[i].derivedId, id);
    }
    if id == process.taskId {
      WhereAll(added, keep);
      NoPathYet(t, "", id);
      WhereNone(t.lineage, kept);
    } else {
      WhereNone(added, keep);
    }
  }

  lemma ProcessesSplit(t: Tables, process: ProcessRow, id: string)
    requires Constraints(t) && !HasTask(t, process.taskId)
    ensures ProcessesOf(t.processes + [process], id) == if id == process.taskId then [process] else ProcessesOf(t.processes, id)
  {
    hide ConfirmationsUnique, TasksUnique, ProcessesUnique, PathsUnique, StepsUnique, EvidenceUnique, LineageUnique, ReferencesUnique, RowCheck;
    var keep := (row: ProcessRow) => row.taskId == id;
    WhereAppend(t.processes, [process], keep);
    if id == process.taskId {
      WhereNone(t.processes, keep);
      WhereAll([process], keep);
      assert [] + [process] == [process];
    } else {
      WhereNone([process], keep);
    }
  }

  lemma PathsSplit(t: Tables, process: ProcessRow, path: PathRow, id: string)
    requires Constraints(t) && path.processId == process.id && !HasTask(t, process.taskId)
    requires forall i :: 0 <= i < |t.processes| ==> t.processes[i].id != process.id
    ensures PathsOf(t.processes + [process], t.paths + [path], id) == if id == process.taskId then [path] else PathsOf(t.processes, t.paths, id)
  {
    hide OfProcess, Constraints;
    var keep := (row: PathRow) => OfProcess(t.processes + [process], row.processId, id);
    var kept := (row: PathRow) => OfProcess(t.processes, row.processId, id);
    WhereAppend(t.paths, [path], keep);
    forall i | 0 <= i < |t.paths| ensures keep(t.paths[i]) == kept(t.paths[i]) {
      ProcessesJoin(t, process, t.paths[i].processId, id);
      PathParent(t, i);
    }
    WhereSame(t.paths, keep, kept);
    ProcessesJoin(t, process, path.processId, id);
    if id == process.taskId {
      WhereAll([path], keep);
      NoPathYet(t, "", id);
      WhereNone(t.paths, kept);
      assert [] + [path] == [path];
    } else {
      WhereNone([path], keep);
    }
  }

  lemma PathParent(t: Tables, i: nat)
    requires Constraints(t) && i < |t.paths|
    ensures HasProcess(t, t.paths[i].processId)
  {
    hide ConfirmationsUnique, TasksUnique, ProcessesUnique, PathsUnique, StepsUnique, EvidenceUnique, LineageUnique, ReferencesUnique, RowCheck;
  }

  lemma ReferencesSplit(t: Tables, taskId: string, added: seq<ReferenceRow>, id: string)
    requires Constraints(t) && !HasTask(t, taskId) && forall i :: 0 <= i < |added| ==> added[i].taskId == taskId
    ensures ReferencesOf(t.references + added, id) == if id == taskId then added else ReferencesOf(t.references, id)
  {
    hide ConfirmationsUnique, TasksUnique, ProcessesUnique, PathsUnique, StepsUnique, EvidenceUnique, LineageUnique, ReferencesUnique, RowCheck;
    var keep := (row: ReferenceRow) => row.taskId == id;
    WhereAppend(t.references, added, keep);
    if id == taskId {
      WhereNone(t.references, keep);
      WhereAll(added, keep);
      assert [] + added == added;
    } else {
      WhereNone(added, keep);
    }
  }

  // ----- the property of whole stores -----

  ghost predicate LinksShow(links: seq<LineageRow>, events: seq<EvidenceRow>) {
    |links| == |events| && forall i :: 0 <= i < |links| ==> links[i].sourceId == events[i].eventId
  }

  ghost predicate TaskProjects(t: Tables, task: TaskRow) {
    && Loads(task.payloadJson).Some?
    && var p := Loads(task.payloadJson).value;
       && TaskShows(task, p)
       && ParentsShow(ProcessesOf(t.processes, task.id), PathsOf(t.processes, t.paths, task.id), task, p)
       && Steps(p).Some? && StepsShow(StepsOf(t.processes, t.paths, t.steps, task.id), Steps(p).value)
       && Items(p).Some? && EventsShow(ChainOf(t.evidence, task.id), Items(p).value, task.createdAt)
       && LinksShow(LinksOf(t.processes, t.lineage, task.id), ChainOf(t.evidence, task.id))
       && References(p).Some? && ReferencesShow(ReferencesOf(t.references, task.id), References(p).value)
  }

  ghost predicate Projects(t: Tables) {
    LinksNamed(t) && forall i :: 0 <= i < |t.tasks| ==> TaskProjects(t, t.tasks[i])
  }

  // What a fresh insertion adds, table by table.
  datatype Added = Added(task: TaskRow, process: ProcessRow, path: PathRow, steps: seq<StepRow>, links: seq<LineageRow>,
                         references: seq<ReferenceRow>)

  ghost predicate Block(t: Tables, u: Tables, b: Added) {
    && u.tasks == t.tasks + [b.task] && u.processes == t.processes + [b.process] && u.paths == t.paths + [b.path]
    && u.steps == t.steps + b.steps && u.lineage == t.lineage + b.links && u.references == t.references + b.references
    && u.confirmations == t.confirmations
    && b.process.taskId == b.task.id && b.path.processId == b.process.id
    && (forall i :: 0 <= i < |b.steps| ==> b.steps[i].pathId == b.path.id)
    && (forall i :: 0 <= i < |b.links| ==> b.links[i].derivedId == b.process.id)
    && (forall i :: 0 <= i < |b.references| ==> b.references[i].taskId == b.task.id)
  }

  // The added rows show the payload.
  ghost predicate BlockShows(b: Added, p: Value, events: seq<EvidenceRow>) {
    && ParentsShow([b.process], [b.path], b.task, p)
    && Steps(p).Some? && StepsShow(b.steps, Steps(p).value) && (forall i :: 0 <= i < |Steps(p).value| ==> Steps(p).value[i].Obj?)
    && Items(p).Some? && EventsShow(events, Items(p).value, b.task.createdAt)
    && (forall i :: 0 <= i < |Items(p).value| ==> Items(p).value[i].Obj?)
    && LinksShow(b.links, events)
    && References(p).Some? && ReferencesShow(b.references, References(p).value)
    && (forall i :: 0 <= i < |References(p).value| ==> References(p).value[i].Obj?)
  }

  lemma FreshBlock(t: Tables, u: Tables, p: Value, hash: Hash, committedAt: string, mode: Mode, authorization: Value, uuid: Uuids, now: string)
    returns (b: Added)
    requires FreshAdded(t, u, p, hash, committedAt, mode, authorization, uuid, now)
    requires WellFormed(p)
    ensures MakeTask(p, hash, committedAt, mode, authorization, NewId("task", uuid(0)), now) == Some(b.task) && TaskFits(t, b.task)
    ensures b.process.id == NewId("process", uuid(1)) && b.path.id == NewId("path", uuid(2)) && b.task.id == NewId("task", uuid(0))
    ensures Block(t, u, b)
    ensures |t.evidence| <= |u.evidence| && BlockShows(b, p, u.evidence[|t.evidence|..])
  {
    hide MakeTask, TaskFits, BindText, CanonicalJson, StepsShow, LinksShow, EventsShow, ReferencesShow, ParentsShow, WellFormed, Steps, Items,
         References, StepsAdded, EvidenceAdded, ReferencesAdded;
    var taskId, processId, pathId := NewId("task", uuid(0)), NewId("process", uuid(1)), NewId("path", uuid(2));
    var task := MakeTask(p, hash, committedAt, mode, authorization, taskId, now).value;
    var t3 := Parents(t, p, task, BindText(GetOr(p, "process_summary", Null)).value, uuid);
    var t4, t5 := t3.(steps := u.steps), u.(references := t.references);
    var (n, m) := (|Steps(p).value|, |Items(p).value|);
    var steps := AddedSteps(t3, t4, pathId, p, uuid);
    var links := AddedLinks(t4, t5, taskId, processId, Items(p).value, 3 + n, uuid, now);
    EventsWritten(t4, t5, taskId, processId, Items(p).value, 3 + n, uuid, now);
    MadeTask(p, hash, committedAt, mode, authorization, taskId, now);
    EvidenceOnly(t4, t5, taskId, processId, Items(p).value, 3 + n, uuid, now);
    var references := AddedReferences(t5, u, taskId, p, 3 + n + 2 * m, uuid);
    b := Added(task, t3.processes[|t.processes|], t3.paths[|t.paths|], steps, links, references);
    ParentsShown(t, p, task, uuid);
  }

  lemma ParentsShown(t: Tables, p: Value, task: TaskRow, uuid: Uuids)
    requires WellFormed(p) && BindText(GetOr(p, "process_summary", Null)).Some?
    ensures var t3 := Parents(t, p, task, BindText(GetOr(p, "process_summary", Null)).value, uuid);
            ParentsShow([t3.processes[|t.processes|]], [t3.paths[|t.paths|]], task, p)
  {
    hide BindText, CanonicalJson, Shows, ShowsJson, WellFormed;
    BoundShows(GetOr(p, "process_summary", Null));
    PrerequisitesShown(p);
  }

  lemma PrerequisitesShown(p: Value)
    requires WellFormed(p)
    ensures ShowsJson(CanonicalJson(GetOr(p, "prerequisites", Arr([]))), GetOr(p, "prerequisites", Arr([])))
  {
    hide Loads, CanonicalJson, Canon;
    GetWellFormed(p, "prerequisites");
    LoadsCanonicalJson(GetOr(p, "prerequisites", Arr([])));
  }

  lemma AddedReferences(t5: Tables, u: Tables, taskId: string, p: Value, first: nat, uuid: Uuids) returns (rows: seq<ReferenceRow>)
    requires WellFormed(p) && References(p).Some? && ReferencesAdded(t5, u, taskId, References(p).value, 0, first, uuid)
    ensures u.references == t5.references + rows && u == t5.(references := u.references)
    ensures forall i :: 0 <= i < |rows| ==> rows[i].taskId == taskId
    ensures ReferencesShow(rows, References(p).value) && forall i :: 0 <= i < |References(p).value| ==> References(p).value[i].Obj?
  {
    hide MakeReference, ReferenceShows, WellFormed, References, NewId, StorableReference;
    rows := u.references[|t5.references|..];
    var xs := References(p).value;
    ReferencesWellFormed(p);
    forall i | 0 <= i < |xs| ensures rows[i].taskId == taskId && ReferenceShows(rows[i], xs[i]) && xs[i].Obj? {
      assert MakeReference(xs[i], taskId, NewId("ref", uuid(first + i))) == Some(rows[i]);
      MadeReferenceShows(xs[i], taskId, NewId("ref", uuid(first + i)));
      StorableReferenceRow(xs[i], taskId, NewId("ref", uuid(first + i)));
      NoStepWithoutDict(xs[i]);
    }
  }

  lemma AddedSteps(t3: Tables, t4: Tables, pathId: string, p: Value, uuid: Uuids) returns (steps: seq<StepRow>)
    requires WellFormed(p) && Steps(p).Some? && StepsAdded(t3, t4, pathId, Steps(p).value, 0, uuid)
    ensures t4.steps == t3.steps + steps && forall i :: 0 <= i < |steps| ==> steps[i].pathId == pathId
    ensures StepsShow(steps, Steps(p).value) && forall i :: 0 <= i < |Steps(p).value| ==> Steps(p).value[i].Obj?
  {
    hide MakeStep, StepShows, WellFormed, Steps, NewId, StorableStep;
    steps := t4.steps[|t3.steps|..];
    var xs := Steps(p).value;
    StepsWellFormed(p);
    forall i | 0 <= i < |xs| ensures steps[i].pathId == pathId && steps[i].ordinal == i + 1 && StepShows(steps[i], xs[i]) && xs[i].Obj? {
      assert MakeStep(xs[i], pathId, i + 1, NewId("step", uuid(3 + i))) == Some(steps[i]);
      MadeStepShows(xs[i], pathId, i + 1, NewId("step", uuid(3 + i)));
      StorableStepRow(xs[i], pathId, i + 1, NewId("step", uuid(3 + i)));
      NoStepWithoutDict(xs[i]);
    }
  }

  lemma AddedLinks(t4: Tables, u: Tables, taskId: string, processId: string, items: seq<Value>, first: nat, uuid: Uuids, now: string)
    returns (links: seq<LineageRow>)
    requires EvidenceAdded(t4, u, taskId, processId, items, 0, None, first, uuid, now)
    ensures u.lineage == t4.lineage + links && forall i :: 0 <= i < |links| ==> links[i].derivedId == processId
    ensures |t4.evidence| <= |u.evidence| && LinksShow(links, u.evidence[|t4.evidence|..])
  {
    hide MakeRow, NewId;
    links := u.lineage[|t4.lineage|..];
    forall i | 0 <= i < |items|
      ensures links[i].derivedId == processId && links[i].sourceId == u.evidence[|t4.evidence|..][i].eventId
    {
      var previous := if i == 0 then None else Some(u.evidence[|t4.evidence| - 0 + i - 1].eventHash);
      assert EventAt(u, |t4.evidence| - 0 + i, |t4.lineage| - 0 + i, taskId, processId, items[i], i, previous, first, uuid, now);
    }
  }

  lemma EventsWritten(t4: Tables, u: Tables, taskId: string, processId: string, items: seq<Value>, first: nat, uuid: Uuids, now: string)
    requires EvidenceAdded(t4, u, taskId, processId, items, 0, None, first, uuid, now)
    ensures |t4.evidence| <= |u.evidence| && EventsShow(u.evidence[|t4.evidence|..], items, now)
    ensures forall i :: 0 <= i < |items| ==> items[i].Obj?
  {
    hide MakeRow, NewId, EventShows;
    var rows := u.evidence[|t4.evidence|..];
    forall i | 0 <= i < |items| ensures rows[i].ordinal == i + 1 && rows[i].createdAt == now && EventShows(rows[i], items[i]) && items[i].Obj? {
      var previous := if i == 0 then None else Some(u.evidence[|t4.evidence| - 0 + i - 1].eventHash);
      assert EventAt(u, |t4.evidence| - 0 + i, |t4.lineage| - 0 + i, taskId, processId, items[i], i, previous, first, uuid, now);
      MadeEventShows(taskId, i + 1, items[i], previous, NewId("event", uuid(first + 2 * i)), now);
    }
  }

  lemma StepsWellFormed(p: Value)
    requires WellFormed(p) && Steps(p).Some?
    ensures forall i :: 0 <= i < |Steps(p).value| ==> WellFormed(Steps(p).value[i])
  {
    hide Elements;
    GetWellFormed(p, "steps");
    ElementsWellFormed(Get(p, "steps").value);
  }

  lemma FreshProjects(t: Tables, u: Tables, p: Value, hash: Hash, committedAt: string, mode: Mode, authorization: Value, uuid: Uuids, now: string)
    requires Constraints(t) && Projects(t) && WellFormed(p) && p.Obj? && Constraints(u)
    requires FreshAdded(t, u, p, hash, committedAt, mode, authorization, uuid, now)
    ensures Projects(u)
  {
    hide Constraints, FreshAdded, MakeTask, StepsOf, LinksOf, ProcessesOf, PathsOf, ReferencesOf, TaskProjects, BlockShows, ChainOf, TaskFits,
         WellFormed, LinksNamed, Block;
    var b := FreshBlock(t, u, p, hash, committedAt, mode, authorization, uuid, now);
    var rows := FreshChain(t, u, p, hash, committedAt, mode, authorization, uuid, now);
    TaskIdUnused(t, b.task);
    NewParents(t, u, b);
    BlockLinked(t, u, b);
    BlockTables(t, u, b);
    forall i | 0 <= i < |u.tasks| ensures TaskProjects(u, u.tasks[i]) {
      BlockJoins(t, u, b, u.tasks[i].id);
      if i < |t.tasks| {
        assert u.tasks[i] == t.tasks[i];
        OldTaskDiffers(t, i, b.task);
        SameJoins(t, u, t.tasks[i]);
      } else {
        assert u.evidence[|t.evidence|..] == rows;
        NewTaskProjects(u, b, p, hash, committedAt, mode, authorization, now);
      }
    }
  }

  // For the new task every join yields the added rows, for another the old ones.
  lemma BlockJoins(t: Tables, u: Tables, b: Added, id: string)
    requires Constraints(t) && LinksNamed(t) && Block(t, u, b) && !HasTask(t, b.task.id)
    requires forall i :: 0 <= i < |t.processes| ==> t.processes[i].id != b.process.id
    requires forall i :: 0 <= i < |t.paths| ==> t.paths[i].id != b.path.id
    ensures ProcessesOf(u.processes, id) == if id == b.task.id then [b.process] else ProcessesOf(t.processes, id)
    ensures PathsOf(u.processes, u.paths, id) == if id == b.task.id then [b.path] else PathsOf(t.processes, t.paths, id)
    ensures StepsOf(u.processes, u.paths, u.steps, id) == if id == b.task.id then b.steps else StepsOf(t.processes, t.paths, t.steps, id)
    ensures LinksOf(u.processes, u.lineage, id) == if id == b.task.id then b.links else LinksOf(t.processes, t.lineage, id)
    ensures ReferencesOf(u.references, id) == if id == b.task.id then b.references else ReferencesOf(t.references, id)
  {
    hide Constraints, StepsOf, LinksOf, ProcessesOf, PathsOf, ReferencesOf, LinksNamed;
    ProcessesSplit(t, b.process, id);
    PathsSplit(t, b.process, b.path, id);
    StepsJoin(t, b.process, b.path, b.steps, id);
    LinksJoin(t, b.process, b.links, id);
    ReferencesSplit(t, b.task.id, b.references, id);
  }

  lemma SameJoins(t: Tables, u: Tables, task: TaskRow)
    requires TaskProjects(t, task)
    requires ProcessesOf(u.processes, task.id) == ProcessesOf(t.processes, task.id)
    requires PathsOf(u.processes, u.paths, task.id) == PathsOf(t.processes, t.paths, task.id)
    requires StepsOf(u.processes, u.paths, u.steps, task.id) == StepsOf(t.processes, t.paths, t.steps, task.id)
    requires LinksOf(u.processes, u.lineage, task.id) == LinksOf(t.processes, t.lineage, task.id)
    requires ReferencesOf(u.references, task.id) == ReferencesOf(t.references, task.id)
    requires ChainOf(u.evidence, task.id) == ChainOf(t.evidence, task.id)
    ensures TaskProjects(u, task)
  {
    hide StepsOf, LinksOf, ProcessesOf, PathsOf, ReferencesOf, StepsShow, LinksShow, EventsShow, ReferencesShow, ParentsShow, TaskShows, Loads,
         ChainOf, Steps, Items, References;
  }

  lemma BlockTables(t: Tables, u: Tables, b: Added)
    requires Block(t, u, b)
    ensures u.tasks == t.tasks + [b.task]
  {
  }

  lemma OldTaskDiffers(t: Tables, i: nat, task: TaskRow)
    requires TaskFits(t, task) && i < |t.tasks|
    ensures t.tasks[i].id != task.id
  {
  }

  // In the new tables the new process and path were unused.
  lemma NewParents(t: Tables, u: Tables, b: Added)
    requires Constraints(u) && Block(t, u, b)
    ensures forall i :: 0 <= i < |t.processes| ==> t.processes[i].id != b.process.id
    ensures forall i :: 0 <= i < |t.paths| ==> t.paths[i].id != b.path.id
  {
    hide ConfirmationsUnique, TasksUnique, StepsUnique, EvidenceUnique, LineageUnique, ReferencesUnique, RowCheck, ForeignKeys;
    assert u.processes[|t.processes|] == b.process && u.paths[|t.paths|] == b.path;
    forall i | 0 <= i < |t.processes| ensures t.processes[i].id != b.process.id { assert u.processes[i] == t.processes[i]; }
    forall i | 0 <= i < |t.paths| ensures t.paths[i].id != b.path.id { assert u.paths[i] == t.paths[i]; }
  }

  lemma BlockLinked(t: Tables, u: Tables, b: Added)
    requires LinksNamed(t) && Block(t, u, b)
    ensures LinksNamed(u)
  {
    assert u.processes[|t.processes|] == b.process;
    forall i | 0 <= i < |u.lineage| ensures HasProcess(u, u.lineage[i].derivedId) {
      if i < |t.lineage| {
        assert HasProcess(t, t.lineage[i].derivedId);
        var q :| 0 <= q < |t.processes| && t.processes[q].id == t.lineage[i].derivedId;
        assert u.processes[q] == t.processes[q];
      }
    }
  }

  lemma NewTaskProjects(u: Tables, b: Added, p: Value, hash: Hash, committedAt: string, mode: Mode, authorization: Value, now: string)
    requires WellFormed(p) && p.Obj? && MakeTask(p, hash, committedAt, mode, authorization, b.task.id, now) == Some(b.task)
    requires ProcessesOf(u.processes, b.task.id) == [b.process] && PathsOf(u.processes, u.paths, b.task.id) == [b.path]
    requires StepsOf(u.processes, u.paths, u.steps, b.task.id) == b.steps && LinksOf(u.processes, u.lineage, b.task.id) == b.links
    requires ReferencesOf(u.references, b.task.id) == b.references && BlockShows(b, p, ChainOf(u.evidence, b.task.id))
    ensures TaskProjects(u, b.task)
  {
    hide MakeTask, StepsOf, LinksOf, ProcessesOf, PathsOf, ReferencesOf, StepsShow, LinksShow, EventsShow, ReferencesShow, ParentsShow, TaskShows,
         Loads, ChainOf, WellFormed, Steps, Items, References, CanonicalJson, Canon;
    MadeTask(p, hash, committedAt, mode, authorization, b.task.id, now);
    MadeTaskShows(p, hash, committedAt, mode, authorization, b.task.id, now);
    LoadsCanonicalJson(p);
    ResultIsDict(p, hash, committedAt, mode, authorization, b.task.id, now);
    TaskShowsCanon(b.task, p);
    ParentsShowCanon([b.process], [b.path], b.task, p);
    StepsShowCanon(b.steps, p);
    EventsShowCanon(ChainOf(u.evidence, b.task.id), p, b.task.createdAt);
    ReferencesShowCanon(b.references, p);
  }

  lemma ResultIsDict(p: Value, hash: Hash, committedAt: string, mode: Mode, authorization: Value, id: string, now: string)
    requires MakeTask(p, hash, committedAt, mode, authorization, id, now).Some?
    ensures GetOr(p, "final_result", Null).Obj?
  {
    hide BindText, CanonicalJson, SignatureOf;
  }

  // ----- over every run from a new database -----

  lemma InsertProjects(t: Tables, p: Value, hash: Hash, committedAt: string, mode: Mode, authorization: Value, uuid: Uuids, now: string)
    requires Inv(t) && Projects(t) && WellFormed(p)
    requires InsertTask(t, p, hash, committedAt, mode, authorization, uuid, now).Ok?
    ensures Projects(InsertTask(t, p, hash, committedAt, mode, authorization, uuid, now).value.tables)
    ensures InsertTask(t, p, hash, committedAt, mode, authorization, uuid, now).value.tables.confirmations == t.confirmations
  {
    hide Inv, Projects, InsertFresh, FreshAdded, Constraints, BindText, WellFormed;
    var r := InsertFresh(t, p, hash, committedAt, mode, authorization, uuid, now);
    InsertForward(t, p, hash, committedAt, mode, authorization, uuid, now);
    if r.Ok? {
      InvConstraints(t);
      FreshInserted(t, p, hash, committedAt, mode, authorization, uuid, now);
      if p.Obj? { FreshProjects(t, r.value.tables, p, hash, committedAt, mode, authorization, uuid, now); }
    }
  }

  // Only the confirmations change.
  lemma SameRowsProject(t: Tables, rows: seq<Confirmation>)
    requires Projects(t)
    ensures Projects(t.(confirmations := rows))
  {
    hide TaskProjects, StepsOf, LinksOf, ProcessesOf, PathsOf, ReferencesOf;
    var u := t.(confirmations := rows);
    forall i | 0 <= i < |u.lineage| ensures HasProcess(u, u.lineage[i].derivedId) { assert HasProcess(t, t.lineage[i].derivedId); }
    forall i | 0 <= i < |u.tasks| ensures TaskProjects(u, u.tasks[i]) { SameJoins(t, u, t.tasks[i]); }
  }

  lemma CreateProjects(t: Tables, payload: Value, uuid: Uuids, now: string)
    requires Projects(t) && CreateConfirmation(t, payload, uuid, now).Ok?
    ensures Projects(CreateConfirmation(t, payload, uuid, now).value)
  {
    hide Projects, ConfirmationFits, NewConfirmation;
    SameRowsProject(t, t.confirmations + [NewConfirmation(payload, uuid, now)]);
  }

  lemma ConfirmProjects(t: Tables, id: string, expected: Hash, how: string, identity: Option<string>, source: Option<string>, now: string)
    requires Projects(t) && ConfirmConfirmation(t, id, expected, how, identity, source, now).Ok?
    ensures Projects(ConfirmConfirmation(t, id, expected, how, identity, source, now).value)
  {
    hide Projects, RowCheck, Blank, ConfirmedRow;
    var i := FindConfirmation(t.confirmations, id);
    SameRowsProject(t, t.confirmations[i := ConfirmedRow(t.confirmations[i], how, identity, source, now)]);
  }

  lemma DraftParsed(t: Tables, i: nat)
    requires Inv(t) && i < |t.confirmations|
    ensures Loads(t.confirmations[i].payloadJson).Some? && WellFormed(Loads(t.confirmations[i].payloadJson).value)
  {
    hide Constraints, ClaimsMatch, ChainsBuilt, Loads, WellFormed, Readable;
    assert StoredPayload(t.confirmations[i].payloadJson, t.confirmations[i].payloadHash);
  }

  lemma ConsumeProjects(t: Tables, id: string, expected: Hash, uuid: Uuids, now: string)
    requires Inv(t) && Projects(t) && PersistConfirmed(t, id, expected, uuid, now).Ok?
    ensures Projects(PersistConfirmed(t, id, expected, uuid, now).value.tables)
  {
    hide Inv, Projects, WellFormed, InsertTask, Loads, RowCheck, TaskUnclaimed, ConsumedRow;
    var i := FindConfirmation(t.confirmations, id);
    DraftParsed(t, i);
    var row := t.confirmations[i];
    var p := Loads(row.payloadJson).value;
    InsertProjects(t, p, row.payloadHash, row.confirmedAt.value, Personal, Null, uuid, now);
    var ins := InsertTask(t, p, row.payloadHash, row.confirmedAt.value, Personal, Null, uuid, now).value;
    SameRowsProject(ins.tables, t.confirmations[i := ConsumedRow(row, ins.taskId, now)]);
  }

  lemma TransactProjects(t: Tables, a: Action)
    requires Inv(t) && Projects(t) && ActionOk(a) && !a.Upgrade? && Transact(t, a).Ok?
    ensures Projects(Transact(t, a).value.0)
  {
    hide Inv, Projects, WellFormed, CreateConfirmation, ConfirmConfirmation, PersistConfirmed, InsertTask, PayloadDigest, FindConfirmation;
    match a
    case Create(payload, uuid, now) => CreateProjects(t, payload, uuid, now);
    case Confirm(id, expected, how, identity, source, now) => ConfirmProjects(t, id, expected, how, identity, source, now);
    case Consume(id, expected, uuid, now) => ConsumeProjects(t, id, expected, uuid, now);
    case Authorize(payload, authorization, uuid, now) =>
      InsertProjects(t, payload, PayloadDigest(payload), now, Enterprise, authorization, uuid, now);
  }

  // No version 2 history, or a current store that projects.
  ghost predicate DbProjects(db: Database) {
    match db.layout
    case Empty => true
    case V1(o) => o.tasks == [] && o.lineage == []
    case V2(o) => o.tasks == [] && o.lineage == []
    case V3(m) => m.tasks == [] && m.lineage == []
    case V4(t) => Projects(t)
  }

  lemma ApplyProjects(db: Database, version: nat)
    requires DbProjects(db) && Apply(version, db.layout).Some?
    ensures DbProjects(Database(db.log + [version], Apply(version, db.layout).value))
  {
    hide CopyAccepted, JoinConfirmations, TaskProjects;
  }

  lemma {:induction false} MigrateFromProjects(db: Database, version: nat, target: nat, faults: set<nat>)
    requires DbProjects(db)
    ensures DbProjects(MigrateFrom(db, version, target, faults).db)
    decreases target + 1 - version
  {
    hide Apply, DbProjects;
    if version <= target && version <= 4 && version !in faults && Apply(version, db.layout).Some? {
      ApplyProjects(db, version);
      MigrateFromProjects(Database(db.log + [version], Apply(version, db.layout).value), version + 1, target, faults);
    }
  }

  lemma MigrateProjects(db: Database, target: nat, faults: set<nat>)
    requires DbProjects(db)
    ensures DbProjects(Migration.Migrate(db, target, faults).db)
  {
    hide DbProjects, MigrateFrom;
    MigrateFromProjects(db, CurrentVersion(db.log) + 1, target, faults);
  }

  lemma StepProjects(db: Database, a: Action)
    requires DbInv(db) && DbProjects(db) && ActionOk(a)
    ensures DbProjects(Step(db, a).db)
  {
    hide Inv, Projects, Transact, Migration.Migrate, ActionOk;
    if a.Upgrade? {
      MigrateProjects(db, a.target, a.faults);
    } else {
      MigrateProjects(db, SCHEMA_VERSION, {});
      MigrateKeepsInv(db, SCHEMA_VERSION, {});
      var m := Migration.Migrate(db, SCHEMA_VERSION, {});
      if m.result.Ok? && m.db.layout.V4? && Transact(m.db.layout.tables, a).Ok? {
        TransactProjects(m.db.layout.tables, a);
      }
    }
  }

  lemma {:induction false} RunProjects(db: Database, actions: seq<Action>)
    requires DbInv(db) && DbProjects(db) && ActionsOk(actions)
    ensures DbProjects(Run(db, actions))
    decreases |actions|
  {
    hide DbInv, DbProjects, Step, ActionOk;
    if actions != [] {
      StepKeepsInv(db, actions[0]);
      StepProjects(db, actions[0]);
      RunProjects(Step(db, actions[0]).db, actions[1..]);
    }
  }

  // In every store reached from a new database: each task's columns hold its
  // payload's fields; it has exactly one process, with the payload's summary and
  // prerequisites, and exactly one path; its steps in the order 1..n hold the
  // payload's steps; its lineage names its evidence events in order; and its
  // references hold the payload's.
  lemma EveryTaskReadsBack(actions: seq<Action>)
    requires ActionsOk(actions) && Run(NEW_DATABASE, actions).layout.V4?
    ensures Projects(Run(NEW_DATABASE, actions).layout.tables)
  {
    hide Projects, Run, DbInv;
    NewDatabaseInv();
    RunProjects(NEW_DATABASE, actions);
  }
}
