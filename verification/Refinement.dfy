// The relational store refines the in-memory reference adapter: call by call and
// run by run they refuse the same calls, answer the same, and hold the same
// confirmations, tasks and sessions. The one extra behaviour of the relational
// store is the UNIQUE constraint on confirmations.task_id.
module Refinement {
  import opened Wrappers
  import opened Json
  import opened Canonical
  import opened CanonicalText
  import opened Digests
  import opened Evidence
  import opened Schema
  import opened Transactions
  import opened Invariant
  import opened Preservation
  import opened Freshness
  import opened Labels
  import opened Memory
  import opened Similar
  import Insertion
  import Report
  import Runs
  import Store
  import O = Operations

  // ----- the abstraction relation -----

  ghost predicate ConfirmationMatches(row: Confirmation, c: MemConfirmation) {
    && row.payloadHash == c.payloadHash && row.preparedAt == c.preparedAt && row.status == c.status
    && row.confirmedAt == c.confirmedAt && row.how == c.how && row.identity == c.identity && row.source == c.source
    && row.consumedAt == c.consumedAt && row.taskId == c.taskId
    && WellFormed(c.payload) && Loads(row.payloadJson) == Some(Canon(c.payload))
  }

  ghost predicate TaskMatches(row: TaskRow, task: MemTask) {
    && row.payloadHash == task.payloadHash && row.createdAt == task.createdAt && row.session == task.session
    && row.mode == task.mode && row.captureStatus == task.captureStatus
    && row.typeLabel == task.typeLabel && BindNotNull(task.adoption) == Some(row.adoption)
    && Bind(Get(task.payload, "task_type")) == Some(row.taskType)
    && Loads(row.payloadJson) == Some(Canon(task.payload)) && Loads(row.authorizationJson) == Some(Canon(task.authorization))
  }

  ghost predicate HasRow(rows: seq<Confirmation>, id: string) { exists i :: 0 <= i < |rows| && rows[i].id == id }
  ghost predicate HasTaskRow(rows: seq<TaskRow>, id: string) { exists i :: 0 <= i < |rows| && rows[i].id == id }
  ghost predicate HasSession(rows: seq<TaskRow>, s: Value) { exists i :: 0 <= i < |rows| && rows[i].session == s }

  ghost predicate ConfirmationsMatch(rows: seq<Confirmation>, cs: map<string, MemConfirmation>) {
    && (forall i :: 0 <= i < |rows| ==> rows[i].id in cs && ConfirmationMatches(rows[i], cs[rows[i].id]))
    && (forall id :: id in cs ==> HasRow(rows, id))
  }

  ghost predicate TasksMatch(rows: seq<TaskRow>, tasks: map<string, MemTask>) {
    && (forall i :: 0 <= i < |rows| ==> rows[i].id in tasks && TaskMatches(rows[i], tasks[rows[i].id]))
    && (forall id :: id in tasks ==> HasTaskRow(rows, id))
  }

  ghost predicate SessionsMatch(rows: seq<TaskRow>, sessions: map<Value, string>) {
    && (forall i :: 0 <= i < |rows| && !rows[i].session.Null? ==>
          Truthy(rows[i].session) && rows[i].session in sessions && sessions[rows[i].session] == rows[i].id)
    && (forall s :: s in sessions ==> HasSession(rows, s) && !s.Null?)
  }

  // Every draft in the store can be persisted.
  ghost predicate DraftsFit(rows: seq<Confirmation>) {
    forall i :: 0 <= i < |rows| ==> Loads(rows[i].payloadJson).Some? && PayloadFits(Loads(rows[i].payloadJson).value)
  }

  ghost predicate R(t: Tables, m: MemStore) {
    && ConfirmationsMatch(t.confirmations, m.confirmations) && TasksMatch(t.tasks, m.tasks)
    && SessionsMatch(t.tasks, m.sessions) && DraftsFit(t.confirmations)
  }

  // Payloads as the service hands them over: every column can be bound, and the
  // session id, if there is one, is a nonempty string.
  ghost predicate PayloadFits(p: Value) {
    && WellFormed(p) && Storable(p)
    && (GetOr(p, SESSION, Null).Null? || (IsString(GetOr(p, SESSION, Null)) && Truthy(GetOr(p, SESSION, Null))))
  }

  // The calls on which the two adapters are compared: unused identifiers, a
  // method that is not blank, identity and source given together.
  ghost predicate Fits(t: Tables, a: O.Action) {
    match a
    case Create(payload, uuid, now) => PayloadFits(payload) && !HasRow(t.confirmations, NewId("confirm", uuid(0)))
    case Confirm(id, expected, how, identity, source, now) =>
      !Blank(how) && SqlNonempty(Some(how)) && Given(identity) == Given(source) && (identity.Some? ==> source.Some?)
    case Consume(id, expected, uuid, now) => Unused(t, uuid)
    case Authorize(payload, authorization, uuid, now) => PayloadFits(payload) && WellFormed(authorization) && Unused(t, uuid)
    case Upgrade(_, _) => false
  }

  // ----- key order does not matter -----

  lemma CanonText(v: Value, w: Value)
    requires Canon(v) == w && (w.Null? || IsString(w))
    ensures v == w
  {
  }

  lemma SessionAgrees(p: Value, q: Value)
    requires WellFormed(p) && WellFormed(q) && p.Obj? && q.Obj? && Canon(p) == Canon(q)
    requires GetOr(p, SESSION, Null).Null? || IsString(GetOr(p, SESSION, Null))
    ensures GetOr(q, SESSION, Null) == GetOr(p, SESSION, Null)
  {
    hide Canon, Get;
    CanonNull();
    CanonGetOr(p, SESSION, Null);
    CanonGetOr(q, SESSION, Null);
    CanonCellValue(GetOr(p, SESSION, Null));
    CanonText(GetOr(q, SESSION, Null), GetOr(p, SESSION, Null));
  }

  lemma CanonCellValue(v: Value)
    requires v.Null? || IsString(v)
    ensures Canon(v) == v
  {
  }

  lemma CanonBind(v: Value, k: string)
    requires WellFormed(v) && v.Obj?
    ensures Bind(Get(Canon(v), k)) == Bind(Get(v, k))
    ensures BindText(GetOr(Canon(v), k, Null)) == BindText(GetOr(v, k, Null))
    ensures BindNumber(GetOr(Canon(v), k, Null)).Some? <==> BindNumber(GetOr(v, k, Null)).Some?
  {
    hide Canon, BindText, BindNotNull, BindNumber;
    CanonNull();
    CanonGet(v, k);
    CanonGetOr(v, k, Null);
    CanonScalar(GetOr(v, k, Null));
    CanonNumber(GetOr(v, k, Null));
    if Get(v, k).Some? { CanonScalar(Get(v, k).value); }
  }

  lemma CanonNumber(v: Value)
    ensures BindNumber(Canon(v)).Some? <==> BindNumber(v).Some?
  {
  }

  lemma CanonObject(v: Value)
    ensures Canon(v).Obj? == v.Obj? && Canon(v).Arr? == v.Arr?
    ensures Truthy(Canon(v)) == Truthy(v) && OrEmpty(Canon(v)).Obj? == OrEmpty(v).Obj?
  {
    CanonScalar(v);
  }

  lemma StorableTaskCanon(p: Value)
    requires WellFormed(p) && p.Obj?
    ensures MakeTask(Canon(p), Sha256([]), "", Personal, Null, "", "").Some? <==> MakeTask(p, Sha256([]), "", Personal, Null, "", "").Some?
  {
    hide Canon, CanonicalJson, BindText, BindNotNull, OrEmpty, ContextRefHash, Bind, Get, SignatureOf;
    CanonNull();
    CanonGetOr(p, "final_result", Null);
    CanonGetOr(p, "business_context", Null);
    CanonObject(GetOr(p, "final_result", Null));
    CanonObject(GetOr(p, "business_context", Null));
    GetOrWellFormed(p, "final_result");
    CanonBind(p, "task_type");
    CanonBind(p, "task_goal");
    CanonBind(p, SESSION);
    CanonBind(p, "started_at");
    CanonBind(p, "completed_at");
    if GetOr(p, "final_result", Null).Obj? { CanonBind(GetOr(p, "final_result", Null), "adoption_status"); }
  }

  lemma GetOrWellFormed(p: Value, k: string)
    requires WellFormed(p)
    ensures WellFormed(GetOr(p, k, Null))
  {
    GetWellFormed(p, k);
  }

  lemma StorableStepCanon(s: Value)
    requires WellFormed(s) && StorableStep(s)
    ensures StorableStep(Canon(s))
  {
    hide Canon, CanonicalJson, BindText, BindNotNull, BindNumber, OrEmpty, Bind, Get;
    NoStepWithoutDict(s);
    CanonBind(s, "confidence");
    CanonBind(s, "duration_ms");
    CanonObject(s);
    CanonBind(s, "actor");
    CanonBind(s, "event_type");
    CanonBind(s, "summary");
    CanonBind(s, "provenance");
    CanonBind(s, "occurred_at");
  }

  lemma FitsCanon(p: Value)
    requires PayloadFits(p)
    ensures PayloadFits(Canon(p))
  {
    hide Canon, MakeTask, StorableStep, StorableItem, StorableReference, BindText, Elements, Get;
    CanonWellFormed(p);
    CanonObject(p);
    CanonNull();
    StorableTaskCanon(p);
    CanonBind(p, "process_summary");
    CanonGetOr(p, SESSION, Null);
    CanonCellValueIf(GetOr(p, SESSION, Null));
    StepsCanon(p);
    ItemsCanon(p);
    ReferencesCanon(p);
  }

  lemma CanonCellValueIf(v: Value)
    ensures v.Null? || IsString(v) ==> Canon(v) == v
  {
  }

  lemma StepsCanon(p: Value)
    requires WellFormed(p) && p.Obj? && Steps(p).Some? && forall i :: 0 <= i < |Steps(p).value| ==> StorableStep(Steps(p).value[i])
    ensures Steps(Canon(p)).Some? && forall i :: 0 <= i < |Steps(Canon(p)).value| ==> StorableStep(Steps(Canon(p)).value[i])
  {
    hide StorableStep, Canon, Get;
    CanonGet(p, "steps");
    GetWellFormed(p, "steps");
    var v := Get(p, "steps").value;
    forall i | 0 <= i < |Elements(v).value| ensures Elements(v).value[i].Obj? { NoStepWithoutDict(Elements(v).value[i]); }
    ElementsCanon(v);
    forall i | 0 <= i < |Elements(v).value| ensures StorableStep(Canon(Elements(v).value[i])) { StorableStepCanon(Elements(v).value[i]); }
  }

  lemma ItemsCanon(p: Value)
    requires WellFormed(p) && p.Obj? && Items(p).Some? && forall i :: 0 <= i < |Items(p).value| ==> StorableItem(Items(p).value[i])
    ensures Items(Canon(p)).Some? && forall i :: 0 <= i < |Items(Canon(p)).value| ==> StorableItem(Items(Canon(p)).value[i])
  {
    hide StorableItem, Canon, Get;
    CanonNull();
    CanonGetOr(p, "evidence", Arr([]));
    Report.ItemsWellFormed(p);
    var v := GetOr(p, "evidence", Arr([]));
    forall i | 0 <= i < |Elements(v).value| ensures Elements(v).value[i].Obj? { NoStepWithoutDict(Elements(v).value[i]); }
    ElementsCanon(v);
    forall i | 0 <= i < |Elements(v).value| ensures StorableItem(Canon(Elements(v).value[i])) { StorableItemCanon(Elements(v).value[i]); }
  }

  lemma ReferencesCanon(p: Value)
    requires WellFormed(p) && p.Obj? && References(p).Some?
    requires forall i :: 0 <= i < |References(p).value| ==> StorableReference(References(p).value[i])
    ensures References(Canon(p)).Some?
    ensures forall i :: 0 <= i < |References(Canon(p)).value| ==> StorableReference(References(Canon(p)).value[i])
  {
    hide StorableReference, Canon, Get;
    CanonNull();
    CanonGetOr(p, "external_references", Arr([]));
    GetWellFormed(p, "external_references");
    var v := GetOr(p, "external_references", Arr([]));
    forall i | 0 <= i < |Elements(v).value| ensures Elements(v).value[i].Obj? { NoStepWithoutDict(Elements(v).value[i]); }
    ElementsCanon(v);
    forall i | 0 <= i < |Elements(v).value| ensures StorableReference(Canon(Elements(v).value[i])) {
      StorableReferenceCanon(Elements(v).value[i]);
    }
  }

  lemma StorableReferenceCanon(item: Value)
    requires WellFormed(item) && item.Obj? && StorableReference(item)
    ensures StorableReference(Canon(item))
  {
    hide Canon, CanonicalJson, Bind, BindNotNull, Get, Digest;
    CanonBind(item, "namespace");
    CanonGet(item, "external_id");
    CanonLiteral("context");
    CanonGetOr(item, "relation", Str("context"));
    CanonScalar(GetOr(item, "relation", Str("context")));
  }

  lemma CanonLiteral(s: string)
    ensures Canon(Str(s)) == Str(s)
  {
  }

  lemma StorableItemCanon(item: Value)
    requires WellFormed(item) && StorableItem(item)
    ensures StorableItem(Canon(item))
  {
    hide MakeRow, Canon;
    CanonMakeRow("", 0, item, None, "", "");
  }

  // ----- insertion -----

  // The two stores agree on where a session or a content is.
  lemma LookupsAgree(t: Tables, m: MemStore, s: Value, hash: Hash)
    requires Inv(t) && R(t, m)
    ensures IsString(s) ==> (s in m.sessions <==> FindSession(t.tasks, s) < |t.tasks|)
    ensures IsString(s) && s in m.sessions ==>
              (m.sessions[s] == t.tasks[FindSession(t.tasks, s)].id && m.sessions[s] in m.tasks
               && m.tasks[m.sessions[s]].payloadHash == t.tasks[FindSession(t.tasks, s)].payloadHash)
    ensures FindContent(m.tasks, hash) == if FindHash(t.tasks, hash) < |t.tasks| then Some(t.tasks[FindHash(t.tasks, hash)].id) else None
  {
    hide PayloadsStored, ClaimsMatch, ChainsBuilt, ConfirmationsMatch, DraftsFit, Loads, Canon;
    if IsString(s) && s in m.sessions { assert HasSession(t.tasks, s); }
    ContentAgrees(t, m, hash);
  }

  lemma ContentAgrees(t: Tables, m: MemStore, hash: Hash)
    requires TasksUnique(t.tasks) && TasksMatch(t.tasks, m.tasks)
    ensures FindContent(m.tasks, hash) == if FindHash(t.tasks, hash) < |t.tasks| then Some(t.tasks[FindHash(t.tasks, hash)].id) else None
  {
    hide Loads, Canon;
    var k := FindHash(t.tasks, hash);
    var found := FindContent(m.tasks, hash);
    if k < |t.tasks| {
      assert HoldsContent(m.tasks, t.tasks[k].id, hash);
    }
    if found.Some? {
      assert HasTaskRow(t.tasks, found.value);
      var j :| 0 <= j < |t.tasks| && t.tasks[j].id == found.value;
      assert TaskMatches(t.tasks[j], m.tasks[found.value]);
      assert t.tasks[j].payloadHash == hash;
    }
  }

  // Same refusal, or same answer and related stores.
  ghost predicate InsertsAgree(t: Tables, m: MemStore, r: Outcome<Inserted>, s: Outcome<(MemStore, string, bool)>) {
    match (r, s)
    case (Ok(ins), Ok((m', id, duplicate))) =>
      ins.taskId == id && ins.duplicate == duplicate && R(ins.tables, m') && ins.tables.confirmations == t.confirmations
      && m'.confirmations == m.confirmations
    case (Err(e), Err(e')) => e == e' == SessionConflict
    case _ => false
  }

  // Inserting the same payload, up to key order, on both sides.
  lemma InsertRefines(t: Tables, m: MemStore, p: Value, q: Value, hash: Hash, committedAt: string, mode: Mode,
                      authorization: Value, uuid: Uuids, now: string)
    requires Inv(t) && R(t, m) && PayloadFits(p) && WellFormed(q) && q.Obj? && Canon(p) == Canon(q) && Unused(t, uuid)
    requires WellFormed(authorization) && PayloadDigest(p) == hash
    ensures InsertsAgree(t, m, InsertTask(t, p, hash, committedAt, mode, authorization, uuid, now),
                         MemInsert(m, q, hash, mode, authorization, uuid, now))
  {
    hide Inv, R, PayloadFits, WellFormed, InsertFresh, Unused, Canon, PayloadDigest, FindContent, MakeMemTask, BindText,
         FindSession, FindHash, Get, GetOr, Storable;
    FitsMeans(p);
    SessionAgrees(p, q);
    var session := GetOr(p, SESSION, Null);
    BindsItself(session);
    LookupsAgree(t, m, session, hash);
    if (session.Null? || session !in m.sessions) && FindHash(t.tasks, hash) == |t.tasks| {
      FreshRefines(t, m, p, q, hash, committedAt, mode, authorization, uuid, now);
    }
  }

  lemma FitsMeans(p: Value)
    requires PayloadFits(p)
    ensures WellFormed(p) && p.Obj? && Storable(p)
    ensures GetOr(p, SESSION, Null).Null? || (IsString(GetOr(p, SESSION, Null)) && Truthy(GetOr(p, SESSION, Null)))
  {
  }

  lemma FreshRefines(t: Tables, m: MemStore, p: Value, q: Value, hash: Hash, committedAt: string, mode: Mode,
                     authorization: Value, uuid: Uuids, now: string)
    requires Inv(t) && R(t, m) && PayloadFits(p) && WellFormed(q) && q.Obj? && Canon(p) == Canon(q) && Unused(t, uuid)
    requires WellFormed(authorization)
    requires FindHash(t.tasks, hash) == |t.tasks|
    requires GetOr(p, SESSION, Null).Null? || FindSession(t.tasks, GetOr(p, SESSION, Null)) == |t.tasks|
    ensures var r := InsertFresh(t, p, hash, committedAt, mode, authorization, uuid, now);
            var mem := MakeMemTask(q, hash, mode, authorization, now);
            var id := NewId("task", uuid(0));
            var session := GetOr(q, SESSION, Null);
            && r.Ok? && mem.Some? && r.value.taskId == id && !r.value.duplicate && r.value.tables.confirmations == t.confirmations
            && R(r.value.tables, m.(tasks := m.tasks[id := mem.value],
                                    sessions := if Truthy(session) then m.sessions[session := id] else m.sessions))
  {
    hide Inv, R, Storable, PayloadFits, WellFormed, InsertFresh, Unused, Canon, MakeMemTask, MakeTask, TaskFits, TaskMatches, BindText,
         Insertion.FreshAdded, Constraints;
    FitsMeans(p);
    SessionAgrees(p, q);
    BindsItself(GetOr(p, SESSION, Null));
    NoSuchSession(t, GetOr(p, SESSION, Null));
    FreshInsertSucceeds(t, p, hash, committedAt, mode, authorization, uuid, now);
    Insertion.FreshInserted(t, p, hash, committedAt, mode, authorization, uuid, now);
    var u := InsertFresh(t, p, hash, committedAt, mode, authorization, uuid, now).value.tables;
    var task := FreshShape(t, u, p, hash, committedAt, mode, authorization, uuid, now);
    FreshMatches(p, q, hash, committedAt, mode, authorization, NewId("task", uuid(0)), now);
    var mem := MakeMemTask(q, hash, mode, authorization, now).value;
    MemSession(q, hash, mode, authorization, now);
    TaskSession(task, mem);
    AddedTaskRefines(t, u, m, task, mem);
  }

  lemma MemSession(q: Value, hash: Hash, mode: Mode, authorization: Value, now: string)
    requires MakeMemTask(q, hash, mode, authorization, now).Some?
    ensures MakeMemTask(q, hash, mode, authorization, now).value.session == GetOr(q, SESSION, Null)
  {
    hide Get;
  }

  lemma BindsItself(v: Value)
    requires v.Null? || IsString(v)
    ensures BindText(v) == Some(v)
  {
  }

  lemma NoSuchSession(t: Tables, s: Value)
    requires s.Null? || (IsString(s) && FindSession(t.tasks, s) == |t.tasks|)
    ensures s.Null? || forall i :: 0 <= i < |t.tasks| ==> t.tasks[i].session != s
  {
  }

  lemma FreshMatches(p: Value, q: Value, hash: Hash, committedAt: string, mode: Mode, authorization: Value, id: string, now: string)
    requires PayloadFits(p) && WellFormed(q) && q.Obj? && Canon(p) == Canon(q) && WellFormed(authorization)
    requires MakeTask(p, hash, committedAt, mode, authorization, id, now).Some?
    ensures MakeMemTask(q, hash, mode, authorization, now).Some?
    ensures TaskMatches(MakeTask(p, hash, committedAt, mode, authorization, id, now).value, MakeMemTask(q, hash, mode, authorization, now).value)
  {
    hide Canon, CanonicalJson, Loads, BindText, BindNotNull, Get, ContextRefHash, PayloadFits, OrEmpty, WellFormed,
         SignatureOf, NormalizeLabel, PyStr;
    FitsMeans(p);
    SessionAgrees(p, q);
    BindsItself(GetOr(p, SESSION, Null));
    LoadsCanonicalJson(p);
    OrEmptyWellFormed(authorization);
    LoadsCanonicalJson(OrEmpty(authorization));
    SameKeys(p, q, "task_type");
    SameKeys(p, q, "final_result");
    CanonNull();
    CanonGetOr(p, "final_result", Null);
    CanonGetOr(q, "final_result", Null);
    var rp, rq := GetOr(p, "final_result", Null), GetOr(q, "final_result", Null);
    GetOrWellFormed(p, "final_result");
    GetOrWellFormed(q, "final_result");
    CanonObject(rp);
    CanonObject(rq);
    SameKeys(rp, rq, "adoption_status");
    SameBinds(p, q, "task_type");
    SameBinds(rp, rq, "adoption_status");
    BoundIsPresent(p, rp);
    BoundIsPresent(q, rq);
  }

  lemma OrEmptyWellFormed(v: Value)
    requires WellFormed(v)
    ensures WellFormed(OrEmpty(v))
  {
  }

  lemma BoundIsPresent(p: Value, result: Value)
    ensures Bind(Get(p, "task_type")).Some? ==> Get(p, "task_type").Some?
    ensures Bind(Get(result, "adoption_status")).Some? ==> Get(result, "adoption_status").Some?
  {
    hide Get;
  }

  lemma SameBinds(p: Value, q: Value, k: string)
    requires WellFormed(p) && WellFormed(q) && p.Obj? && q.Obj? && Canon(p) == Canon(q)
    ensures Bind(Get(p, k)) == Bind(Get(q, k)) && PyStr(GetOr(p, k, Null)) == PyStr(GetOr(q, k, Null))
  {
    hide Canon, BindNotNull, PyStr;
    CanonBind(p, k);
    CanonBind(q, k);
    CanonNull();
    CanonGetOr(p, k, Null);
    CanonGetOr(q, k, Null);
    PyStrSorted(GetOr(p, k, Null));
    PyStrSorted(GetOr(q, k, Null));
  }

  lemma PyStrSorted(v: Value)
    ensures PyStr(Canon(v)) == PyStr(v)
  {
  }

  lemma SameKeys(p: Value, q: Value, k: string)
    requires WellFormed(p) && WellFormed(q) && p.Obj? && q.Obj? && Canon(p) == Canon(q)
    ensures Get(p, k).Some? <==> Get(q, k).Some?
  {
    hide Canon;
    CanonGet(p, k);
    CanonGet(q, k);
  }

  lemma AddedTaskRefines(t: Tables, u: Tables, m: MemStore, task: TaskRow, mem: MemTask)
    requires R(t, m) && TaskFits(t, task) && u.tasks == t.tasks + [task] && u.confirmations == t.confirmations
    requires TaskMatches(task, mem) && (task.session.Null? || (IsString(task.session) && Truthy(task.session)))
    ensures R(u, m.(tasks := m.tasks[task.id := mem],
                    sessions := if Truthy(mem.session) then m.sessions[mem.session := task.id] else m.sessions))
  {
    hide ConfirmationsMatch, DraftsFit, TaskMatches, Loads, Canon;
    AddedTaskMatches(t.tasks, m.tasks, task, mem);
    TaskSession(task, mem);
    AddedSessionMatches(t.tasks, m.sessions, task);
  }

  lemma TaskSession(task: TaskRow, mem: MemTask)
    requires TaskMatches(task, mem)
    ensures mem.session == task.session
  {
  }

  lemma AddedTaskMatches(rows: seq<TaskRow>, tasks: map<string, MemTask>, task: TaskRow, mem: MemTask)
    requires TasksMatch(rows, tasks) && TaskMatches(task, mem) && forall i :: 0 <= i < |rows| ==> rows[i].id != task.id
    ensures TasksMatch(rows + [task], tasks[task.id := mem])
  {
    hide TaskMatches;
    var all := rows + [task];
    forall id | id in tasks[task.id := mem] ensures HasTaskRow(all, id) {
      if id == task.id {
        assert all[|rows|].id == id;
      } else {
        assert HasTaskRow(rows, id);
        var i :| 0 <= i < |rows| && rows[i].id == id;
        assert all[i].id == id;
      }
    }
  }

  lemma AddedSessionMatches(rows: seq<TaskRow>, sessions: map<Value, string>, task: TaskRow)
    requires SessionsMatch(rows, sessions) && (task.session.Null? || (IsString(task.session) && Truthy(task.session)))
    requires task.session.Null? || forall i :: 0 <= i < |rows| ==> rows[i].session != task.session
    ensures SessionsMatch(rows + [task], if Truthy(task.session) then sessions[task.session := task.id] else sessions)
  {
    var all := rows + [task];
    var next := if Truthy(task.session) then sessions[task.session := task.id] else sessions;
    forall s | s in next ensures HasSession(all, s) && !s.Null? {
      if s == task.session {
        assert all[|rows|].session == s;
      } else {
        assert HasSession(rows, s);
        var i :| 0 <= i < |rows| && rows[i].session == s;
        assert all[i].session == s;
      }
    }
  }

  // ----- confirmations -----

  lemma RowsAgree(t: Tables, m: MemStore, id: string)
    requires ConfirmationsMatch(t.confirmations, m.confirmations)
    ensures id in m.confirmations <==> FindConfirmation(t.confirmations, id) < |t.confirmations|
    ensures id in m.confirmations ==> ConfirmationMatches(t.confirmations[FindConfirmation(t.confirmations, id)], m.confirmations[id])
  {
    hide ConfirmationMatches;
    if id in m.confirmations { assert HasRow(t.confirmations, id); }
  }

  lemma AppendedRowMatches(rows: seq<Confirmation>, cs: map<string, MemConfirmation>, row: Confirmation, c: MemConfirmation)
    requires ConfirmationsMatch(rows, cs) && ConfirmationMatches(row, c) && !HasRow(rows, row.id)
    ensures ConfirmationsMatch(rows + [row], cs[row.id := c])
  {
    hide ConfirmationMatches;
    var all := rows + [row];
    forall id | id in cs[row.id := c] ensures HasRow(all, id) {
      if id == row.id {
        assert all[|rows|].id == id;
      } else {
        assert HasRow(rows, id);
        var i :| 0 <= i < |rows| && rows[i].id == id;
        assert all[i].id == id;
      }
    }
  }

  lemma UpdatedRowMatches(rows: seq<Confirmation>, cs: map<string, MemConfirmation>, i: nat, row: Confirmation, c: MemConfirmation)
    requires ConfirmationsUnique(rows) && ConfirmationsMatch(rows, cs) && i < |rows| && row.id == rows[i].id && ConfirmationMatches(row, c)
    ensures ConfirmationsMatch(rows[i := row], cs[row.id := c])
  {
    hide ConfirmationMatches;
    var all := rows[i := row];
    forall id | id in cs[row.id := c] ensures HasRow(all, id) {
      if id == row.id {
        assert all[i].id == id;
      } else {
        assert HasRow(rows, id);
        var k :| 0 <= k < |rows| && rows[k].id == id;
        assert all[k].id == id;
      }
    }
  }

  lemma CreatedMatches(payload: Value, uuid: Uuids, now: string)
    requires WellFormed(payload)
    ensures ConfirmationMatches(NewConfirmation(payload, uuid, now), NewMemConfirmation(payload, now))
    ensures RowCheck(NewConfirmation(payload, uuid, now))
  {
    hide Canon, CanonicalJson, Loads, PayloadDigest, WellFormed, Blank;
    LoadsCanonicalJson(payload);
  }

  lemma AppendedDraftsFit(rows: seq<Confirmation>, row: Confirmation)
    requires DraftsFit(rows) && Loads(row.payloadJson).Some? && PayloadFits(Loads(row.payloadJson).value)
    ensures DraftsFit(rows + [row])
  {
    hide Loads, PayloadFits;
  }

  lemma CreateTransacts(t: Tables, m: MemStore, a: O.Action)
    requires a.Create? && Fits(t, a) && RowCheck(NewConfirmation(a.payload, a.uuid, a.now))
    ensures var (row, c, hash) := (NewConfirmation(a.payload, a.uuid, a.now), NewMemConfirmation(a.payload, a.now), PayloadDigest(a.payload));
            && !HasRow(t.confirmations, row.id)
            && O.Transact(t, a) == Ok((t.(confirmations := t.confirmations + [row]), O.Created(row.id, hash, a.now)))
            && MemStep(m, a) == MemReply(m.(confirmations := m.confirmations[row.id := c]), Ok(Created(row.id, hash, a.now)))
  {
    hide PayloadFits, PayloadDigest, NewConfirmation, NewMemConfirmation, RowCheck;
    NewRowFields(a.payload, a.uuid, a.now);
  }

  lemma CreateRefines(t: Tables, m: MemStore, a: O.Action)
    requires Inv(t) && R(t, m) && a.Create? && Fits(t, a)
    ensures Agree(O.Transact(t, a), MemStep(m, a))
  {
    hide Inv, ConfirmationsMatch, TasksMatch, SessionsMatch, DraftsFit, PayloadFits, Canon, CanonicalJson, Loads, PayloadDigest, WellFormed,
         ConfirmationMatches, NewConfirmation, NewMemConfirmation, RowCheck, O.Transact, MemStep;
    var row, c := NewConfirmation(a.payload, a.uuid, a.now), NewMemConfirmation(a.payload, a.now);
    FitsMeans(a.payload);
    CreatedMatches(a.payload, a.uuid, a.now);
    NewRowFields(a.payload, a.uuid, a.now);
    LoadsCanonicalJson(a.payload);
    FitsCanon(a.payload);
    CreateTransacts(t, m, a);
    AppendedDraftsFit(t.confirmations, row);
    AppendedRowMatches(t.confirmations, m.confirmations, row, c);
  }

  lemma NewRowFields(payload: Value, uuid: Uuids, now: string)
    ensures var row := NewConfirmation(payload, uuid, now);
            row.id == NewId("confirm", uuid(0)) && row.payloadJson == CanonicalJson(payload) && row.taskId.None?
  {
    hide CanonicalJson, PayloadDigest;
  }

  // A confirm call whose arguments fit: refused for the same rows on both sides.
  lemma ConfirmTransacts(t: Tables, a: O.Action, i: nat)
    requires a.Confirm? && Fits(t, a) && i == FindConfirmation(t.confirmations, a.id)
    requires i < |t.confirmations| ==> RowCheck(t.confirmations[i])
    ensures O.Transact(t, a) ==
            if i == |t.confirmations| || t.confirmations[i].status != Prepared || t.confirmations[i].payloadHash != a.expected then
              Err(ConfirmationError)
            else
              var row := ConfirmedRow(t.confirmations[i], a.how, a.identity, a.source, a.now);
              Ok((t.(confirmations := t.confirmations[i := row]), O.ConfirmationIs(row)))
  {
    hide FindConfirmation, Blank;
    if i < |t.confirmations| { Store.Refound(t.confirmations, a.id, i, ConfirmedRow(t.confirmations[i], a.how, a.identity, a.source, a.now)); }
  }

  lemma ConfirmRefines(t: Tables, m: MemStore, a: O.Action)
    requires Inv(t) && R(t, m) && a.Confirm? && Fits(t, a)
    ensures Agree(O.Transact(t, a), MemStep(m, a))
  {
    hide Inv, TasksMatch, SessionsMatch, Loads, Canon, ConfirmationsMatch, ConfirmationMatches, DraftsFit, RowCheck, O.Transact, Fits,
         StoredPayload, FindConfirmation;
    RowsAgree(t, m, a.id);
    var i := FindConfirmation(t.confirmations, a.id);
    if i < |t.confirmations| {
      InvRow(t, i);
      MatchFields(t.confirmations[i], m.confirmations[a.id]);
      var row := ConfirmedRow(t.confirmations[i], a.how, a.identity, a.source, a.now);
      var c := ConfirmedMem(m.confirmations[a.id], a.how, a.identity, a.source, a.now);
      ConfirmedMatches(t.confirmations[i], m.confirmations[a.id], a);
      UpdatedRowMatches(t.confirmations, m.confirmations, i, row, c);
      UpdatedDraftsFit(t.confirmations, i, row);
    }
    ConfirmTransacts(t, a, i);
  }

  lemma ConfirmedMatches(row: Confirmation, c: MemConfirmation, a: O.Action)
    requires a.Confirm? && ConfirmationMatches(row, c)
    ensures ConfirmationMatches(ConfirmedRow(row, a.how, a.identity, a.source, a.now), ConfirmedMem(c, a.how, a.identity, a.source, a.now))
  {
    hide Loads, Canon, WellFormed;
  }

  lemma UpdatedDraftsFit(rows: seq<Confirmation>, i: nat, row: Confirmation)
    requires DraftsFit(rows) && i < |rows| && row.payloadJson == rows[i].payloadJson
    ensures DraftsFit(rows[i := row])
  {
    hide Loads, PayloadFits;
  }

  // ----- the two persisting calls -----

  // The draft can be consumed, but the task it would be answered with is already
  // claimed by a confirmation: the one thing the reference adapter would accept.
  ghost predicate AlreadyClaimed(m: MemStore, a: O.Action) {
    && a.Consume? && a.id in m.confirmations
    && m.confirmations[a.id].status == Confirmed && m.confirmations[a.id].payloadHash == a.expected
    && var target := Target(m, m.confirmations[a.id].payload, a.expected);
       target.Some? && Claimed(m, target.value)
  }

  ghost predicate Claimed(m: MemStore, taskId: string) {
    exists other :: other in m.confirmations && m.confirmations[other].taskId == Some(taskId)
  }

  // Same refusal, or same answer and related stores.
  ghost predicate Agree(r: Outcome<(Tables, O.Response)>, s: MemReply) {
    match (r, s.result)
    case (Ok((t', x)), Ok(y)) => R(t', s.store) && SameResponse(x, y)
    case (Err(e), Err(e')) => e == e'
    case _ => false
  }

  ghost predicate SameResponse(x: O.Response, y: MemResponse) {
    match (x, y)
    case (Created(a, b, c), Created(a', b', c')) => a == a' && b == b' && c == c'
    case (ConfirmationIs(row), ConfirmationIs(row')) => ConfirmationMatches(row, row')
    case (Persisted(a, b, c), Persisted(a', b', c')) => a == a' && b == b' && c == c'
    case _ => false
  }

  lemma AuthorizeRefines(t: Tables, m: MemStore, a: O.Action)
    requires Inv(t) && R(t, m) && a.Authorize? && Fits(t, a)
    ensures Agree(O.Transact(t, a), MemStep(m, a))
  {
    hide *;
    AuthorizeFits(t, a);
    InsertRefines(t, m, a.payload, a.payload, PayloadDigest(a.payload), a.now, Enterprise, a.authorization, a.uuid, a.now);
    AgreeAuthorize(t, m, a);
  }

  lemma AuthorizeFits(t: Tables, a: O.Action)
    requires a.Authorize? && Fits(t, a)
    ensures PayloadFits(a.payload) && WellFormed(a.payload) && a.payload.Obj? && WellFormed(a.authorization) && Unused(t, a.uuid)
  {
    hide PayloadFits, Unused, WellFormed;
    FitsMeans(a.payload);
  }

  // What the two insertions agree on, the two calls agree on.
  lemma AgreeAuthorize(t: Tables, m: MemStore, a: O.Action)
    requires a.Authorize?
    requires InsertsAgree(t, m, InsertTask(t, a.payload, PayloadDigest(a.payload), a.now, Enterprise, a.authorization, a.uuid, a.now),
                          MemInsert(m, a.payload, PayloadDigest(a.payload), Enterprise, a.authorization, a.uuid, a.now))
    ensures Agree(O.Transact(t, a), MemStep(m, a))
  {
    hide R, InsertTask, MemInsert, PayloadDigest;
    var r := InsertTask(t, a.payload, PayloadDigest(a.payload), a.now, Enterprise, a.authorization, a.uuid, a.now);
    assert O.Transact(t, a) == match r
                               case Err(e) => Err(e)
                               case Ok(ins) => Ok((ins.tables, O.Persisted(ins.taskId, ins.duplicate, PayloadDigest(a.payload))));
  }

  lemma ConsumeRefines(t: Tables, m: MemStore, a: O.Action)
    requires Inv(t) && R(t, m) && a.Consume? && Fits(t, a)
    ensures O.Transact(t, a) == Err(UniqueViolation) <==> AlreadyClaimed(m, a)
    ensures O.Transact(t, a) != Err(UniqueViolation) ==> Agree(O.Transact(t, a), MemStep(m, a))
  {
    hide R, Inv, Unused, InsertTask, MemInsert, Loads, Canon, RowCheck, ConfirmationsMatch, DraftsFit, ConfirmationMatches, StoredPayload,
         MemStep, O.Transact, FindConfirmation, Agree;
    RParts(t, m);
    RowsAgree(t, m, a.id);
    var i := FindConfirmation(t.confirmations, a.id);
    if i < |t.confirmations| {
      MatchFields(t.confirmations[i], m.confirmations[a.id]);
      InvRow(t, i);
      if Consumable(t.confirmations, i, a.expected) { ConsumableRefines(t, m, a, i); } else { NotConsumable(t, m, a, i); }
    } else {
      NotConsumable(t, m, a, i);
    }
  }

  lemma NotConsumable(t: Tables, m: MemStore, a: O.Action, i: nat)
    requires a.Consume? && i == FindConfirmation(t.confirmations, a.id) && !Consumable(t.confirmations, i, a.expected)
    requires a.id !in m.confirmations || m.confirmations[a.id].status != Confirmed || m.confirmations[a.id].payloadHash != a.expected
    ensures O.Transact(t, a) == Err(ConfirmationError) && MemStep(m, a) == MemReply(m, Err(ConfirmationError))
    ensures !AlreadyClaimed(m, a) && Agree(O.Transact(t, a), MemStep(m, a))
  {
    hide InsertTask, MemInsert, Loads, FindConfirmation;
  }

  lemma RParts(t: Tables, m: MemStore)
    requires R(t, m)
    ensures ConfirmationsMatch(t.confirmations, m.confirmations) && DraftsFit(t.confirmations)
  {
  }

  lemma MatchFields(row: Confirmation, c: MemConfirmation)
    requires ConfirmationMatches(row, c)
    ensures row.status == c.status && row.payloadHash == c.payloadHash && row.taskId == c.taskId
    ensures WellFormed(c.payload) && Loads(row.payloadJson) == Some(Canon(c.payload))
  {
  }

  lemma InvRow(t: Tables, i: nat)
    requires Inv(t) && i < |t.confirmations|
    ensures RowCheck(t.confirmations[i]) && StoredPayload(t.confirmations[i].payloadJson, t.confirmations[i].payloadHash)
    ensures t.confirmations[i].status == Confirmed ==> t.confirmations[i].consumedAt.None? && t.confirmations[i].confirmedAt.Some?
    ensures ConfirmationsUnique(t.confirmations)
  {
  }

  // The payload the draft loads back to, and the one the dict holds, insert alike.
  lemma DraftInserts(t: Tables, m: MemStore, a: O.Action, i: nat)
    requires Inv(t) && R(t, m) && a.Consume? && Unused(t, a.uuid) && i < |t.confirmations| && a.id in m.confirmations
    requires t.confirmations[i].confirmedAt.Some? && ConfirmationMatches(t.confirmations[i], m.confirmations[a.id])
    ensures Loads(t.confirmations[i].payloadJson).Some?
    ensures InsertsAgree(t, m, DraftInsert(t, a, i),
                         MemInsert(m, m.confirmations[a.id].payload, t.confirmations[i].payloadHash, Personal, Null, a.uuid, a.now))
  {
    hide Inv, R, Unused, InsertTask, MemInsert, Loads, Canon, PayloadDigest, RowCheck, ConfirmationMatches, PayloadFits;
    var row, c := t.confirmations[i], m.confirmations[a.id];
    MatchFields(row, c);
    InvRow(t, i);
    DraftFits(t, m, i);
    CanonIdempotent(c.payload);
    CanonObject(c.payload);
    var p := Loads(row.payloadJson).value;
    FitsMeans(p);
    InsertRefines(t, m, p, c.payload, row.payloadHash, row.confirmedAt.value, Personal, Null, a.uuid, a.now);
  }

  function DraftInsert(t: Tables, a: O.Action, i: nat): Outcome<Inserted>
    requires a.Consume? && i < |t.confirmations| && t.confirmations[i].confirmedAt.Some? && Loads(t.confirmations[i].payloadJson).Some?
  {
    var row := t.confirmations[i];
    InsertTask(t, Loads(row.payloadJson).value, row.payloadHash, row.confirmedAt.value, Personal, Null, a.uuid, a.now)
  }

  // What a consumption of a consumable row comes to.
  lemma ConsumeTransacts(t: Tables, a: O.Action, i: nat)
    requires a.Consume? && i == FindConfirmation(t.confirmations, a.id) && Consumable(t.confirmations, i, a.expected)
    requires RowCheck(t.confirmations[i]) && Loads(t.confirmations[i].payloadJson).Some?
    ensures t.confirmations[i].confirmedAt.Some?
    ensures O.Transact(t, a) ==
            match DraftInsert(t, a, i)
            case Err(e) => Err(e)
            case Ok(ins) =>
              if !TaskUnclaimed(t.confirmations, ins.taskId) then Err(UniqueViolation)
              else
                var next := ConsumedRow(t.confirmations[i], ins.taskId, a.now);
                Ok((ins.tables.(confirmations := t.confirmations[i := next]), O.Persisted(ins.taskId, ins.duplicate, a.expected)))
  {
    hide FindConfirmation, InsertTask, Loads, TaskUnclaimed;
  }

  lemma ConsumeMemSteps(m: MemStore, a: O.Action)
    requires a.Consume? && a.id in m.confirmations && m.confirmations[a.id].status == Confirmed
    requires m.confirmations[a.id].payloadHash == a.expected
    ensures MemStep(m, a) ==
            match MemInsert(m, m.confirmations[a.id].payload, a.expected, Personal, Null, a.uuid, a.now)
            case Err(e) => MemReply(m, Err(e))
            case Ok((m', taskId, duplicate)) =>
              MemReply(m'.(confirmations := m'.confirmations[a.id := ConsumedMem(m.confirmations[a.id], taskId, a.now)]),
                       Ok(Persisted(taskId, duplicate, a.expected)))
  {
    hide MemInsert;
  }

  lemma ConsumableRefines(t: Tables, m: MemStore, a: O.Action, i: nat)
    requires Inv(t) && R(t, m) && a.Consume? && Unused(t, a.uuid)
    requires i == FindConfirmation(t.confirmations, a.id) && Consumable(t.confirmations, i, a.expected) && a.id in m.confirmations
    requires ConfirmationMatches(t.confirmations[i], m.confirmations[a.id])
    ensures O.Transact(t, a) == Err(UniqueViolation) <==> AlreadyClaimed(m, a)
    ensures O.Transact(t, a) != Err(UniqueViolation) ==> Agree(O.Transact(t, a), MemStep(m, a))
  {
    hide R, Inv, Unused, DraftInsert, MemInsert, Loads, Canon, RowCheck, ConfirmationsMatch, DraftsFit, TaskUnclaimed,
         ConfirmationMatches, FindConfirmation, O.Transact, MemStep, StoredPayload, ConsumedRow, ConsumedMem, Target, Claimed;
    var row, c := t.confirmations[i], m.confirmations[a.id];
    MatchFields(row, c);
    InvRow(t, i);
    DraftInserts(t, m, a, i);
    ConsumeTransacts(t, a, i);
    ConsumeMemSteps(m, a);
    TargetRefused(m, c.payload, row.payloadHash, Personal, Null, a.uuid, a.now);
    if DraftInsert(t, a, i).Ok? {
      var taskId := DraftInsert(t, a, i).value.taskId;
      RParts(t, m);
      ClaimsAgree(t, m, taskId);
      TargetAnswered(m, c.payload, row.payloadHash, Personal, Null, a.uuid, a.now);
      NewIdUnclaimed(t, a.uuid);
      if TaskUnclaimed(t.confirmations, taskId) {
        var m' := MemInsert(m, c.payload, row.payloadHash, Personal, Null, a.uuid, a.now).value.0;
        ConsumedKeepsR(t, m, DraftInsert(t, a, i).value.tables, m', i, a.id, taskId, a.now);
      }
    }
  }

  // A duplicate is answered with the target; otherwise there was none.
  lemma TargetAnswered(m: MemStore, payload: Value, hash: Hash, mode: Mode, authorization: Value, uuid: Uuids, now: string)
    requires MemInsert(m, payload, hash, mode, authorization, uuid, now).Ok?
    ensures var (m', id, duplicate) := MemInsert(m, payload, hash, mode, authorization, uuid, now).value;
            if duplicate then Target(m, payload, hash) == Some(id)
            else Target(m, payload, hash) == None && id == NewId("task", uuid(0))
  {
    hide MakeMemTask, FindContent, NewId;
  }

  lemma TargetRefused(m: MemStore, payload: Value, hash: Hash, mode: Mode, authorization: Value, uuid: Uuids, now: string)
    ensures MemInsert(m, payload, hash, mode, authorization, uuid, now) == Err(SessionConflict) ==> Target(m, payload, hash) == None
  {
    hide MakeMemTask, FindContent, NewId;
  }

  // No confirmation claims an id that no task has.
  lemma NewIdUnclaimed(t: Tables, uuid: Uuids)
    requires Inv(t) && Unused(t, uuid)
    ensures TaskUnclaimed(t.confirmations, NewId("task", uuid(0)))
  {
    hide PayloadsStored, ClaimsMatch, ChainsBuilt, NewId, HashedOver, ConfirmationsUnique, TasksUnique, ProcessesUnique, PathsUnique, StepsUnique,
         EvidenceUnique, LineageUnique, ReferencesUnique, RowCheck;
  }

  lemma ConsumedKeepsR(t: Tables, m: MemStore, u: Tables, m': MemStore, i: nat, id: string, taskId: string, now: string)
    requires Inv(t) && R(t, m) && R(u, m') && u.confirmations == t.confirmations && m'.confirmations == m.confirmations
    requires i < |t.confirmations| && t.confirmations[i].id == id && id in m.confirmations
    ensures R(u.(confirmations := t.confirmations[i := ConsumedRow(t.confirmations[i], taskId, now)]),
              m'.(confirmations := m'.confirmations[id := ConsumedMem(m.confirmations[id], taskId, now)]))
  {
    hide R, Inv, ConfirmationMatches, DraftsFit, Loads, StoredPayload, RowCheck;
    RParts(t, m);
    InvRow(t, i);
    var next, c := ConsumedRow(t.confirmations[i], taskId, now), ConsumedMem(m.confirmations[id], taskId, now);
    ConsumedMatches(t.confirmations[i], m.confirmations[id], taskId, now);
    UpdatedRowMatches(t.confirmations, m.confirmations, i, next, c);
    UpdatedDraftsFit(t.confirmations, i, next);
    UpdatedR(u, m', t.confirmations[i := next], m.confirmations[id := c]);
  }

  lemma DraftFits(t: Tables, m: MemStore, i: nat)
    requires R(t, m) && i < |t.confirmations|
    ensures Loads(t.confirmations[i].payloadJson).Some? && PayloadFits(Loads(t.confirmations[i].payloadJson).value)
  {
    hide Loads, PayloadFits;
  }

  lemma ConsumedMatches(row: Confirmation, c: MemConfirmation, taskId: string, now: string)
    requires ConfirmationMatches(row, c)
    ensures ConfirmationMatches(ConsumedRow(row, taskId, now), ConsumedMem(c, taskId, now))
  {
  }

  lemma UpdatedR(t: Tables, m: MemStore, rows: seq<Confirmation>, cs: map<string, MemConfirmation>)
    requires R(t, m) && ConfirmationsMatch(rows, cs) && DraftsFit(rows)
    ensures R(t.(confirmations := rows), m.(confirmations := cs))
  {
    hide ConfirmationsMatch, DraftsFit, TasksMatch, SessionsMatch;
  }

  lemma ClaimsAgree(t: Tables, m: MemStore, taskId: string)
    requires ConfirmationsMatch(t.confirmations, m.confirmations)
    ensures TaskUnclaimed(t.confirmations, taskId) <==> !Claimed(m, taskId)
  {
    hide Loads, Canon, WellFormed;
    if other :| other in m.confirmations && m.confirmations[other].taskId == Some(taskId) {
      assert HasRow(t.confirmations, other);
      var i :| 0 <= i < |t.confirmations| && t.confirmations[i].id == other;
      assert ConfirmationMatches(t.confirmations[i], m.confirmations[other]);
    }
    if !TaskUnclaimed(t.confirmations, taskId) {
      var i :| 0 <= i < |t.confirmations| && t.confirmations[i].taskId == Some(taskId);
      assert ConfirmationMatches(t.confirmations[i], m.confirmations[t.confirmations[i].id]);
    }
  }

  // ----- the refinement -----

  // One call: same refusal or same answer and related stores afterwards, except
  // that a consumption of already claimed content is aborted, leaving the store
  // as it was.
  lemma StepRefines(t: Tables, m: MemStore, a: O.Action)
    requires Inv(t) && R(t, m) && Fits(t, a)
    ensures O.Transact(t, a) == Err(UniqueViolation) <==> AlreadyClaimed(m, a)
    ensures O.Transact(t, a) != Err(UniqueViolation) ==> Agree(O.Transact(t, a), MemStep(m, a))
  {
    hide Inv, R, Agree, CreateConfirmation, ConfirmConfirmation, PersistConfirmed, InsertTask, MemStep;
    match a
    case Create(_, _, _) =>
      CreateRefines(t, m, a);
      NeverUnique(t, a);
    case Confirm(_, _, _, _, _, _) =>
      ConfirmRefines(t, m, a);
      NeverUnique(t, a);
    case Consume(_, _, _, _) => ConsumeRefines(t, m, a);
    case Authorize(_, _, _, _) =>
      AuthorizeRefines(t, m, a);
      NotUnique(O.Transact(t, a), m, a);
  }

  lemma NeverUnique(t: Tables, a: O.Action)
    requires a.Create? || a.Confirm?
    ensures O.Transact(t, a) != Err(UniqueViolation)
  {
    hide ConfirmationFits, CanonicalJson, PayloadDigest, RowCheck;
  }

  lemma NotUnique(r: Outcome<(Tables, O.Response)>, m: MemStore, a: O.Action)
    requires a.Authorize? && Agree(r, MemStep(m, a))
    ensures r != Err(UniqueViolation)
  {
    hide R, PayloadDigest, FindContent, MakeMemTask;
  }

  // ----- the reads -----

  // What a record read from the tables has in common with the dict entry; JSON
  // columns come back with their keys sorted.
  ghost predicate SameTask(x: O.TaskRecord, task: MemTask) {
    && x.payloadHash == task.payloadHash && x.createdAt == task.createdAt && x.session == task.session
    && x.mode == task.mode && x.captureStatus == task.captureStatus
    && x.payload == Canon(task.payload) && x.authorization == Canon(task.authorization)
  }

  // The same task ids and confirmation ids are known, and a read never raises.
  lemma ReadsAgree(t: Tables, m: MemStore, id: string)
    requires Inv(t) && R(t, m)
    ensures O.ReadTask(t, id).Ok?
    ensures O.ReadTask(t, id).value.Some? <==> id in m.tasks
    ensures id in m.tasks ==> O.ReadTask(t, id).value.value.taskId == id && SameTask(O.ReadTask(t, id).value.value, m.tasks[id])
    ensures O.ReadConfirmation(t, id).Some? <==> id in m.confirmations
    ensures id in m.confirmations ==> ConfirmationMatches(O.ReadConfirmation(t, id).value, m.confirmations[id])
  {
    hide Inv, ConfirmationsMatch, ConfirmationMatches, TasksMatch, SessionsMatch, DraftsFit, SameTask, O.Record;
    RowsAgree(t, m, id);
    TaskFoundAlike(t, m, id);
    var k := FindTask(t.tasks, id);
    if k < |t.tasks| {
      TaskInv(t, k);
      LoadsAlike(t.tasks[k], m.tasks[id]);
    }
  }

  lemma TaskFoundAlike(t: Tables, m: MemStore, id: string)
    requires TasksMatch(t.tasks, m.tasks)
    ensures id in m.tasks <==> FindTask(t.tasks, id) < |t.tasks|
    ensures id in m.tasks ==> TaskMatches(t.tasks[FindTask(t.tasks, id)], m.tasks[id])
  {
    hide TaskMatches;
    if id in m.tasks { assert HasTaskRow(t.tasks, id); }
  }

  lemma TaskInv(t: Tables, k: nat)
    requires Inv(t) && k < |t.tasks|
    ensures Readable(t.tasks[k])
  {
  }

  lemma LoadsAlike(row: TaskRow, task: MemTask)
    requires TaskMatches(row, task) && Readable(row)
    ensures O.Record(row).Some? && O.Record(row).value.taskId == row.id && SameTask(O.Record(row).value, task)
  {
    hide Loads, Canon;
  }

  // ----- similar tasks -----

  function Ids(rows: seq<TaskRow>): (r: seq<string>)
    ensures |r| == |rows| && forall i :: 0 <= i < |rows| ==> r[i] == rows[i].id
  {
    seq(|rows|, i requires 0 <= i < |rows| => rows[i].id)
  }

  // With a limit, the relational answer names tasks that the reference adapter
  // could answer with, and shows the same type and adoption status for each.
  lemma SimilarAgrees(t: Tables, m: MemStore, taskType: string, limit: nat)
    requires Inv(t) && R(t, m)
    ensures MemSimilar(m, taskType, limit, Ids(SimilarTasks(t, taskType, limit)))
    ensures forall row :: row in SimilarTasks(t, taskType, limit) ==> row.id in m.tasks && TaskMatches(row, m.tasks[row.id])
  {
    hide Inv, ConfirmationsMatch, SessionsMatch, DraftsFit, TaskMatches, NormalizeLabel, Less, SortNewest;
    var kind := NormalizeLabel(taskType);
    var rows := OfType(t.tasks, kind);
    var all := SortNewest(rows);
    SortedNewest(rows);
    InvTasks(t);
    OfTypeDiffers(t.tasks, kind);
    SortedMembers(rows);
    SortedDiffers(rows);
    forall row | row in all ensures row.id in m.tasks && TaskMatches(row, m.tasks[row.id]) && row.typeLabel == kind {
      var i :| 0 <= i < |t.tasks| && t.tasks[i] == row;
    }
    ArrangedAlike(t, m, kind, all);
    assert Ids(Limited(all, limit)) == Sliced(Ids(all), limit);
  }

  lemma InvTasks(t: Tables)
    requires Inv(t)
    ensures TasksUnique(t.tasks)
  {
  }

  ghost predicate IdsDiffer(rows: seq<TaskRow>) {
    forall i, j :: 0 <= i < j < |rows| ==> rows[i].id != rows[j].id
  }

  lemma {:induction false} OfTypeDiffers(rows: seq<TaskRow>, kind: string)
    requires TasksUnique(rows)
    ensures IdsDiffer(OfType(rows, kind))
  {
    if rows != [] {
      var n := |rows| - 1;
      OfTypeDiffers(rows[..n], kind);
      var r := OfType(rows[..n], kind);
      forall i | 0 <= i < |r| ensures r[i].id != rows[n].id { assert r[i] in rows[..n]; }
    }
  }

  lemma SortedMembers(rows: seq<TaskRow>)
    ensures forall row :: row in SortNewest(rows) <==> row in rows
  {
    forall row ensures row in SortNewest(rows) <==> row in rows {
      assert row in SortNewest(rows) <==> row in multiset(SortNewest(rows));
      assert row in rows <==> row in multiset(rows);
    }
  }

  lemma {:induction false} InsertedDiffers(rows: seq<TaskRow>, row: TaskRow)
    requires IdsDiffer(rows) && forall x :: x in rows ==> x.id != row.id
    ensures IdsDiffer(InsertNewest(rows, row))
  {
    hide Less;
    if rows != [] && !Less(rows[0].createdAt, row.createdAt) {
      InsertedDiffers(rows[1..], row);
      InsertedMembers(rows[1..], row);
      var rest := InsertNewest(rows[1..], row);
      forall j | 0 <= j < |rest| ensures rest[j].id != rows[0].id { assert rest[j] in rest; }
    }
  }

  lemma {:induction false} SortedDiffers(rows: seq<TaskRow>)
    requires IdsDiffer(rows)
    ensures IdsDiffer(SortNewest(rows))
  {
    hide InsertNewest;
    if rows != [] {
      var n := |rows| - 1;
      SortedDiffers(rows[..n]);
      SortedMembers(rows[..n]);
      InsertedDiffers(SortNewest(rows[..n]), rows[n]);
    }
  }

  lemma ArrangedAlike(t: Tables, m: MemStore, kind: string, all: seq<TaskRow>)
    requires TasksMatch(t.tasks, m.tasks) && NewestFirst(all) && IdsDiffer(all)
    requires forall row :: row in all <==> row in t.tasks && row.typeLabel == kind
    requires forall row :: row in all ==> row.id in m.tasks && TaskMatches(row, m.tasks[row.id]) && row.typeLabel == kind
    ensures Arranged(m.tasks, kind, Ids(all))
  {
    hide TaskMatches, Less;
    var ids := Ids(all);
    forall i | 0 <= i < |all| ensures ids[i] in m.tasks && m.tasks[ids[i]].createdAt == all[i].createdAt && m.tasks[ids[i]].typeLabel == kind {
      assert all[i] in all;
      MatchedLabel(all[i], m.tasks[ids[i]]);
    }
    forall id ensures id in ids <==> OfLabel(m.tasks, kind, id) {
      if id in ids {
        var i :| 0 <= i < |ids| && ids[i] == id;
      }
      if OfLabel(m.tasks, kind, id) {
        assert HasTaskRow(t.tasks, id);
        var i :| 0 <= i < |t.tasks| && t.tasks[i].id == id;
        MatchedLabel(t.tasks[i], m.tasks[id]);
        assert t.tasks[i] in all;
        var k :| 0 <= k < |all| && all[k] == t.tasks[i];
        assert ids[k] == id;
      }
    }
  }

  lemma MatchedLabel(row: TaskRow, task: MemTask)
    requires TaskMatches(row, task)
    ensures row.typeLabel == task.typeLabel && row.createdAt == task.createdAt
  {
  }

  // Calls each of which fits the tables it meets.
  ghost predicate RunFits(t: Tables, actions: seq<O.Action>)
    decreases |actions|
  {
    actions == [] || (Fits(t, actions[0]) && RunFits(After(t, actions[0]), actions[1..]))
  }

  function After(t: Tables, a: O.Action): Tables
    requires !a.Upgrade?
  {
    match O.Transact(t, a) case Ok((t', _)) => t' case Err(_) => t
  }

  function RunTables(t: Tables, actions: seq<O.Action>): Tables
    requires forall i :: 0 <= i < |actions| ==> !actions[i].Upgrade?
    decreases |actions|
  {
    if actions == [] then t else RunTables(After(t, actions[0]), actions[1..])
  }

  // The reference adapter is not asked for the consumptions SQLite aborted.
  ghost function RunMemory(t: Tables, m: MemStore, actions: seq<O.Action>): MemStore
    requires forall i :: 0 <= i < |actions| ==> !actions[i].Upgrade?
    decreases |actions|
  {
    if actions == [] then m
    else RunMemory(After(t, actions[0]), MemAfter(m, actions[0]), actions[1..])
  }

  ghost function MemAfter(m: MemStore, a: O.Action): MemStore
    requires !a.Upgrade?
  {
    if AlreadyClaimed(m, a) then m else MemStep(m, a).store
  }

  // At every call of the run: aborted exactly for already claimed content,
  // otherwise the same refusal or the same answer.
  ghost predicate SameAnswers(t: Tables, m: MemStore, actions: seq<O.Action>)
    requires forall i :: 0 <= i < |actions| ==> !actions[i].Upgrade?
    decreases |actions|
  {
    actions == []
    || ((O.Transact(t, actions[0]) == Err(UniqueViolation) <==> AlreadyClaimed(m, actions[0]))
        && (O.Transact(t, actions[0]) != Err(UniqueViolation) ==> Agree(O.Transact(t, actions[0]), MemStep(m, actions[0])))
        && SameAnswers(After(t, actions[0]), MemAfter(m, actions[0]), actions[1..]))
  }

  // Whole runs: related stores stay related, and every call is answered alike.
  lemma {:induction false} RunRefines(t: Tables, m: MemStore, actions: seq<O.Action>)
    requires Inv(t) && R(t, m) && RunFits(t, actions)
    requires forall i :: 0 <= i < |actions| ==> !actions[i].Upgrade?
    ensures Inv(RunTables(t, actions)) && R(RunTables(t, actions), RunMemory(t, m, actions))
    ensures SameAnswers(t, m, actions)
    decreases |actions|
  {
    hide Inv, R, Fits, MemStep, MemAfter, AlreadyClaimed, Agree, O.Transact, After;
    if actions != [] {
      var a := actions[0];
      StepRefines(t, m, a);
      AfterKeeps(t, m, a);
      RunRefines(After(t, a), MemAfter(m, a), actions[1..]);
    }
  }

  lemma AfterKeeps(t: Tables, m: MemStore, a: O.Action)
    requires Inv(t) && R(t, m) && Fits(t, a) && !a.Upgrade?
    requires O.Transact(t, a) == Err(UniqueViolation) <==> AlreadyClaimed(m, a)
    requires O.Transact(t, a) != Err(UniqueViolation) ==> Agree(O.Transact(t, a), MemStep(m, a))
    ensures Inv(After(t, a)) && R(After(t, a), MemAfter(m, a))
  {
    hide Inv, R, MemStep, AlreadyClaimed, O.Transact;
    if O.Transact(t, a).Ok? {
      FitsOk(t, a);
      Runs.TransactKeepsInv(t, a);
    } else if !AlreadyClaimed(m, a) {
      RefusedUnchanged(m, a);
    }
  }

  lemma FitsOk(t: Tables, a: O.Action)
    requires Fits(t, a)
    ensures Runs.ActionOk(a)
  {
  }

  lemma RefusedUnchanged(m: MemStore, a: O.Action)
    requires !a.Upgrade? && MemStep(m, a).result.Err?
    ensures MemStep(m, a).store == m
  {
    hide MemInsert, PayloadDigest;
  }

  lemma EmptyStoresRelated()
    ensures Inv(NO_ROWS) && R(NO_ROWS, MemStore(map[], map[], map[]))
  {
    EmptyStoreInv();
  }
}
