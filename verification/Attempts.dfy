// Retrying: what several attempts to store one payload amount to, whichever of
// them fail, before or after their transaction, and whatever others do between.
module Attempts {
  import opened Wrappers
  import opened Json
  import opened Digests
  import opened Schema
  import opened Transactions
  import opened Invariant
  import opened Preservation
  import opened Migration
  import opened Operations
  import opened Runs
  import CanonicalText
  import Evidence
  import Freshness
  import Insertion

  // ----- what one insertion says about the content -----

  ghost predicate ContentStored(t: Tables, hash: Hash) {
    exists i :: 0 <= i < |t.tasks| && t.tasks[i].payloadHash == hash
  }

  ghost predicate SessionElsewhere(t: Tables, payload: Value, hash: Hash) {
    var session := GetOr(payload, SESSION, Null);
    Truthy(session) && Evidence.BindText(session).Some?
    && exists i :: 0 <= i < |t.tasks| && t.tasks[i].session == Evidence.BindText(session).value && t.tasks[i].payloadHash != hash
  }

  // Two keys: a session that owns a row with other content is refused; otherwise
  // known content is answered with the row that holds it.
  lemma TwoKeys(t: Tables, payload: Value, hash: Hash, committedAt: string, mode: Mode, authorization: Value, uuid: Uuids, now: string)
    requires Constraints(t) && payload.Obj?
    requires Truthy(GetOr(payload, SESSION, Null)) ==> Evidence.BindText(GetOr(payload, SESSION, Null)).Some?
    ensures var r := InsertTask(t, payload, hash, committedAt, mode, authorization, uuid, now);
            && (r == Err(SessionConflict) <==> SessionElsewhere(t, payload, hash))
            && (r.Ok? ==> (r.value.duplicate <==> ContentStored(t, hash)))
            && (r.Ok? && r.value.duplicate ==> r.value.tables == t && Names(t, r.value.taskId, hash))
            && (ContentStored(t, hash) && !SessionElsewhere(t, payload, hash) ==> r.Ok? && r.value.duplicate)
  {
    hide InsertFresh;
    var r := InsertFresh(t, payload, hash, committedAt, mode, authorization, uuid, now);
    FreshErrors(t, payload, hash, committedAt, mode, authorization, uuid, now);
    if r.Ok? { Insertion.FreshInserted(t, payload, hash, committedAt, mode, authorization, uuid, now); }
    SessionFound(t, payload, hash);
  }

  // A call answered with known content records no session, so the same session
  // can still bring different content: it is a second task, not a refusal.
  lemma SessionNotRemembered(t: Tables, p: Value, q: Value, authorization: Value, uuid: Uuids, now: string, uuid': Uuids, now': string)
    requires Inv(t) && p.Obj? && WellFormed(q) && Freshness.Storable(q) && Freshness.Unused(t, uuid')
    requires IsString(GetOr(p, SESSION, Null)) && Truthy(GetOr(p, SESSION, Null)) && GetOr(q, SESSION, Null) == GetOr(p, SESSION, Null)
    requires forall i :: 0 <= i < |t.tasks| ==> t.tasks[i].session != GetOr(p, SESSION, Null)
    requires ContentStored(t, PayloadDigest(p)) && !ContentStored(t, PayloadDigest(q))
    ensures var first := PersistAuthorized(t, p, authorization, uuid, now);
            && first.Ok? && first.value.duplicate && first.value.tables == t
            && var second := PersistAuthorized(first.value.tables, q, authorization, uuid', now');
               second.Ok? && !second.value.duplicate
  {
    hide Inv, InsertFresh, Freshness.Storable, Freshness.Unused, PayloadDigest, WellFormed, Get;
    assert Freshness.Storable(q) ==> q.Obj? by { StorableIsDict(q); }
    InvConstraints(t);
    TwoKeys(t, p, PayloadDigest(p), now, Enterprise, authorization, uuid, now);
    TwoKeys(t, q, PayloadDigest(q), now', Enterprise, authorization, uuid', now');
    Freshness.FreshInsertSucceeds(t, q, PayloadDigest(q), now', Enterprise, authorization, uuid', now');
    NoSuchSession(t, GetOr(q, SESSION, Null));
  }

  // ----- a session that brings two tasks, worked out from an empty store -----

  const ACCEPTED := Obj([Field("adoption_status", Str("accepted"))])

  // A report on something, with or without a session.
  function Work(goal: string, session: Option<string>): Value {
    Obj([Field("task_type", Str("report")), Field("task_goal", Str(goal)),
         Field("final_result", ACCEPTED), Field("steps", Arr([])),
         Field(SESSION, match session case Some(s) => Str(s) case None => Null)])
  }

  // Identifiers spelled with one letter.
  function Spelled(letter: char): Uuids {
    (i: nat) => seq(i + 1, k requires 0 <= k < i + 1 => letter)
  }

  predicate Filled(k: string) {
    k == "task_type" || k == "task_goal" || k == "final_result" || k == "steps" || k == SESSION
  }

  ghost predicate IsWork(p: Value, goal: string, session: Value) {
    && p.Obj? && WellFormed(p)
    && Get(p, "task_type") == Some(Str("report")) && Get(p, "task_goal") == Some(Str(goal))
    && Get(p, "final_result") == Some(ACCEPTED)
    && Get(p, "steps") == Some(Arr([])) && Get(p, SESSION) == Some(session)
    && forall k :: !Filled(k) ==> Get(p, k) == None
  }

  lemma WorkIs(goal: string, session: Option<string>)
    ensures IsWork(Work(goal, session), goal, match session case Some(s) => Str(s) case None => Null)
  {
    var p := Work(goal, session);
    var fs := p.fields;
    assert UniqueKeys(fs);
    assert ACCEPTED.fields[0].val == Str("accepted") && WellFormed(ACCEPTED);
    GetAt(fs, 0);
    GetAt(fs, 1);
    GetAt(fs, 2);
    GetAt(fs, 3);
    GetAt(fs, 4);
    forall k | !Filled(k) ensures Get(p, k) == None { GetIn(p, k); }
  }

  // What a report leaves out.
  ghost predicate Bare(p: Value) {
    && Get(p, "started_at") == None && Get(p, "completed_at") == None && Get(p, "process_summary") == None
    && Get(p, "business_context") == None && Get(p, "ai_context") == None && Get(p, "harness_metadata") == None
    && Get(p, "evidence") == None && Get(p, "external_references") == None
  }

  lemma WorkBare(p: Value, goal: string, session: Value)
    requires IsWork(p, goal, session)
    ensures Bare(p)
  {
    hide Get, WellFormed, IsWork, Filled;
    NotFilled();
    WorkLacks(p, goal, session, "started_at");
    WorkLacks(p, goal, session, "completed_at");
    WorkLacks(p, goal, session, "process_summary");
    WorkLacks(p, goal, session, "business_context");
    WorkLacks(p, goal, session, "ai_context");
    WorkLacks(p, goal, session, "harness_metadata");
    WorkLacks(p, goal, session, "evidence");
    WorkLacks(p, goal, session, "external_references");
  }

  lemma WorkLacks(p: Value, goal: string, session: Value, k: string)
    requires IsWork(p, goal, session) && !Filled(k)
    ensures Get(p, k) == None
  {
    hide Get, WellFormed;
  }

  lemma NotFilled()
    ensures !Filled("started_at") && !Filled("completed_at") && !Filled("process_summary") && !Filled("business_context")
    ensures !Filled("ai_context") && !Filled("harness_metadata") && !Filled("evidence") && !Filled("external_references")
  {
  }

  lemma AdoptionOf()
    ensures Get(ACCEPTED, "adoption_status") == Some(Str("accepted"))
  {
    GetAt(ACCEPTED.fields, 0);
  }

  lemma WorkRow(p: Value, goal: string, session: Value, hash: Hash, committedAt: string, mode: Mode, id: string, now: string)
    requires IsWork(p, goal, session) && (session.Null? || session.Str?)
    ensures var row := MakeTask(p, hash, committedAt, mode, Null, id, now);
            row.Some? && row.value.id == id && row.value.payloadHash == hash && row.value.session == session
  {
    hide Get, WellFormed, CanonicalText.CanonicalJson, ContextRefHash, SignatureOf;
    WorkBare(p, goal, session);
    AdoptionOf();
  }

  lemma WorkStorable(p: Value, goal: string, session: Value)
    requires IsWork(p, goal, session) && (session.Null? || session.Str?)
    ensures Freshness.Storable(p)
  {
    hide Get, WellFormed, MakeTask;
    WorkBare(p, goal, session);
    WorkRow(p, goal, session, Sha256([]), "", Personal, "", "");
  }

  lemma WorkGets(p: Value, q: Value, goal: string, s: Value, s': Value, k: string)
    requires IsWork(p, goal, s) && IsWork(q, goal, s') && k != SESSION
    ensures SameAt(p, q, k)
  {
    hide Get, WellFormed;
    assert Get(p, k) == Get(q, k);
    GetWellFormed(p, k);
    if Get(p, k).Some? { DigestIdentifies(Get(p, k).value, Get(p, k).value); }
  }

  lemma WorkDigests(p: Value, q: Value, goal: string, other: string, s: Value, s': Value)
    requires IsWork(p, goal, s) && IsWork(q, other, s')
    ensures PayloadDigest(p) == PayloadDigest(q) <==> goal == other
  {
    assert SESSION != "task_goal";
    hide Get, WellFormed, PayloadDigest, Filled;
    PayloadDigestIdentifies(p, q);
    if goal == other {
      hide IsWork;
      forall k | k != SESSION ensures SameAt(p, q, k) { WorkGets(p, q, goal, s, s', k); }
    } else {
      assert !SameAt(p, q, "task_goal");
    }
  }

  lemma SpelledApart(a: char, b: char, prefix: string, i: nat, k: nat)
    requires a != b
    ensures NewId(prefix, Spelled(a)(i)) != NewId(prefix, Spelled(b)(k))
  {
    assert NewId(prefix, Spelled(a)(i))[|prefix| + 1] == a && NewId(prefix, Spelled(b)(k))[|prefix| + 1] == b;
  }

  lemma EmptyStoreInserts(p: Value, goal: string, uuid: Uuids, now: string)
    requires IsWork(p, goal, Null)
    ensures PersistAuthorized(NO_ROWS, p, Null, uuid, now) == InsertFresh(NO_ROWS, p, PayloadDigest(p), now, Enterprise, Null, uuid, now)
  {
    hide InsertFresh, PayloadDigest, Get, WellFormed;
  }

  lemma FirstWork(p: Value, goal: string, uuid: Uuids, now: string)
    requires IsWork(p, goal, Null) && Freshness.Unused(NO_ROWS, uuid)
    ensures var first := PersistAuthorized(NO_ROWS, p, Null, uuid, now);
            && first.Ok? && !first.value.duplicate
            && Inv(first.value.tables) && OneTask(first.value.tables, uuid, PayloadDigest(p))
  {
    assert WellFormed(Null) && GetOr(p, SESSION, Null) == Null;
    hide *;
    EmptyStoreInv();
    EmptyStoreInserts(p, goal, uuid, now);
    WorkStorable(p, goal, Null);
    FreshWork(p, goal, uuid, now);
    WorkKept(p, goal, uuid, now);
    WorkRows(p, goal, PersistAuthorized(NO_ROWS, p, Null, uuid, now).value.tables, PayloadDigest(p), uuid, now);
  }

  lemma FreshWork(p: Value, goal: string, uuid: Uuids, now: string)
    requires IsWork(p, goal, Null) && Freshness.Unused(NO_ROWS, uuid) && Freshness.Storable(p)
    ensures var ins := InsertFresh(NO_ROWS, p, PayloadDigest(p), now, Enterprise, Null, uuid, now);
            ins.Ok? && !ins.value.duplicate
            && Insertion.FreshAdded(NO_ROWS, ins.value.tables, p, PayloadDigest(p), now, Enterprise, Null, uuid, now)
  {
    hide Inv, Freshness.Unused, Freshness.Storable, InsertFresh, PayloadDigest, Get, WellFormed, Insertion.FreshAdded;
    EmptyStoreInv();
    Freshness.FreshInsertSucceeds(NO_ROWS, p, PayloadDigest(p), now, Enterprise, Null, uuid, now);
    Insertion.FreshInserted(NO_ROWS, p, PayloadDigest(p), now, Enterprise, Null, uuid, now);
  }

  lemma WorkKept(p: Value, goal: string, uuid: Uuids, now: string)
    requires IsWork(p, goal, Null) && PersistAuthorized(NO_ROWS, p, Null, uuid, now).Ok?
    ensures Inv(PersistAuthorized(NO_ROWS, p, Null, uuid, now).value.tables)
  {
    assert WellFormed(Null);
    hide Inv, InsertTask, PayloadDigest, Get, WellFormed;
    EmptyStoreInv();
    InsertKeepsInv(NO_ROWS, p, PayloadDigest(p), now, Enterprise, Null, uuid, now);
  }

  ghost predicate OneTask(t: Tables, uuid: Uuids, hash: Hash) {
    && |t.tasks| == 1 && t.tasks[0].id == NewId("task", uuid(0)) && t.tasks[0].payloadHash == hash && t.tasks[0].session.Null?
    && |t.processes| == 1 && t.processes[0].id == NewId("process", uuid(1))
    && |t.paths| == 1 && t.paths[0].id == NewId("path", uuid(2))
    && t.steps == [] && t.evidence == [] && t.lineage == [] && t.references == []
  }

  lemma WorkRows(p: Value, goal: string, t: Tables, hash: Hash, uuid: Uuids, now: string)
    requires IsWork(p, goal, Null) && Insertion.FreshAdded(NO_ROWS, t, p, hash, now, Enterprise, Null, uuid, now)
    ensures OneTask(t, uuid, hash)
  {
    hide Get, WellFormed, MakeTask, TaskFits, CanonicalText.CanonicalJson;
    WorkBare(p, goal, Null);
    WorkRow(p, goal, Null, hash, now, Enterprise, NewId("task", uuid(0)), now);
  }

  lemma SpelledUnused(t: Tables, letter: char, other: char, hash: Hash)
    requires t == NO_ROWS || (letter != other && OneTask(t, Spelled(other), hash))
    ensures Freshness.Unused(t, Spelled(letter))
  {
    hide Freshness.HashedOver;
    forall i: nat, j: nat | i != j ensures Spelled(letter)(i) != Spelled(letter)(j) {
      assert |Spelled(letter)(i)| != |Spelled(letter)(j)|;
    }
    if t != NO_ROWS {
      forall k: nat ensures NewId("task", Spelled(other)(0)) != NewId("task", Spelled(letter)(k))
                         && NewId("process", Spelled(other)(1)) != NewId("process", Spelled(letter)(k))
                         && NewId("path", Spelled(other)(2)) != NewId("path", Spelled(letter)(k)) {
        SpelledApart(other, letter, "task", 0, k);
        SpelledApart(other, letter, "process", 1, k);
        SpelledApart(other, letter, "path", 2, k);
      }
    }
  }

  // A report kept without a session, brought again under session s, then another
  // report under session s: kept, duplicate, kept.
  lemma SessionBringsTwo(goal: string, other: string, s: string, now: string)
    requires goal != other && s != ""
    ensures var first := PersistAuthorized(NO_ROWS, Work(goal, None), Null, Spelled('a'), now);
            && first.Ok? && !first.value.duplicate
            && var second := PersistAuthorized(first.value.tables, Work(goal, Some(s)), Null, Spelled('b'), now);
            && second.Ok? && second.value.duplicate
            && var third := PersistAuthorized(second.value.tables, Work(other, Some(s)), Null, Spelled('c'), now);
            && third.Ok? && !third.value.duplicate
  {
    hide Inv, Freshness.Unused, Freshness.Storable, PersistAuthorized, PayloadDigest, Get, WellFormed, Work, Spelled;
    var (p, q, r) := (Work(goal, None), Work(goal, Some(s)), Work(other, Some(s)));
    WorkIs(goal, None);
    WorkIs(goal, Some(s));
    WorkIs(other, Some(s));
    SpelledUnused(NO_ROWS, 'a', 'a', PayloadDigest(p));
    FirstWork(p, goal, Spelled('a'), now);
    var t := PersistAuthorized(NO_ROWS, p, Null, Spelled('a'), now).value.tables;
    SpelledUnused(t, 'c', 'a', PayloadDigest(p));
    WorkDigests(p, q, goal, goal, Null, Str(s));
    WorkDigests(p, r, goal, other, Null, Str(s));
    WorkDigests(q, r, goal, other, Str(s), Str(s));
    WorkStorable(r, other, Str(s));
    SessionNotRemembered(t, q, r, Null, Spelled('b'), now, Spelled('c'), now);
  }

  lemma StorableIsDict(q: Value)
    requires Freshness.Storable(q)
    ensures q.Obj?
  {
  }

  lemma NoSuchSession(t: Tables, s: Value)
    requires IsString(s) && forall i :: 0 <= i < |t.tasks| ==> t.tasks[i].session != s
    ensures FindSession(t.tasks, s) == |t.tasks|
  {
  }

  lemma SessionFound(t: Tables, payload: Value, hash: Hash)
    requires Constraints(t)
    ensures var session := GetOr(payload, SESSION, Null);
            Truthy(session) && Evidence.BindText(session).Some? ==>
              var s := FindSession(t.tasks, Evidence.BindText(session).value);
              SessionElsewhere(t, payload, hash) <==> s < |t.tasks| && t.tasks[s].payloadHash != hash
  {
    hide ForeignKeys, ConfirmationsUnique, ProcessesUnique, PathsUnique, StepsUnique, EvidenceUnique, LineageUnique, RowCheck;
    var session := GetOr(payload, SESSION, Null);
    if Truthy(session) && Evidence.BindText(session).Some? { BoundSession(session); }
  }

  lemma BoundSession(v: Value)
    requires Truthy(v) && Evidence.BindText(v).Some?
    ensures !Evidence.BindText(v).value.Null?
  {
  }

  lemma FreshErrors(t: Tables, payload: Value, hash: Hash, committedAt: string, mode: Mode, authorization: Value, uuid: Uuids, now: string)
    ensures InsertFresh(t, payload, hash, committedAt, mode, authorization, uuid, now).Err? ==>
              InsertFresh(t, payload, hash, committedAt, mode, authorization, uuid, now).error == Raised
  {
    hide MakeTask, TaskFits, ProcessFits, PathFits, InsertSteps, InsertEvidence, InsertReferences, Evidence.BindText, Steps, Items, References;
    var taskId, processId, pathId := NewId("task", uuid(0)), NewId("process", uuid(1)), NewId("path", uuid(2));
    match (MakeTask(payload, hash, committedAt, mode, authorization, taskId, now), Steps(payload), Items(payload), References(payload),
           Evidence.BindText(GetOr(payload, "process_summary", Null)))
    case (Some(task), Some(steps), Some(items), Some(references), Some(summary)) =>
      var process := ProcessRow(processId, taskId, summary, CanonicalText.CanonicalJson(GetOr(payload, "prerequisites", Arr([]))));
      var t1 := t.(tasks := t.tasks + [task]);
      var t2 := t1.(processes := t1.processes + [process]);
      var t3 := t2.(paths := t2.paths + [PathRow(pathId, processId, task.signature, task.adoption)]);
      StepErrors(t3, pathId, steps, 0, uuid);
      if InsertSteps(t3, pathId, steps, 0, uuid).Ok? {
        var t4 := InsertSteps(t3, pathId, steps, 0, uuid).value;
        EvidenceErrors(t4, taskId, processId, items, 0, None, 3 + |steps|, uuid, now);
        if InsertEvidence(t4, taskId, processId, items, 0, None, 3 + |steps|, uuid, now).Ok? {
          ReferenceErrors(InsertEvidence(t4, taskId, processId, items, 0, None, 3 + |steps|, uuid, now).value, taskId, references, 0,
                          3 + |steps| + 2 * |items|, uuid);
        }
      }
    case _ =>
  }

  lemma {:induction false} ReferenceErrors(t: Tables, taskId: string, items: seq<Value>, i: nat, first: nat, uuid: Uuids)
    requires i <= |items|
    ensures InsertReferences(t, taskId, items, i, first, uuid).Err? ==> InsertReferences(t, taskId, items, i, first, uuid).error == Raised
    decreases |items| - i
  {
    hide MakeReference, ReferenceFits;
    if i < |items| && MakeReference(items[i], taskId, NewId("ref", uuid(first + i))).Some? {
      ReferenceErrors(t.(references := t.references + [MakeReference(items[i], taskId, NewId("ref", uuid(first + i))).value]),
                      taskId, items, i + 1, first, uuid);
    }
  }

  lemma {:induction false} StepErrors(t: Tables, pathId: string, steps: seq<Value>, i: nat, uuid: Uuids)
    requires i <= |steps|
    ensures InsertSteps(t, pathId, steps, i, uuid).Err? ==> InsertSteps(t, pathId, steps, i, uuid).error == Raised
    decreases |steps| - i
  {
    hide MakeStep, StepFits;
    if i < |steps| && MakeStep(steps[i], pathId, i + 1, NewId("step", uuid(3 + i))).Some? {
      StepErrors(t.(steps := t.steps + [MakeStep(steps[i], pathId, i + 1, NewId("step", uuid(3 + i))).value]), pathId, steps, i + 1, uuid);
    }
  }

  lemma {:induction false} EvidenceErrors(t: Tables, taskId: string, processId: string, items: seq<Value>, i: nat,
                                          previous: Option<Hash>, first: nat, uuid: Uuids, now: string)
    requires i <= |items|
    ensures var r := InsertEvidence(t, taskId, processId, items, i, previous, first, uuid, now); r.Err? ==> r.error == Raised
    decreases |items| - i
  {
    hide Evidence.MakeRow, EvidenceFits, LineageFits;
    if i < |items| {
      var row := Evidence.MakeRow(taskId, i + 1, items[i], previous, NewId("event", uuid(first + 2 * i)), now);
      if row.Some? {
        var link := LineageRow(NewId("lineage", uuid(first + 2 * i + 1)), processId, row.value.eventId);
        EvidenceErrors(t.(evidence := t.evidence + [row.value], lineage := t.lineage + [link]), taskId, processId, items, i + 1,
                       Some(row.value.eventHash), first, uuid, now);
      }
    }
  }

  // ----- attempts in a run -----

  datatype Fate = FailsBefore | FailsAfter | Completes

  // Something another client does, or an attempt to store the payload.
  datatype Event = Other(action: Action) | Attempt(authorization: Value, uuid: Uuids, now: string, fate: Fate)

  function AttemptAction(payload: Value, e: Event): Action
    requires e.Attempt?
  {
    Authorize(payload, e.authorization, e.uuid, e.now)
  }

  function Play(db: Database, payload: Value, e: Event): Database {
    if e.Other? then Step(db, e.action).db
    else if e.fate.FailsBefore? then db
    else Step(db, AttemptAction(payload, e)).db
  }

  // What the caller of an attempt hears.
  function Heard(db: Database, payload: Value, e: Event): Outcome<Response>
    requires e.Attempt?
  {
    if e.fate.Completes? then Step(db, AttemptAction(payload, e)).result else Err(CaptureStorageError)
  }

  // The database before event n.
  function At(db: Database, payload: Value, events: seq<Event>, n: nat): Database
    requires n <= |events|
  {
    if n == 0 then db else Play(At(db, payload, events, n - 1), payload, events[n - 1])
  }

  ghost predicate EventOk(e: Event) {
    (e.Other? ==> ActionOk(e.action)) && (e.Attempt? ==> WellFormed(e.authorization))
  }

  ghost predicate EventsOk(events: seq<Event>) {
    forall i :: 0 <= i < |events| ==> EventOk(events[i])
  }

  lemma PlayKeeps(db: Database, payload: Value, e: Event)
    requires DbInv(db) && WellFormed(payload) && EventOk(e)
    ensures DbInv(Play(db, payload, e)) && DbForward(db, Play(db, payload, e))
  {
    hide Inv, Step, Forward, WellFormed;
    var a := if e.Other? then e.action else AttemptAction(payload, e);
    StepKeepsInv(db, a);
    StepForward(db, a);
    if db.layout.V4? { SameForward(db.layout.tables); }
  }

  lemma {:induction false} AtKeeps(db: Database, payload: Value, events: seq<Event>, n: nat)
    requires DbInv(db) && WellFormed(payload) && n <= |events| && EventsOk(events)
    ensures DbInv(At(db, payload, events, n))
  {
    hide DbInv, Play, WellFormed, EventOk;
    if n > 0 {
      AtKeeps(db, payload, events, n - 1);
      PlayKeeps(At(db, payload, events, n - 1), payload, events[n - 1]);
    }
  }

  lemma {:induction false} AtForward(db: Database, payload: Value, events: seq<Event>, m: nat, n: nat)
    requires DbInv(db) && WellFormed(payload) && m <= n <= |events| && EventsOk(events)
    ensures DbForward(At(db, payload, events, m), At(db, payload, events, n))
    decreases n
  {
    hide DbInv, Play, WellFormed, EventOk, Forward;
    var a := At(db, payload, events, m);
    if m == n {
      if a.layout.V4? { SameForward(a.layout.tables); }
    } else {
      AtForward(db, payload, events, m, n - 1);
      AtKeeps(db, payload, events, n - 1);
      PlayKeeps(At(db, payload, events, n - 1), payload, events[n - 1]);
      if a.layout.V4? {
        ForwardTransitive(a.layout.tables, At(db, payload, events, n - 1).layout.tables, At(db, payload, events, n).layout.tables);
      }
    }
  }

  lemma NamesForward(t: Tables, u: Tables, taskId: string, hash: Hash)
    requires Forward(t, u) && Names(t, taskId, hash)
    ensures Names(u, taskId, hash)
  {
    hide ConfirmationsForward;
    var i :| 0 <= i < |t.tasks| && t.tasks[i].id == taskId && t.tasks[i].payloadHash == hash;
    assert u.tasks[i] == t.tasks[i];
  }

  lemma OneTaskPerContent(t: Tables, a: string, b: string, hash: Hash)
    requires Inv(t) && Names(t, a, hash) && Names(t, b, hash)
    ensures a == b
  {
    hide PayloadsStored, ClaimsMatch, ChainsBuilt;
  }

  // The tables an attempt works on: the database brought up to date.
  function Current(db: Database): Database {
    Migration.Migrate(db, SCHEMA_VERSION, {}).db
  }

  // Whether a task with this content exists when a call arrives.
  ghost predicate HasContent(db: Database, hash: Hash) {
    Current(db).layout.V4? && ContentStored(Current(db).layout.tables, hash)
  }

  // A successful call names a row holding the content, and is a duplicate
  // exactly when the content was stored before it.
  lemma AuthorizeMeans(db: Database, a: Action)
    requires DbInv(db) && a.Authorize? && ActionOk(a) && Step(db, a).result.Ok?
    ensures Step(db, a).result.value.Persisted?
    ensures var r := Step(db, a).result.value;
            && r.hash == PayloadDigest(a.payload)
            && Step(db, a).db.layout.V4? && Names(Step(db, a).db.layout.tables, r.taskId, r.hash)
            && (r.duplicate <==> HasContent(db, r.hash))
  {
    hide Inv, InsertTask, Migration.Migrate, PayloadDigest, Names, ContentStored;
    MigrateKeepsInv(db, SCHEMA_VERSION, {});
    var t := Current(db).layout.tables;
    InsertKeepsInv(t, a.payload, PayloadDigest(a.payload), a.now, Enterprise, a.authorization, a.uuid, a.now);
    InvConstraints(t);
    InsertedSession(t, a.payload, PayloadDigest(a.payload), a.now, Enterprise, a.authorization, a.uuid, a.now);
    TwoKeys(t, a.payload, PayloadDigest(a.payload), a.now, Enterprise, a.authorization, a.uuid, a.now);
  }

  lemma InsertedSession(t: Tables, payload: Value, hash: Hash, committedAt: string, mode: Mode, authorization: Value, uuid: Uuids, now: string)
    requires InsertTask(t, payload, hash, committedAt, mode, authorization, uuid, now).Ok?
    ensures payload.Obj?
    ensures Truthy(GetOr(payload, SESSION, Null)) ==> Evidence.BindText(GetOr(payload, SESSION, Null)).Some?
  {
    hide InsertFresh;
  }

  ghost predicate Succeeds(db: Database, payload: Value, events: seq<Event>, i: nat)
    requires i < |events|
  {
    events[i].Attempt? && Heard(At(db, payload, events, i), payload, events[i]).Ok?
  }

  function ReportOf(db: Database, payload: Value, events: seq<Event>, i: nat): Response
    requires i < |events| && Succeeds(db, payload, events, i)
  {
    Heard(At(db, payload, events, i), payload, events[i]).value
  }

  // Exactly once: over any interleaving, every success reports the same task,
  // and says "replay" exactly when the content was stored before that attempt,
  // so at every success but possibly the first.
  lemma ExactlyOnce(db: Database, payload: Value, events: seq<Event>, i: nat, j: nat)
    requires DbInv(db) && WellFormed(payload) && EventsOk(events) && i <= j < |events|
    requires Succeeds(db, payload, events, i) && Succeeds(db, payload, events, j)
    ensures var r, s := ReportOf(db, payload, events, i), ReportOf(db, payload, events, j);
            && r.Persisted? && s.Persisted? && r.taskId == s.taskId && r.hash == s.hash == PayloadDigest(payload)
            && (i < j ==> s.duplicate)
            && (s.duplicate <==> HasContent(At(db, payload, events, j), s.hash))
  {
    hide DbInv, Step, WellFormed, Names, HasContent, PayloadDigest, DbForward, Migration.Migrate;
    var a, b := At(db, payload, events, i), At(db, payload, events, j);
    AtKeeps(db, payload, events, i);
    AtKeeps(db, payload, events, j);
    AuthorizeMeans(a, AttemptAction(payload, events[i]));
    AuthorizeMeans(b, AttemptAction(payload, events[j]));
    if i < j {
      AtForward(db, payload, events, i + 1, j);
      PlayKeeps(b, payload, events[j]);
      StoredStays(Play(a, payload, events[i]), b, Play(b, payload, events[j]),
                  ReportOf(db, payload, events, i).taskId, ReportOf(db, payload, events, j).taskId, PayloadDigest(payload));
    }
  }

  lemma StoredStays(after: Database, before: Database, later: Database, id: string, id': string, hash: Hash)
    requires DbInv(before) && DbInv(later) && DbForward(after, before) && DbForward(before, later)
    requires after.layout.V4? && Names(after.layout.tables, id, hash)
    requires later.layout.V4? && Names(later.layout.tables, id', hash)
    ensures id == id' && HasContent(before, hash)
  {
    hide Inv, Forward, Migration.Migrate;
    NamesForward(after.layout.tables, before.layout.tables, id, hash);
    NamesForward(before.layout.tables, later.layout.tables, id, hash);
    OneTaskPerContent(later.layout.tables, id, id', hash);
    CurrentStep(before, Upgrade(0, {}));
  }
}
