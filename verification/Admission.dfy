// What one-shot capture guarantees end to end: the class of trust it reports,
// what a refusal does, and that retries of one task amount to one.
module Admission {
  import opened Json
  import opened Digests
  import opened Transactions
  import opened Migration
  import opened Runs
  import opened Attempts
  import opened Redaction
  import opened Validation
  import opened Authorization
  import opened Service
  import opened Protocols
  import O = Operations

  // ----- the record that is admitted is a JSON value -----

  // json.loads built every file.
  ghost predicate FilesParsed(env: Environment) {
    forall path :: path in env.files ==> WellFormed(env.files[path])
  }

  lemma PutWellFormed(fs: seq<Field>, k: string, x: Value)
    requires WellFormed(Obj(fs)) && WellFormed(x)
    ensures WellFormed(Obj(Put(fs, k, x)))
  {
    PutUnique(fs, k, x);
  }

  lemma DropWellFormed(fs: seq<Field>, k: string)
    requires WellFormed(Obj(fs))
    ensures WellFormed(Obj(Drop(fs, k)))
  {
    DropUnique(fs, k);
    var r := Drop(fs, k);
    forall i | 0 <= i < |r| ensures WellFormed(r[i].val) { assert r[i] in fs; }
  }

  lemma {:induction false} MergeWellFormed(base: seq<Field>, updates: seq<Field>)
    requires WellFormed(Obj(base)) && WellFormed(Obj(updates))
    ensures WellFormed(Obj(Merge(base, updates)))
    decreases |updates|
  {
    if updates != [] {
      PutWellFormed(base, updates[0].key, updates[0].val);
      MergeWellFormed(Put(base, updates[0].key, updates[0].val), updates[1..]);
    }
  }

  lemma FldWellFormed(v: Value, k: string)
    requires WellFormed(v)
    ensures WellFormed(Fld(v, k)) && WellFormed(OrEmpty(Fld(v, k)))
  {
    GetWellFormed(v, k);
  }

  lemma ProjectionsWellFormed(ctx: Context)
    requires WellFormed(ctx.assertion) && ctx.Business().Obj? && ctx.Ai().Obj?
    ensures WellFormed(BusinessProjection(ctx.Business())) && WellFormed(AiProjection(ctx.Ai()))
  {
    hide Fld, OrEmpty, Put, Merge, Drop;
    FldWellFormed(ctx.assertion, "business_context");
    FldWellFormed(ctx.assertion, "ai_context");
    var business := ctx.Business();
    assert Obj(business.fields) == business && Obj(ctx.Ai().fields) == ctx.Ai();
    DropWellFormed(business.fields, CONTEXT_REF);
    var own := Drop(business.fields, CONTEXT_REF);
    MergeWellFormed([Field("provenance", HARNESS)], own);
    FldWellFormed(business, CONTEXT_REF);
    PutWellFormed(Merge([Field("provenance", HARNESS)], own), "ref", Fld(business, CONTEXT_REF));
    PutWellFormed(ctx.Ai().fields, "provenance", HARNESS);
  }

  lemma InjectedWellFormed(candidate: Value, ctx: Context)
    requires WellFormed(candidate) && candidate.Obj? && WellFormed(ctx.assertion) && ctx.Business().Obj? && ctx.Ai().Obj?
    ensures WellFormed(Obj(Injected(candidate.fields, ctx)))
  {
    hide Put, BusinessProjection, AiProjection, Fld, OrEmpty;
    ProjectionsWellFormed(ctx);
    FldWellFormed(ctx.assertion, SESSION);
    assert Obj(candidate.fields) == candidate;
    PutWellFormed(candidate.fields, SESSION, ctx.Session());
    var m1 := Put(candidate.fields, SESSION, ctx.Session());
    var m2 := if Truthy(ctx.Business()) then Put(m1, "business_context", BusinessProjection(ctx.Business())) else m1;
    if Truthy(ctx.Business()) { PutWellFormed(m1, "business_context", BusinessProjection(ctx.Business())); }
    if Truthy(ctx.Ai()) { PutWellFormed(m2, "ai_context", AiProjection(ctx.Ai())); }
  }

  lemma PublicRecordWellFormed(ctx: Context)
    requires WellFormed(ctx.assertion)
    ensures WellFormed(ctx.PublicRecord())
  {
    hide Fld;
    FldWellFormed(ctx.assertion, "assertion_id");
    FldWellFormed(ctx.assertion, "issuer");
    FldWellFormed(ctx.assertion, "retention_policy");
  }

  lemma GrantRecordWellFormed(g: Grant, clock: string)
    requires WellFormed(g.data)
    ensures WellFormed(GrantRecord(g, clock))
  {
    hide Fld;
    FldWellFormed(g.data, "grant_id");
    FldWellFormed(g.data, "issuer");
    FldWellFormed(g.data, "mode");
    FldWellFormed(g.data, "retention_policy");
  }

  lemma AssertionParsed(vf: Verifier, env: Environment)
    requires FilesParsed(env) && VerifyCaptureAssertion(vf, env).Ok?
    ensures WellFormed(VerifyCaptureAssertion(vf, env).value.assertion)
  {
    hide VerifyCaptureAssertion, WellFormed, SignatureAccepted, ModeAllows;
    VerifiedMeans(vf, env);
  }

  lemma GrantParsed(vf: Verifier, env: Environment)
    requires FilesParsed(env) && LoadGrant(vf, env).Ok?
    ensures WellFormed(LoadGrant(vf, env).value.data)
  {
    hide WellFormed, SignedText, InTime, HasAll, Blank, Strip, Lower, Fld;
  }

  lemma AdmittedWellFormed(vf: Verifier, env: Environment, candidate: Value, kind: string)
    requires WellFormed(candidate) && candidate.Obj? && FilesParsed(env) && Admit(vf, env, candidate, kind).Ok?
    ensures WellFormed(Admit(vf, env, candidate, kind).value.record) && WellFormed(Admit(vf, env, candidate, kind).value.authorization)
  {
    hide WellFormed, FilesParsed, VerifyCaptureAssertion, EnforceWithin, Untrusted, Injected, LoadGrant, ScopeAllows,
         StorageAllowed, GrantRecord, Fld, OrEmpty, Blank;
    if Attested(env) {
      var ctx := VerifyCaptureAssertion(vf, env).value;
      AssertionParsed(vf, env);
      InjectedWellFormed(candidate, ctx);
      PublicRecordWellFormed(ctx);
    } else {
      GrantParsed(vf, env);
      GrantRecordWellFormed(LoadGrant(vf, env).value, env.clock);
    }
  }

  // Candidates and files that json.loads built give a record and an
  // authorization that it could have built, and the record is an object.
  lemma GateWellFormed(tl: Tools, env: Environment, candidate: Value, kind: string)
    requires WellFormed(candidate) && FilesParsed(env) && CaptureGate(tl, env, candidate, kind).Ok?
    ensures WellFormed(CaptureGate(tl, env, candidate, kind).value.record)
    ensures WellFormed(CaptureGate(tl, env, candidate, kind).value.authorization)
  {
    hide WellFormed, FilesParsed, Admit, Accepts, Clean;
    AdmittedWellFormed(tl.verifier, env, candidate, kind);
    CleanWellFormed(tl.redactor, Admit(tl.verifier, env, candidate, kind).value.record);
  }

  // ----- trust -----

  // Every capture that passes the gate reports the class its environment
  // demands, the production class only on an accepted signature, and stores that
  // class in the authorization.
  lemma GateTrust(tl: Tools, env: Environment, candidate: Value, kind: string)
    requires CaptureGate(tl, env, candidate, kind).Ok?
    ensures var adm := CaptureGate(tl, env, candidate, kind).value;
            var demanded := Strip(Var(env, ENV_MODE));
            && (demanded == TRUST_PRODUCTION ==> adm.trustClass == CLASS_PRODUCTION)
            && (demanded == TRUST_DEVELOPMENT ==> adm.trustClass == CLASS_DEVELOPMENT)
            && (adm.trustClass == CLASS_PRODUCTION ==> Attested(env) && SignatureAccepted(tl.verifier, env))
            && Fld(adm.authorization, "trust_class") == Str(adm.trustClass)
            && Accepts(tl.reader, adm.record)
  {
    hide Admit, Accepts, Clean, SignatureAccepted, Strip, Fld, Attested;
    TrustClass(tl.verifier, env, candidate, kind);
  }

  // The record an attested capture stores carries a session, a nonblank string,
  // exactly when the assertion's session is not null.
  lemma SessionBoundIff(tl: Tools, env: Environment, candidate: Value, kind: string)
    requires Attested(env) && CaptureGate(tl, env, candidate, kind).Ok?
    ensures VerifyCaptureAssertion(tl.verifier, env).Ok?
    ensures var session := Fld(CaptureGate(tl, env, candidate, kind).value.record, SESSION);
            var asserted := VerifyCaptureAssertion(tl.verifier, env).value.Session();
            && (IsString(session) && !Blank(PyStr(session)) <==> !asserted.Null?)
            && (session.Null? <==> asserted.Null?)
            && session == Clean(tl.redactor, asserted)
  {
    hide Accepts, VerifyCaptureAssertion, EnforceWithin, Untrusted, Injected, Blank, PyStr, Clean, Get;
    var raw := Admit(tl.verifier, env, candidate, kind).value;
    var ctx := VerifyCaptureAssertion(tl.verifier, env).value;
    InjectedGet(candidate.fields, ctx, SESSION);
    CleanFld(tl.redactor, raw.record, SESSION);
    CleanNullIff(tl.redactor, ctx.Session());
    AcceptedSession(tl.reader, Clean(tl.redactor, raw.record));
  }

  lemma CleanFld(r: Redactor, v: Value, k: string)
    requires v.Obj?
    ensures Fld(Clean(r, v), k) == Clean(r, Fld(v, k))
  {
    hide CleanString;
    var w := Clean(r, v);
    var i, j := Index(v.fields, k), Index(w.fields, k);
    assert forall n :: 0 <= n < |v.fields| ==> w.fields[n].key == v.fields[n].key && w.fields[n].val == Clean(r, v.fields[n].val);
    if i < |v.fields| { assert w.fields[i].key == k; }
    if j < |w.fields| { assert v.fields[j].key == k; }
  }

  lemma CleanNullIff(r: Redactor, v: Value)
    ensures Clean(r, v).Null? <==> v.Null?
  {
    hide CleanString;
  }

  lemma AcceptedSession(rd: Reader, v: Value)
    requires Accepts(rd, v)
    ensures var session := Fld(v, SESSION); session.Null? || (IsString(session) && !Blank(PyStr(session)))
  {
    hide Accepts, Scan, StepListProblems, ResultProblems, EvidenceListProblems, EmptyText, BadTimestamp, BusinessProblems, AiProblems, Blank, PyStr,
         Get, NoForbidden;
    AcceptedParts(rd, v);
  }

  // In production mode nothing but an accepted signature changes the store.
  lemma ProductionNeedsSignature(tl: Tools, db: Database, env: Environment, candidate: Value, uuid: Uuids)
    requires Strip(Var(env, ENV_MODE)) == TRUST_PRODUCTION && !SignatureAccepted(tl.verifier, env)
    ensures CaptureStep(tl, db, env, candidate, uuid).db == db && CaptureStep(tl, db, env, candidate, uuid).result.Err?
  {
    hide CaptureGate, SignatureAccepted, Strip, O.Step, Attested, Accepts;
    if CaptureGate(tl, env, candidate, LOCAL_SQLITE).Ok? { GateTrust(tl, env, candidate, LOCAL_SQLITE); }
  }

  // A capture that succeeds is read back later as persisted, whatever other
  // clients do in between, with the class of its environment.
  lemma CaptureReported(tl: Tools, db: Database, env: Environment, candidate: Value, uuid: Uuids, others: seq<O.Action>)
    requires DbInv(db) && ActionsOk(others) && WellFormed(candidate) && FilesParsed(env)
    requires CaptureStep(tl, db, env, candidate, uuid).result.Ok?
    ensures CaptureStep(tl, db, env, candidate, uuid).result.value.Persisted? && Run(CaptureStep(tl, db, env, candidate, uuid).db, others).layout.V4?
    ensures var s := CaptureStep(tl, db, env, candidate, uuid);
            var adm := CaptureGate(tl, env, candidate, LOCAL_SQLITE).value;
            var report := CaptureConclusion(adm, s.result.value.taskId, s.result.value.duplicate,
                                            O.ReadTask(Run(s.db, others).layout.tables, s.result.value.taskId));
            && report.Ok? && report.value.PersistedReport? && report.value.taskId == s.result.value.taskId
            && report.value.payloadHash == PayloadDigest(adm.record)
            && (Strip(Var(env, ENV_MODE)) == TRUST_PRODUCTION ==>
                  report.value.trustClass == CLASS_PRODUCTION && SignatureAccepted(tl.verifier, env))
            && (Strip(Var(env, ENV_MODE)) == TRUST_DEVELOPMENT ==> report.value.trustClass == CLASS_DEVELOPMENT)
            && (report.value.replay <==> HasContent(db, PayloadDigest(adm.record)))
  {
    hide *;
    CapturePassedGate(tl, db, env, candidate, uuid);
    var adm := CaptureGate(tl, env, candidate, LOCAL_SQLITE).value;
    var action := O.Authorize(adm.record, adm.authorization, uuid, env.clock);
    GateWellFormed(tl, env, candidate, LOCAL_SQLITE);
    GateTrust(tl, env, candidate, LOCAL_SQLITE);
    CaptureReadBack(tl, db, env, candidate, uuid, others);
    AuthorizeOk(action);
    AuthorizeMeans(db, action);
  }

  // A capture that succeeds passed its gate and is then one adapter call.
  lemma CapturePassedGate(tl: Tools, db: Database, env: Environment, candidate: Value, uuid: Uuids)
    requires CaptureStep(tl, db, env, candidate, uuid).result.Ok?
    ensures CaptureGate(tl, env, candidate, LOCAL_SQLITE).Ok?
    ensures var adm := CaptureGate(tl, env, candidate, LOCAL_SQLITE).value;
            CaptureStep(tl, db, env, candidate, uuid) == O.Step(db, O.Authorize(adm.record, adm.authorization, uuid, env.clock))
  {
    hide CaptureGate, O.Step;
  }

  lemma AuthorizeOk(a: O.Action)
    requires a.Authorize? && WellFormed(a.payload) && WellFormed(a.authorization)
    ensures ActionOk(a)
  {
    hide WellFormed;
  }

  // ----- retries -----

  // The same assertion, or none at either moment; everything else may differ.
  ghost predicate SameAssertion(a: Environment, b: Environment) {
    && Attested(a) == Attested(b)
    && (Attested(a) ==> ReadJsonFile(a, Var(a, ENV_ASSERTION)) == ReadJsonFile(b, Var(b, ENV_ASSERTION)))
  }

  lemma SameContext(vf: Verifier, a: Environment, b: Environment)
    requires ReadJsonFile(a, Var(a, ENV_ASSERTION)) == ReadJsonFile(b, Var(b, ENV_ASSERTION))
    requires VerifyCaptureAssertion(vf, a).Ok? && VerifyCaptureAssertion(vf, b).Ok?
    ensures VerifyCaptureAssertion(vf, a).value.assertion == VerifyCaptureAssertion(vf, b).value.assertion
  {
    hide VerifyCaptureAssertion, ReadJsonFile, SignatureAccepted, Authorizes, ModeAllows, Var, Strip;
    VerifiedMeans(vf, a);
    VerifiedMeans(vf, b);
  }

  // Whenever both pass the gate, the same candidate under the same assertion
  // gives the same record, and under the same trust root and mode the same class.
  lemma SameRecord(tl: Tools, a: Environment, b: Environment, candidate: Value, kind: string)
    requires SameAssertion(a, b) && CaptureGate(tl, a, candidate, kind).Ok? && CaptureGate(tl, b, candidate, kind).Ok?
    ensures CaptureGate(tl, a, candidate, kind).value.record == CaptureGate(tl, b, candidate, kind).value.record
    ensures ReadJsonFile(a, Var(a, ENV_TRUST_ROOT)) == ReadJsonFile(b, Var(b, ENV_TRUST_ROOT)) ==>
              CaptureGate(tl, a, candidate, kind).value.trustClass == CaptureGate(tl, b, candidate, kind).value.trustClass
  {
    hide Accepts, Clean, VerifyCaptureAssertion, EnforceWithin, Untrusted, LoadGrant, RequireEnterpriseCapture, Blank, Put, ReadJsonFile, Var,
         BusinessProjection, AiProjection, OrEmpty, Fld;
    if Attested(a) {
      SameContext(tl.verifier, a, b);
      RootClass(tl.verifier, a);
      RootClass(tl.verifier, b);
    }
  }

  lemma RootClass(vf: Verifier, env: Environment)
    requires VerifyCaptureAssertion(vf, env).Ok?
    ensures ReadJsonFile(env, Var(env, ENV_TRUST_ROOT)).Ok?
    ensures Fld(ReadJsonFile(env, Var(env, ENV_TRUST_ROOT)).value, "trust_class") == Str(VerifyCaptureAssertion(vf, env).value.trustClass)
  {
    hide SignedText, KeyMismatch, InTime, HasAll, Blank, Strip, ModeAllows, IsOne, PyStr, PinnedIssuer, ReadJsonFile, Get;
  }

  // Another client's call, or one more try to capture the candidate.
  datatype CaptureEvent = Elsewhere(action: O.Action) | Try(env: Environment, uuid: Uuids, fate: Fate)

  function PlayCapture(tl: Tools, db: Database, candidate: Value, e: CaptureEvent): Database {
    match e
    case Elsewhere(action) => O.Step(db, action).db
    case Try(env, uuid, fate) => if fate.FailsBefore? then db else CaptureStep(tl, db, env, candidate, uuid).db
  }

  function CapturedAt(tl: Tools, db: Database, candidate: Value, events: seq<CaptureEvent>, n: nat): Database
    requires n <= |events|
  {
    if n == 0 then db else PlayCapture(tl, CapturedAt(tl, db, candidate, events, n - 1), candidate, events[n - 1])
  }

  // A try the gate refuses is one that fails before its transaction.
  function AsAttempt(tl: Tools, candidate: Value, e: CaptureEvent): Event {
    match e
    case Elsewhere(action) => Other(action)
    case Try(env, uuid, fate) =>
      match CaptureGate(tl, env, candidate, LOCAL_SQLITE)
      case Err(_) => Attempt(Null, uuid, env.clock, FailsBefore)
      case Ok(adm) => Attempt(adm.authorization, uuid, env.clock, fate)
  }

  function AsAttempts(tl: Tools, candidate: Value, events: seq<CaptureEvent>): (r: seq<Event>)
    ensures |r| == |events| && forall i :: 0 <= i < |events| ==> r[i] == AsAttempt(tl, candidate, events[i])
  {
    seq(|events|, i requires 0 <= i < |events| => AsAttempt(tl, candidate, events[i]))
  }

  // Tries under one assertion, with files json.loads can read; well-formed calls
  // elsewhere.
  ghost predicate CaptureEventsOk(events: seq<CaptureEvent>, first: Environment) {
    forall i :: 0 <= i < |events| ==>
      match events[i]
      case Elsewhere(action) => ActionOk(action)
      case Try(env, _, _) => SameAssertion(env, first) && FilesParsed(env)
  }

  ghost predicate TryCompletes(tl: Tools, db: Database, candidate: Value, events: seq<CaptureEvent>, i: nat)
    requires i < |events|
  {
    events[i].Try? && events[i].fate.Completes?
    && CaptureStep(tl, CapturedAt(tl, db, candidate, events, i), events[i].env, candidate, events[i].uuid).result.Ok?
  }

  function Captured(tl: Tools, db: Database, candidate: Value, events: seq<CaptureEvent>, i: nat): O.Response
    requires i < |events| && TryCompletes(tl, db, candidate, events, i)
  {
    CaptureStep(tl, CapturedAt(tl, db, candidate, events, i), events[i].env, candidate, events[i].uuid).result.value
  }

  lemma PlaysAlike(tl: Tools, db: Database, candidate: Value, e: CaptureEvent, record: Value)
    requires e.Try? && CaptureGate(tl, e.env, candidate, LOCAL_SQLITE).Ok? ==> CaptureGate(tl, e.env, candidate, LOCAL_SQLITE).value.record == record
    ensures PlayCapture(tl, db, candidate, e) == Play(db, record, AsAttempt(tl, candidate, e))
    ensures e.Try? && e.fate.Completes? && CaptureStep(tl, db, e.env, candidate, e.uuid).result.Ok? ==>
              CaptureGate(tl, e.env, candidate, LOCAL_SQLITE).Ok?
              && Heard(db, record, AsAttempt(tl, candidate, e)) == CaptureStep(tl, db, e.env, candidate, e.uuid).result
  {
    hide CaptureGate, O.Step;
  }

  lemma {:induction false} RunsAlike(tl: Tools, db: Database, candidate: Value, events: seq<CaptureEvent>, record: Value, n: nat)
    requires n <= |events|
    requires forall i :: 0 <= i < |events| && events[i].Try? && CaptureGate(tl, events[i].env, candidate, LOCAL_SQLITE).Ok? ==>
               CaptureGate(tl, events[i].env, candidate, LOCAL_SQLITE).value.record == record
    ensures CapturedAt(tl, db, candidate, events, n) == At(db, record, AsAttempts(tl, candidate, events), n)
  {
    hide CaptureGate, Play, PlayCapture, AsAttempt;
    if n > 0 {
      RunsAlike(tl, db, candidate, events, record, n - 1);
      PlaysAlike(tl, CapturedAt(tl, db, candidate, events, n - 1), candidate, events[n - 1], record);
    }
  }

  lemma AttemptsOk(tl: Tools, candidate: Value, events: seq<CaptureEvent>, first: Environment)
    requires WellFormed(candidate) && CaptureEventsOk(events, first)
    ensures EventsOk(AsAttempts(tl, candidate, events))
  {
    hide CaptureGate, WellFormed, ActionOk;
    forall i | 0 <= i < |events| ensures EventOk(AsAttempt(tl, candidate, events[i])) {
      assert WellFormed(Null) by { NullWellFormed(); }
      match events[i]
      case Elsewhere(_) =>
      case Try(env, _, _) =>
        if CaptureGate(tl, env, candidate, LOCAL_SQLITE).Ok? { GateWellFormed(tl, env, candidate, LOCAL_SQLITE); }
    }
  }

  lemma NullWellFormed()
    ensures WellFormed(Null)
  {
  }

  // Exactly once: however many tries fail before or after their transaction, and
  // whatever others do in between, all successful captures of a candidate under
  // one assertion report the same task, and "replay" exactly when its content
  // was stored before that try.
  lemma CaptureExactlyOnce(tl: Tools, db: Database, candidate: Value, events: seq<CaptureEvent>, first: Environment, i: nat, j: nat)
    requires DbInv(db) && WellFormed(candidate) && CaptureEventsOk(events, first)
    requires i <= j < |events| && TryCompletes(tl, db, candidate, events, i) && TryCompletes(tl, db, candidate, events, j)
    ensures var r, s := Captured(tl, db, candidate, events, i), Captured(tl, db, candidate, events, j);
            && r.Persisted? && s.Persisted? && r.taskId == s.taskId && r.hash == s.hash
            && (i < j ==> s.duplicate)
            && (s.duplicate <==> HasContent(CapturedAt(tl, db, candidate, events, j), s.hash))
  {
    hide *;
    var record := SameRecords(tl, db, candidate, events, first, i);
    AttemptsOk(tl, candidate, events, first);
    TrySucceeds(tl, db, candidate, events, record, i);
    TrySucceeds(tl, db, candidate, events, record, j);
    RunsAlike(tl, db, candidate, events, record, j);
    ExactlyOnce(db, record, AsAttempts(tl, candidate, events), i, j);
  }

  lemma SameRecords(tl: Tools, db: Database, candidate: Value, events: seq<CaptureEvent>, first: Environment, i: nat) returns (record: Value)
    requires WellFormed(candidate) && CaptureEventsOk(events, first)
    requires i < |events| && TryCompletes(tl, db, candidate, events, i)
    ensures WellFormed(record)
    ensures forall k :: 0 <= k < |events| && events[k].Try? && CaptureGate(tl, events[k].env, candidate, LOCAL_SQLITE).Ok? ==>
              CaptureGate(tl, events[k].env, candidate, LOCAL_SQLITE).value.record == record
  {
    hide WellFormed, FilesParsed, CaptureGate, CapturedAt, CaptureStep, SameAssertion, ActionOk;
    CapturePassedGate(tl, CapturedAt(tl, db, candidate, events, i), events[i].env, candidate, events[i].uuid);
    record := CaptureGate(tl, events[i].env, candidate, LOCAL_SQLITE).value.record;
    GateWellFormed(tl, events[i].env, candidate, LOCAL_SQLITE);
    forall k | 0 <= k < |events| && events[k].Try? && CaptureGate(tl, events[k].env, candidate, LOCAL_SQLITE).Ok?
      ensures CaptureGate(tl, events[k].env, candidate, LOCAL_SQLITE).value.record == record
    {
      AlikeTwice(events[i].env, events[k].env, first);
      SameRecord(tl, events[i].env, events[k].env, candidate, LOCAL_SQLITE);
    }
  }

  lemma AlikeTwice(a: Environment, b: Environment, first: Environment)
    requires SameAssertion(a, first) && SameAssertion(b, first)
    ensures SameAssertion(a, b)
  {
  }

  // A try that completes is a successful attempt, with the same answer.
  lemma TrySucceeds(tl: Tools, db: Database, candidate: Value, events: seq<CaptureEvent>, record: Value, i: nat)
    requires i < |events| && TryCompletes(tl, db, candidate, events, i)
    requires forall k :: 0 <= k < |events| && events[k].Try? && CaptureGate(tl, events[k].env, candidate, LOCAL_SQLITE).Ok? ==>
               CaptureGate(tl, events[k].env, candidate, LOCAL_SQLITE).value.record == record
    ensures Succeeds(db, record, AsAttempts(tl, candidate, events), i)
    ensures ReportOf(db, record, AsAttempts(tl, candidate, events), i) == Captured(tl, db, candidate, events, i)
  {
    hide CaptureGate, CapturedAt, CaptureStep, AsAttempt, At, Heard, PlayCapture, Play;
    var before := CapturedAt(tl, db, candidate, events, i);
    RunsAlike(tl, db, candidate, events, record, i);
    PlaysAlike(tl, before, candidate, events[i], record);
    TryIsAttempt(tl, candidate, events[i]);
  }

  lemma TryIsAttempt(tl: Tools, candidate: Value, e: CaptureEvent)
    requires e.Try?
    ensures AsAttempt(tl, candidate, e).Attempt?
  {
    hide CaptureGate;
  }
}
