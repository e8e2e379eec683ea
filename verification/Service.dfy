// The entry protocols over the store: prepare, confirm and commit for personal
// capture, and the gated one-shot capture.
module Service {
  import opened Wrappers
  import opened Json
  import opened Canonical
  import opened Digests
  import opened Schema
  import opened Transactions
  import opened Migration
  import O = Operations
  import opened Redaction
  import opened Validation
  import opened Authorization
  import opened Store

  // The parts of the environment of the code that stay opaque.
  datatype Tools = Tools(reader: Reader, redactor: Redactor, verifier: Verifier)

  const PREPARED := "PREPARED"
  const CONFIRMED := "CONFIRMED"
  const LOCAL_SQLITE := "local_sqlite"

  // The document the caller carries between the personal-mode calls, and may edit.
  datatype Artifact = Artifact(
    status: string, confirmationId: string, payload: Value, payloadHash: Hash, redactions: seq<Finding>,
    confirmedAt: Option<string>, how: Option<string>, identity: Option<string>, source: Option<string>)

  // ----- prepare -----

  function PrepareGate(tl: Tools, candidate: Value): Outcome<Value> {
    if !Accepts(tl.reader, candidate) then Err(ValidationError)
    else if !Accepts(tl.reader, Clean(tl.redactor, candidate)) then Err(ValidationError)
    else Ok(Clean(tl.redactor, candidate))
  }

  function PrepareStep(tl: Tools, db: Database, candidate: Value, uuid: Uuids, now: string): Reply<Artifact> {
    match PrepareGate(tl, candidate)
    case Err(e) => Reply(db, Err(e))
    case Ok(clean) =>
      var s := O.Step(db, O.Create(clean, uuid, now));
      match s.result
      case Err(e) => Reply(s.db, Err(e))
      case Ok(response) =>
        if !response.Created? then Reply(s.db, Err(Raised))
        else Reply(s.db, Ok(Artifact(PREPARED, response.confirmationId, clean, response.payloadHash,
                                     Found(tl.redactor, candidate, "$"), None, None, None, None)))
  }

  method Prepare(store: SqliteStore, tl: Tools, candidate: Value, uuid: Uuids, now: string) returns (r: Outcome<Artifact>)
    modifies store
    ensures Reply(store.View(), r) == PrepareStep(tl, old(store.View()), candidate, uuid, now)
  {
    hide Accepts, Clean, Found, O.Step;
    var first := ValidateCandidate(tl.reader, candidate);
    if first.Err? { return Err(first.error); }
    var log := new Findings();
    var clean := Sanitize(tl.redactor, candidate, "$", log);
    var second := ValidateCandidate(tl.reader, clean);
    if second.Err? { return Err(second.error); }
    var created := store.CreateConfirmation(clean, uuid, now);
    if created.Err? { return Err(created.error); }
    if !created.value.Created? { return Err(Raised); }
    assert [] + Found(tl.redactor, candidate, "$") == Found(tl.redactor, candidate, "$");
    r := Ok(Artifact(PREPARED, created.value.confirmationId, clean, created.value.payloadHash, log.entries, None, None, None, None));
  }

  // ----- confirm and commit -----

  // The checks both calls make on the artifact before touching the store.
  function ArtifactGate(tl: Tools, a: Artifact, status: string): Outcome<()> {
    if a.status != status then Err(ConfirmationError)
    else if !Accepts(tl.reader, a.payload) then Err(ValidationError)
    else if Found(tl.redactor, a.payload, "$") != [] || Canon(Clean(tl.redactor, a.payload)) != Canon(a.payload) then Err(ConfirmationError)
    else if PayloadDigest(a.payload) != a.payloadHash then Err(ConfirmationError)
    else Ok(())
  }

  method CheckArtifact(tl: Tools, a: Artifact, status: string) returns (r: Outcome<()>)
    ensures r == ArtifactGate(tl, a, status)
  {
    hide Accepts, Clean, Found, Canon, PayloadDigest;
    if a.status != status { return Err(ConfirmationError); }
    var valid := ValidateCandidate(tl.reader, a.payload);
    if valid.Err? { return Err(valid.error); }
    var log := new Findings();
    var clean := Sanitize(tl.redactor, a.payload, "$", log);
    assert [] + Found(tl.redactor, a.payload, "$") == Found(tl.redactor, a.payload, "$");
    if log.entries != [] || Canon(clean) != Canon(a.payload) { return Err(ConfirmationError); }
    if PayloadDigest(a.payload) != a.payloadHash { return Err(ConfirmationError); }
    r := Ok(());
  }

  function ConfirmStep(tl: Tools, db: Database, a: Artifact, how: string, identity: Option<string>, source: Option<string>,
                       now: string): Reply<Artifact> {
    match ArtifactGate(tl, a, PREPARED)
    case Err(e) => Reply(db, Err(e))
    case Ok(_) =>
      var s := O.Step(db, O.Confirm(a.confirmationId, a.payloadHash, how, identity, source, now));
      match s.result
      case Err(e) => Reply(s.db, Err(e))
      case Ok(response) =>
        if !response.ConfirmationIs? then Reply(s.db, Err(Raised))
        else
          var row := response.row;
          Reply(s.db, Ok(a.(status := CONFIRMED, confirmedAt := row.confirmedAt, how := row.how, identity := row.identity, source := row.source)))
  }

  method Confirm(store: SqliteStore, tl: Tools, a: Artifact, how: string, identity: Option<string>, source: Option<string>, now: string)
    returns (r: Outcome<Artifact>)
    modifies store
    ensures Reply(store.View(), r) == ConfirmStep(tl, old(store.View()), a, how, identity, source, now)
  {
    hide ArtifactGate, O.Step;
    var gate := CheckArtifact(tl, a, PREPARED);
    if gate.Err? { return Err(gate.error); }
    var reply := store.ConfirmConfirmation(a.confirmationId, a.payloadHash, how, identity, source, now);
    if reply.Err? { return Err(reply.error); }
    if !reply.value.ConfirmationIs? { return Err(Raised); }
    var confirmed := a;
    confirmed := confirmed.(status := CONFIRMED, confirmedAt := reply.value.row.confirmedAt);
    confirmed := confirmed.(how := reply.value.row.how, identity := reply.value.row.identity, source := reply.value.row.source);
    r := Ok(confirmed);
  }

  datatype CommitReport = CommitReport(taskId: string, confirmationId: string, consumedAt: Option<string>, duplicate: bool,
                                       payloadHash: Hash, schemaVersion: nat)

  // The transaction of commit: the gate, then one step.
  function CommitStep(tl: Tools, db: Database, a: Artifact, uuid: Uuids, now: string): Reply<O.Response> {
    match ArtifactGate(tl, a, CONFIRMED)
    case Err(e) => Reply(db, Err(e))
    case Ok(_) => O.Step(db, O.Consume(a.confirmationId, a.payloadHash, uuid, now))
  }

  // The two reads after it and the checks on what they show.
  function CommitConclusion(a: Artifact, taskId: string, duplicate: bool, stored: Outcome<Option<O.TaskRecord>>,
                            state: Option<Confirmation>): Outcome<CommitReport> {
    match stored
    case Err(e) => Err(e)
    case Ok(None) => Err(ConfirmationError)
    case Ok(Some(task)) =>
      if task.payloadHash != a.payloadHash then Err(ConfirmationError)
      else if state.None? || state.value.status != Consumed || state.value.taskId != Some(taskId) then Err(ConfirmationError)
      else Ok(CommitReport(taskId, a.confirmationId, state.value.consumedAt, duplicate, task.payloadHash, task.schemaVersion))
  }

  method Commit(store: SqliteStore, tl: Tools, a: Artifact, uuid: Uuids, now: string) returns (r: Outcome<CommitReport>)
    modifies store
    ensures var s := CommitStep(tl, old(store.View()), a, uuid, now);
            && store.View() == s.db
            && match s.result
               case Err(e) => r == Err(e)
               case Ok(response) =>
                 r == if !response.Persisted? then Err(Raised)
                      else CommitConclusion(a, response.taskId, response.duplicate, O.ReadTask(store.Rows(), response.taskId),
                                            O.ReadConfirmation(store.Rows(), a.confirmationId))
  {
    hide ArtifactGate, O.Step, O.ReadTask;
    var gate := CheckArtifact(tl, a, CONFIRMED);
    if gate.Err? { return Err(gate.error); }
    var reply := store.PersistConfirmed(a.confirmationId, a.payloadHash, uuid, now);
    if reply.Err? { return Err(reply.error); }
    if !reply.value.Persisted? { return Err(Raised); }
    var taskId := reply.value.taskId;
    var stored := store.ReadTask(taskId);
    var state := O.ReadConfirmation(store.Rows(), a.confirmationId);
    if stored.Err? { return Err(stored.error); }
    if stored.value.None? || stored.value.value.payloadHash != a.payloadHash { return Err(ConfirmationError); }
    if state.None? || state.value.status != Consumed || state.value.taskId != Some(taskId) { return Err(ConfirmationError); }
    r := Ok(CommitReport(taskId, a.confirmationId, state.value.consumedAt, reply.value.duplicate, stored.value.value.payloadHash,
                         stored.value.value.schemaVersion));
  }

  // ----- capture -----

  // Everything capture does before the store is written: validate, admit,
  // sanitise, validate again.
  function CaptureGate(tl: Tools, env: Environment, candidate: Value, kind: string): Outcome<Admitted> {
    if !Accepts(tl.reader, candidate) then Err(ValidationError)
    else if !candidate.Obj? then Err(ValidationError)
    else match Admit(tl.verifier, env, candidate, kind)
      case Err(e) => Err(e)
      case Ok(adm) =>
        var clean := Clean(tl.redactor, adm.record);
        if Accepts(tl.reader, clean) then Ok(adm.(record := clean)) else Err(ValidationError)
  }

  method RunGate(tl: Tools, env: Environment, candidate: Value, kind: string) returns (r: Outcome<Admitted>)
    ensures r == CaptureGate(tl, env, candidate, kind)
  {
    hide Accepts, Clean, Found, VerifyCaptureAssertion, EnforceWithin, LoadGrant, RequireEnterpriseCapture, Untrusted, Injected, Attested;
    var valid := ValidateCandidate(tl.reader, candidate);
    if valid.Err? { return Err(valid.error); }
    if !candidate.Obj? { return Err(ValidationError); }
    var adm;
    if Attested(env) {
      if !Untrusted(candidate) { return Err(ValidationError); }
      var ctx := VerifyCaptureAssertion(tl.verifier, env);
      if ctx.Err? { return Err(ctx.error); }
      var within := EnforceWithin(candidate, ctx.value, kind);
      if within.Err? { return Err(within.error); }
      var merged := InjectTrustedContext(candidate, ctx.value);
      if merged.Err? { return Err(merged.error); }
      adm := Admitted(merged.value, ctx.value.PublicRecord(), ctx.value.trustClass);
    } else {
      var grant := LoadGrant(tl.verifier, env);
      if grant.Err? { return Err(grant.error); }
      var record := RequireEnterpriseCapture(grant.value, candidate, kind, env.clock);
      if record.Err? { return Err(record.error); }
      adm := Admitted(candidate, record.value, CLASS_DEVELOPMENT);
    }
    assert Admit(tl.verifier, env, candidate, kind) == Ok(adm);
    var log := new Findings();
    var clean := Sanitize(tl.redactor, adm.record, "$", log);
    var again := ValidateCandidate(tl.reader, clean);
    if again.Err? { return Err(again.error); }
    r := Ok(adm.(record := clean));
  }

  // How a persistence failure is reported: the package's own refusals as they
  // are, anything else as a failed capture.
  function PersistenceError(e: Error): Error {
    if e == Raised || e == UniqueViolation then CaptureStorageError else e
  }

  function CaptureStep(tl: Tools, db: Database, env: Environment, candidate: Value, uuid: Uuids): Reply<O.Response> {
    match CaptureGate(tl, env, candidate, LOCAL_SQLITE)
    case Err(e) => Reply(db, Err(e))
    case Ok(adm) =>
      var s := O.Step(db, O.Authorize(adm.record, adm.authorization, uuid, env.clock));
      Reply(s.db, match s.result case Ok(r) => Ok(r) case Err(e) => Err(PersistenceError(e)))
  }

  datatype CaptureReport =
    PersistedReport(taskId: string, session: Value, replay: bool, payloadHash: Hash, authorization: Value, trustClass: string)

  // The read after it and the checks on what it shows.
  function CaptureConclusion(adm: Admitted, taskId: string, duplicate: bool, stored: Outcome<Option<O.TaskRecord>>): Outcome<CaptureReport> {
    match stored
    case Err(_) => Err(CaptureStorageError)
    case Ok(None) => Err(CaptureStorageError)
    case Ok(Some(task)) =>
      if task.payloadHash != PayloadDigest(adm.record) then Err(CaptureStorageError)
      else if task.captureStatus != PERSISTED then Err(CaptureStorageError)
      else Ok(PersistedReport(taskId, Fld(adm.record, SESSION), duplicate, task.payloadHash, adm.authorization, adm.trustClass))
  }

  method Capture(store: SqliteStore, tl: Tools, env: Environment, candidate: Value, uuid: Uuids) returns (r: Outcome<CaptureReport>)
    modifies store
    ensures var s := CaptureStep(tl, old(store.View()), env, candidate, uuid);
            && store.View() == s.db
            && match s.result
               case Err(e) => r == Err(e)
               case Ok(response) =>
                 r == if !response.Persisted? then Err(CaptureStorageError)
                      else CaptureConclusion(CaptureGate(tl, env, candidate, LOCAL_SQLITE).value, response.taskId, response.duplicate,
                                             O.ReadTask(store.Rows(), response.taskId))
  {
    hide CaptureGate, O.Step, O.ReadTask, PayloadDigest;
    var gate := RunGate(tl, env, candidate, LOCAL_SQLITE);
    if gate.Err? { return Err(gate.error); }
    var adm := gate.value;
    var reply := store.PersistAuthorized(adm.record, adm.authorization, uuid, env.clock);
    if reply.Err? { return Err(PersistenceError(reply.error)); }
    if !reply.value.Persisted? { return Err(CaptureStorageError); }
    var stored := store.ReadTask(reply.value.taskId);
    r := CaptureConclusion(adm, reply.value.taskId, reply.value.duplicate, stored);
  }
}
