// capture and commit over an arbitrary storage adapter: whatever it answers or
// raises, and whatever its answers depend on, persistence is reported exactly
// when its own reads show it.
module Adapters {
  import opened Wrappers
  import opened Json
  import opened Canonical
  import opened Digests
  import opened Schema
  import opened Transactions
  import opened Migration
  import opened Runs
  import opened Redaction
  import opened Validation
  import opened Authorization
  import opened Service
  import opened Protocols
  import Admission
  import O = Operations

  // What the runtime asks an adapter, and what comes back: a JSON value or an
  // exception of one of the kinds the runtime tells apart.
  datatype Question =
    | PersistAuthorized(payload: Value, authorization: Value)
    | PersistConfirmed(id: string, hash: Hash)
    | ReadTask(taskId: Value)
    | ReadConfirmation(id: string)

  datatype Failure = Storage | OperatingSystem | Package(error: Error) | Other
  datatype Answer = Returned(value: Value) | Failed(how: Failure)

  // Each answer may depend on everything asked so far.
  type Behaviour = seq<Question> -> Answer

  class Adapter {
    const kind: string
    const answer: Behaviour
    var asked: seq<Question>

    constructor (kind: string, answer: Behaviour)
      ensures this.kind == kind && this.answer == answer && asked == []
    {
      this.kind, this.answer, asked := kind, answer, [];
    }

    method Ask(q: Question) returns (a: Answer)
      modifies this`asked
      ensures asked == old(asked) + [q] && a == answer(asked)
    {
      asked := asked + [q];
      a := answer(asked);
    }
  }

  // An outcome, and what the adapter has been asked by then.
  datatype Talk<+T> = Talk(result: Outcome<T>, asked: seq<Question>)

  // ----- capture -----

  datatype Report =
    | Pending(session: Value, authorization: Value, trustClass: string)
    | Persisted(taskId: Value, session: Value, replay: bool, payloadHash: Hash, authorization: Value, trustClass: string)

  function PersistFailure(how: Failure): Error {
    match how case Package(e) => PersistenceError(e) case _ => CaptureStorageError
  }

  // The checks on what read_task returned: a falsy value, another digest and
  // another status are refused, a missing key raises.
  function ReadBack(adm: Admitted, taskId: Value, replay: bool, stored: Value): Outcome<Report> {
    if !Truthy(stored) then Err(CaptureStorageError)
    else match Get(stored, "confirmed_payload_hash")
      case None => Err(Raised)
      case Some(hash) =>
        var info := GetOr(stored, "capture", Obj([]));
        if hash != HexStr(PayloadDigest(adm.record)) then Err(CaptureStorageError)
        else if !info.Obj? then Err(Raised)
        else if Fld(info, "capture_status") != Str(PERSISTED) then Err(CaptureStorageError)
        else if Get(stored, "schema_version").None? then Err(Raised)
        else Ok(Persisted(taskId, Fld(adm.record, SESSION), replay, PayloadDigest(adm.record), adm.authorization, adm.trustClass))
  }

  function CaptureTalk(tl: Tools, env: Environment, candidate: Value, kind: string, answer: Behaviour, asked: seq<Question>): Talk<Report> {
    match CaptureGate(tl, env, candidate, kind)
    case Err(e) => Talk(Err(e), asked)
    case Ok(adm) =>
      var asked1 := asked + [PersistAuthorized(adm.record, adm.authorization)];
      match answer(asked1)
      case Failed(how) => Talk(Err(PersistFailure(how)), asked1)
      case Returned(reply) =>
        if !reply.Obj? then Talk(Err(Raised), asked1)
        else if Truthy(Fld(reply, "pending")) then Talk(Ok(Pending(Fld(adm.record, SESSION), adm.authorization, adm.trustClass)), asked1)
        else match Get(reply, "task_id")
          case None => Talk(Err(Raised), asked1)
          case Some(id) =>
            var asked2 := asked1 + [ReadTask(id)];
            match answer(asked2)
            case Failed(_) => Talk(Err(CaptureStorageError), asked2)
            case Returned(stored) => Talk(ReadBack(adm, id, Truthy(Fld(reply, "duplicate")), stored), asked2)
  }

  method CaptureThrough(adapter: Adapter, tl: Tools, env: Environment, candidate: Value) returns (r: Outcome<Report>)
    modifies adapter`asked
    ensures Talk(r, adapter.asked) == CaptureTalk(tl, env, candidate, adapter.kind, adapter.answer, old(adapter.asked))
  {
    hide CaptureGate, ReadBack, Get;
    var gate := RunGate(tl, env, candidate, adapter.kind);
    if gate.Err? { return Err(gate.error); }
    var adm := gate.value;
    var persisted := adapter.Ask(PersistAuthorized(adm.record, adm.authorization));
    if persisted.Failed? { return Err(PersistFailure(persisted.how)); }
    var reply := persisted.value;
    if !reply.Obj? { return Err(Raised); }
    if Truthy(Fld(reply, "pending")) { return Ok(Pending(Fld(adm.record, SESSION), adm.authorization, adm.trustClass)); }
    var id := Get(reply, "task_id");
    if id.None? { return Err(Raised); }
    var stored := adapter.Ask(ReadTask(id.value));
    if stored.Failed? { return Err(CaptureStorageError); }
    r := ReadBack(adm, id.value, Truthy(Fld(reply, "duplicate")), stored.value);
  }

  // ----- when capture reports what -----

  // What a read must show before persistence is claimed.
  ghost predicate ShowsPersisted(stored: Value, hash: Hash) {
    && stored.Obj? && Get(stored, "confirmed_payload_hash") == Some(HexStr(hash)) && Get(stored, "schema_version").Some?
    && exists info :: Get(stored, "capture") == Some(info) && info.Obj? && Get(info, "capture_status") == Some(Str(PERSISTED))
  }

  // Some raw record was admitted; its sanitised form was accepted and handed to
  // the adapter, which did not defer it and then showed it persisted.
  ghost predicate ShownPersisted(tl: Tools, env: Environment, candidate: Value, kind: string, answer: Behaviour, asked: seq<Question>,
                                 raw: Admitted, reply: Value, id: Value, stored: Value)
  {
    var record := Clean(tl.redactor, raw.record);
    var asked1 := asked + [PersistAuthorized(record, raw.authorization)];
    && Accepts(tl.reader, candidate) && candidate.Obj? && Admit(tl.verifier, env, candidate, kind) == Ok(raw) && Accepts(tl.reader, record)
    && answer(asked1) == Returned(reply) && reply.Obj? && !Truthy(Fld(reply, "pending")) && Get(reply, "task_id") == Some(id)
    && answer(asked1 + [ReadTask(id)]) == Returned(stored) && ShowsPersisted(stored, PayloadDigest(record))
  }

  // Against any adapter: PERSISTED is reported exactly when its own read shows
  // the digest of the sanitised record and persisted status, for that digest.
  lemma PersistedExactlyIfShown(tl: Tools, env: Environment, candidate: Value, kind: string, answer: Behaviour, asked: seq<Question>)
    ensures var t := CaptureTalk(tl, env, candidate, kind, answer, asked);
            t.result.Ok? && t.result.value.Persisted? <==>
              exists raw, reply, id, stored :: ShownPersisted(tl, env, candidate, kind, answer, asked, raw, reply, id, stored)
    ensures forall raw, reply, id, stored :: ShownPersisted(tl, env, candidate, kind, answer, asked, raw, reply, id, stored) ==>
              var t := CaptureTalk(tl, env, candidate, kind, answer, asked);
              t.result == Ok(Persisted(id, Fld(Clean(tl.redactor, raw.record), SESSION), Truthy(Fld(reply, "duplicate")),
                                       PayloadDigest(Clean(tl.redactor, raw.record)), raw.authorization, raw.trustClass))
  {
    hide CaptureTalk, ShownPersisted;
    var t := CaptureTalk(tl, env, candidate, kind, answer, asked);
    if t.result.Ok? && t.result.value.Persisted? {
      var raw, reply, id, stored := PersistedWasShown(tl, env, candidate, kind, answer, asked);
    }
    forall raw, reply, id, stored | ShownPersisted(tl, env, candidate, kind, answer, asked, raw, reply, id, stored)
      ensures t.result == Ok(Persisted(id, Fld(Clean(tl.redactor, raw.record), SESSION), Truthy(Fld(reply, "duplicate")),
                                       PayloadDigest(Clean(tl.redactor, raw.record)), raw.authorization, raw.trustClass))
    {
      ShownIsPersisted(tl, env, candidate, kind, answer, asked, raw, reply, id, stored);
    }
  }

  lemma PersistedWasShown(tl: Tools, env: Environment, candidate: Value, kind: string, answer: Behaviour, asked: seq<Question>)
    returns (raw: Admitted, reply: Value, id: Value, stored: Value)
    requires CaptureTalk(tl, env, candidate, kind, answer, asked).result.Ok?
    requires CaptureTalk(tl, env, candidate, kind, answer, asked).result.value.Persisted?
    ensures ShownPersisted(tl, env, candidate, kind, answer, asked, raw, reply, id, stored)
  {
    hide Accepts, Admit, Clean, PayloadDigest, Get;
    raw := Admit(tl.verifier, env, candidate, kind).value;
    var record := Clean(tl.redactor, raw.record);
    var asked1 := asked + [PersistAuthorized(record, raw.authorization)];
    reply := answer(asked1).value;
    id := Get(reply, "task_id").value;
    stored := answer(asked1 + [ReadTask(id)]).value;
    GetNeedsDict(stored, "confirmed_payload_hash");
    GetNeedsDict(Obj([]), "capture_status");
    NothingInEmpty("capture_status");
  }

  lemma GetNeedsDict(v: Value, k: string)
    ensures Get(v, k).Some? ==> v.Obj?
  {
  }

  lemma NothingInEmpty(k: string)
    ensures Get(Obj([]), k) == None
  {
  }

  lemma ShownIsPersisted(tl: Tools, env: Environment, candidate: Value, kind: string, answer: Behaviour, asked: seq<Question>,
                         raw: Admitted, reply: Value, id: Value, stored: Value)
    requires ShownPersisted(tl, env, candidate, kind, answer, asked, raw, reply, id, stored)
    ensures CaptureTalk(tl, env, candidate, kind, answer, asked).result ==
            Ok(Persisted(id, Fld(Clean(tl.redactor, raw.record), SESSION), Truthy(Fld(reply, "duplicate")),
                         PayloadDigest(Clean(tl.redactor, raw.record)), raw.authorization, raw.trustClass))
  {
    hide Accepts, Admit, Clean, PayloadDigest, Get;
    TruthyIfFilled(stored, "confirmed_payload_hash");
  }

  lemma TruthyIfFilled(v: Value, k: string)
    ensures Get(v, k).Some? ==> Truthy(v)
  {
  }

  // Pending is reported exactly when the gate passed and the adapter deferred the
  // record; nothing is read then, and a pending reply never becomes PERSISTED.
  lemma PendingExactlyIfDeferred(tl: Tools, env: Environment, candidate: Value, kind: string, answer: Behaviour, asked: seq<Question>)
    ensures var t := CaptureTalk(tl, env, candidate, kind, answer, asked);
            t.result.Ok? && t.result.value.Pending? <==>
              && CaptureGate(tl, env, candidate, kind).Ok?
              && var adm := CaptureGate(tl, env, candidate, kind).value;
                 var a := answer(asked + [PersistAuthorized(adm.record, adm.authorization)]);
                 a.Returned? && a.value.Obj? && Truthy(Fld(a.value, "pending"))
    ensures var t := CaptureTalk(tl, env, candidate, kind, answer, asked);
            t.result.Ok? && t.result.value.Pending? ==>
              && |t.asked| == |asked| + 1 && t.asked[|asked|].PersistAuthorized?
              && var adm := CaptureGate(tl, env, candidate, kind).value;
                 t.result.value == Pending(Fld(adm.record, SESSION), adm.authorization, adm.trustClass)
  {
    hide CaptureGate, Get, PayloadDigest;
  }

  // A refusal by the gate asks nothing; every run asks at most to persist the
  // sanitised record once and to read one task once, in this order; and an
  // exception anywhere is never a success.
  lemma CaptureAsks(tl: Tools, env: Environment, candidate: Value, kind: string, answer: Behaviour, asked: seq<Question>)
    ensures var t := CaptureTalk(tl, env, candidate, kind, answer, asked);
            var gate := CaptureGate(tl, env, candidate, kind);
            && asked <= t.asked && |t.asked| <= |asked| + 2
            && (|t.asked| > |asked| <==> gate.Ok?)
            && (gate.Err? ==> t.result == Err(gate.error))
            && (|t.asked| > |asked| ==> t.asked[|asked|] == PersistAuthorized(gate.value.record, gate.value.authorization))
            && (|t.asked| == |asked| + 2 ==> t.asked[|asked| + 1].ReadTask?)
            && forall n :: |asked| < n <= |t.asked| && answer(t.asked[..n]).Failed? ==> t.result.Err?
  {
    hide CaptureGate, Get, PayloadDigest;
    var t := CaptureTalk(tl, env, candidate, kind, answer, asked);
    if |t.asked| > |asked| {
      var adm := CaptureGate(tl, env, candidate, kind).value;
      var asked1 := asked + [PersistAuthorized(adm.record, adm.authorization)];
      assert t.asked[..|asked1|] == asked1 && t.asked[..|t.asked|] == t.asked;
    }
  }

  // What an exception of the adapter becomes: the package's own refusal of the
  // record reaches the caller, anything else is a failed capture.
  lemma CaptureRaises(tl: Tools, env: Environment, candidate: Value, kind: string, answer: Behaviour, asked: seq<Question>)
    requires CaptureGate(tl, env, candidate, kind).Ok?
    ensures var t := CaptureTalk(tl, env, candidate, kind, answer, asked);
            var adm := CaptureGate(tl, env, candidate, kind).value;
            var first := answer(asked + [PersistAuthorized(adm.record, adm.authorization)]);
            && (first in [Failed(Storage), Failed(OperatingSystem), Failed(Other)] ==> t.result == Err(CaptureStorageError))
            && (forall e :: first == Failed(Package(e)) && e in [SessionConflict, ConfirmationError, ValidationError, AuthorizationError] ==>
                  t.result == Err(e))
            && (first.Returned? && answer(t.asked).Failed? ==> t.result == Err(CaptureStorageError))
            && (t.result.Err? && first.Returned? ==> t.result.error in [CaptureStorageError, Raised])
  {
    hide CaptureGate, Get, PayloadDigest, Truthy;
  }

  // ----- commit -----

  datatype Commitment = Commitment(taskId: Value, duplicate: Value, consumedAt: Value, payloadHash: Hash)

  // An exception of the adapter reaches the caller of commit as it is.
  function Raw(how: Failure): Error {
    match how case Package(e) => e case _ => Raised
  }

  function CommitReads(a: Artifact, taskId: Value, duplicate: Value, stored: Value, state: Value): Outcome<Commitment> {
    if !Truthy(stored) then Err(ConfirmationError)
    else if Get(stored, "confirmed_payload_hash").None? then Err(Raised)
    else if Get(stored, "confirmed_payload_hash") != Some(HexStr(a.payloadHash)) then Err(ConfirmationError)
    else if !Truthy(state) then Err(ConfirmationError)
    else if Get(state, "status").None? then Err(Raised)
    else if Get(state, "status") != Some(Str("CONSUMED")) then Err(ConfirmationError)
    else match Get(state, "task_id")
      case None => Err(Raised)
      case Some(id) =>
        if Canon(id) != Canon(taskId) then Err(ConfirmationError)
        else if Get(state, "consumed_at").None? || Get(stored, "schema_version").None? then Err(Raised)
        else Ok(Commitment(taskId, duplicate, Fld(state, "consumed_at"), a.payloadHash))
  }

  function CommitTalk(tl: Tools, a: Artifact, answer: Behaviour, asked: seq<Question>): Talk<Commitment> {
    match ArtifactGate(tl, a, CONFIRMED)
    case Err(e) => Talk(Err(e), asked)
    case Ok(_) =>
      var asked1 := asked + [PersistConfirmed(a.confirmationId, a.payloadHash)];
      match answer(asked1)
      case Failed(how) => Talk(Err(Raw(how)), asked1)
      case Returned(reply) =>
        if !reply.Arr? || |reply.items| != 2 then Talk(Err(Raised), asked1)
        else
          var asked2 := asked1 + [ReadTask(reply.items[0])];
          match answer(asked2)
          case Failed(how) => Talk(Err(Raw(how)), asked2)
          case Returned(stored) =>
            var asked3 := asked2 + [ReadConfirmation(a.confirmationId)];
            match answer(asked3)
            case Failed(how) => Talk(Err(Raw(how)), asked3)
            case Returned(state) => Talk(CommitReads(a, reply.items[0], reply.items[1], stored, state), asked3)
  }

  method CommitThrough(adapter: Adapter, tl: Tools, a: Artifact) returns (r: Outcome<Commitment>)
    modifies adapter`asked
    ensures Talk(r, adapter.asked) == CommitTalk(tl, a, adapter.answer, old(adapter.asked))
  {
    hide ArtifactGate, CommitReads;
    var gate := CheckArtifact(tl, a, CONFIRMED);
    if gate.Err? { return Err(gate.error); }
    var persisted := adapter.Ask(PersistConfirmed(a.confirmationId, a.payloadHash));
    if persisted.Failed? { return Err(Raw(persisted.how)); }
    if !persisted.value.Arr? || |persisted.value.items| != 2 { return Err(Raised); }
    var (taskId, duplicate) := (persisted.value.items[0], persisted.value.items[1]);
    var stored := adapter.Ask(ReadTask(taskId));
    if stored.Failed? { return Err(Raw(stored.how)); }
    var state := adapter.Ask(ReadConfirmation(a.confirmationId));
    if state.Failed? { return Err(Raw(state.how)); }
    r := CommitReads(a, taskId, duplicate, stored.value, state.value);
  }

  // An exception of the adapter reaches the caller of commit, whichever question
  // it answers.
  lemma CommitRaises(tl: Tools, a: Artifact, answer: Behaviour, asked: seq<Question>)
    requires ArtifactGate(tl, a, CONFIRMED).Ok?
    ensures var t := CommitTalk(tl, a, answer, asked);
            && |asked| < |t.asked| <= |asked| + 3 && asked <= t.asked && t.asked[|asked|] == PersistConfirmed(a.confirmationId, a.payloadHash)
            && (forall e :: answer(t.asked) == Failed(Package(e)) ==> t.result == Err(e))
            && (answer(t.asked) in [Failed(Storage), Failed(OperatingSystem), Failed(Other)] ==> t.result == Err(Raised))
            && (answer(t.asked).Returned? && t.result.Err? ==> t.result.error in [ConfirmationError, Raised])
  {
    hide ArtifactGate, Get, Canon, Truthy;
  }

  // The adapter consumed the intent, shows the artifact's digest under the task
  // it named, and shows the confirmation consumed for that task.
  ghost predicate ShownCommitted(tl: Tools, a: Artifact, answer: Behaviour, asked: seq<Question>, taskId: Value, duplicate: Value,
                                 stored: Value, state: Value)
  {
    var asked1 := asked + [PersistConfirmed(a.confirmationId, a.payloadHash)];
    var asked2 := asked1 + [ReadTask(taskId)];
    && ArtifactGate(tl, a, CONFIRMED).Ok?
    && answer(asked1) == Returned(Arr([taskId, duplicate]))
    && answer(asked2) == Returned(stored) && answer(asked2 + [ReadConfirmation(a.confirmationId)]) == Returned(state)
    && Get(stored, "confirmed_payload_hash") == Some(HexStr(a.payloadHash)) && Get(stored, "schema_version").Some?
    && Get(state, "status") == Some(Str("CONSUMED")) && Get(state, "consumed_at").Some?
    && exists id :: Get(state, "task_id") == Some(id) && Canon(id) == Canon(taskId)
  }

  // Against any adapter: commit succeeds exactly when the gate passed and the
  // adapter's own reads show the digest stored and the intent consumed for it.
  lemma CommittedExactlyIfShown(tl: Tools, a: Artifact, answer: Behaviour, asked: seq<Question>)
    ensures CommitTalk(tl, a, answer, asked).result.Ok? <==>
              exists taskId, duplicate, stored, state :: ShownCommitted(tl, a, answer, asked, taskId, duplicate, stored, state)
    ensures forall taskId, duplicate, stored, state :: ShownCommitted(tl, a, answer, asked, taskId, duplicate, stored, state) ==>
              CommitTalk(tl, a, answer, asked).result == Ok(Commitment(taskId, duplicate, Fld(state, "consumed_at"), a.payloadHash))
  {
    hide CommitTalk, ShownCommitted;
    if CommitTalk(tl, a, answer, asked).result.Ok? {
      var taskId, duplicate, stored, state := CommittedWasShown(tl, a, answer, asked);
    }
    forall taskId, duplicate, stored, state | ShownCommitted(tl, a, answer, asked, taskId, duplicate, stored, state)
      ensures CommitTalk(tl, a, answer, asked).result == Ok(Commitment(taskId, duplicate, Fld(state, "consumed_at"), a.payloadHash))
    {
      ShownIsCommitted(tl, a, answer, asked, taskId, duplicate, stored, state);
    }
  }

  lemma CommittedWasShown(tl: Tools, a: Artifact, answer: Behaviour, asked: seq<Question>)
    returns (taskId: Value, duplicate: Value, stored: Value, state: Value)
    requires CommitTalk(tl, a, answer, asked).result.Ok?
    ensures ShownCommitted(tl, a, answer, asked, taskId, duplicate, stored, state)
  {
    hide ArtifactGate, Canon, Get;
    var asked1 := asked + [PersistConfirmed(a.confirmationId, a.payloadHash)];
    var reply := answer(asked1).value;
    taskId, duplicate := reply.items[0], reply.items[1];
    assert reply == Arr([taskId, duplicate]);
    stored := answer(asked1 + [ReadTask(taskId)]).value;
    state := answer(asked1 + [ReadTask(taskId)] + [ReadConfirmation(a.confirmationId)]).value;
  }

  lemma ShownIsCommitted(tl: Tools, a: Artifact, answer: Behaviour, asked: seq<Question>, taskId: Value, duplicate: Value,
                         stored: Value, state: Value)
    requires ShownCommitted(tl, a, answer, asked, taskId, duplicate, stored, state)
    ensures CommitTalk(tl, a, answer, asked).result == Ok(Commitment(taskId, duplicate, Fld(state, "consumed_at"), a.payloadHash))
  {
    hide ArtifactGate, Canon, Get;
    TruthyIfFilled(stored, "confirmed_payload_hash");
    TruthyIfFilled(state, "status");
  }

  // ----- the relational store as an adapter -----

  // persist_authorized's reply and read_task's dict.
  function PersistDict(taskId: string, duplicate: bool, hash: Hash): Value {
    Obj([Field("task_id", Str(taskId)), Field("duplicate", Bool(duplicate)), Field("payload_hash", HexStr(hash))])
  }

  function ModeText(mode: Mode): string {
    match mode case Personal => MODE_PERSONAL case Enterprise => MODE_ENTERPRISE
  }

  function TaskDict(r: O.TaskRecord): Value {
    Obj([Field("task_id", Str(r.taskId)), Field("schema_version", Int(r.schemaVersion)), Field("created_at", Str(r.createdAt)),
         Field("confirmed_payload_hash", HexStr(r.payloadHash)), Field("payload", r.payload),
         Field("capture", Obj([Field("capture_session_id", r.session), Field("capture_mode", Str(ModeText(r.mode))),
                               Field("capture_status", Str(r.captureStatus)), Field("started_at", r.startedAt),
                               Field("completed_at", r.completedAt),
                               Field("business_context_ref_hash", if r.contextRefHash.Some? then HexStr(r.contextRefHash.value) else Null),
                               Field("business_context", r.business), Field("ai_context", r.ai), Field("authorization", r.authorization)]))])
  }

  lemma TaskDictShows(r: O.TaskRecord)
    ensures ShowsPersisted(TaskDict(r), r.payloadHash) <==> r.captureStatus == PERSISTED
  {
    hide UniqueKeys, Get;
    var fs := TaskDict(r).fields;
    TaskDictKeys(r);
    CaptureKeys(r);
    GetAt(fs, 1);
    GetAt(fs, 3);
    GetAt(fs, 5);
    GetAt(fs[5].val.fields, 2);
  }

  lemma TaskDictKeys(r: O.TaskRecord)
    ensures UniqueKeys(TaskDict(r).fields)
  {
  }

  lemma CaptureKeys(r: O.TaskRecord)
    ensures TaskDict(r).fields[5].val.Obj? && UniqueKeys(TaskDict(r).fields[5].val.fields)
  {
  }

  lemma PersistDictParts(taskId: string, duplicate: bool, hash: Hash)
    ensures var reply := PersistDict(taskId, duplicate, hash);
            && Get(reply, "task_id") == Some(Str(taskId)) && !Truthy(Fld(reply, "pending")) && Truthy(Fld(reply, "duplicate")) == duplicate
  {
    var fs := PersistDict(taskId, duplicate, hash).fields;
    assert UniqueKeys(fs);
    GetAt(fs, 0);
    GetAt(fs, 1);
    GetIn(Obj(fs), "pending");
  }

  // Whatever other clients do between the two calls, an adapter that answers as
  // the relational store does has its capture reported as persisted, with the
  // store's own replay flag.
  lemma RelationalCaptureShown(tl: Tools, db: Database, env: Environment, candidate: Value, uuid: Uuids, others: seq<O.Action>,
                               answer: Behaviour, asked: seq<Question>, task: O.TaskRecord)
    requires DbInv(db) && ActionsOk(others) && WellFormed(candidate) && Admission.FilesParsed(env)
    requires CaptureStep(tl, db, env, candidate, uuid).result.Ok? && CaptureStep(tl, db, env, candidate, uuid).result.value.Persisted?
    requires Run(CaptureStep(tl, db, env, candidate, uuid).db, others).layout.V4?
    requires var s := CaptureStep(tl, db, env, candidate, uuid);
             O.ReadTask(Run(s.db, others).layout.tables, s.result.value.taskId) == Ok(Some(task))
    requires forall adm :: CaptureGate(tl, env, candidate, LOCAL_SQLITE) == Ok(adm) ==>
               var id := CaptureStep(tl, db, env, candidate, uuid).result.value;
               var asked1 := asked + [PersistAuthorized(adm.record, adm.authorization)];
               answer(asked1) == Returned(PersistDict(id.taskId, id.duplicate, id.hash))
               && answer(asked1 + [ReadTask(Str(id.taskId))]) == Returned(TaskDict(task))
    ensures var t := CaptureTalk(tl, env, candidate, LOCAL_SQLITE, answer, asked);
            var response := CaptureStep(tl, db, env, candidate, uuid).result.value;
            t.result.Ok? && t.result.value.Persisted? && t.result.value.taskId == Str(response.taskId)
            && t.result.value.replay == response.duplicate
  {
    hide CaptureGate, CaptureStep, DbInv, Run, O.Step, O.ReadTask, WellFormed, Admission.FilesParsed, PayloadDigest, TaskDict, PersistDict, Get;
    Admission.CapturePassedGate(tl, db, env, candidate, uuid);
    Admission.GateWellFormed(tl, env, candidate, LOCAL_SQLITE);
    CaptureReadBack(tl, db, env, candidate, uuid, others);
    var response := CaptureStep(tl, db, env, candidate, uuid).result.value;
    PersistDictParts(response.taskId, response.duplicate, response.hash);
    PersistDictIsDict(response.taskId, response.duplicate, response.hash);
    TaskDictShows(task);
    TruthyIfFilled(TaskDict(task), "confirmed_payload_hash");
  }

  lemma PersistDictIsDict(taskId: string, duplicate: bool, hash: Hash)
    ensures PersistDict(taskId, duplicate, hash).Obj?
  {
  }
}
