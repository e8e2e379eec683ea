// The calls of the storage adapter as steps on a database: each first migrates,
// then runs one transaction. Reads change nothing.
module Operations {
  import opened Wrappers
  import opened Json
  import opened CanonicalText
  import opened Digests
  import opened Evidence
  import opened Schema
  import opened Transactions
  import opened Migration

  // Each call takes its uuid draws and its clock reading as inputs.
  datatype Action =
    | Create(payload: Value, uuid: Uuids, now: string)
    | Confirm(id: string, expected: Hash, how: string, identity: Option<string>, source: Option<string>, now: string)
    | Consume(id: string, expected: Hash, uuid: Uuids, now: string)
    | Authorize(payload: Value, authorization: Value, uuid: Uuids, now: string)
    | Upgrade(target: nat, faults: set<nat>)

  datatype Response =
    | Created(confirmationId: string, payloadHash: Hash, preparedAt: string)
    | ConfirmationIs(row: Confirmation)
    | Persisted(taskId: string, duplicate: bool, hash: Hash)
    | Version(version: nat)

  // The transaction of an action on current tables.
  function Transact(t: Tables, a: Action): Outcome<(Tables, Response)>
    requires !a.Upgrade?
  {
    match a
    case Create(payload, uuid, now) =>
      (match CreateConfirmation(t, payload, uuid, now)
       case Err(e) => Err(e)
       case Ok(t') => Ok((t', Created(NewId("confirm", uuid(0)), PayloadDigest(payload), now))))
    case Confirm(id, expected, how, identity, source, now) =>
      (match ConfirmConfirmation(t, id, expected, how, identity, source, now)
       case Err(e) => Err(e)
       case Ok(t') =>
         var i := FindConfirmation(t'.confirmations, id);
         if i < |t'.confirmations| then Ok((t', ConfirmationIs(t'.confirmations[i]))) else Err(Raised))
    case Consume(id, expected, uuid, now) =>
      (match PersistConfirmed(t, id, expected, uuid, now)
       case Err(e) => Err(e)
       case Ok(ins) => Ok((ins.tables, Persisted(ins.taskId, ins.duplicate, expected))))
    case Authorize(payload, authorization, uuid, now) =>
      (match PersistAuthorized(t, payload, authorization, uuid, now)
       case Err(e) => Err(e)
       case Ok(ins) => Ok((ins.tables, Persisted(ins.taskId, ins.duplicate, PayloadDigest(payload)))))
  }

  function Step(db: Database, a: Action): Reply<Response> {
    if a.Upgrade? then
      var r := Migrate(db, a.target, a.faults);
      Reply(r.db, match r.result case Ok(v) => Ok(Version(v)) case Err(e) => Err(e))
    else
      var m := Migrate(db, SCHEMA_VERSION, {});
      if m.result.Err? then Reply(m.db, Err(m.result.error))
      else if !m.db.layout.V4? then Reply(m.db, Err(Raised))
      else match Transact(m.db.layout.tables, a)
        case Err(e) => Reply(m.db, Err(e))
        case Ok((t', response)) => Reply(m.db.(layout := V4(t')), Ok(response))
  }

  // ----- reads -----

  datatype TaskRecord = TaskRecord(
    taskId: string, schemaVersion: nat, createdAt: string, payloadHash: Hash, payload: Value,
    session: Cell, mode: Mode, captureStatus: string, startedAt: Cell, completedAt: Cell, contextRefHash: Option<Hash>,
    business: Value, ai: Value, authorization: Value)

  function Record(r: TaskRow): Option<TaskRecord> {
    match (Loads(r.payloadJson), Loads(r.businessJson), Loads(r.aiJson), Loads(r.authorizationJson))
    case (Some(p), Some(b), Some(ai), Some(auth)) =>
      Some(TaskRecord(r.id, r.schemaVersion, r.createdAt, r.payloadHash, p, r.session, r.mode, r.captureStatus,
                      r.startedAt, r.completedAt, r.contextRefHash, b, ai, auth))
    case _ => None
  }

  // None: no such row. A row that does not load raises.
  function ReadTask(t: Tables, id: string): Outcome<Option<TaskRecord>> {
    var i := FindTask(t.tasks, id);
    if i == |t.tasks| then Ok(None)
    else match Record(t.tasks[i])
      case Some(r) => Ok(Some(r))
      case None => Err(Raised)
  }

  function ReadConfirmation(t: Tables, id: string): Option<Confirmation> {
    var i := FindConfirmation(t.confirmations, id);
    if i == |t.confirmations| then None else Some(t.confirmations[i])
  }
}
