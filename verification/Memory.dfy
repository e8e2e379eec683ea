// The in-memory reference adapter: three dicts changed in place. It is the
// simple store that the relational one is compared with.
module Memory {
  import opened Wrappers
  import opened Json
  import opened Canonical
  import opened Digests
  import opened Labels
  import opened Schema
  import opened Transactions
  import O = Operations

  datatype MemConfirmation = MemConfirmation(
    payload: Value, payloadHash: Hash, preparedAt: string, status: Status, confirmedAt: Option<string>, how: Option<string>,
    identity: Option<string>, source: Option<string>, consumedAt: Option<string>, taskId: Option<string>)

  datatype MemTask = MemTask(
    payload: Value, payloadHash: Hash, createdAt: string, typeLabel: string, adoption: Value,
    session: Value, mode: Mode, captureStatus: string, authorization: Value)

  datatype MemStore = MemStore(confirmations: map<string, MemConfirmation>, tasks: map<string, MemTask>, sessions: map<Value, string>)

  datatype MemResponse =
    | Created(confirmationId: string, payloadHash: Hash, preparedAt: string)
    | ConfirmationIs(row: MemConfirmation)
    | Persisted(taskId: string, duplicate: bool, hash: Hash)

  // ----- the calls as functions -----

  function NewMemConfirmation(payload: Value, now: string): MemConfirmation {
    MemConfirmation(payload, PayloadDigest(payload), now, Prepared, None, None, None, None, None, None)
  }

  function ConfirmedMem(c: MemConfirmation, how: string, identity: Option<string>, source: Option<string>, now: string): MemConfirmation {
    c.(status := Confirmed, confirmedAt := Some(now), how := Some(how), identity := identity, source := source)
  }

  function ConsumedMem(c: MemConfirmation, taskId: string, now: string): MemConfirmation {
    c.(status := Consumed, consumedAt := Some(now), taskId := Some(taskId))
  }

  ghost predicate HoldsContent(tasks: map<string, MemTask>, id: string, hash: Hash) {
    id in tasks && tasks[id].payloadHash == hash
  }

  ghost predicate UniqueContent(tasks: map<string, MemTask>) {
    forall a, b :: a in tasks && b in tasks && tasks[a].payloadHash == tasks[b].payloadHash ==> a == b
  }

  ghost function FindContent(tasks: map<string, MemTask>, hash: Hash): (r: Option<string>)
    ensures r.Some? ==> HoldsContent(tasks, r.value, hash)
    ensures r.None? ==> forall id :: !HoldsContent(tasks, id, hash)
  {
    if id :| HoldsContent(tasks, id, hash) then Some(id) else None
  }

  // None where the dict accesses raise.
  function MakeMemTask(payload: Value, hash: Hash, mode: Mode, authorization: Value, now: string): Option<MemTask> {
    match (Get(payload, "task_type"), Get(GetOr(payload, "final_result", Null), "adoption_status"))
    case (Some(kind), Some(adoption)) =>
      Some(MemTask(payload, hash, now, NormalizeLabel(PyStr(kind)), adoption, GetOr(payload, SESSION, Null), mode, PERSISTED, OrEmpty(authorization)))
    case _ => None
  }

  ghost function MemInsert(m: MemStore, payload: Value, hash: Hash, mode: Mode, authorization: Value, uuid: Uuids, now: string)
    : Outcome<(MemStore, string, bool)>
  {
    var session := GetOr(payload, SESSION, Null);
    if !payload.Obj? || (Truthy(session) && (session.Arr? || session.Obj?)) then Err(Raised)
    else if Truthy(session) && session in m.sessions then
      var id := m.sessions[session];
      if id !in m.tasks then Err(Raised)
      else if m.tasks[id].payloadHash != hash then Err(SessionConflict) else Ok((m, id, true))
    else match FindContent(m.tasks, hash)
      case Some(id) => Ok((m, id, true))
      case None =>
        match MakeMemTask(payload, hash, mode, authorization, now)
        case None => Err(Raised)
        case Some(task) =>
          var id := NewId("task", uuid(0));
          Ok((m.(tasks := m.tasks[id := task], sessions := if Truthy(session) then m.sessions[session := id] else m.sessions), id, false))
  }

  datatype MemReply = MemReply(store: MemStore, result: Outcome<MemResponse>)

  ghost function MemStep(m: MemStore, a: O.Action): MemReply
    requires !a.Upgrade?
  {
    match a
    case Create(payload, uuid, now) =>
      var id := NewId("confirm", uuid(0));
      MemReply(m.(confirmations := m.confirmations[id := NewMemConfirmation(payload, now)]), Ok(Created(id, PayloadDigest(payload), now)))
    case Confirm(id, expected, how, identity, source, now) =>
      if id !in m.confirmations || m.confirmations[id].status != Prepared || m.confirmations[id].payloadHash != expected then
        MemReply(m, Err(ConfirmationError))
      else
        var row := ConfirmedMem(m.confirmations[id], how, identity, source, now);
        MemReply(m.(confirmations := m.confirmations[id := row]), Ok(ConfirmationIs(row)))
    case Consume(id, expected, uuid, now) =>
      if id !in m.confirmations || m.confirmations[id].status != Confirmed || m.confirmations[id].payloadHash != expected then
        MemReply(m, Err(ConfirmationError))
      else
        var row := m.confirmations[id];
        (match MemInsert(m, row.payload, row.payloadHash, Personal, Null, uuid, now)
         case Err(e) => MemReply(m, Err(e))
         case Ok((m', taskId, duplicate)) =>
           MemReply(m'.(confirmations := m'.confirmations[id := ConsumedMem(row, taskId, now)]), Ok(Persisted(taskId, duplicate, expected))))
    case Authorize(payload, authorization, uuid, now) =>
      match MemInsert(m, payload, PayloadDigest(payload), Enterprise, authorization, uuid, now)
      case Err(e) => MemReply(m, Err(e))
      case Ok((m', taskId, duplicate)) => MemReply(m', Ok(Persisted(taskId, duplicate, PayloadDigest(payload))))
  }

  lemma NewContent(tasks: map<string, MemTask>, payload: Value, hash: Hash, mode: Mode, authorization: Value, now: string, id: string)
    requires UniqueContent(tasks) && FindContent(tasks, hash).None?
    requires MakeMemTask(payload, hash, mode, authorization, now).Some?
    ensures UniqueContent(tasks[id := MakeMemTask(payload, hash, mode, authorization, now).value])
  {
    assert forall other :: other in tasks ==> !HoldsContent(tasks, other, hash) && tasks[other].payloadHash != hash;
  }

  // The task that a call with this payload and content would be answered with
  // as a duplicate: the session's own, if it holds the content, else any holder.
  ghost function Target(m: MemStore, payload: Value, hash: Hash): Option<string> {
    var session := GetOr(payload, SESSION, Null);
    if Truthy(session) && session in m.sessions then
      if m.sessions[session] in m.tasks && m.tasks[m.sessions[session]].payloadHash == hash then Some(m.sessions[session]) else None
    else FindContent(m.tasks, hash)
  }

  // ----- similar tasks -----

  // No id twice, newest first.
  ghost predicate NewestIds(tasks: map<string, MemTask>, ids: seq<string>) {
    && (forall i :: 0 <= i < |ids| ==> ids[i] in tasks)
    && (forall i, j :: 0 <= i < j < |ids| ==> ids[i] != ids[j] && !Less(tasks[ids[i]].createdAt, tasks[ids[j]].createdAt))
  }

  ghost predicate OfLabel(tasks: map<string, MemTask>, kind: string, id: string) {
    id in tasks && tasks[id].typeLabel == kind
  }

  ghost predicate Arranged(tasks: map<string, MemTask>, kind: string, ids: seq<string>) {
    NewestIds(tasks, ids) && forall id :: id in ids <==> OfLabel(tasks, kind, id)
  }

  // ids[:limit]
  function Sliced(ids: seq<string>, limit: int): seq<string> {
    if limit >= |ids| then ids else if limit >= 0 then ids[..limit] else if |ids| + limit >= 0 then ids[..|ids| + limit] else []
  }

  // An answer: a slice of some newest-first arrangement of the matching tasks.
  ghost predicate MemSimilar(m: MemStore, taskType: string, limit: int, ids: seq<string>) {
    exists all: seq<string> :: Arranged(m.tasks, NormalizeLabel(taskType), all) && ids == Sliced(all, limit)
  }

  function InsertNewestId(tasks: map<string, MemTask>, ids: seq<string>, id: string): (r: seq<string>)
    requires id in tasks && forall i :: 0 <= i < |ids| ==> ids[i] in tasks
    ensures forall x :: x in r <==> x in ids || x == id
  {
    if ids == [] || Less(tasks[ids[0]].createdAt, tasks[id].createdAt) then [id] + ids
    else
      assert ids == [ids[0]] + ids[1..];
      [ids[0]] + InsertNewestId(tasks, ids[1..], id)
  }

  lemma NoIds(tasks: map<string, MemTask>)
    ensures NewestIds(tasks, [])
  {
  }

  lemma {:induction false} InsertKeepsNewestIds(tasks: map<string, MemTask>, ids: seq<string>, id: string)
    requires NewestIds(tasks, ids) && id in tasks && id !in ids
    ensures NewestIds(tasks, InsertNewestId(tasks, ids, id))
  {
    if ids == [] {
    } else if Less(tasks[ids[0]].createdAt, tasks[id].createdAt) {
      forall j | 0 <= j < |ids| ensures !Less(tasks[id].createdAt, tasks[ids[j]].createdAt) {
        if Less(tasks[id].createdAt, tasks[ids[j]].createdAt) {
          LessTransitive(tasks[ids[0]].createdAt, tasks[id].createdAt, tasks[ids[j]].createdAt);
          LessTotal(tasks[ids[0]].createdAt, tasks[ids[j]].createdAt);
        }
      }
    } else {
      var rest := InsertNewestId(tasks, ids[1..], id);
      InsertKeepsNewestIds(tasks, ids[1..], id);
      forall j | 0 <= j < |rest| ensures rest[j] != ids[0] && !Less(tasks[ids[0]].createdAt, tasks[rest[j]].createdAt) {
        assert rest[j] in rest;
        if rest[j] != id {
          var k :| 0 <= k < |ids[1..]| && ids[1..][k] == rest[j];
          assert ids[k + 1] == rest[j];
        }
      }
    }
  }

  // ----- the adapter -----

  class MemoryAdapter {
    var confirmations: map<string, MemConfirmation>
    var tasks: map<string, MemTask>
    var sessions: map<Value, string>

    ghost function View(): MemStore
      reads this
    {
      MemStore(confirmations, tasks, sessions)
    }

    // No two tasks hold the same content.
    ghost predicate Valid()
      reads this
    {
      UniqueContent(tasks)
    }

    constructor ()
      ensures Valid() && View() == MemStore(map[], map[], map[])
    {
      confirmations, tasks, sessions := map[], map[], map[];
    }

    method CreateConfirmation(payload: Value, uuid: Uuids, now: string) returns (r: Outcome<MemResponse>)
      requires Valid()
      modifies this
      ensures Valid() && MemReply(View(), r) == MemStep(old(View()), O.Create(payload, uuid, now))
    {
      var id := NewId("confirm", uuid(0));
      confirmations := confirmations[id := NewMemConfirmation(payload, now)];
      r := Ok(Created(id, PayloadDigest(payload), now));
    }

    method ConfirmConfirmation(id: string, expected: Hash, how: string, identity: Option<string>, source: Option<string>, now: string)
      returns (r: Outcome<MemResponse>)
      requires Valid()
      modifies this
      ensures Valid() && MemReply(View(), r) == MemStep(old(View()), O.Confirm(id, expected, how, identity, source, now))
    {
      if id !in confirmations || confirmations[id].status != Prepared || confirmations[id].payloadHash != expected {
        return Err(ConfirmationError);
      }
      var row := confirmations[id];
      row := row.(status := Confirmed);
      row := row.(confirmedAt := Some(now), how := Some(how));
      row := row.(identity := identity, source := source);
      confirmations := confirmations[id := row];
      r := Ok(ConfirmationIs(row));
    }

    // The scan of the tasks dict for the content.
    method FindByContent(hash: Hash) returns (r: Option<string>)
      requires Valid()
      ensures r == FindContent(tasks, hash)
    {
      var left := tasks.Keys;
      while left != {}
        invariant left <= tasks.Keys
        invariant forall id :: id in tasks && id !in left ==> tasks[id].payloadHash != hash
        decreases left
      {
        var id :| id in left;
        if tasks[id].payloadHash == hash {
          assert HoldsContent(tasks, id, hash);
          return Some(id);
        }
        left := left - {id};
      }
      r := None;
    }

    // The matching records, sorted and cut off.
    method SimilarTasks(taskType: string, limit: int) returns (ids: seq<string>)
      requires Valid()
      ensures MemSimilar(View(), taskType, limit, ids)
    {
      hide Less, NewestIds, NormalizeLabel;
      var kind := NormalizeLabel(taskType);
      var all: seq<string> := [];
      var left := tasks.Keys;
      assert NewestIds(tasks, all) by { NoIds(tasks); }
      while left != {}
        invariant left <= tasks.Keys && NewestIds(tasks, all)
        invariant forall id :: id in all <==> OfLabel(tasks, kind, id) && id !in left
        decreases left
      {
        var id :| id in left;
        if tasks[id].typeLabel == kind {
          assert forall i :: 0 <= i < |all| ==> all[i] in all;
          InsertKeepsNewestIds(tasks, all, id);
          all := InsertNewestId(tasks, all, id);
        }
        left := left - {id};
      }
      assert Arranged(tasks, kind, all);
      ids := Sliced(all, limit);
    }

    method InsertTask(payload: Value, hash: Hash, mode: Mode, authorization: Value, uuid: Uuids, now: string)
      returns (r: Outcome<(string, bool)>)
      requires Valid()
      modifies this`tasks, this`sessions
      ensures Valid()
      ensures match MemInsert(old(View()), payload, hash, mode, authorization, uuid, now)
              case Ok((m, id, duplicate)) => View() == m && r == Ok((id, duplicate))
              case Err(e) => View() == old(View()) && r == Err(e)
    {
      hide MakeMemTask, NewId, UniqueContent;
      if !payload.Obj? { return Err(Raised); }
      var session := GetOr(payload, SESSION, Null);
      if Truthy(session) {
        if session.Arr? || session.Obj? { return Err(Raised); }
        if session in sessions {
          var id := sessions[session];
          if id !in tasks { return Err(Raised); }
          if tasks[id].payloadHash != hash { return Err(SessionConflict); }
          return Ok((id, true));
        }
      }
      var known := FindByContent(hash);
      if known.Some? { return Ok((known.value, true)); }
      var task := MakeMemTask(payload, hash, mode, authorization, now);
      if task.None? { return Err(Raised); }
      var id := NewId("task", uuid(0));
      NewContent(tasks, payload, hash, mode, authorization, now, id);
      tasks := tasks[id := task.value];
      if Truthy(session) { sessions := sessions[session := id]; }
      r := Ok((id, false));
    }

    method PersistConfirmed(id: string, expected: Hash, uuid: Uuids, now: string) returns (r: Outcome<MemResponse>)
      requires Valid()
      modifies this
      ensures Valid() && MemReply(View(), r) == MemStep(old(View()), O.Consume(id, expected, uuid, now))
    {
      if id !in confirmations || confirmations[id].status != Confirmed || confirmations[id].payloadHash != expected {
        return Err(ConfirmationError);
      }
      var row := confirmations[id];
      var inserted := InsertTask(row.payload, row.payloadHash, Personal, Null, uuid, now);
      if inserted.Err? { return Err(inserted.error); }
      row := row.(status := Consumed, consumedAt := Some(now));
      row := row.(taskId := Some(inserted.value.0));
      confirmations := confirmations[id := row];
      r := Ok(Persisted(inserted.value.0, inserted.value.1, expected));
    }

    method PersistAuthorized(payload: Value, authorization: Value, uuid: Uuids, now: string) returns (r: Outcome<MemResponse>)
      requires Valid()
      modifies this
      ensures Valid() && MemReply(View(), r) == MemStep(old(View()), O.Authorize(payload, authorization, uuid, now))
    {
      hide PayloadDigest, MemInsert;
      var inserted := InsertTask(payload, PayloadDigest(payload), Enterprise, authorization, uuid, now);
      if inserted.Err? { return Err(inserted.error); }
      r := Ok(Persisted(inserted.value.0, inserted.value.1, PayloadDigest(payload)));
    }
  }
}
