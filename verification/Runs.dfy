// Runs: any number of clients, each call one atomic step, interleaved in any
// order. What holds of every state of every run.
module Runs {
  import opened Wrappers
  import opened Json
  import opened Digests
  import opened Evidence
  import opened Schema
  import opened Transactions
  import opened Insertion
  import opened Invariant
  import opened Preservation
  import opened Migration
  import opened Operations
  import CanonicalText
  import Report

  function Run(db: Database, actions: seq<Action>): Database
    decreases |actions|
  {
    if actions == [] then db else Run(Step(db, actions[0]).db, actions[1..])
  }

  // Payloads are values built by json.loads.
  ghost predicate ActionOk(a: Action) {
    (a.Create? ==> WellFormed(a.payload)) && (a.Authorize? ==> WellFormed(a.payload) && WellFormed(a.authorization))
  }

  ghost predicate ActionsOk(actions: seq<Action>) {
    forall i :: 0 <= i < |actions| ==> ActionOk(actions[i])
  }

  // The store invariant at every schema version.
  ghost predicate DbInv(db: Database) {
    && Coherent(db)
    && match db.layout
       case Empty => true
       case V1(o) => OldConstraints(o) && OldAgrees(o)
       case V2(o) => OldConstraints(o) && OldAgrees(o)
       case V3(m) => Inv(UpTo4(m))
       case V4(t) => Inv(t)
  }

  lemma NewDatabaseInv()
    ensures DbInv(NEW_DATABASE)
  {
  }

  // ----- the invariant -----

  lemma ApplyKeepsInv(db: Database, version: nat)
    requires DbInv(db) && version == |db.log| + 1 && Apply(version, db.layout).Some?
    ensures DbInv(Database(db.log + [version], Apply(version, db.layout).value))
  {
    hide Inv, UpTo3, UpTo4, OldConstraints, OldAgrees, CopyAccepted;
    match db.layout
    case Empty => EmptyOldTables();
    case V2(o) =>
      CopyAcceptedIff(o);
      MigrationEstablishesInv(o);
    case _ =>
  }

  lemma EmptyOldTables()
    ensures OldConstraints(NO_OLD_ROWS) && OldAgrees(NO_OLD_ROWS)
  {
  }

  lemma {:induction false} MigrateFromKeepsInv(db: Database, version: nat, target: nat, faults: set<nat>)
    requires DbInv(db) && version == |db.log| + 1
    ensures DbInv(MigrateFrom(db, version, target, faults).db)
    decreases target + 1 - version
  {
    hide Apply;
    if version <= target && version <= 4 && version !in faults && Apply(version, db.layout).Some? {
      ApplyKeepsInv(db, version);
      MigrateFromKeepsInv(Database(db.log + [version], Apply(version, db.layout).value), version + 1, target, faults);
    }
  }

  lemma MigrateKeepsInv(db: Database, target: nat, faults: set<nat>)
    requires DbInv(db)
    ensures DbInv(Migration.Migrate(db, target, faults).db)
  {
    CoherentVersion(db);
    if |db.log| <= target { MigrateFromKeepsInv(db, |db.log| + 1, target, faults); }
  }

  lemma TransactKeepsInv(t: Tables, a: Action)
    requires Inv(t) && ActionOk(a) && !a.Upgrade? && Transact(t, a).Ok?
    ensures Inv(Transact(t, a).value.0)
  {
    hide Inv, CreateConfirmation, ConfirmConfirmation, PersistConfirmed, PersistAuthorized, WellFormed;
    match a
    case Create(payload, uuid, now) => CreateKeepsInv(t, payload, uuid, now);
    case Confirm(id, expected, how, identity, source, now) => ConfirmKeepsInv(t, id, expected, how, identity, source, now);
    case Consume(id, expected, uuid, now) => PersistConfirmedKeepsInv(t, id, expected, uuid, now);
    case Authorize(payload, authorization, uuid, now) => PersistAuthorizedKeepsInv(t, payload, authorization, uuid, now);
  }

  lemma StepKeepsInv(db: Database, a: Action)
    requires DbInv(db) && ActionOk(a)
    ensures DbInv(Step(db, a).db)
  {
    hide Inv, Transact, Migration.Migrate;
    if a.Upgrade? {
      MigrateKeepsInv(db, a.target, a.faults);
    } else {
      MigrateKeepsInv(db, SCHEMA_VERSION, {});
      var m := Migration.Migrate(db, SCHEMA_VERSION, {});
      if m.result.Ok? && m.db.layout.V4? && Transact(m.db.layout.tables, a).Ok? {
        TransactKeepsInv(m.db.layout.tables, a);
      }
    }
  }

  // Over every run of any number of clients, from any database that satisfies
  // the invariant.
  lemma {:induction false} RunKeepsInv(db: Database, actions: seq<Action>)
    requires DbInv(db) && ActionsOk(actions)
    ensures DbInv(Run(db, actions))
    decreases |actions|
  {
    hide DbInv, Step;
    if actions != [] {
      StepKeepsInv(db, actions[0]);
      RunKeepsInv(Step(db, actions[0]).db, actions[1..]);
    }
  }

  // The invariant spelled out for a run from a new database.
  lemma ReachableStore(actions: seq<Action>)
    requires ActionsOk(actions) && Run(NEW_DATABASE, actions).layout.V4?
    ensures var t := Run(NEW_DATABASE, actions).layout.tables;
            && (forall i, j :: 0 <= i < j < |t.tasks| ==>
                  && t.tasks[i].id != t.tasks[j].id && t.tasks[i].payloadHash != t.tasks[j].payloadHash
                  && (t.tasks[i].session.Null? || t.tasks[i].session != t.tasks[j].session))
            && (forall i, j :: 0 <= i < j < |t.confirmations| ==>
                  t.confirmations[i].taskId.None? || t.confirmations[i].taskId != t.confirmations[j].taskId)
            && (forall i :: 0 <= i < |t.confirmations| ==>
                  RowCheck(t.confirmations[i]) &&
                  (t.confirmations[i].status == Consumed ==>
                     Names(t, t.confirmations[i].taskId.value, t.confirmations[i].payloadHash)))
            && (forall i :: 0 <= i < |t.tasks| ==> StoredPayload(t.tasks[i].payloadJson, t.tasks[i].payloadHash))
            && Report.VerifyTables(t.evidence).Some?
  {
    hide StoredPayload, Readable, ChainsBuilt, Run, Report.VerifyTables;
    NewDatabaseInv();
    RunKeepsInv(NEW_DATABASE, actions);
    Report.VerificationComplete(Run(NEW_DATABASE, actions).layout.tables);
  }

  // ----- history only grows -----

  // A confirmation keeps its identity and content, and its status only moves
  // forward: once consumed it never changes again.
  ghost predicate RowForward(c: Confirmation, d: Confirmation) {
    && d.id == c.id && d.payloadJson == c.payloadJson && d.payloadHash == c.payloadHash && d.preparedAt == c.preparedAt
    && match c.status
       case Prepared => true
       case Confirmed => d == c || (d.status == Consumed && d.confirmedAt == c.confirmedAt && d.how == c.how
                                    && d.identity == c.identity && d.source == c.source)
       case Consumed => d == c
  }

  ghost predicate ConfirmationsForward(cs: seq<Confirmation>, ds: seq<Confirmation>) {
    |cs| <= |ds| && forall i :: 0 <= i < |cs| ==> RowForward(cs[i], ds[i])
  }

  ghost predicate Forward(t: Tables, u: Tables) {
    && t.tasks <= u.tasks && t.processes <= u.processes && t.paths <= u.paths && t.steps <= u.steps
    && t.evidence <= u.evidence && t.lineage <= u.lineage && t.references <= u.references
    && ConfirmationsForward(t.confirmations, u.confirmations)
  }

  ghost predicate DbForward(db: Database, db': Database) {
    db.layout.V4? ==> db'.layout.V4? && Forward(db.layout.tables, db'.layout.tables)
  }

  lemma ForwardTransitive(t: Tables, u: Tables, v: Tables)
    requires Forward(t, u) && Forward(u, v)
    ensures Forward(t, v)
  {
    hide RowForward;
    forall i | 0 <= i < |t.confirmations| ensures RowForward(t.confirmations[i], v.confirmations[i]) {
      RowForwardTransitive(t.confirmations[i], u.confirmations[i], v.confirmations[i]);
    }
  }

  lemma RowForwardTransitive(c: Confirmation, d: Confirmation, e: Confirmation)
    requires RowForward(c, d) && RowForward(d, e)
    ensures RowForward(c, e)
  {
  }

  lemma InsertForward(t: Tables, payload: Value, hash: Hash, committedAt: string, mode: Mode, authorization: Value,
                      uuid: Uuids, now: string)
    requires InsertTask(t, payload, hash, committedAt, mode, authorization, uuid, now).Ok?
    ensures var u := InsertTask(t, payload, hash, committedAt, mode, authorization, uuid, now).value.tables;
            && Forward(t, u) && u.confirmations == t.confirmations
  {
    hide InsertFresh, FreshAdded, BindText, Constraints;
    if InsertFresh(t, payload, hash, committedAt, mode, authorization, uuid, now).Ok? {
      FreshInserted(t, payload, hash, committedAt, mode, authorization, uuid, now);
      FreshForward(t, InsertFresh(t, payload, hash, committedAt, mode, authorization, uuid, now).value.tables,
                   payload, hash, committedAt, mode, authorization, uuid, now);
    }
  }

  lemma FreshForward(t: Tables, u: Tables, payload: Value, hash: Hash, committedAt: string, mode: Mode,
                     authorization: Value, uuid: Uuids, now: string)
    requires FreshAdded(t, u, payload, hash, committedAt, mode, authorization, uuid, now)
    ensures Forward(t, u) && u.confirmations == t.confirmations
  {
    hide MakeTask, MakeStep, MakeReference, EventAt;
  }

  lemma TransactForward(t: Tables, a: Action)
    requires !a.Upgrade? && Transact(t, a).Ok?
    ensures Forward(t, Transact(t, a).value.0)
  {
    hide InsertTask, CanonicalText.Loads, PayloadDigest, CanonicalText.CanonicalJson;
    match a
    case Create(payload, uuid, now) =>
    case Confirm(id, expected, how, identity, source, now) =>
    case Consume(id, expected, uuid, now) => ConsumeForward(t, id, expected, uuid, now);
    case Authorize(payload, authorization, uuid, now) =>
      InsertForward(t, payload, PayloadDigest(payload), now, Enterprise, authorization, uuid, now);
  }

  lemma ConsumeForward(t: Tables, id: string, expected: Hash, uuid: Uuids, now: string)
    requires PersistConfirmed(t, id, expected, uuid, now).Ok?
    ensures Forward(t, PersistConfirmed(t, id, expected, uuid, now).value.tables)
  {
    hide InsertTask, CanonicalText.Loads;
    var i := FindConfirmation(t.confirmations, id);
    var row := t.confirmations[i];
    InsertForward(t, CanonicalText.Loads(row.payloadJson).value, row.payloadHash, row.confirmedAt.value, Personal, Null, uuid, now);
  }

  // On a current database every call is just its transaction.
  lemma CurrentStep(db: Database, a: Action)
    requires Coherent(db) && db.layout.V4?
    ensures Migration.Migrate(db, SCHEMA_VERSION, {}) == Reply(db, Ok(SCHEMA_VERSION))
    ensures a.Upgrade? ==> Step(db, a).db == db
    ensures !a.Upgrade? ==> Step(db, a) == match Transact(db.layout.tables, a)
              case Err(e) => Reply(db, Err(e))
              case Ok((t', response)) => Reply(db.(layout := V4(t')), Ok(response))
  {
    hide Transact;
    CoherentVersion(db);
  }

  lemma StepForward(db: Database, a: Action)
    requires Coherent(db)
    ensures Coherent(Step(db, a).db) && DbForward(db, Step(db, a).db)
  {
    hide Transact, Forward;
    if db.layout.V4? {
      CurrentStep(db, a);
      SameForward(db.layout.tables);
      if !a.Upgrade? && Transact(db.layout.tables, a).Ok? { TransactForward(db.layout.tables, a); }
    } else {
      StepCoherent(db, a);
    }
  }

  lemma SameForward(t: Tables)
    ensures Forward(t, t)
  {
  }

  lemma StepCoherent(db: Database, a: Action)
    requires Coherent(db)
    ensures Coherent(Step(db, a).db)
  {
    hide Transact, Migration.Migrate;
    if a.Upgrade? { MigrationAtomic(db, a.target, a.faults); } else { MigrationAtomic(db, SCHEMA_VERSION, {}); }
  }

  // Stored rows are never changed or removed and statuses only move forward,
  // whatever the clients do.
  lemma {:induction false} RunForward(db: Database, actions: seq<Action>)
    requires Coherent(db)
    ensures Coherent(Run(db, actions)) && DbForward(db, Run(db, actions))
    decreases |actions|
  {
    hide Step, Forward;
    if actions == [] {
      if db.layout.V4? { SameForward(db.layout.tables); }
    } else {
      var next := Step(db, actions[0]).db;
      StepForward(db, actions[0]);
      RunForward(next, actions[1..]);
      if db.layout.V4? { ForwardTransitive(db.layout.tables, next.layout.tables, Run(next, actions[1..]).layout.tables); }
    }
  }
}
