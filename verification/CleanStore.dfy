// What every run of service calls keeps beyond the store invariant, from any
// database: no payload it stores holds a forbidden key at any depth, and none
// claims to be legacy history, so no task ever mixes legacy and new evidence.
module CleanStore {
  import opened Wrappers
  import opened Json
  import opened Canonical
  import opened CanonicalText
  import opened Digests
  import opened Evidence
  import opened Chain
  import opened Selection
  import opened Schema
  import opened Transactions
  import opened Invariant
  import opened Preservation
  import opened Migration
  import opened Runs
  import opened Redaction
  import opened Validation
  import opened Authorization
  import opened Service
  import Admission
  import Freshness
  import Insertion
  import Report
  import O = Operations

  // ----- service calls as steps on the database -----

  datatype Call =
    | PrepareCall(candidate: Value, uuid: Uuids, now: string)
    | ConfirmCall(artifact: Artifact, how: string, identity: Option<string>, source: Option<string>, now: string)
    | CommitCall(artifact: Artifact, uuid: Uuids, now: string)
    | CaptureCall(env: Environment, candidate: Value, uuid: Uuids)
    | SchemaCall(target: nat, faults: set<nat>)

  // What json.loads hands the service.
  ghost predicate CallParsed(c: Call) {
    match c
    case PrepareCall(candidate, _, _) => WellFormed(candidate)
    case CaptureCall(env, candidate, _) => WellFormed(candidate) && Admission.FilesParsed(env)
    case _ => true
  }

  function CallStep(tl: Tools, db: Database, c: Call): Database {
    match c
    case PrepareCall(candidate, uuid, now) => PrepareStep(tl, db, candidate, uuid, now).db
    case ConfirmCall(a, how, identity, source, now) => ConfirmStep(tl, db, a, how, identity, source, now).db
    case CommitCall(a, uuid, now) => CommitStep(tl, db, a, uuid, now).db
    case CaptureCall(env, candidate, uuid) => CaptureStep(tl, db, env, candidate, uuid).db
    case SchemaCall(target, faults) => O.Step(db, O.Upgrade(target, faults)).db
  }

  // The adapter call a service call makes, if its gate lets it through.
  function AdapterCall(tl: Tools, c: Call): Option<O.Action> {
    match c
    case PrepareCall(candidate, uuid, now) =>
      (match PrepareGate(tl, candidate) case Ok(clean) => Some(O.Create(clean, uuid, now)) case Err(_) => None)
    case ConfirmCall(a, how, identity, source, now) =>
      (match ArtifactGate(tl, a, PREPARED)
       case Ok(_) => Some(O.Confirm(a.confirmationId, a.payloadHash, how, identity, source, now))
       case Err(_) => None)
    case CommitCall(a, uuid, now) =>
      (match ArtifactGate(tl, a, CONFIRMED) case Ok(_) => Some(O.Consume(a.confirmationId, a.payloadHash, uuid, now)) case Err(_) => None)
    case CaptureCall(env, candidate, uuid) =>
      (match CaptureGate(tl, env, candidate, LOCAL_SQLITE)
       case Ok(adm) => Some(O.Authorize(adm.record, adm.authorization, uuid, env.clock))
       case Err(_) => None)
    case SchemaCall(target, faults) => Some(O.Upgrade(target, faults))
  }

  // A refusal by the gate leaves the store as it was; otherwise the call is
  // exactly its adapter call.
  lemma RefusedOrOneStep(tl: Tools, db: Database, c: Call)
    ensures CallStep(tl, db, c) == match AdapterCall(tl, c) case None => db case Some(a) => O.Step(db, a).db
  {
    hide PrepareGate, ArtifactGate, CaptureGate, O.Step;
  }

  predicate HonestItem(item: Value) {
    CanonicalEvidence(item).Some? ==> CanonicalEvidence(item).value.state != LEGACY_STATE
  }

  // What a stored payload may be good for.
  datatype Quality = NoForbiddenKeys | HonestItems

  ghost predicate Good(q: Quality, v: Value) {
    match q
    case NoForbiddenKeys => NoForbidden(v)
    case HonestItems => Items(v).Some? ==> forall i :: 0 <= i < |Items(v).value| ==> HonestItem(Items(v).value[i])
  }

  // What an adapter call would store.
  ghost predicate StoresGood(q: Quality, a: O.Action) {
    ActionOk(a) && (a.Create? ==> Good(q, a.payload)) && (a.Authorize? ==> Good(q, a.payload))
  }

  lemma AcceptedGood(q: Quality, rd: Reader, v: Value)
    requires Accepts(rd, v)
    ensures Good(q, v)
  {
    hide Accepts, NoForbidden, HonestItem, GetOr, EvidenceListProblems, HeadProblems, StepListProblems, ResultProblems, Scan;
    AcceptedParts(rd, v);
    HonestList(v);
  }

  lemma HonestList(v: Value)
    requires EvidenceListProblems(v) == []
    ensures Items(v).Some? ==> forall i :: 0 <= i < |Items(v).value| ==> HonestItem(Items(v).value[i])
  {
    hide EvidenceProblems, HonestItem, GetOr;
    var list := GetOr(v, "evidence", Arr([]));
    assert list.Arr?;
    var xs := list.items;
    AcceptedEvidence(xs, |xs|);
    forall i | 0 <= i < |xs| ensures HonestItem(xs[i]) { HonestAccepted(xs[i], ItemPath("evidence", i)); }
  }

  lemma HonestAccepted(item: Value, path: string)
    requires EvidenceProblems(item, path) == []
    ensures HonestItem(item)
  {
    hide EvidenceProblems, CanonicalEvidence;
    AcceptedItem(item, path);
  }

  // A payload that is good is still good once its keys are sorted.
  lemma GoodCanon(q: Quality, v: Value)
    requires WellFormed(v) && Good(q, v)
    ensures Good(q, Canon(v))
  {
    hide NoForbidden, Canon, Items;
    match q
    case NoForbiddenKeys => NoForbiddenCanon(v);
    case HonestItems =>
      if v.Obj? {
        HonestItemsCanon(v);
      } else {
        NotADict(v);
        NoItems(Canon(v));
      }
  }

  lemma NoItems(v: Value)
    requires !v.Obj?
    ensures Items(v) == Some([])
  {
  }

  lemma HonestItemsCanon(v: Value)
    requires WellFormed(v) && v.Obj? && Good(HonestItems, v)
    ensures Items(Canon(v)).Some? ==> forall i :: 0 <= i < |Items(Canon(v)).value| ==> HonestItem(Items(Canon(v)).value[i])
  {
    hide NoForbidden, HonestItem, Canon;
    CanonNull();
    CanonGetOr(v, "evidence", Arr([]));
    var list := GetOr(v, "evidence", Arr([]));
    if list.Arr? { Report.ItemsWellFormed(v); }
    ListCanon(list);
    if Items(Canon(v)).Some? {
      var after := Items(Canon(v)).value;
      forall i | 0 <= i < |after| ensures HonestItem(after[i]) {
        if list.Arr? { HonestCanon(list.items[i]); } else { StringsHonest(Canon(list), i); }
      }
    }
  }

  lemma ListCanon(v: Value)
    ensures v.Arr? <==> Canon(v).Arr?
    ensures v.Arr? ==> |Canon(v).items| == |v.items| && forall i :: 0 <= i < |v.items| ==> Canon(v).items[i] == Canon(v.items[i])
  {
  }

  // Looping over anything but a list visits strings, which are no evidence.
  lemma StringsHonest(v: Value, i: nat)
    requires !v.Arr? && Elements(v).Some? && i < |Elements(v).value|
    ensures HonestItem(Elements(v).value[i])
  {
    hide Digest;
  }

  lemma HonestCanon(item: Value)
    requires WellFormed(item) && HonestItem(item)
    ensures HonestItem(Canon(item))
  {
    hide CanonicalEvidence, Canon;
    if item.Obj? {
      CanonEvidence(item);
      if CanonicalEvidence(item).Some? { CanonState(CanonicalEvidence(item).value.state); }
    } else {
      NotADict(item);
      NotADict(Canon(item));
    }
  }

  lemma CanonState(v: Value)
    ensures Canon(v) == LEGACY_STATE <==> v == LEGACY_STATE
  {
  }

  lemma GatedGood(q: Quality, tl: Tools, c: Call)
    requires CallParsed(c) && AdapterCall(tl, c).Some?
    ensures StoresGood(q, AdapterCall(tl, c).value)
  {
    hide Accepts, Clean, ArtifactGate, CaptureGate, WellFormed, Good, Admission.FilesParsed;
    match c
    case PrepareCall(candidate, _, _) =>
      AcceptedGood(q, tl.reader, Clean(tl.redactor, candidate));
      CleanWellFormed(tl.redactor, candidate);
    case CaptureCall(env, candidate, _) =>
      Admission.GateWellFormed(tl, env, candidate, LOCAL_SQLITE);
      Admission.GateTrust(tl, env, candidate, LOCAL_SQLITE);
      AcceptedGood(q, tl.reader, CaptureGate(tl, env, candidate, LOCAL_SQLITE).value.record);
    case _ =>
  }

  // ----- the property of the stored payloads -----

  ghost predicate GoodText(q: Quality, json: Text) {
    Loads(json).Some? ==> Good(q, Loads(json).value)
  }

  // Every task but the first n, every draft but the first m, and every draft
  // that can still be consumed.
  ghost predicate GoodTables(q: Quality, t: Tables, n: nat, m: nat) {
    && (forall i :: n <= i < |t.tasks| ==> GoodText(q, t.tasks[i].payloadJson))
    && (forall i :: 0 <= i < |t.confirmations| && (m <= i || t.confirmations[i].status != Consumed) ==> GoodText(q, t.confirmations[i].payloadJson))
  }

  ghost predicate GoodSince(q: Quality, db: Database, n: nat, m: nat) {
    match db.layout
    case Empty => true
    case V1(o) => |o.tasks| <= n && |o.confirmations| <= m
    case V2(o) => |o.tasks| <= n && |o.confirmations| <= m
    case V3(mid) => GoodTables(q, UpTo4(mid), n, m)
    case V4(t) => GoodTables(q, t, n, m)
  }

  // Only drafts that can still be consumed matter to a start; history from before
  // version 3 has none.
  ghost predicate GoodDrafts(q: Quality, db: Database) {
    match db.layout
    case V3(mid) => GoodTables(q, UpTo4(mid), |mid.tasks|, |mid.confirmations|)
    case V4(t) => GoodTables(q, t, |t.tasks|, |t.confirmations|)
    case _ => true
  }

  function StoredTasks(db: Database): nat {
    match db.layout case Empty => 0 case V1(o) => |o.tasks| case V2(o) => |o.tasks| case V3(mid) => |mid.tasks| case V4(t) => |t.tasks|
  }

  function StoredDrafts(db: Database): nat {
    match db.layout
    case Empty => 0
    case V1(o) => |o.confirmations|
    case V2(o) => |o.confirmations|
    case V3(mid) => |mid.confirmations|
    case V4(t) => |t.confirmations|
  }

  lemma WrittenGood(q: Quality, v: Value)
    requires WellFormed(v) && Good(q, v)
    ensures GoodText(q, CanonicalJson(v))
  {
    hide Loads, CanonicalJson, Good, Canon;
    LoadsCanonicalJson(v);
    GoodCanon(q, v);
  }

  lemma InsertKeepsGood(q: Quality, t: Tables, n: nat, m: nat, payload: Value, hash: Hash, committedAt: string, mode: Mode, authorization: Value,
                        uuid: Uuids, now: string)
    requires GoodTables(q, t, n, m) && WellFormed(payload) && Good(q, payload)
    requires InsertTask(t, payload, hash, committedAt, mode, authorization, uuid, now).Ok?
    ensures GoodTables(q, InsertTask(t, payload, hash, committedAt, mode, authorization, uuid, now).value.tables, n, m)
    ensures InsertTask(t, payload, hash, committedAt, mode, authorization, uuid, now).value.tables.confirmations == t.confirmations
  {
    hide InsertFresh, GoodText, Good, WellFormed, Insertion.FreshAdded, Readable, MakeTask, TaskFits, Constraints;
    var r := InsertFresh(t, payload, hash, committedAt, mode, authorization, uuid, now);
    if r.Ok? {
      Insertion.FreshInserted(t, payload, hash, committedAt, mode, authorization, uuid, now);
      var task := FreshShape(t, r.value.tables, payload, hash, committedAt, mode, authorization, uuid, now);
      WrittenGood(q, payload);
    }
  }

  lemma AppendedGood(q: Quality, t: Tables, n: nat, m: nat, row: Confirmation)
    requires GoodTables(q, t, n, m) && GoodText(q, row.payloadJson)
    ensures GoodTables(q, t.(confirmations := t.confirmations + [row]), n, m)
  {
    hide GoodText;
  }

  // Only a draft that was not consumed is ever updated.
  lemma UpdatedGood(q: Quality, t: Tables, n: nat, m: nat, i: nat, row: Confirmation)
    requires GoodTables(q, t, n, m) && i < |t.confirmations| && row.payloadJson == t.confirmations[i].payloadJson
    requires t.confirmations[i].status != Consumed
    ensures GoodTables(q, t.(confirmations := t.confirmations[i := row]), n, m)
  {
    hide GoodText;
  }

  lemma CreateKeepsGood(q: Quality, t: Tables, n: nat, m: nat, payload: Value, uuid: Uuids, now: string)
    requires GoodTables(q, t, n, m) && WellFormed(payload) && Good(q, payload) && CreateConfirmation(t, payload, uuid, now).Ok?
    ensures GoodTables(q, CreateConfirmation(t, payload, uuid, now).value, n, m)
  {
    hide GoodTables, GoodText, Good, WellFormed, ConfirmationFits, CanonicalJson, PayloadDigest;
    WrittenGood(q, payload);
    AppendedGood(q, t, n, m, NewConfirmation(payload, uuid, now));
  }

  lemma ConfirmKeepsGood(q: Quality, t: Tables, n: nat, m: nat, a: O.Action)
    requires a.Confirm? && GoodTables(q, t, n, m) && ConfirmConfirmation(t, a.id, a.expected, a.how, a.identity, a.source, a.now).Ok?
    ensures GoodTables(q, ConfirmConfirmation(t, a.id, a.expected, a.how, a.identity, a.source, a.now).value, n, m)
  {
    hide GoodTables, GoodText, RowCheck, Blank;
    var i := FindConfirmation(t.confirmations, a.id);
    UpdatedGood(q, t, n, m, i, ConfirmedRow(t.confirmations[i], a.how, a.identity, a.source, a.now));
  }

  lemma DraftGood(q: Quality, t: Tables, n: nat, m: nat, i: nat)
    requires Inv(t) && GoodTables(q, t, n, m) && i < |t.confirmations| && t.confirmations[i].status != Consumed
    ensures Loads(t.confirmations[i].payloadJson).Some?
    ensures WellFormed(Loads(t.confirmations[i].payloadJson).value) && Good(q, Loads(t.confirmations[i].payloadJson).value)
  {
    hide Constraints, ClaimsMatch, ChainsBuilt, Loads, Good, WellFormed, Readable;
    assert GoodText(q, t.confirmations[i].payloadJson) && StoredPayload(t.confirmations[i].payloadJson, t.confirmations[i].payloadHash);
  }

  lemma ConsumeKeepsGood(q: Quality, t: Tables, n: nat, m: nat, id: string, expected: Hash, uuid: Uuids, now: string)
    requires Inv(t) && GoodTables(q, t, n, m) && PersistConfirmed(t, id, expected, uuid, now).Ok?
    ensures GoodTables(q, PersistConfirmed(t, id, expected, uuid, now).value.tables, n, m)
  {
    hide Inv, GoodTables, GoodText, Good, WellFormed, InsertTask, Loads, RowCheck, TaskUnclaimed;
    var i := FindConfirmation(t.confirmations, id);
    DraftGood(q, t, n, m, i);
    var row := t.confirmations[i];
    var payload := Loads(row.payloadJson).value;
    InsertKeepsGood(q, t, n, m, payload, row.payloadHash, row.confirmedAt.value, Personal, Null, uuid, now);
    var ins := InsertTask(t, payload, row.payloadHash, row.confirmedAt.value, Personal, Null, uuid, now).value;
    UpdatedGood(q, ins.tables, n, m, i, ConsumedRow(row, ins.taskId, now));
  }

  lemma TransactKeepsGood(q: Quality, t: Tables, n: nat, m: nat, a: O.Action)
    requires Inv(t) && GoodTables(q, t, n, m) && StoresGood(q, a) && !a.Upgrade? && O.Transact(t, a).Ok?
    ensures GoodTables(q, O.Transact(t, a).value.0, n, m)
  {
    hide Inv, GoodTables, Good, WellFormed, CreateConfirmation, ConfirmConfirmation, PersistConfirmed, InsertTask, PayloadDigest, FindConfirmation;
    match a
    case Create(payload, uuid, now) => CreateKeepsGood(q, t, n, m, payload, uuid, now);
    case Confirm(_, _, _, _, _, _) => ConfirmKeepsGood(q, t, n, m, a);
    case Consume(id, expected, uuid, now) => ConsumeKeepsGood(q, t, n, m, id, expected, uuid, now);
    case Authorize(payload, authorization, uuid, now) =>
      InsertKeepsGood(q, t, n, m, payload, PayloadDigest(payload), now, Enterprise, authorization, uuid, now);
  }

  // ----- pure chains -----

  lemma StoredStateKept(v: Value)
    requires WellFormed(v) && BindText(v) == Some(LEGACY_STATE)
    ensures v == LEGACY_STATE
  {
    assert LEGACY_STATE.s[0] == 'l';
  }

  lemma HonestRow(rows: seq<EvidenceRow>, i: nat, taskId: string, item: Value)
    requires i < |rows| && Built(rows, i, taskId, item) && WellFormed(item) && HonestItem(item)
    ensures !Legacy(rows[i])
  {
    hide CanonicalEvidence, MakeRow, BindText;
    var row := rows[i];
    MadeRowIds(taskId, i + 1, item, Before(rows, i), row.eventId, row.createdAt);
    MadeRow(item, row);
    Freshness.StateWellFormed(item);
    if Legacy(row) { StoredStateKept(CanonicalEvidence(item).value.state); }
  }

  lemma HonestChain(rows: seq<EvidenceRow>, taskId: string, payload: Value)
    requires WellFormed(payload) && Good(HonestItems, payload) && Items(payload).Some? && BuiltFrom(rows, taskId, Items(payload).value)
    ensures AllNew(rows)
  {
    hide Legacy, HonestItem, WellFormed, Items;
    Report.ItemsWellFormed(payload);
    forall k | 0 <= k < |rows| ensures !Legacy(rows[k]) {
      assert Built(rows, k, taskId, Items(payload).value[k]);
      HonestRow(rows, k, taskId, Items(payload).value[k]);
    }
  }

  ghost predicate PureChain(rows: seq<EvidenceRow>) {
    AllLegacy(rows) || AllNew(rows)
  }

  // No task mixes legacy and new evidence.
  ghost predicate PureTables(t: Tables) {
    forall i :: 0 <= i < |t.tasks| ==> PureChain(ChainOf(t.evidence, t.tasks[i].id))
  }

  ghost predicate Pure(db: Database) {
    match db.layout
    case V3(mid) => PureTables(UpTo4(mid))
    case V4(t) => PureTables(t)
    case _ => true
  }

  lemma InsertKeepsPure(t: Tables, payload: Value, hash: Hash, committedAt: string, mode: Mode, authorization: Value, uuid: Uuids, now: string)
    requires Inv(t) && PureTables(t) && WellFormed(payload) && Good(HonestItems, payload)
    requires InsertTask(t, payload, hash, committedAt, mode, authorization, uuid, now).Ok?
    ensures PureTables(InsertTask(t, payload, hash, committedAt, mode, authorization, uuid, now).value.tables)
  {
    hide InsertFresh, PureChain, Good, WellFormed, Insertion.FreshAdded, Readable, MakeTask, TaskFits, Inv, Constraints, ChainOf, BuiltFrom;
    var r := InsertFresh(t, payload, hash, committedAt, mode, authorization, uuid, now);
    if r.Ok? {
      Insertion.FreshInserted(t, payload, hash, committedAt, mode, authorization, uuid, now);
      InvConstraints(t);
      var u := r.value.tables;
      var task := FreshShape(t, u, payload, hash, committedAt, mode, authorization, uuid, now);
      var rows := FreshChain(t, u, payload, hash, committedAt, mode, authorization, uuid, now);
      HonestChain(rows, task.id, payload);
      NewIsPure(rows);
      forall i | 0 <= i < |u.tasks| ensures PureChain(ChainOf(u.evidence, u.tasks[i].id)) {
        if i < |t.tasks| {
          assert u.tasks[i] == t.tasks[i];
          OtherTask(t, task, i);
        }
      }
    }
  }

  lemma NewIsPure(rows: seq<EvidenceRow>)
    requires AllNew(rows)
    ensures PureChain(rows)
  {
    hide Legacy;
  }

  lemma OtherTask(t: Tables, task: TaskRow, i: nat)
    requires TaskFits(t, task) && i < |t.tasks|
    ensures t.tasks[i].id != task.id
  {
  }

  lemma ConsumeKeepsPure(t: Tables, n: nat, m: nat, id: string, expected: Hash, uuid: Uuids, now: string)
    requires Inv(t) && PureTables(t) && GoodTables(HonestItems, t, n, m) && PersistConfirmed(t, id, expected, uuid, now).Ok?
    ensures PureTables(PersistConfirmed(t, id, expected, uuid, now).value.tables)
  {
    hide Inv, PureChain, GoodTables, Good, WellFormed, InsertTask, Loads, RowCheck, TaskUnclaimed, ChainOf;
    var i := FindConfirmation(t.confirmations, id);
    DraftGood(HonestItems, t, n, m, i);
    var row := t.confirmations[i];
    InsertKeepsPure(t, Loads(row.payloadJson).value, row.payloadHash, row.confirmedAt.value, Personal, Null, uuid, now);
  }

  lemma TransactKeepsPure(t: Tables, n: nat, m: nat, a: O.Action)
    requires Inv(t) && PureTables(t) && GoodTables(HonestItems, t, n, m) && StoresGood(HonestItems, a) && !a.Upgrade? && O.Transact(t, a).Ok?
    ensures PureTables(O.Transact(t, a).value.0)
  {
    hide Inv, PureChain, GoodTables, Good, WellFormed, PersistConfirmed, InsertTask, PayloadDigest, FindConfirmation,
         CanonicalJson, RowCheck, ChainOf;
    match a
    case Create(_, _, _) =>
    case Confirm(_, _, _, _, _, _) =>
    case Consume(id, expected, uuid, now) => ConsumeKeepsPure(t, n, m, id, expected, uuid, now);
    case Authorize(payload, authorization, uuid, now) =>
      InsertKeepsPure(t, payload, PayloadDigest(payload), now, Enterprise, authorization, uuid, now);
  }

  // ----- migrations -----

  lemma {:induction false} JoinConsumed(cs: seq<OldConfirmation>, tasks: seq<OldTask>)
    ensures |JoinConfirmations(cs, tasks)| <= |cs|
    ensures forall i :: 0 <= i < |JoinConfirmations(cs, tasks)| ==> JoinConfirmations(cs, tasks)[i].status == Consumed
  {
    if cs != [] { JoinConsumed(cs[..|cs| - 1], tasks); }
  }

  lemma ApplyKeepsGood(q: Quality, db: Database, version: nat, n: nat, m: nat)
    requires GoodSince(q, db, n, m) && Apply(version, db.layout).Some?
    ensures GoodSince(q, Database(db.log + [version], Apply(version, db.layout).value), n, m)
  {
    hide GoodText, CopyAccepted, JoinConfirmations;
    match db.layout
    case V2(o) => JoinConsumed(o.confirmations, o.tasks);
    case _ =>
  }

  lemma HistoryIsPure(o: OldTables)
    ensures PureTables(UpTo4(UpTo3(o)))
  {
    hide Legacy, ChainOf, UpTo3, UpTo4;
    MigratedEvidence(o);
    var t := UpTo4(UpTo3(o));
    AllLegacyRows(t.evidence);
    forall i | 0 <= i < |t.tasks| ensures PureChain(ChainOf(t.evidence, t.tasks[i].id)) { LegacyChain(t.evidence, t.tasks[i].id); }
  }

  lemma ApplyKeepsPure(db: Database, version: nat)
    requires Pure(db) && Apply(version, db.layout).Some?
    ensures Pure(Database(db.log + [version], Apply(version, db.layout).value))
  {
    hide PureTables, CopyAccepted, UpTo3, UpTo4;
    match db.layout
    case V2(o) => HistoryIsPure(o);
    case _ =>
  }

  lemma {:induction false} MigrateFromKeeps(q: Quality, db: Database, version: nat, target: nat, faults: set<nat>, n: nat, m: nat)
    requires GoodSince(q, db, n, m)
    ensures GoodSince(q, MigrateFrom(db, version, target, faults).db, n, m)
    ensures Pure(db) ==> Pure(MigrateFrom(db, version, target, faults).db)
    decreases target + 1 - version
  {
    hide Apply, GoodSince, Pure;
    if version <= target && version <= 4 && version !in faults && Apply(version, db.layout).Some? {
      ApplyKeepsGood(q, db, version, n, m);
      if Pure(db) { ApplyKeepsPure(db, version); }
      MigrateFromKeeps(q, Database(db.log + [version], Apply(version, db.layout).value), version + 1, target, faults, n, m);
    }
  }

  lemma MigrateKeeps(q: Quality, db: Database, target: nat, faults: set<nat>, n: nat, m: nat)
    requires GoodSince(q, db, n, m)
    ensures GoodSince(q, Migration.Migrate(db, target, faults).db, n, m)
    ensures Pure(db) ==> Pure(Migration.Migrate(db, target, faults).db)
  {
    hide GoodSince, Pure, MigrateFrom;
    MigrateFromKeeps(q, db, CurrentVersion(db.log) + 1, target, faults, n, m);
  }

  // ----- every run of service calls -----

  lemma StepKeepsGood(q: Quality, db: Database, a: O.Action, n: nat, m: nat)
    requires DbInv(db) && GoodSince(q, db, n, m) && StoresGood(q, a)
    ensures GoodSince(q, O.Step(db, a).db, n, m)
  {
    hide Inv, GoodTables, O.Transact, Migration.Migrate, StoresGood;
    if a.Upgrade? {
      MigrateKeeps(q, db, a.target, a.faults, n, m);
    } else {
      MigrateKeeps(q, db, SCHEMA_VERSION, {}, n, m);
      MigrateKeepsInv(db, SCHEMA_VERSION, {});
      var r := Migration.Migrate(db, SCHEMA_VERSION, {});
      if r.result.Ok? && r.db.layout.V4? && O.Transact(r.db.layout.tables, a).Ok? {
        TransactKeepsGood(q, r.db.layout.tables, n, m, a);
      }
    }
  }

  lemma StepKeepsPure(db: Database, a: O.Action, n: nat, m: nat)
    requires DbInv(db) && Pure(db) && GoodSince(HonestItems, db, n, m) && StoresGood(HonestItems, a)
    ensures Pure(O.Step(db, a).db)
  {
    hide Inv, GoodTables, PureTables, O.Transact, Migration.Migrate, StoresGood;
    if a.Upgrade? {
      MigrateKeeps(HonestItems, db, a.target, a.faults, n, m);
    } else {
      MigrateKeeps(HonestItems, db, SCHEMA_VERSION, {}, n, m);
      MigrateKeepsInv(db, SCHEMA_VERSION, {});
      var r := Migration.Migrate(db, SCHEMA_VERSION, {});
      if r.result.Ok? && r.db.layout.V4? && O.Transact(r.db.layout.tables, a).Ok? {
        TransactKeepsPure(r.db.layout.tables, n, m, a);
      }
    }
  }

  function CallRun(tl: Tools, db: Database, calls: seq<Call>): Database
    decreases |calls|
  {
    if calls == [] then db else CallRun(tl, CallStep(tl, db, calls[0]), calls[1..])
  }

  ghost predicate CallsParsed(calls: seq<Call>) {
    forall i :: 0 <= i < |calls| ==> CallParsed(calls[i])
  }

  lemma {:induction false} CallRunKeeps(q: Quality, tl: Tools, db: Database, calls: seq<Call>, n: nat, m: nat)
    requires DbInv(db) && GoodSince(q, db, n, m) && CallsParsed(calls)
    ensures DbInv(CallRun(tl, db, calls)) && GoodSince(q, CallRun(tl, db, calls), n, m)
    ensures q == HonestItems && Pure(db) ==> Pure(CallRun(tl, db, calls))
    decreases |calls|
  {
    hide DbInv, GoodSince, Pure, CallParsed, CallStep, AdapterCall, O.Step, StoresGood, ActionOk;
    if calls != [] {
      var c := calls[0];
      RefusedOrOneStep(tl, db, c);
      if AdapterCall(tl, c).Some? {
        var a := AdapterCall(tl, c).value;
        GatedGood(q, tl, c);
        GoodIsOk(q, a);
        StepKeepsInv(db, a);
        StepKeepsGood(q, db, a, n, m);
        if q == HonestItems && Pure(db) { StepKeepsPure(db, a, n, m); }
      }
      CallRunKeeps(q, tl, CallStep(tl, db, c), calls[1..], n, m);
    }
  }

  lemma GoodIsOk(q: Quality, a: O.Action)
    requires StoresGood(q, a)
    ensures ActionOk(a)
  {
    hide Good, ActionOk;
  }

  lemma StartGood(q: Quality, db: Database)
    requires GoodDrafts(q, db)
    ensures GoodSince(q, db, StoredTasks(db), StoredDrafts(db))
  {
    hide GoodTables;
  }

  // From any database whose consumable drafts hold none, whatever its history:
  // whatever the clients call, in whatever order, every task and every draft
  // stored since loads to a payload without a forbidden key at any depth.
  lemma NothingForbiddenStored(tl: Tools, db: Database, calls: seq<Call>)
    requires DbInv(db) && GoodDrafts(NoForbiddenKeys, db) && CallsParsed(calls)
    ensures GoodSince(NoForbiddenKeys, CallRun(tl, db, calls), StoredTasks(db), StoredDrafts(db))
  {
    hide DbInv, GoodDrafts, GoodSince, CallRun, CallsParsed, Pure;
    StartGood(NoForbiddenKeys, db);
    CallRunKeeps(NoForbiddenKeys, tl, db, calls, StoredTasks(db), StoredDrafts(db));
  }

  // A version 2 database with any history at all, or a later one with pure
  // chains and honest consumable drafts: after any run of service calls each
  // task's evidence is all migrated history or all new.
  lemma NoMixedChains(tl: Tools, db: Database, calls: seq<Call>)
    requires DbInv(db) && Pure(db) && GoodDrafts(HonestItems, db) && CallsParsed(calls)
    ensures Pure(CallRun(tl, db, calls))
  {
    hide DbInv, GoodDrafts, GoodSince, CallRun, CallsParsed, Pure;
    StartGood(HonestItems, db);
    CallRunKeeps(HonestItems, tl, db, calls, StoredTasks(db), StoredDrafts(db));
  }
}
