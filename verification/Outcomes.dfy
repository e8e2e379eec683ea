// When each call succeeds, and what it answers: the gate on an artifact,
// prepare, confirm, and the two persisting calls, each with its exact condition
// on the arguments and on the store.
module Outcomes {
  import opened Wrappers
  import opened Json
  import opened Canonical
  import opened CanonicalText
  import opened Digests
  import opened Evidence
  import opened Schema
  import opened Transactions
  import opened Invariant
  import opened Preservation
  import opened Migration
  import O = Operations
  import opened Runs
  import opened Attempts
  import opened Redaction
  import opened Validation
  import opened Acceptance
  import opened Authorization
  import opened Service
  import opened Protocols
  import Attestation
  import Freshness
  import Insertion
  import Projection
  import Store

  // ----- the gate on an artifact -----

  // No pattern matches any string leaf as it is.
  ghost predicate Untouched(r: Redactor, v: Value) {
    forall leaf :: leaf in Leaves(r, v, "$") ==> QuietText(r.patterns, leaf.text)
  }

  lemma UntouchedIff(r: Redactor, v: Value)
    ensures Found(r, v, "$") == [] <==> Untouched(r, v)
  {
    hide Found, Leaves, LeafFindings, QuietText;
    FindingsFollowLeaves(r, v, "$");
    LeafFindingsEmpty(r.patterns, Leaves(r, v, "$"));
    var leaves := Leaves(r, v, "$");
    if forall i :: 0 <= i < |leaves| ==> QuietText(r.patterns, leaves[i].text) {
      forall leaf | leaf in leaves ensures QuietText(r.patterns, leaf.text) { var i :| 0 <= i < |leaves| && leaves[i] == leaf; }
    }
    if Untouched(r, v) { forall i | 0 <= i < |leaves| ensures QuietText(r.patterns, leaves[i].text) { assert leaves[i] in leaves; } }
  }

  // confirm and commit let an artifact through exactly in this status, with an
  // acceptable payload that nothing in it would be redacted from, under its own
  // digest.
  lemma GateIff(tl: Tools, a: Artifact, status: string)
    ensures ArtifactGate(tl, a, status).Ok? <==>
              && a.status == status && Acceptable(tl.reader, a.payload) && Untouched(tl.redactor, a.payload)
              && a.payloadHash == PayloadDigest(a.payload)
  {
    hide Accepts, Acceptable, Found, Clean, PayloadDigest, Untouched;
    AcceptsIff(tl.reader, a.payload);
    UntouchedIff(tl.redactor, a.payload);
    if Found(tl.redactor, a.payload, "$") == [] { NoFindingsNoChange(tl.redactor, a.payload, "$"); }
  }

  // ----- prepare -----

  // On a current store, prepare succeeds exactly for a candidate that is
  // acceptable before and after it is cleaned, under an unused id; it answers
  // with the cleaned payload and adds its draft.
  lemma PrepareIff(tl: Tools, db: Database, candidate: Value, uuid: Uuids, now: string)
    requires DbInv(db) && db.layout.V4?
    ensures var (id, clean) := ("confirm_" + uuid(0), Clean(tl.redactor, candidate));
            var t := db.layout.tables;
            var s := PrepareStep(tl, db, candidate, uuid, now);
            && (s.result.Ok? <==>
                  && Acceptable(tl.reader, candidate) && Acceptable(tl.reader, clean)
                  && forall i :: 0 <= i < |t.confirmations| ==> t.confirmations[i].id != id)
            && (s.result.Ok? ==>
                  && s.result.value == Artifact("PREPARED", id, clean, PayloadDigest(clean), Found(tl.redactor, candidate, "$"),
                                                None, None, None, None)
                  && s.db.layout.V4? && s.db.layout.tables == t.(confirmations := s.db.layout.tables.confirmations)
                  && s.db.layout.tables.confirmations == t.confirmations +
                       [Confirmation(id, None, CanonicalJson(clean), PayloadDigest(clean), now, None, None, None, None, Prepared, None)])
            && (s.result.Err? ==> s.db == db)
  {
    hide Accepts, Acceptable, Clean, Found, PayloadDigest, CanonicalJson, Inv, Migration.Migrate;
    AcceptsIff(tl.reader, candidate);
    AcceptsIff(tl.reader, Clean(tl.redactor, candidate));
    CurrentIsItself(db);
    MigratesToItself(db);
  }

  lemma MigratesToItself(db: Database)
    requires DbInv(db) && db.layout.V4?
    ensures Migration.Migrate(db, SCHEMA_VERSION, {}).db == db && Migration.Migrate(db, SCHEMA_VERSION, {}).result.Ok?
  {
    hide Inv;
    CurrentStep(db, O.Upgrade(0, {}));
  }

  // ----- confirm -----

  // A visible method, and identity and source together or not at all.
  ghost predicate MethodFits(how: string, identity: Option<string>, source: Option<string>) {
    && Visible(Str(how)) && how != "" && how[0] != '\0'
    && (identity in [None, Some("")] <==> source in [None, Some("")]) && (identity.Some? ==> source.Some?)
  }

  // A draft is confirmed exactly so, under the digest of a row still PREPARED.
  ghost predicate Confirmable(t: Tables, id: string, expected: Hash, how: string, identity: Option<string>, source: Option<string>) {
    var i := FindConfirmation(t.confirmations, id);
    && MethodFits(how, identity, source)
    && i < |t.confirmations| && t.confirmations[i].status == Prepared && t.confirmations[i].payloadHash == expected
  }

  lemma ConfirmIff(t: Tables, id: string, expected: Hash, how: string, identity: Option<string>, source: Option<string>, now: string)
    requires Inv(t)
    ensures var i := FindConfirmation(t.confirmations, id);
            var r := ConfirmConfirmation(t, id, expected, how, identity, source, now);
            && (r.Ok? <==> Confirmable(t, id, expected, how, identity, source))
            && (r.Ok? ==>
                  r.value == t.(confirmations :=
                    t.confirmations[i := t.confirmations[i].(status := Confirmed, confirmedAt := Some(now), how := Some(how),
                                                             identity := identity, source := source)]))
  {
    hide Blank, SqlNonempty, Given, MethodFits;
    MethodChecks(how, identity, source);
    DraftRow(t, FindConfirmation(t.confirmations, id));
  }

  lemma MethodChecks(how: string, identity: Option<string>, source: Option<string>)
    ensures MethodFits(how, identity, source) <==>
              !Blank(how) && Given(identity) == Given(source) && (identity.Some? ==> source.Some?) && SqlNonempty(Some(how))
  {
    hide Visible, Blank;
    BlankIff(Str(how));
  }

  lemma DraftRow(t: Tables, i: nat)
    requires Inv(t)
    ensures i < |t.confirmations| && t.confirmations[i].status == Prepared ==> t.confirmations[i].consumedAt.None? && t.confirmations[i].taskId.None?
  {
    hide PayloadsStored, ClaimsMatch, ChainsBuilt;
  }

  // On a current store, confirm succeeds exactly for an artifact that passes its
  // gate and a draft that can be confirmed, and answers with the artifact under
  // the caller's own method, identity and source and its own clock.
  lemma ConfirmReported(tl: Tools, db: Database, a: Artifact, how: string, identity: Option<string>, source: Option<string>, now: string)
    requires DbInv(db) && db.layout.V4?
    ensures var s := ConfirmStep(tl, db, a, how, identity, source, now);
            && (s.result.Ok? <==>
                  && ArtifactGate(tl, a, "PREPARED").Ok?
                  && Confirmable(db.layout.tables, a.confirmationId, a.payloadHash, how, identity, source))
            && (s.result.Ok? ==>
                  && s.result.value == Artifact("CONFIRMED", a.confirmationId, a.payload, a.payloadHash, a.redactions,
                                                Some(now), Some(how), identity, source)
                  && s.db.layout.V4? && FindConfirmation(s.db.layout.tables.confirmations, a.confirmationId) < |s.db.layout.tables.confirmations|
                  && var row := s.db.layout.tables.confirmations[FindConfirmation(s.db.layout.tables.confirmations, a.confirmationId)];
                     row.status == Confirmed && row.confirmedAt == Some(now) && row.how == Some(how)
                     && row.identity == identity && row.source == source && row.payloadHash == a.payloadHash)
            && (s.result.Err? ==> s.db == db)
  {
    hide ArtifactGate, Inv, Migration.Migrate, ConfirmConfirmation, Confirmable;
    CurrentIsItself(db);
    MigratesToItself(db);
    var t := db.layout.tables;
    ConfirmIff(t, a.confirmationId, a.payloadHash, how, identity, source, now);
    if ArtifactGate(tl, a, "PREPARED").Ok? && Confirmable(t, a.confirmationId, a.payloadHash, how, identity, source) {
      ConfirmableRow(t, a.confirmationId, a.payloadHash, how, identity, source);
      var i := FindConfirmation(t.confirmations, a.confirmationId);
      Store.Refound(t.confirmations, a.confirmationId, i, t.confirmations[i].(status := Confirmed, confirmedAt := Some(now), how := Some(how),
                                                                              identity := identity, source := source));
    }
  }

  lemma ConfirmableRow(t: Tables, id: string, expected: Hash, how: string, identity: Option<string>, source: Option<string>)
    requires Confirmable(t, id, expected, how, identity, source)
    ensures var i := FindConfirmation(t.confirmations, id); i < |t.confirmations| && t.confirmations[i].payloadHash == expected
  {
    hide Visible;
  }

  // ----- persisting -----

  // The payload's session as it would be stored.
  ghost predicate SessionHeld(t: Tables, p: Value) {
    var session := BindText(GetOr(p, SESSION, Null));
    session.Some? && !session.value.Null? && exists i :: 0 <= i < |t.tasks| && t.tasks[i].session == session.value
  }

  // New content goes in exactly when its columns can be bound and no row holds
  // its session.
  lemma NewContentIff(t: Tables, p: Value, hash: Hash, committedAt: string, mode: Mode, authorization: Value, uuid: Uuids, now: string)
    requires Inv(t) && Freshness.Unused(t, uuid) && WellFormed(p) && !ContentStored(t, hash)
    ensures InsertFresh(t, p, hash, committedAt, mode, authorization, uuid, now).Ok? <==> Freshness.Storable(p) && !SessionHeld(t, p)
  {
    hide Inv, Freshness.Unused, WellFormed, InsertFresh, Freshness.Storable, BindText, Insertion.FreshAdded, MakeTask, Get;
    if Freshness.Storable(p) {
      StorableSession(p);
      if !SessionHeld(t, p) { Freshness.FreshInsertIff(t, p, hash, committedAt, mode, authorization, uuid, now); }
    }
    if InsertFresh(t, p, hash, committedAt, mode, authorization, uuid, now).Ok? {
      Freshness.InsertedIsStorable(t, p, hash, committedAt, mode, authorization, uuid, now);
      Insertion.FreshInserted(t, p, hash, committedAt, mode, authorization, uuid, now);
      var u := InsertFresh(t, p, hash, committedAt, mode, authorization, uuid, now).value.tables;
      var task := FreshShape(t, u, p, hash, committedAt, mode, authorization, uuid, now);
      MadeTask(p, hash, committedAt, mode, authorization, NewId("task", uuid(0)), now);
    }
  }

  lemma StorableSession(p: Value)
    requires Freshness.Storable(p)
    ensures p.Obj? && BindText(GetOr(p, SESSION, Null)).Some?
  {
    hide Freshness.StorableStep, Freshness.StorableItem, Freshness.StorableReference, BindText, CanonicalJson, ContextRefHash, SignatureOf, Get;
  }

  // A payload can be kept: known content, unless its session owns other content;
  // new content, if its columns can be bound and no row holds its session.
  ghost predicate Keepable(t: Tables, p: Value, hash: Hash) {
    && p.Obj?
    && if ContentStored(t, hash) then
         (Truthy(GetOr(p, SESSION, Null)) ==> BindText(GetOr(p, SESSION, Null)).Some?) && !SessionElsewhere(t, p, hash)
       else Freshness.Storable(p) && !SessionHeld(t, p)
  }

  lemma KeptIff(t: Tables, p: Value, hash: Hash, committedAt: string, mode: Mode, authorization: Value, uuid: Uuids, now: string)
    requires Inv(t) && Freshness.Unused(t, uuid) && WellFormed(p)
    ensures InsertTask(t, p, hash, committedAt, mode, authorization, uuid, now).Ok? <==> Keepable(t, p, hash)
  {
    hide Inv, Freshness.Unused, WellFormed, InsertFresh, InsertTask, Freshness.Storable, BindText, Truthy, ContentStored, SessionElsewhere,
         SessionHeld, Get;
    InvConstraints(t);
    InsertNeeds(t, p, hash, committedAt, mode, authorization, uuid, now);
    if p.Obj? && (Truthy(GetOr(p, SESSION, Null)) ==> BindText(GetOr(p, SESSION, Null)).Some?) {
      TwoKeys(t, p, hash, committedAt, mode, authorization, uuid, now);
      if !ContentStored(t, hash) {
        NewContentIff(t, p, hash, committedAt, mode, authorization, uuid, now);
        ElsewhereHeld(t, p, hash);
        if !SessionElsewhere(t, p, hash) { NewIsFresh(t, p, hash, committedAt, mode, authorization, uuid, now); }
      }
    } else if Freshness.Storable(p) {
      StorableSession(p);
    }
  }

  lemma InsertNeeds(t: Tables, p: Value, hash: Hash, committedAt: string, mode: Mode, authorization: Value, uuid: Uuids, now: string)
    ensures InsertTask(t, p, hash, committedAt, mode, authorization, uuid, now).Ok? ==>
              p.Obj? && (Truthy(GetOr(p, SESSION, Null)) ==> BindText(GetOr(p, SESSION, Null)).Some?)
  {
    hide InsertFresh, BindText, Truthy, Get;
  }

  lemma ElsewhereHeld(t: Tables, p: Value, hash: Hash)
    ensures SessionElsewhere(t, p, hash) ==> SessionHeld(t, p)
  {
    hide Get;
    var session := GetOr(p, SESSION, Null);
    if Truthy(session) && BindText(session).Some? { BoundSession(session); }
  }

  // New content under no session of another's is what the insertion decides.
  lemma NewIsFresh(t: Tables, p: Value, hash: Hash, committedAt: string, mode: Mode, authorization: Value, uuid: Uuids, now: string)
    requires Constraints(t) && p.Obj? && !ContentStored(t, hash) && !SessionElsewhere(t, p, hash)
    requires Truthy(GetOr(p, SESSION, Null)) ==> BindText(GetOr(p, SESSION, Null)).Some?
    ensures InsertTask(t, p, hash, committedAt, mode, authorization, uuid, now) ==
            InsertFresh(t, p, hash, committedAt, mode, authorization, uuid, now)
  {
    hide InsertFresh, Constraints, Get;
    SessionFound(t, p, hash);
    assert FindHash(t.tasks, hash) == |t.tasks|;
  }

  // persist_authorized succeeds exactly for a payload that can be kept.
  lemma AuthorizeIff(t: Tables, p: Value, authorization: Value, uuid: Uuids, now: string)
    requires Inv(t) && Freshness.Unused(t, uuid) && WellFormed(p)
    ensures PersistAuthorized(t, p, authorization, uuid, now).Ok? <==> Keepable(t, p, PayloadDigest(p))
  {
    hide Inv, Freshness.Unused, WellFormed, InsertTask, Keepable, PayloadDigest;
    KeptIff(t, p, PayloadDigest(p), now, Enterprise, authorization, uuid, now);
  }

  // The task that holds the content belongs to a consumed draft already.
  ghost predicate ContentClaimed(t: Tables, hash: Hash) {
    exists i, k :: ClaimedBy(t, hash, i, k)
  }

  ghost predicate ClaimedBy(t: Tables, hash: Hash, i: int, k: int) {
    && 0 <= i < |t.confirmations| && 0 <= k < |t.tasks| && t.tasks[k].payloadHash == hash
    && t.confirmations[i].taskId == Some(t.tasks[k].id)
  }

  // persist_confirmed succeeds exactly for a confirmed draft with this digest
  // whose payload can be kept and whose content no consumed draft has claimed.
  lemma ConsumeIff(t: Tables, id: string, expected: Hash, uuid: Uuids, now: string)
    requires Inv(t) && Freshness.Unused(t, uuid)
    ensures var i := FindConfirmation(t.confirmations, id);
            && (i < |t.confirmations| ==> Loads(t.confirmations[i].payloadJson).Some?)
            && (PersistConfirmed(t, id, expected, uuid, now).Ok? <==>
                  && i < |t.confirmations| && t.confirmations[i].status == Confirmed && t.confirmations[i].payloadHash == expected
                  && Keepable(t, Loads(t.confirmations[i].payloadJson).value, expected) && !ContentClaimed(t, expected))
  {
    hide Inv, Freshness.Unused, WellFormed, InsertTask, Keepable, Loads, ContentClaimed, TaskUnclaimed;
    var i := FindConfirmation(t.confirmations, id);
    if i < |t.confirmations| {
      Projection.DraftParsed(t, i);
      ConfirmedRowChecks(t, i);
      var row := t.confirmations[i];
      if row.status == Confirmed && row.payloadHash == expected {
        var p := Loads(row.payloadJson).value;
        KeptIff(t, p, expected, row.confirmedAt.value, Personal, Null, uuid, now);
        if InsertTask(t, p, expected, row.confirmedAt.value, Personal, Null, uuid, now).Ok? {
          UnclaimedIff(t, p, expected, row.confirmedAt.value, uuid, now);
        }
      }
    }
  }

  lemma ConfirmedRowChecks(t: Tables, i: nat)
    requires Inv(t) && i < |t.confirmations|
    ensures var row := t.confirmations[i];
            row.status == Confirmed ==>
              && row.consumedAt.None? && row.confirmedAt.Some?
              && forall id: string, now: string :: RowCheck(ConsumedRow(row, id, now))
  {
    hide PayloadsStored, ClaimsMatch, ChainsBuilt;
    assert RowCheck(t.confirmations[i]);
  }

  // The task an insertion names is unclaimed exactly when the content is.
  lemma UnclaimedIff(t: Tables, p: Value, hash: Hash, committedAt: string, uuid: Uuids, now: string)
    requires Inv(t) && InsertTask(t, p, hash, committedAt, Personal, Null, uuid, now).Ok?
    ensures TaskUnclaimed(t.confirmations, InsertTask(t, p, hash, committedAt, Personal, Null, uuid, now).value.taskId) <==>
              !ContentClaimed(t, hash)
  {
    hide Inv, InsertTask, Truthy, BindText, Get;
    InvConstraints(t);
    InsertNeeds(t, p, hash, committedAt, Personal, Null, uuid, now);
    TwoKeys(t, p, hash, committedAt, Personal, Null, uuid, now);
    var ins := InsertTask(t, p, hash, committedAt, Personal, Null, uuid, now).value;
    if ins.duplicate {
      NamedOnce(t, ins.taskId, hash);
      if i :| 0 <= i < |t.confirmations| && t.confirmations[i].taskId == Some(ins.taskId) {
        var k :| 0 <= k < |t.tasks| && t.tasks[k].payloadHash == hash && t.tasks[k].id == ins.taskId;
        assert ClaimedBy(t, hash, i, k);
      }
    } else {
      FreshUnclaimed(t, p, hash, committedAt, uuid, now);
    }
  }

  // One row holds a content.
  lemma NamedOnce(t: Tables, id: string, hash: Hash)
    requires Inv(t) && Names(t, id, hash)
    ensures forall k :: 0 <= k < |t.tasks| && t.tasks[k].payloadHash == hash ==> t.tasks[k].id == id
    ensures exists k :: 0 <= k < |t.tasks| && t.tasks[k].payloadHash == hash && t.tasks[k].id == id
  {
    hide PayloadsStored, ClaimsMatch, ChainsBuilt;
  }

  lemma FreshUnclaimed(t: Tables, p: Value, hash: Hash, committedAt: string, uuid: Uuids, now: string)
    requires Constraints(t) && !ContentStored(t, hash)
    requires var r := InsertTask(t, p, hash, committedAt, Personal, Null, uuid, now); r.Ok? && !r.value.duplicate
    ensures TaskUnclaimed(t.confirmations, InsertTask(t, p, hash, committedAt, Personal, Null, uuid, now).value.taskId)
    ensures !ContentClaimed(t, hash)
  {
    hide Constraints, InsertFresh, Insertion.FreshAdded, TaskFits, MakeTask, Truthy, BindText, Get;
    if InsertFresh(t, p, hash, committedAt, Personal, Null, uuid, now).Ok? {
      Insertion.FreshInserted(t, p, hash, committedAt, Personal, Null, uuid, now);
      var u := InsertFresh(t, p, hash, committedAt, Personal, Null, uuid, now).value.tables;
      var task := FreshShape(t, u, p, hash, committedAt, Personal, Null, uuid, now);
      NewTaskUnclaimed(t, task);
    }
  }

  // ----- commit and capture -----

  lemma CommitIff(tl: Tools, db: Database, a: Artifact, uuid: Uuids, now: string)
    requires DbInv(db) && db.layout.V4? && Freshness.Unused(db.layout.tables, uuid)
    ensures var t := db.layout.tables;
            var i := FindConfirmation(t.confirmations, a.confirmationId);
            && (i < |t.confirmations| ==> Loads(t.confirmations[i].payloadJson).Some?)
            && (CommitStep(tl, db, a, uuid, now).result.Ok? <==>
                  && ArtifactGate(tl, a, "CONFIRMED").Ok?
                  && i < |t.confirmations| && t.confirmations[i].status == Confirmed && t.confirmations[i].payloadHash == a.payloadHash
                  && Keepable(t, Loads(t.confirmations[i].payloadJson).value, a.payloadHash) && !ContentClaimed(t, a.payloadHash))
    ensures CommitStep(tl, db, a, uuid, now).result.Err? ==> CommitStep(tl, db, a, uuid, now).db == db
  {
    hide ArtifactGate, Inv, PersistConfirmed, Migration.Migrate, Freshness.Unused, Keepable, ContentClaimed, Loads, FindConfirmation;
    CurrentStep(db, O.Consume(a.confirmationId, a.payloadHash, uuid, now));
    ConsumeIff(db.layout.tables, a.confirmationId, a.payloadHash, uuid, now);
  }

  // Capture reaches the store exactly for an acceptable candidate that the
  // deployment admits and whose record is still acceptable when cleaned.
  lemma CaptureGateIff(tl: Tools, env: Environment, candidate: Value, kind: string)
    requires candidate.Obj?
    ensures Admit(tl.verifier, env, candidate, kind).Ok? <==> Attestation.Admissible(tl.verifier, env, candidate, kind)
    ensures var raw, gate := Admit(tl.verifier, env, candidate, kind), CaptureGate(tl, env, candidate, kind);
            && (gate.Ok? <==> Acceptable(tl.reader, candidate) && raw.Ok? && Acceptable(tl.reader, Clean(tl.redactor, raw.value.record)))
            && (gate.Ok? ==>
                  gate.value == Admitted(Clean(tl.redactor, raw.value.record), raw.value.authorization, raw.value.trustClass))
  {
    hide Accepts, Acceptable, Admit, Clean, Attestation.Admissible;
    AcceptsIff(tl.reader, candidate);
    Attestation.AdmittedIff(tl.verifier, env, candidate, kind);
    var raw := Admit(tl.verifier, env, candidate, kind);
    if raw.Ok? { AcceptsIff(tl.reader, Clean(tl.redactor, raw.value.record)); }
  }

  // A capture that passes its gate is kept exactly when its record can be; else
  // it is refused for its session, or reported as failed, and nothing changes.
  lemma CaptureIff(tl: Tools, db: Database, env: Environment, candidate: Value, uuid: Uuids)
    requires DbInv(db) && db.layout.V4? && Freshness.Unused(db.layout.tables, uuid)
    requires CaptureGate(tl, env, candidate, LOCAL_SQLITE).Ok? && WellFormed(CaptureGate(tl, env, candidate, LOCAL_SQLITE).value.record)
    ensures var t := db.layout.tables;
            var record := CaptureGate(tl, env, candidate, LOCAL_SQLITE).value.record;
            var s := CaptureStep(tl, db, env, candidate, uuid);
            && (s.result.Ok? <==> Keepable(t, record, PayloadDigest(record)))
            && (s.result == Err(SessionConflict) <==> record.Obj? && SessionElsewhere(t, record, PayloadDigest(record)))
            && (s.result.Err? ==> s.db == db && s.result.error in [SessionConflict, CaptureStorageError])
  {
    hide CaptureGate, Inv, InsertTask, Migration.Migrate, Freshness.Unused, Keepable, PayloadDigest, WellFormed, SessionElsewhere;
    var adm := CaptureGate(tl, env, candidate, LOCAL_SQLITE).value;
    CurrentStep(db, O.Authorize(adm.record, adm.authorization, uuid, env.clock));
    AuthorizeIff(db.layout.tables, adm.record, adm.authorization, uuid, env.clock);
    InsertRefusals(db.layout.tables, adm.record, PayloadDigest(adm.record), env.clock, Enterprise, adm.authorization, uuid, env.clock);
  }

  lemma InsertRefusals(t: Tables, p: Value, hash: Hash, committedAt: string, mode: Mode, authorization: Value, uuid: Uuids, now: string)
    requires Inv(t)
    ensures var r := InsertTask(t, p, hash, committedAt, mode, authorization, uuid, now);
            && (r == Err(SessionConflict) <==> p.Obj? && SessionElsewhere(t, p, hash))
            && (r.Err? ==> r.error in [SessionConflict, Raised])
  {
    hide Inv, InsertFresh, Truthy, BindText, Get;
    InvConstraints(t);
    FreshErrors(t, p, hash, committedAt, mode, authorization, uuid, now);
    if p.Obj? && (Truthy(GetOr(p, SESSION, Null)) ==> BindText(GetOr(p, SESSION, Null)).Some?) {
      TwoKeys(t, p, hash, committedAt, mode, authorization, uuid, now);
    }
  }

  // Whatever was read, commit and capture conclude success exactly when the reads
  // show the digest, the status and the task.
  lemma ConclusionIff(a: Artifact, adm: Admitted, id: string, duplicate: bool, stored: Outcome<Option<O.TaskRecord>>,
                      state: Option<Confirmation>)
    ensures CommitConclusion(a, id, duplicate, stored, state).Ok? <==>
              (exists task: O.TaskRecord, row :: ShowsStored(stored, task, a.payloadHash) && ShowsConsumed(state, row, id))
    ensures CaptureConclusion(adm, id, duplicate, stored).Ok? <==>
              (exists task: O.TaskRecord :: ShowsStored(stored, task, PayloadDigest(adm.record))
                                            && task.captureStatus == "TASK_COMPLETED_CAPTURE_PERSISTED")
  {
    hide PayloadDigest, Get;
    if stored.Ok? && stored.value.Some? {
      var task := stored.value.value;
      var shown := ShowsStored(stored, task, a.payloadHash) && state.Some? && ShowsConsumed(state, state.value, id);
      var recorded := ShowsStored(stored, task, PayloadDigest(adm.record));
    }
  }

  ghost predicate ShowsStored(stored: Outcome<Option<O.TaskRecord>>, task: O.TaskRecord, hash: Hash) {
    stored == Ok(Some(task)) && task.payloadHash == hash
  }

  ghost predicate ShowsConsumed(state: Option<Confirmation>, row: Confirmation, id: string) {
    state == Some(row) && row.status == Consumed && row.taskId == Some(id)
  }

  // ----- personal capture from end to end -----

  // An artifact carried unedited through prepare, confirm and commit, with no
  // other client between: it is confirmed exactly when no pattern matches a
  // cleaned leaf and the method fits, and then committed exactly when the cleaned
  // payload can be kept and its content is unclaimed.
  lemma PersonalIff(tl: Tools, db: Database, candidate: Value, u0: Uuids, n0: string, how: string, identity: Option<string>,
                    source: Option<string>, n1: string, u2: Uuids, n2: string)
    requires DbInv(db) && db.layout.V4? && WellFormed(candidate) && Freshness.Unused(db.layout.tables, u2)
    requires PrepareStep(tl, db, candidate, u0, n0).result.Ok?
    ensures var p := PrepareStep(tl, db, candidate, u0, n0);
            var q := ConfirmStep(tl, p.db, p.result.value, how, identity, source, n1);
            var clean := Clean(tl.redactor, candidate);
            && (q.result.Ok? <==> QuietAfter(tl.redactor, candidate) && MethodFits(how, identity, source))
            && (q.result.Ok? ==>
                  (CommitStep(tl, q.db, q.result.value, u2, n2).result.Ok? <==>
                     Keepable(db.layout.tables, Canon(clean), PayloadDigest(clean)) && !ContentClaimed(db.layout.tables, PayloadDigest(clean))))
  {
    hide ArtifactGate, DbInv, ConfirmStep, PrepareStep, CommitStep, QuietAfter, MethodFits, Keepable, ContentClaimed, PayloadDigest, Clean,
         Canon, CanonicalJson, Freshness.Unused, Acceptable, Found, Confirmable, Loads, WellFormed;
    var p := PrepareStep(tl, db, candidate, u0, n0);
    var a := p.result.value;
    PrepareIff(tl, db, candidate, u0, n0);
    PrepareMeans(tl, db, candidate, u0, n0);
    var t := p.db.layout.tables;
    PreparedConfirmsIff(tl, db, candidate, u0, n0);
    ConfirmReported(tl, p.db, a, how, identity, source, n1);
    NewlyConfirmable(db.layout.tables, t, a, how, identity, source);
    var q := ConfirmStep(tl, p.db, a, how, identity, source, n1);
    if q.result.Ok? {
      var u := q.db.layout.tables;
      ConfirmedTables(tl, p.db, a, how, identity, source, n1);
      SameTasksUnused(db.layout.tables, u, u2);
      CommitIff(tl, q.db, q.result.value, u2, n2);
      GateEither(tl, a, q.result.value);
      LoadsCanonicalJson(a.payload);
      SameTasksKeepable(db.layout.tables, u, Canon(a.payload), a.payloadHash);
      DraftsUnclaimed(db.layout.tables, t, u, a);
    }
  }

  // The draft that prepare added is the one that confirm finds.
  lemma NewlyConfirmable(t: Tables, u: Tables, a: Artifact, how: string, identity: Option<string>, source: Option<string>)
    requires |u.confirmations| == |t.confirmations| + 1 && t.confirmations <= u.confirmations
    requires var row := u.confirmations[|t.confirmations|]; row.id == a.confirmationId && row.status == Prepared && row.payloadHash == a.payloadHash
    requires forall i :: 0 <= i < |t.confirmations| ==> t.confirmations[i].id != a.confirmationId
    ensures FindConfirmation(u.confirmations, a.confirmationId) == |t.confirmations|
    ensures Confirmable(u, a.confirmationId, a.payloadHash, how, identity, source) <==> MethodFits(how, identity, source)
  {
    hide MethodFits;
    NewRowFound(t.confirmations, u.confirmations[|t.confirmations|]);
    assert u.confirmations == t.confirmations + [u.confirmations[|t.confirmations|]];
  }

  // What confirm leaves: the draft's row confirmed, everything else as it was.
  lemma ConfirmedTables(tl: Tools, db: Database, a: Artifact, how: string, identity: Option<string>, source: Option<string>, now: string)
    requires DbInv(db) && db.layout.V4? && ConfirmStep(tl, db, a, how, identity, source, now).result.Ok?
    ensures var s := ConfirmStep(tl, db, a, how, identity, source, now);
            var i := FindConfirmation(db.layout.tables.confirmations, a.confirmationId);
            && DbInv(s.db) && s.db.layout.V4? && i < |db.layout.tables.confirmations|
            && s.db.layout.tables == db.layout.tables.(confirmations := s.db.layout.tables.confirmations)
            && FindConfirmation(s.db.layout.tables.confirmations, a.confirmationId) == i
            && exists row :: s.db.layout.tables.confirmations == db.layout.tables.confirmations[i := row]
                 && row.id == a.confirmationId && row.status == Confirmed && row.taskId.None? && row.payloadHash == a.payloadHash
                 && row.payloadJson == db.layout.tables.confirmations[i].payloadJson
  {
    hide ArtifactGate, Inv, Migration.Migrate, ConfirmConfirmation, MethodFits;
    var action := O.Confirm(a.confirmationId, a.payloadHash, how, identity, source, now);
    StepKeepsInv(db, action);
    CurrentStep(db, action);
    var t := db.layout.tables;
    var i := FindConfirmation(t.confirmations, a.confirmationId);
    ConfirmIff(t, a.confirmationId, a.payloadHash, how, identity, source, now);
    DraftRow(t, i);
    var row := t.confirmations[i].(status := Confirmed, confirmedAt := Some(now), how := Some(how), identity := identity, source := source);
    Store.Refound(t.confirmations, a.confirmationId, i, row);
    assert ConfirmStep(tl, db, a, how, identity, source, now).db.layout.tables.confirmations == t.confirmations[i := row];
  }

  // The gates of confirm and commit differ in the status only.
  lemma GateEither(tl: Tools, a: Artifact, b: Artifact)
    requires a.payload == b.payload && a.payloadHash == b.payloadHash && a.status == "PREPARED" && b.status == "CONFIRMED"
    ensures ArtifactGate(tl, a, "PREPARED").Ok? <==> ArtifactGate(tl, b, "CONFIRMED").Ok?
  {
    hide Accepts, Found, Clean, PayloadDigest;
  }

  lemma SameTasksUnused(t: Tables, u: Tables, uuid: Uuids)
    requires u == t.(confirmations := u.confirmations) && Freshness.Unused(t, uuid)
    ensures Freshness.Unused(u, uuid)
  {
    hide Freshness.HashedOver;
  }

  lemma SameTasksKeepable(t: Tables, u: Tables, p: Value, hash: Hash)
    requires u == t.(confirmations := u.confirmations)
    ensures Keepable(u, p, hash) <==> Keepable(t, p, hash)
  {
    hide Freshness.Storable, Get, BindText, Truthy;
  }

  // A draft that is not consumed claims nothing.
  lemma DraftsUnclaimed(t: Tables, u: Tables, v: Tables, a: Artifact)
    requires |u.confirmations| == |t.confirmations| + 1 && t.confirmations <= u.confirmations && u.tasks == t.tasks && v.tasks == u.tasks
    requires exists row :: v.confirmations == u.confirmations[|t.confirmations| := row] && row.taskId.None?
    ensures ContentClaimed(v, a.payloadHash) <==> ContentClaimed(t, a.payloadHash)
  {
    var row :| v.confirmations == u.confirmations[|t.confirmations| := row] && row.taskId.None?;
    if i, k :| ClaimedBy(t, a.payloadHash, i, k) {
      assert v.confirmations[i] == t.confirmations[i];
      assert ClaimedBy(v, a.payloadHash, i, k);
    }
    if i, k :| ClaimedBy(v, a.payloadHash, i, k) {
      assert i < |t.confirmations| && v.confirmations[i] == t.confirmations[i];
      assert ClaimedBy(t, a.payloadHash, i, k);
    }
  }
}
