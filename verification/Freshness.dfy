// With identifiers nobody has used, a fresh insertion violates no constraint:
// it fails only when the payload itself cannot be stored.
module Freshness {
  import opened Wrappers
  import opened Json
  import opened Canonical
  import opened Evidence
  import opened Chain
  import opened Selection
  import opened Schema
  import opened Transactions
  import opened Insertion
  import opened Invariant
  import opened Preservation
  import CanonicalText
  import Digests
  import Report

  // ----- unused draws -----

  // The draws of a call differ from one another and from every stored id, and no
  // legacy event was hashed over the new task id.
  ghost predicate Unused(t: Tables, uuid: Uuids) {
    && (forall i: nat, j: nat :: i != j ==> uuid(i) != uuid(j))
    && (forall i, k: nat :: 0 <= i < |t.tasks| ==> t.tasks[i].id != NewId("task", uuid(k)))
    && (forall i, k: nat :: 0 <= i < |t.processes| ==> t.processes[i].id != NewId("process", uuid(k)))
    && (forall i, k: nat :: 0 <= i < |t.paths| ==> t.paths[i].id != NewId("path", uuid(k)))
    && (forall i, k: nat :: 0 <= i < |t.steps| ==> t.steps[i].id != NewId("step", uuid(k)))
    && (forall i, k: nat :: 0 <= i < |t.evidence| ==> t.evidence[i].eventId != NewId("event", uuid(k)))
    && (forall i, k: nat :: 0 <= i < |t.lineage| ==> t.lineage[i].id != NewId("lineage", uuid(k)))
    && (forall i, k: nat :: 0 <= i < |t.references| ==> t.references[i].id != NewId("ref", uuid(k)))
    && (forall i :: 0 <= i < |t.evidence| && Legacy(t.evidence[i]) ==> !HashedOver(t.evidence[i].eventHash, NewId("task", uuid(0))))
  }

  ghost predicate HashedOver(h: Hash, taskId: string) {
    exists o: int, k: string, c: Hash, s: Value, p: Option<Hash> :: WellFormed(s) && h == EventHash(taskId, o, k, c, s, p)
  }

  lemma NewIdInjective(prefix: string, u: string, v: string)
    ensures NewId(prefix, u) == NewId(prefix, v) ==> u == v
  {
    assert NewId(prefix, u)[|prefix| + 1..] == u && NewId(prefix, v)[|prefix| + 1..] == v;
  }

  // ----- payloads that can be stored -----

  predicate StorableStep(step: Value) {
    MakeStep(step, "", 0, "").Some?
  }

  predicate StorableItem(item: Value) {
    MakeRow("", 0, item, None, "", "").Some?
  }

  predicate StorableReference(item: Value) {
    MakeReference(item, "", "").Some?
  }

  // Every column of every row can be bound.
  ghost predicate Storable(payload: Value) {
    && payload.Obj?
    && MakeTask(payload, Sha256([]), "", Personal, Null, "", "").Some?
    && BindText(GetOr(payload, "process_summary", Null)).Some?
    && Steps(payload).Some? && (forall i :: 0 <= i < |Steps(payload).value| ==> StorableStep(Steps(payload).value[i]))
    && Items(payload).Some? && (forall i :: 0 <= i < |Items(payload).value| ==> StorableItem(Items(payload).value[i]))
    && References(payload).Some?
    && (forall i :: 0 <= i < |References(payload).value| ==> StorableReference(References(payload).value[i]))
  }

  lemma StorableTask(payload: Value, hash: Hash, committedAt: string, mode: Mode, authorization: Value, id: string, now: string)
    ensures MakeTask(payload, hash, committedAt, mode, authorization, id, now).Some?
       <==> MakeTask(payload, Sha256([]), "", Personal, Null, "", "").Some?
  {
    hide CanonicalText.CanonicalJson, ContextRefHash, BindText, OrEmpty, SignatureOf;
  }

  lemma StorableStepRow(step: Value, pathId: string, ordinal: int, id: string)
    ensures MakeStep(step, pathId, ordinal, id).Some? <==> StorableStep(step)
    ensures MakeStep(step, pathId, ordinal, id).Some? ==>
              var r := MakeStep(step, pathId, ordinal, id).value; r.id == id && r.pathId == pathId && r.ordinal == ordinal
  {
    hide CanonicalText.CanonicalJson, BindText, BindNumber, OrEmpty;
  }

  lemma StorableReferenceRow(item: Value, taskId: string, id: string)
    ensures MakeReference(item, taskId, id).Some? <==> StorableReference(item)
    ensures MakeReference(item, taskId, id).Some? ==>
              MakeReference(item, taskId, id).value.id == id && MakeReference(item, taskId, id).value.taskId == taskId
  {
    hide CanonicalText.CanonicalJson, BindText, BindNotNull, Digests.Digest;
  }

  lemma NoStepWithoutDict(s: Value)
    ensures StorableStep(s) ==> s.Obj?
    ensures StorableItem(s) ==> s.Obj?
    ensures StorableReference(s) ==> s.Obj?
  {
    hide CanonicalText.CanonicalJson, BindText, BindNumber, Digests.Digest;
  }

  // What a loop visits after sorting the keys: the same items, sorted.
  lemma ElementsCanon(v: Value)
    requires Elements(v).Some? && forall i :: 0 <= i < |Elements(v).value| ==> Elements(v).value[i].Obj?
    ensures Elements(Canon(v)).Some? && |Elements(Canon(v)).value| == |Elements(v).value|
    ensures forall i :: 0 <= i < |Elements(v).value| ==> Elements(Canon(v)).value[i] == Canon(Elements(v).value[i])
  {
    FirstElement(v);
    CanonNull();
    if v.Arr? { assert Elements(Canon(v)).value == Canon(v).items; }
  }

  // Looping over anything but a list visits strings.
  lemma FirstElement(v: Value)
    ensures Elements(v).Some? && !v.Arr? && Elements(v).value != [] ==> Elements(v).value[0].Str?
  {
  }

  lemma StorableRow(taskId: string, ordinal: int, item: Value, previous: Option<Hash>, eventId: string, now: string)
    ensures MakeRow(taskId, ordinal, item, previous, eventId, now).Some? <==> StorableItem(item)
  {
    hide CanonicalEvidence, EventHash, BindText;
  }

  // ----- the loops do not collide -----

  ghost predicate StepDraw(r: StepRow, k: nat, uuid: Uuids) {
    r.id == NewId("step", uuid(3 + k)) && r.ordinal == k + 1
  }

  ghost predicate OwnStep(r: StepRow, i: nat, uuid: Uuids) {
    exists k: nat :: k < i && StepDraw(r, k, uuid)
  }

  // Rows from position n on are the path's own, numbered 1..i.
  ghost predicate StepsSoFar(t: Tables, n: nat, pathId: string, i: nat, uuid: Uuids) {
    && n <= |t.steps|
    && (forall j, k: nat :: 0 <= j < n ==> t.steps[j].id != NewId("step", uuid(k)) && t.steps[j].pathId != pathId)
    && (forall j :: n <= j < |t.steps| ==> OwnStep(t.steps[j], i, uuid))
  }

  lemma {:induction false} StepsFit(t: Tables, n: nat, pathId: string, steps: seq<Value>, i: nat, uuid: Uuids)
    requires i <= |steps| && HasPath(t, pathId) && StepsSoFar(t, n, pathId, i, uuid)
    requires forall j :: 0 <= j < |steps| ==> StorableStep(steps[j])
    requires forall a: nat, b: nat :: a != b ==> uuid(a) != uuid(b)
    ensures InsertSteps(t, pathId, steps, i, uuid).Ok?
    decreases |steps| - i
  {
    hide MakeStep, StorableStep, HasPath;
    if i < |steps| {
      var id := NewId("step", uuid(3 + i));
      StorableStepRow(steps[i], pathId, i + 1, id);
      var row := MakeStep(steps[i], pathId, i + 1, id).value;
      forall j | 0 <= j < |t.steps|
        ensures t.steps[j].id != row.id && !(t.steps[j].pathId == pathId && t.steps[j].ordinal == i + 1)
      {
        if j >= n {
          assert OwnStep(t.steps[j], i, uuid);
          var k: nat :| k < i && StepDraw(t.steps[j], k, uuid);
          NewIdInjective("step", uuid(3 + k), uuid(3 + i));
        }
      }
      var t1 := t.(steps := t.steps + [row]);
      SamePath(t, t1, pathId);
      forall j | n <= j < |t1.steps|
        ensures OwnStep(t1.steps[j], i + 1, uuid)
      {
        if j < |t.steps| {
          assert OwnStep(t.steps[j], i, uuid);
          var k: nat :| k < i && StepDraw(t.steps[j], k, uuid);
          assert StepDraw(t1.steps[j], k, uuid);
        } else {
          assert StepDraw(t1.steps[j], i, uuid);
        }
      }
      StepsFit(t1, n, pathId, steps, i + 1, uuid);
    }
  }

  lemma SamePath(t: Tables, t1: Tables, pathId: string)
    requires t1.paths == t.paths
    ensures HasPath(t1, pathId) == HasPath(t, pathId)
  {
  }

  lemma SameTask(t: Tables, t1: Tables, taskId: string)
    requires t1.tasks == t.tasks
    ensures HasTask(t1, taskId) == HasTask(t, taskId)
  {
  }

  // The hash was taken over this task and ordinal.
  ghost predicate HashedAt(h: Hash, taskId: string, ordinal: int) {
    exists kind: string, c: Hash, s: Value, p: Option<Hash> :: WellFormed(s) && h == EventHash(taskId, ordinal, kind, c, s, p)
  }

  ghost predicate OwnEvent(r: EvidenceRow, taskId: string, i: nat, first: nat, uuid: Uuids) {
    exists k: nat :: k < i && r.eventId == NewId("event", uuid(first + 2 * k)) && r.ordinal == k + 1 && HashedAt(r.eventHash, taskId, k + 1)
  }

  ghost predicate OwnLink(l: LineageRow, i: nat, first: nat, uuid: Uuids) {
    exists k: nat :: k < i && l.id == NewId("lineage", uuid(first + 2 * k + 1))
  }

  ghost predicate EventsSoFar(t: Tables, n: nat, m: nat, taskId: string, i: nat, first: nat, uuid: Uuids) {
    && n <= |t.evidence| && m <= |t.lineage|
    && (forall j, k: nat :: 0 <= j < n ==> t.evidence[j].eventId != NewId("event", uuid(k)))
    && (forall j :: 0 <= j < n ==> t.evidence[j].taskId != taskId && !HashedOver(t.evidence[j].eventHash, taskId))
    && (forall j, k: nat :: 0 <= j < m ==> t.lineage[j].id != NewId("lineage", uuid(k)))
    && (forall j :: n <= j < |t.evidence| ==> OwnEvent(t.evidence[j], taskId, i, first, uuid))
    && (forall j :: m <= j < |t.lineage| ==> OwnLink(t.lineage[j], i, first, uuid))
  }

  lemma EventNames(t: string, o: int, k: string, c: Hash, s: Value, p: Option<Hash>,
                   t': string, o': int, k': string, c': Hash, s': Value, p': Option<Hash>)
    requires WellFormed(s) && WellFormed(s')
    ensures EventHash(t, o, k, c, s, p) == EventHash(t', o', k', c', s', p') ==> t == t' && o == o'
  {
    hide Digests.Digest, Evidence.Record;
    KeysDistinct();
    var vs, ws := EventValues(t, o, k, c, s, p), EventValues(t', o', k', c', s', p');
    RecordsIdentify(EVENT_KEYS, vs, ws);
    if AllSame(vs, ws) {
      assert Same(vs[0], ws[0]) && Same(vs[1], ws[1]);
    }
  }

  lemma HashedAtDiffers(h: Hash, g: Hash, taskId: string, o: int, o': int)
    requires HashedAt(h, taskId, o) && HashedAt(g, taskId, o') && o != o'
    ensures h != g
  {
    hide EventHash;
    var k, c, s, p :| WellFormed(s) && h == EventHash(taskId, o, k, c, s, p);
    var k', c', s', p' :| WellFormed(s') && g == EventHash(taskId, o', k', c', s', p');
    EventNames(taskId, o, k, c, s, p, taskId, o', k', c', s', p');
  }

  lemma HashedOverDiffers(h: Hash, taskId: string, other: string)
    requires HashedOver(h, other) && taskId != other
    ensures !HashedOver(h, taskId)
  {
    hide EventHash;
    var o, k, c, s, p :| WellFormed(s) && h == EventHash(other, o, k, c, s, p);
    if HashedOver(h, taskId) {
      var o', k', c', s', p' :| WellFormed(s') && h == EventHash(taskId, o', k', c', s', p');
      EventNames(other, o, k, c, s, p, taskId, o', k', c', s', p');
    }
  }

  lemma HashedAtIsOver(h: Hash, taskId: string, o: int)
    requires HashedAt(h, taskId, o)
    ensures HashedOver(h, taskId)
  {
    hide EventHash;
  }

  lemma MadeRowHash(taskId: string, ordinal: int, item: Value, previous: Option<Hash>, eventId: string, now: string)
    requires WellFormed(item) && MakeRow(taskId, ordinal, item, previous, eventId, now).Some?
    ensures var r := MakeRow(taskId, ordinal, item, previous, eventId, now).value;
            r.eventId == eventId && r.taskId == taskId && r.ordinal == ordinal && HashedAt(r.eventHash, taskId, ordinal)
  {
    hide EventHash, CanonicalEvidence, BindText;
    var c := CanonicalEvidence(item).value;
    StateWellFormed(item);
    assert MakeRow(taskId, ordinal, item, previous, eventId, now).value.eventHash ==
           EventHash(taskId, ordinal, c.kind, c.contentHash, c.state, previous);
  }

  lemma StateWellFormed(item: Value)
    requires WellFormed(item) && CanonicalEvidence(item).Some?
    ensures WellFormed(CanonicalEvidence(item).value.state)
  {
    GetWellFormed(item, "verification_state");
  }

  lemma {:induction false} EventsFit(t: Tables, n: nat, m: nat, taskId: string, processId: string, items: seq<Value>, i: nat,
                                     previous: Option<Hash>, first: nat, uuid: Uuids, now: string)
    requires i <= |items| && HasTask(t, taskId) && EventsSoFar(t, n, m, taskId, i, first, uuid)
    requires forall j :: 0 <= j < |items| ==> WellFormed(items[j]) && StorableItem(items[j])
    requires forall a: nat, b: nat :: a != b ==> uuid(a) != uuid(b)
    ensures InsertEvidence(t, taskId, processId, items, i, previous, first, uuid, now).Ok?
    decreases |items| - i
  {
    hide MakeRow, StorableItem, HasTask, HashedAt, HashedOver, WellFormed;
    if i < |items| {
      var id := NewId("event", uuid(first + 2 * i));
      StorableRow(taskId, i + 1, items[i], previous, id, now);
      MadeRowHash(taskId, i + 1, items[i], previous, id, now);
      var row := MakeRow(taskId, i + 1, items[i], previous, id, now).value;
      var link := LineageRow(NewId("lineage", uuid(first + 2 * i + 1)), processId, id);
      NextEventFits(t, n, m, taskId, i, first, uuid, row, link);
      var t1 := t.(evidence := t.evidence + [row], lineage := t.lineage + [link]);
      SameTask(t, t1, taskId);
      MoreEvents(t, n, m, taskId, i, first, uuid, row, link);
      EventsFit(t1, n, m, taskId, processId, items, i + 1, Some(row.eventHash), first, uuid, now);
    }
  }

  lemma NextEventFits(t: Tables, n: nat, m: nat, taskId: string, i: nat, first: nat, uuid: Uuids, row: EvidenceRow, link: LineageRow)
    requires HasTask(t, taskId) && EventsSoFar(t, n, m, taskId, i, first, uuid)
    requires forall a: nat, b: nat :: a != b ==> uuid(a) != uuid(b)
    requires row.eventId == NewId("event", uuid(first + 2 * i)) && row.taskId == taskId && row.ordinal == i + 1
    requires HashedAt(row.eventHash, taskId, i + 1) && link.id == NewId("lineage", uuid(first + 2 * i + 1))
    ensures EvidenceFits(t, row) && LineageFits(t, link)
  {
    hide HasTask, HashedAt, HashedOver;
    HashedAtIsOver(row.eventHash, taskId, i + 1);
    forall j | 0 <= j < |t.evidence|
      ensures t.evidence[j].eventId != row.eventId && t.evidence[j].eventHash != row.eventHash
      ensures !(t.evidence[j].taskId == row.taskId && t.evidence[j].ordinal == row.ordinal)
    {
      if j >= n {
        assert OwnEvent(t.evidence[j], taskId, i, first, uuid);
        var k: nat :| k < i && t.evidence[j].eventId == NewId("event", uuid(first + 2 * k)) && t.evidence[j].ordinal == k + 1
                      && HashedAt(t.evidence[j].eventHash, taskId, k + 1);
        NewIdInjective("event", uuid(first + 2 * k), uuid(first + 2 * i));
        HashedAtDiffers(t.evidence[j].eventHash, row.eventHash, taskId, k + 1, i + 1);
      }
    }
    forall j | 0 <= j < |t.lineage| ensures t.lineage[j].id != link.id {
      if j >= m {
        assert OwnLink(t.lineage[j], i, first, uuid);
        var k: nat :| k < i && t.lineage[j].id == NewId("lineage", uuid(first + 2 * k + 1));
        NewIdInjective("lineage", uuid(first + 2 * k + 1), uuid(first + 2 * i + 1));
      }
    }
  }

  lemma MoreEvents(t: Tables, n: nat, m: nat, taskId: string, i: nat, first: nat, uuid: Uuids, row: EvidenceRow, link: LineageRow)
    requires EventsSoFar(t, n, m, taskId, i, first, uuid)
    requires row.eventId == NewId("event", uuid(first + 2 * i)) && row.ordinal == i + 1 && HashedAt(row.eventHash, taskId, i + 1)
    requires link.id == NewId("lineage", uuid(first + 2 * i + 1))
    ensures EventsSoFar(t.(evidence := t.evidence + [row], lineage := t.lineage + [link]), n, m, taskId, i + 1, first, uuid)
  {
    hide HashedAt, HashedOver;
    var t1 := t.(evidence := t.evidence + [row], lineage := t.lineage + [link]);
    forall j | n <= j < |t1.evidence| ensures OwnEvent(t1.evidence[j], taskId, i + 1, first, uuid) {
      if j < |t.evidence| {
        assert OwnEvent(t.evidence[j], taskId, i, first, uuid);
      }
    }
    forall j | m <= j < |t1.lineage| ensures OwnLink(t1.lineage[j], i + 1, first, uuid) {
      if j < |t.lineage| {
        assert OwnLink(t.lineage[j], i, first, uuid);
      }
    }
  }

  // Rows from position n on are the call's own references.
  ghost predicate ReferenceDraw(r: ReferenceRow, k: nat, first: nat, uuid: Uuids) {
    r.id == NewId("ref", uuid(first + k))
  }

  ghost predicate OwnReference(r: ReferenceRow, i: nat, first: nat, uuid: Uuids) {
    exists k: nat :: k < i && ReferenceDraw(r, k, first, uuid)
  }

  ghost predicate ReferencesSoFar(t: Tables, n: nat, i: nat, first: nat, uuid: Uuids) {
    && n <= |t.references|
    && (forall j, k: nat :: 0 <= j < n ==> t.references[j].id != NewId("ref", uuid(k)))
    && (forall j :: n <= j < |t.references| ==> OwnReference(t.references[j], i, first, uuid))
  }

  lemma {:induction false} ReferencesFit(t: Tables, n: nat, taskId: string, items: seq<Value>, i: nat, first: nat, uuid: Uuids)
    requires i <= |items| && HasTask(t, taskId) && ReferencesSoFar(t, n, i, first, uuid)
    requires forall j :: 0 <= j < |items| ==> StorableReference(items[j])
    requires forall a: nat, b: nat :: a != b ==> uuid(a) != uuid(b)
    ensures InsertReferences(t, taskId, items, i, first, uuid).Ok?
    decreases |items| - i
  {
    hide MakeReference, StorableReference, HasTask;
    if i < |items| {
      var id := NewId("ref", uuid(first + i));
      StorableReferenceRow(items[i], taskId, id);
      var row := MakeReference(items[i], taskId, id).value;
      forall j | 0 <= j < |t.references| ensures t.references[j].id != id {
        if j >= n {
          assert OwnReference(t.references[j], i, first, uuid);
          var k: nat :| k < i && ReferenceDraw(t.references[j], k, first, uuid);
          NewIdInjective("ref", uuid(first + k), uuid(first + i));
        }
      }
      var t1 := t.(references := t.references + [row]);
      SameTask(t, t1, taskId);
      forall j | n <= j < |t1.references| ensures OwnReference(t1.references[j], i + 1, first, uuid) {
        if j < |t.references| {
          assert OwnReference(t.references[j], i, first, uuid);
          var k: nat :| k < i && ReferenceDraw(t.references[j], k, first, uuid);
          assert ReferenceDraw(t1.references[j], k, first, uuid);
        } else {
          assert ReferenceDraw(t1.references[j], i, first, uuid);
        }
      }
      ReferencesFit(t1, n, taskId, items, i + 1, first, uuid);
    }
  }

  // ----- the insertion as a whole -----

  // No stored event was hashed over an id no task has.
  lemma NoEventHashedOver(t: Tables, uuid: Uuids)
    requires Inv(t) && Unused(t, uuid)
    ensures forall j :: 0 <= j < |t.evidence| ==>
              t.evidence[j].taskId != NewId("task", uuid(0)) && !HashedOver(t.evidence[j].eventHash, NewId("task", uuid(0)))
  {
    hide HashedOver, ClaimsMatch, Legacy, StoredPayload, BuiltFrom;
    var taskId := NewId("task", uuid(0));
    forall j | 0 <= j < |t.evidence|
      ensures t.evidence[j].taskId != taskId && !HashedOver(t.evidence[j].eventHash, taskId)
    {
      var row := t.evidence[j];
      assert HasTask(t, row.taskId);
      var i :| 0 <= i < |t.tasks| && t.tasks[i].id == row.taskId;
      assert TaskChain(t.tasks[i], ChainOf(t.evidence, row.taskId)) && StoredPayload(t.tasks[i].payloadJson, t.tasks[i].payloadHash);
      if !Legacy(row) {
        ChainMembers(t.evidence, row.taskId);
        assert row in ChainOf(t.evidence, row.taskId);
        BuiltRowHash(t.tasks[i], ChainOf(t.evidence, row.taskId), row);
        HashedOverDiffers(row.eventHash, taskId, row.taskId);
      }
    }
  }

  lemma BuiltRowHash(task: TaskRow, rows: seq<EvidenceRow>, row: EvidenceRow)
    requires StoredPayload(task.payloadJson, task.payloadHash) && TaskChain(task, rows) && row in rows && !Legacy(row)
    ensures HashedOver(row.eventHash, task.id)
  {
    hide MakeRow, WellFormed, Legacy, HashedAt, HashedOver, Items, CanonicalText.Loads, Digests.PayloadDigest;
    var i :| 0 <= i < |rows| && rows[i] == row;
    var items := StoredItems(task).value;
    Report.ItemsWellFormed(CanonicalText.Loads(task.payloadJson).value);
    assert Built(rows, i, task.id, items[i]);
    MadeRowHash(task.id, i + 1, items[i], Before(rows, i), row.eventId, row.createdAt);
    HashedAtIsOver(row.eventHash, task.id, i + 1);
  }

  lemma ParentsFit(t: Tables, task: TaskRow, uuid: Uuids)
    requires Inv(t) && Unused(t, uuid) && task.id == NewId("task", uuid(0))
    requires forall i :: 0 <= i < |t.tasks| ==> t.tasks[i].payloadHash != task.payloadHash
    requires task.session.Null? || forall i :: 0 <= i < |t.tasks| ==> t.tasks[i].session != task.session
    ensures TaskFits(t, task)
    ensures forall i :: 0 <= i < |t.processes| ==> t.processes[i].taskId != task.id
    ensures forall i :: 0 <= i < |t.paths| ==> t.paths[i].processId != NewId("process", uuid(1))
    ensures forall i :: 0 <= i < |t.steps| ==> t.steps[i].pathId != NewId("path", uuid(2))
  {
    hide PayloadsStored, ClaimsMatch, ChainsBuilt;
    assert !HasTask(t, task.id);
    assert !HasProcess(t, NewId("process", uuid(1)));
    assert !HasPath(t, NewId("path", uuid(2)));
  }

  // Unused identifiers and new content: nothing can stop a payload that can be
  // stored.
  lemma FreshInsertSucceeds(t: Tables, payload: Value, hash: Hash, committedAt: string, mode: Mode, authorization: Value,
                            uuid: Uuids, now: string)
    requires Inv(t) && Unused(t, uuid) && WellFormed(payload) && Storable(payload)
    requires forall i :: 0 <= i < |t.tasks| ==> t.tasks[i].payloadHash != hash
    requires var session := BindText(GetOr(payload, Digests.SESSION, Null));
             session.Some? && (session.value.Null? || forall i :: 0 <= i < |t.tasks| ==> t.tasks[i].session != session.value)
    ensures InsertFresh(t, payload, hash, committedAt, mode, authorization, uuid, now).Ok?
  {
    hide Inv, Unused, MakeTask, Storable, WellFormed, BindText, CanonicalText.CanonicalJson, HashedOver, TaskFits, Steps, Items, References,
         InsertSteps, InsertEvidence, InsertReferences, ProcessFits, PathFits, HasTask, HasPath;
    var taskId, processId, pathId := NewId("task", uuid(0)), NewId("process", uuid(1)), NewId("path", uuid(2));
    StorableParts(payload);
    StorableTask(payload, hash, committedAt, mode, authorization, taskId, now);
    MadeTask(payload, hash, committedAt, mode, authorization, taskId, now);
    var task := MakeTask(payload, hash, committedAt, mode, authorization, taskId, now).value;
    ParentsFit(t, task, uuid);
    NoEventHashedOver(t, uuid);
    var process := ProcessRow(processId, taskId, BindText(GetOr(payload, "process_summary", Null)).value,
                              CanonicalText.CanonicalJson(GetOr(payload, "prerequisites", Arr([]))));
    var path := PathRow(pathId, processId, task.signature, task.adoption);
    UnusedParts(t, uuid);
    var t3 := WithParents(t, task, process, path);
    LoopsSucceed(t, t3, payload, uuid, now);
  }

  lemma StorableParts(payload: Value)
    requires Storable(payload)
    ensures Steps(payload).Some? && Items(payload).Some? && References(payload).Some? && BindText(GetOr(payload, "process_summary", Null)).Some?
    ensures MakeTask(payload, Sha256([]), "", Personal, Null, "", "").Some?
  {
    hide MakeTask, BindText, StorableStep, StorableItem, StorableReference;
  }

  // Once the parents are in, no loop can be stopped.
  lemma LoopsSucceed(t: Tables, t3: Tables, payload: Value, uuid: Uuids, now: string)
    requires Unused(t, uuid) && WellFormed(payload) && Storable(payload) && HasTask(t3, NewId("task", uuid(0))) && HasPath(t3, NewId("path", uuid(2)))
    requires t3.steps == t.steps && t3.evidence == t.evidence && t3.lineage == t.lineage && t3.references == t.references
    requires forall i :: 0 <= i < |t.steps| ==> t.steps[i].pathId != NewId("path", uuid(2))
    requires forall j :: 0 <= j < |t.evidence| ==>
               t.evidence[j].taskId != NewId("task", uuid(0)) && !HashedOver(t.evidence[j].eventHash, NewId("task", uuid(0)))
    ensures var steps, items, references := Steps(payload), Items(payload), References(payload);
            && steps.Some? && items.Some? && references.Some?
            && var t4 := InsertSteps(t3, NewId("path", uuid(2)), steps.value, 0, uuid);
            && t4.Ok?
            && var t5 := InsertEvidence(t4.value, NewId("task", uuid(0)), NewId("process", uuid(1)), items.value, 0, None,
                                      3 + |steps.value|, uuid, now);
            && t5.Ok?
            && InsertReferences(t5.value, NewId("task", uuid(0)), references.value, 0, 3 + |steps.value| + 2 * |items.value|, uuid).Ok?
  {
    hide Unused, MakeTask, StorableStep, StorableItem, StorableReference, WellFormed, BindText, HashedOver,
         InsertSteps, InsertEvidence, InsertReferences, HasTask, HasPath;
    var taskId, processId, pathId := NewId("task", uuid(0)), NewId("process", uuid(1)), NewId("path", uuid(2));
    UnusedParts(t, uuid);
    var steps, items := Steps(payload).value, Items(payload).value;
    Report.ItemsWellFormed(payload);
    StepsFit(t3, |t.steps|, pathId, steps, 0, uuid);
    StepsInserted(t3, pathId, steps, 0, uuid);
    var t4 := InsertSteps(t3, pathId, steps, 0, uuid).value;
    StepsOnly(t3, t4, pathId, steps, uuid);
    SameTask(t3, t4, taskId);
    EventsFit(t4, |t.evidence|, |t.lineage|, taskId, processId, items, 0, None, 3 + |steps|, uuid, now);
    var t5 := InsertEvidence(t4, taskId, processId, items, 0, None, 3 + |steps|, uuid, now).value;
    EvidenceInserted(t4, taskId, processId, items, 0, None, 3 + |steps|, uuid, now);
    EvidenceOnly(t4, t5, taskId, processId, items, 3 + |steps|, uuid, now);
    SameTask(t4, t5, taskId);
    ReferencesFit(t5, |t.references|, taskId, References(payload).value, 0, 3 + |steps| + 2 * |items|, uuid);
  }

  lemma InsertedIsStorable(t: Tables, payload: Value, hash: Hash, committedAt: string, mode: Mode, authorization: Value,
                           uuid: Uuids, now: string)
    requires InsertFresh(t, payload, hash, committedAt, mode, authorization, uuid, now).Ok?
    ensures Storable(payload)
  {
    hide InsertFresh, MakeTask, StorableStep, StorableItem, StorableReference, BindText, TaskFits, Constraints, MakeRow, MakeStep,
         MakeReference, Get, EventAt;
    FreshInserted(t, payload, hash, committedAt, mode, authorization, uuid, now);
    StorableTask(payload, hash, committedAt, mode, authorization, NewId("task", uuid(0)), now);
    TaskNeedsDict(payload);
    var t' := InsertFresh(t, payload, hash, committedAt, mode, authorization, uuid, now).value.tables;
    var steps, items := Steps(payload).value, Items(payload).value;
    forall i | 0 <= i < |steps| ensures StorableStep(steps[i]) {
      assert MakeStep(steps[i], NewId("path", uuid(2)), i + 1, NewId("step", uuid(3 + i))).Some?;
      StorableStepRow(steps[i], NewId("path", uuid(2)), i + 1, NewId("step", uuid(3 + i)));
    }
    var refs := References(payload).value;
    forall i | 0 <= i < |refs| ensures StorableReference(refs[i]) {
      var id := NewId("ref", uuid(3 + |steps| + 2 * |items| + i));
      assert MakeReference(refs[i], NewId("task", uuid(0)), id).Some?;
      StorableReferenceRow(refs[i], NewId("task", uuid(0)), id);
    }
    AddedEvents(t, t', payload, hash, committedAt, mode, authorization, uuid, now);
  }

  lemma AddedEvents(t: Tables, t': Tables, payload: Value, hash: Hash, committedAt: string, mode: Mode, authorization: Value,
                    uuid: Uuids, now: string)
    requires FreshAdded(t, t', payload, hash, committedAt, mode, authorization, uuid, now)
    ensures forall i :: 0 <= i < |Items(payload).value| ==> StorableItem(Items(payload).value[i])
  {
    hide MakeTask, StorableItem, BindText, TaskFits, MakeRow, StepsAdded, ReferencesAdded, Get, EventAt;
    var t4 := t'.(references := t.references);
    var steps, items := Steps(payload).value, Items(payload).value;
    forall i | 0 <= i < |items| ensures StorableItem(items[i]) {
      var previous := if i == 0 then None else Some(t'.evidence[|t.evidence| + i - 1].eventHash);
      assert EventAt(t4, |t.evidence| + i, |t.lineage| + i, NewId("task", uuid(0)), NewId("process", uuid(1)), items[i], i, previous,
                     3 + |steps|, uuid, now);
      EventMade(t4, |t.evidence| + i, |t.lineage| + i, NewId("task", uuid(0)), NewId("process", uuid(1)), items[i], i, previous,
                3 + |steps|, uuid, now);
    }
  }

  lemma TaskNeedsDict(payload: Value)
    requires MakeTask(payload, Sha256([]), "", Personal, Null, "", "").Some?
    ensures payload.Obj?
  {
    hide CanonicalText.CanonicalJson, BindText, SignatureOf;
  }

  lemma EventMade(t: Tables, e: int, l: int, taskId: string, processId: string, item: Value, j: nat, previous: Option<Hash>,
                  first: nat, uuid: Uuids, now: string)
    requires EventAt(t, e, l, taskId, processId, item, j, previous, first, uuid, now)
    ensures StorableItem(item)
  {
    hide MakeRow, StorableItem;
    StorableRow(taskId, j + 1, item, previous, NewId("event", uuid(first + 2 * j)), now);
  }

  // With unused identifiers and new content, an insertion goes through exactly
  // when every column of every row can be bound.
  lemma FreshInsertIff(t: Tables, payload: Value, hash: Hash, committedAt: string, mode: Mode, authorization: Value,
                       uuid: Uuids, now: string)
    requires Inv(t) && Unused(t, uuid) && WellFormed(payload)
    requires forall i :: 0 <= i < |t.tasks| ==> t.tasks[i].payloadHash != hash
    requires var session := BindText(GetOr(payload, Digests.SESSION, Null));
             session.Some? && (session.value.Null? || forall i :: 0 <= i < |t.tasks| ==> t.tasks[i].session != session.value)
    ensures InsertFresh(t, payload, hash, committedAt, mode, authorization, uuid, now).Ok? <==> Storable(payload)
  {
    hide Inv, Unused, InsertFresh, Storable, BindText, WellFormed;
    if Storable(payload) { FreshInsertSucceeds(t, payload, hash, committedAt, mode, authorization, uuid, now); }
    if InsertFresh(t, payload, hash, committedAt, mode, authorization, uuid, now).Ok? {
      InsertedIsStorable(t, payload, hash, committedAt, mode, authorization, uuid, now);
    }
  }

  lemma WithParents(t: Tables, task: TaskRow, process: ProcessRow, path: PathRow) returns (t3: Tables)
    requires process.taskId == task.id && path.processId == process.id
    requires forall i :: 0 <= i < |t.processes| ==> t.processes[i].id != process.id && t.processes[i].taskId != task.id
    requires forall i :: 0 <= i < |t.paths| ==> t.paths[i].id != path.id
    ensures var t1 := t.(tasks := t.tasks + [task]);
            var t2 := t1.(processes := t1.processes + [process]);
            t3 == t2.(paths := t2.paths + [path]) && ProcessFits(t1, process) && PathFits(t2, path)
    ensures HasTask(t3, task.id) && HasPath(t3, path.id)
  {
    var t1 := t.(tasks := t.tasks + [task]);
    var t2 := t1.(processes := t1.processes + [process]);
    t3 := t2.(paths := t2.paths + [path]);
    assert t1.tasks[|t.tasks|] == task && t2.processes[|t.processes|] == process && t3.paths[|t.paths|] == path;
    assert t3.tasks[|t.tasks|] == task;
  }

  lemma UnusedParts(t: Tables, uuid: Uuids)
    requires Unused(t, uuid)
    ensures forall i: nat, j: nat :: i != j ==> uuid(i) != uuid(j)
    ensures forall i :: 0 <= i < |t.processes| ==> t.processes[i].id != NewId("process", uuid(1))
    ensures forall i :: 0 <= i < |t.paths| ==> t.paths[i].id != NewId("path", uuid(2))
    ensures forall i, k: nat :: 0 <= i < |t.steps| ==> t.steps[i].id != NewId("step", uuid(k))
    ensures forall i, k: nat :: 0 <= i < |t.evidence| ==> t.evidence[i].eventId != NewId("event", uuid(k))
    ensures forall i, k: nat :: 0 <= i < |t.lineage| ==> t.lineage[i].id != NewId("lineage", uuid(k))
    ensures forall i, k: nat :: 0 <= i < |t.references| ==> t.references[i].id != NewId("ref", uuid(k))
  {
  }
}
