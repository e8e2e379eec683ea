// verify_evidence_chains over the whole evidence table: totals, and exactly
// when a reachable store verifies.
module Report {
  import opened Wrappers
  import opened Json
  import opened CanonicalText
  import opened Evidence
  import opened Chain
  import opened Selection
  import opened Schema
  import opened Transactions
  import opened Invariant

  function AddTally(a: Tally, b: Tally): Tally {
    Tally(a.checked + b.checked, a.legacy + b.legacy, a.failed + b.failed)
  }

  // The counters after the first n task ids.
  function VerifyIds(evidence: seq<EvidenceRow>, ids: seq<string>, n: nat): Option<Tally>
    requires n <= |ids|
  {
    if n == 0 then Some(NO_TALLY)
    else
      var rows := ChainOf(evidence, ids[n - 1]);
      match (VerifyIds(evidence, ids, n - 1), Verify(rows, |rows|))
      case (Some(a), Some(b)) => Some(AddTally(a, b))
      case _ => None
  }

  function VerifyTables(evidence: seq<EvidenceRow>): Option<Tally> {
    VerifyIds(evidence, TaskIds(evidence), |TaskIds(evidence)|)
  }

  // ----- counting -----

  function CountLegacy(rows: seq<EvidenceRow>): nat {
    if rows == [] then 0 else CountLegacy(rows[..|rows| - 1]) + if Legacy(rows[|rows| - 1]) then 1 else 0
  }

  lemma {:induction false} CountInsert(rows: seq<EvidenceRow>, row: EvidenceRow)
    ensures CountLegacy(InsertRow(rows, row)) == CountLegacy(rows) + if Legacy(row) then 1 else 0
    ensures |InsertRow(rows, row)| == |rows| + 1
  {
    var r := InsertRow(rows, row);
    if rows == [] || rows[|rows| - 1].ordinal <= row.ordinal {
      assert r[..|r| - 1] == rows;
    } else {
      CountInsert(rows[..|rows| - 1], row);
      assert r[..|r| - 1] == InsertRow(rows[..|rows| - 1], row);
    }
  }

  lemma {:induction false} CountSorted(rows: seq<EvidenceRow>)
    ensures CountLegacy(SortRows(rows)) == CountLegacy(rows) && |SortRows(rows)| == |rows|
  {
    if rows != [] {
      CountSorted(rows[..|rows| - 1]);
      CountInsert(SortRows(rows[..|rows| - 1]), rows[|rows| - 1]);
    }
  }

  // Legacy and all rows, summed over the chains of the first n ids.
  function SumLegacy(evidence: seq<EvidenceRow>, ids: seq<string>, n: nat): nat
    requires n <= |ids|
  {
    if n == 0 then 0 else SumLegacy(evidence, ids, n - 1) + CountLegacy(Select(evidence, ids[n - 1]))
  }

  function SumRows(evidence: seq<EvidenceRow>, ids: seq<string>, n: nat): nat
    requires n <= |ids|
  {
    if n == 0 then 0 else SumRows(evidence, ids, n - 1) + |Select(evidence, ids[n - 1])|
  }

  // The last row is counted under its own id only.
  lemma {:induction false} SumsOfLast(evidence: seq<EvidenceRow>, ids: seq<string>, n: nat, k: nat)
    requires evidence != [] && n <= |ids| && k < |ids| && ids[k] == evidence[|evidence| - 1].taskId
    requires forall i, j :: 0 <= i < j < |ids| ==> ids[i] != ids[j]
    ensures var init := evidence[..|evidence| - 1];
            && SumLegacy(evidence, ids, n) ==
               SumLegacy(init, ids, n) + (if k < n && Legacy(evidence[|evidence| - 1]) then 1 else 0)
            && SumRows(evidence, ids, n) == SumRows(init, ids, n) + (if k < n then 1 else 0)
  {
    hide Select, CountLegacy, Legacy;
    if n > 0 {
      SumsOfLast(evidence, ids, n - 1, k);
      SelectLast(evidence, ids[n - 1]);
    }
  }

  lemma SelectLast(evidence: seq<EvidenceRow>, id: string)
    requires evidence != []
    ensures var init, last := evidence[..|evidence| - 1], evidence[|evidence| - 1];
            && |Select(evidence, id)| == |Select(init, id)| + (if last.taskId == id then 1 else 0)
            && CountLegacy(Select(evidence, id)) ==
               CountLegacy(Select(init, id)) + (if last.taskId == id && Legacy(last) then 1 else 0)
  {
    var s := Select(evidence, id);
    if evidence[|evidence| - 1].taskId == id {
      assert s[..|s| - 1] == Select(evidence[..|evidence| - 1], id);
    } else {
      assert s == Select(evidence[..|evidence| - 1], id);
    }
  }

  lemma {:induction false} SumsCover(evidence: seq<EvidenceRow>, ids: seq<string>)
    requires forall i, j :: 0 <= i < j < |ids| ==> ids[i] != ids[j]
    requires forall i :: 0 <= i < |evidence| ==> evidence[i].taskId in ids
    ensures SumLegacy(evidence, ids, |ids|) == CountLegacy(evidence) && SumRows(evidence, ids, |ids|) == |evidence|
    decreases |evidence|
  {
    if evidence == [] {
      SumsOfNothing(ids, |ids|);
    } else {
      var last := evidence[|evidence| - 1];
      assert last.taskId in ids;
      var k :| 0 <= k < |ids| && ids[k] == last.taskId;
      SumsCover(evidence[..|evidence| - 1], ids);
      SumsOfLast(evidence, ids, |ids|, k);
    }
  }

  lemma {:induction false} SumsOfNothing(ids: seq<string>, n: nat)
    requires n <= |ids|
    ensures SumLegacy([], ids, n) == 0 && SumRows([], ids, n) == 0
  {
    if n > 0 { SumsOfNothing(ids, n - 1); }
  }

  // Whenever verification does not raise, it counts every row exactly once: as
  // legacy or as checked.
  lemma {:induction false} ChainCounts(rows: seq<EvidenceRow>, n: nat)
    requires n <= |rows|
    ensures Verify(rows, n).Some? ==> Verify(rows, n).value.legacy == CountLegacy(rows[..n])
    ensures Verify(rows, n).Some? ==> Verify(rows, n).value.checked + Verify(rows, n).value.legacy == n
  {
    hide Checkable, Link;
    if n > 0 {
      ChainCounts(rows, n - 1);
      assert rows[..n][..n - 1] == rows[..n - 1];
    }
  }

  lemma {:induction false} IdCounts(evidence: seq<EvidenceRow>, ids: seq<string>, n: nat)
    requires n <= |ids|
    ensures VerifyIds(evidence, ids, n).Some? ==> VerifyIds(evidence, ids, n).value.legacy == SumLegacy(evidence, ids, n)
    ensures VerifyIds(evidence, ids, n).Some? ==>
              VerifyIds(evidence, ids, n).value.checked + VerifyIds(evidence, ids, n).value.legacy == SumRows(evidence, ids, n)
  {
    hide Verify;
    if n > 0 {
      IdCounts(evidence, ids, n - 1);
      var rows := ChainOf(evidence, ids[n - 1]);
      ChainCounts(rows, |rows|);
      assert rows[..|rows|] == rows;
      CountSorted(Select(evidence, ids[n - 1]));
    }
  }

  lemma VerifyCounts(evidence: seq<EvidenceRow>)
    ensures VerifyTables(evidence).Some? ==> VerifyTables(evidence).value.legacy == CountLegacy(evidence)
    ensures VerifyTables(evidence).Some? ==> VerifyTables(evidence).value.checked == |evidence| - CountLegacy(evidence)
  {
    var ids := TaskIds(evidence);
    TaskIdsAscending(evidence);
    AscendingDistinct(ids);
    TaskIdsMembers(evidence);
    forall i | 0 <= i < |evidence| ensures evidence[i].taskId in ids {
      assert Mentions(evidence, evidence[i].taskId);
    }
    IdCounts(evidence, ids, |ids|);
    SumsCover(evidence, ids);
  }

  // ----- the chains of a reachable store -----

  predicate Reported(rows: seq<EvidenceRow>, i: nat)
    requires i < |rows|
  {
    !Legacy(rows[i]) && !Link(rows, i)
  }

  ghost predicate Checked(rows: seq<EvidenceRow>) {
    forall i :: 0 <= i < |rows| ==> Legacy(rows[i]) || Checkable(rows[i])
  }

  // The failures of a chain are its broken non-legacy links.
  lemma {:induction false} ChainFailures(rows: seq<EvidenceRow>, n: nat)
    requires n <= |rows| && Checked(rows)
    ensures Verify(rows, n).Some?
    ensures forall e :: e in Verify(rows, n).value.failed <==> exists i :: 0 <= i < n && Reported(rows, i) && rows[i].eventId == e
  {
    hide Checkable, Link;
    if n > 0 { ChainFailures(rows, n - 1); }
  }

  ghost predicate TextualAt(task: TaskRow, i: nat) {
    StoredItems(task).Some? && i < |StoredItems(task).value| && TextItem(StoredItems(task).value[i])
  }

  lemma BuiltLinks(task: TaskRow, rows: seq<EvidenceRow>)
    requires StoredPayload(task.payloadJson, task.payloadHash) && TaskChain(task, rows)
    ensures Checked(rows)
    ensures forall i :: 0 <= i < |rows| ==> (Reported(rows, i) <==> !Legacy(rows[i]) && !TextualAt(task, i))
  {
    hide Checkable, Legacy, TextItem, Intact, Loads, WellFormed;
    if !AllLegacy(rows) {
      var items := StoredItems(task).value;
      ItemsWellFormed(Loads(task.payloadJson).value);
      forall i | 0 <= i < |rows| ensures Checkable(rows[i]) && (Link(rows, i) <==> TextItem(items[i])) {
        assert Built(rows, i, task.id, items[i]);
        BuiltLink(rows, i, task.id, items[i]);
      }
    }
  }

  lemma ItemsWellFormed(payload: Value)
    requires WellFormed(payload) && Items(payload).Some?
    ensures forall i :: 0 <= i < |Items(payload).value| ==> WellFormed(Items(payload).value[i])
  {
    GetWellFormed(payload, "evidence");
  }

  lemma BuiltLink(rows: seq<EvidenceRow>, i: nat, taskId: string, item: Value)
    requires i < |rows| && WellFormed(item) && Built(rows, i, taskId, item)
    ensures Checkable(rows[i]) && (Link(rows, i) <==> TextItem(item))
  {
    hide MakeRow, Checkable, TextItem, Intact;
    MadeRowIds(taskId, i + 1, item, Before(rows, i), rows[i].eventId, rows[i].createdAt);
    InsertedRowSound(item, rows[i]);
  }

  // ----- the main results -----

  ghost predicate FailedAt(t: Tables, i: nat, j: nat)
    requires i < |t.tasks| && j < |ChainOf(t.evidence, t.tasks[i].id)|
  {
    !Legacy(ChainOf(t.evidence, t.tasks[i].id)[j]) && !TextualAt(t.tasks[i], j)
  }

  // Every item behind a non-legacy row was textual.
  ghost predicate TextualStore(t: Tables) {
    forall i, j :: 0 <= i < |t.tasks| && 0 <= j < |ChainOf(t.evidence, t.tasks[i].id)| ==> !FailedAt(t, i, j)
  }

  lemma {:induction false} IdsVerify(t: Tables, ids: seq<string>, n: nat)
    requires Inv(t) && n <= |ids| && forall k :: 0 <= k < |ids| ==> HasTask(t, ids[k])
    ensures VerifyIds(t.evidence, ids, n).Some?
    ensures TextualStore(t) ==> VerifyIds(t.evidence, ids, n).value.failed == []
    ensures forall k :: 0 <= k < n ==> ChainFailuresIncluded(t, ids[k], VerifyIds(t.evidence, ids, n).value.failed)
  {
    hide Inv, Verify, TextualStore, ChainFailuresIncluded, ChainOf, HasTask;
    if n > 0 {
      IdsVerify(t, ids, n - 1);
      ChainVerifies(t, ids[n - 1]);
      var a := VerifyIds(t.evidence, ids, n - 1).value.failed;
      var rows := ChainOf(t.evidence, ids[n - 1]);
      var b := Verify(rows, |rows|).value.failed;
      assert a + b + [] == a + b && [] + a + b == a + b;
      forall k | 0 <= k < n - 1 ensures ChainFailuresIncluded(t, ids[k], a + b) { IncludedInMore(t, ids[k], a, [], b); }
      IncludedInMore(t, ids[n - 1], b, a, []);
    }
  }

  // Every event of the task whose item was not textual is in the list.
  ghost predicate ChainFailuresIncluded(t: Tables, taskId: string, failed: seq<string>) {
    forall i, j :: 0 <= i < |t.tasks| && t.tasks[i].id == taskId && 0 <= j < |ChainOf(t.evidence, taskId)| && FailedAt(t, i, j) ==>
      ChainOf(t.evidence, taskId)[j].eventId in failed
  }

  lemma IncludedInMore(t: Tables, taskId: string, failed: seq<string>, before: seq<string>, after: seq<string>)
    requires ChainFailuresIncluded(t, taskId, failed)
    ensures ChainFailuresIncluded(t, taskId, before + failed + after)
  {
    hide FailedAt;
  }

  lemma ChainVerifies(t: Tables, taskId: string)
    requires Inv(t) && HasTask(t, taskId)
    ensures var rows := ChainOf(t.evidence, taskId);
            && Verify(rows, |rows|).Some?
            && (TextualStore(t) ==> Verify(rows, |rows|).value.failed == [])
            && ChainFailuresIncluded(t, taskId, Verify(rows, |rows|).value.failed)
  {
    hide Constraints, ClaimsMatch, Verify, TaskChain, StoredPayload, Checked, Legacy, TextualAt, Reported;
    var k :| 0 <= k < |t.tasks| && t.tasks[k].id == taskId;
    var rows := ChainOf(t.evidence, taskId);
    BuiltLinks(t.tasks[k], rows);
    ChainFailures(rows, |rows|);
    TasksDiffer(t);
    var failed := Verify(rows, |rows|).value.failed;
    if TextualStore(t) {
      forall i | 0 <= i < |rows| ensures !Reported(rows, i) {
        assert !FailedAt(t, k, i);
      }
      NonemptyHasMember(failed);
    }
  }

  lemma NonemptyHasMember(ids: seq<string>)
    ensures ids == [] || exists e :: e in ids
  {
    assert ids == [] || ids[0] in ids;
  }

  lemma TasksDiffer(t: Tables)
    requires Inv(t)
    ensures forall i, j :: 0 <= i < |t.tasks| && 0 <= j < |t.tasks| && t.tasks[i].id == t.tasks[j].id ==> i == j
  {
  }

  // In every reachable store verification finishes, counts each non-legacy row
  // as checked and each legacy row as legacy, and reports no failure exactly
  // when every stored evidence item was textual.
  lemma VerificationComplete(t: Tables)
    requires Inv(t)
    ensures VerifyTables(t.evidence).Some?
    ensures VerifyTables(t.evidence).value.legacy == CountLegacy(t.evidence)
    ensures VerifyTables(t.evidence).value.checked == |t.evidence| - CountLegacy(t.evidence)
    ensures VerifyTables(t.evidence).value.failed == [] <==> TextualStore(t)
  {
    hide Inv, VerifyIds, TextualStore, FailedAt;
    var ids := TaskIds(t.evidence);
    VerifyCounts(t.evidence);
    EvidenceHasTask(t);
    IdsVerify(t, ids, |ids|);
    if VerifyTables(t.evidence).value.failed == [] {
      NoFailuresIsTextual(t, ids);
    }
  }

  lemma EvidenceHasTask(t: Tables)
    requires Inv(t)
    ensures forall k :: 0 <= k < |TaskIds(t.evidence)| ==> HasTask(t, TaskIds(t.evidence)[k])
  {
    hide ClaimsMatch, PayloadsStored, ChainsBuilt;
    TaskIdsMembers(t.evidence);
    var ids := TaskIds(t.evidence);
    forall k | 0 <= k < |ids| ensures HasTask(t, ids[k]) {
      assert ids[k] in ids;
      var i :| 0 <= i < |t.evidence| && t.evidence[i].taskId == ids[k];
    }
  }

  lemma NoFailuresIsTextual(t: Tables, ids: seq<string>)
    requires ids == TaskIds(t.evidence)
    requires forall k :: 0 <= k < |ids| ==> ChainFailuresIncluded(t, ids[k], [])
    ensures TextualStore(t)
  {
    hide FailedAt;
    TaskIdsMembers(t.evidence);
    forall i, j | 0 <= i < |t.tasks| && 0 <= j < |ChainOf(t.evidence, t.tasks[i].id)| ensures !FailedAt(t, i, j) {
      var id := t.tasks[i].id;
      ChainMembers(t.evidence, id);
      var row := ChainOf(t.evidence, id)[j];
      assert row in ChainOf(t.evidence, id);
      var m :| 0 <= m < |t.evidence| && t.evidence[m] == row;
      assert Mentions(t.evidence, id);
      assert id in ids;
      var k :| 0 <= k < |ids| && ids[k] == id;
      assert ChainFailuresIncluded(t, ids[k], []);
    }
  }
}
