// Tampering seen through the whole report: editing one row of the evidence table
// of a verified store, or deleting one, changes the report at exactly one event.
module Tamper {
  import opened Wrappers
  import opened Json
  import opened Evidence
  import opened Chain
  import opened Selection
  import opened Report
  import C = Canonical

  // ----- editing one row -----

  function EditRow(row: EvidenceRow, r: EvidenceRow, e: EvidenceRow): EvidenceRow {
    if row == r then e else row
  }

  function Edit(rows: seq<EvidenceRow>, r: EvidenceRow, e: EvidenceRow): (out: seq<EvidenceRow>)
    ensures |out| == |rows| && forall i :: 0 <= i < |rows| ==> out[i] == EditRow(rows[i], r, e)
  {
    seq(|rows|, i requires 0 <= i < |rows| => EditRow(rows[i], r, e))
  }

  // The edit leaves the row where it is: same task, same ordinal, same event id.
  predicate InPlace(r: EvidenceRow, e: EvidenceRow) {
    r.taskId == e.taskId && r.ordinal == e.ordinal && r.eventId == e.eventId
  }

  ghost predicate EventsDiffer(rows: seq<EvidenceRow>) {
    forall i, j :: 0 <= i < j < |rows| ==> rows[i].eventId != rows[j].eventId
  }

  lemma {:induction false} SelectEdit(rows: seq<EvidenceRow>, r: EvidenceRow, e: EvidenceRow, id: string)
    requires InPlace(r, e)
    ensures Select(Edit(rows, r, e), id) == Edit(Select(rows, id), r, e)
  {
    if rows != [] {
      var n := |rows| - 1;
      SelectEdit(rows[..n], r, e, id);
      assert Edit(rows, r, e)[..n] == Edit(rows[..n], r, e);
      assert Edit([rows[n]], r, e) == [EditRow(rows[n], r, e)];
    }
  }

  lemma {:induction false} InsertEdit(rows: seq<EvidenceRow>, row: EvidenceRow, r: EvidenceRow, e: EvidenceRow)
    requires InPlace(r, e)
    ensures InsertRow(Edit(rows, r, e), EditRow(row, r, e)) == Edit(InsertRow(rows, row), r, e)
  {
    if rows == [] || rows[|rows| - 1].ordinal <= row.ordinal {
      assert Edit(rows + [row], r, e) == Edit(rows, r, e) + [EditRow(row, r, e)];
    } else {
      var n := |rows| - 1;
      InsertEdit(rows[..n], row, r, e);
      assert Edit(rows, r, e)[..n] == Edit(rows[..n], r, e);
      assert Edit(InsertRow(rows[..n], row) + [rows[n]], r, e) == Edit(InsertRow(rows[..n], row), r, e) + [EditRow(rows[n], r, e)];
    }
  }

  lemma {:induction false} SortEdit(rows: seq<EvidenceRow>, r: EvidenceRow, e: EvidenceRow)
    requires InPlace(r, e)
    ensures SortRows(Edit(rows, r, e)) == Edit(SortRows(rows), r, e)
  {
    if rows != [] {
      var n := |rows| - 1;
      SortEdit(rows[..n], r, e);
      assert Edit(rows, r, e)[..n] == Edit(rows[..n], r, e);
      InsertEdit(SortRows(rows[..n]), rows[n], r, e);
    }
  }

  lemma {:induction false} TaskIdsEdit(rows: seq<EvidenceRow>, r: EvidenceRow, e: EvidenceRow)
    requires InPlace(r, e)
    ensures TaskIds(Edit(rows, r, e)) == TaskIds(rows)
  {
    if rows != [] {
      var n := |rows| - 1;
      TaskIdsEdit(rows[..n], r, e);
      assert Edit(rows, r, e)[..n] == Edit(rows[..n], r, e);
    }
  }

  lemma ChainEdit(rows: seq<EvidenceRow>, r: EvidenceRow, e: EvidenceRow, id: string)
    requires InPlace(r, e)
    ensures ChainOf(Edit(rows, r, e), id) == Edit(ChainOf(rows, id), r, e)
  {
    SelectEdit(rows, r, e, id);
    SortEdit(Select(rows, id), r, e);
  }

  lemma UpdateIsEdit(rows: seq<EvidenceRow>, m: nat, e: EvidenceRow)
    requires m < |rows| && EventsDiffer(rows)
    ensures rows[m := e] == Edit(rows, rows[m], e)
  {
  }

  // ----- chains in which every row is legacy or intact -----

  ghost predicate Good(rows: seq<EvidenceRow>, i: nat)
    requires i < |rows|
  {
    Legacy(rows[i]) || Link(rows, i)
  }

  ghost predicate AllGood(rows: seq<EvidenceRow>) {
    forall i :: 0 <= i < |rows| ==> Good(rows, i)
  }

  lemma FailedStep(rows: seq<EvidenceRow>, n: nat)
    requires 0 < n <= |rows| && Verify(rows, n).Some?
    ensures Verify(rows, n - 1).Some?
    ensures Verify(rows, n).value.failed ==
            Verify(rows, n - 1).value.failed + (if Good(rows, n - 1) then [] else [rows[n - 1].eventId])
  {
    hide Checkable, Link, Legacy;
    var failed := Verify(rows, n - 1).value.failed;
    assert failed + [] == failed;
  }

  lemma {:induction false} QuietIsGood(rows: seq<EvidenceRow>, n: nat)
    requires n <= |rows| && Verify(rows, n).Some? && Verify(rows, n).value.failed == []
    ensures forall i :: 0 <= i < n ==> Good(rows, i)
  {
    hide Good, Verify;
    if n > 0 {
      FailedStep(rows, n);
      QuietIsGood(rows, n - 1);
    }
  }

  lemma RowDecides(rows: seq<EvidenceRow>, n: nat)
    requires 0 < n <= |rows| && Verify(rows, n - 1).Some? && (Good(rows, n - 1) || Checkable(rows[n - 1]))
    ensures Verify(rows, n).Some?
  {
    hide Checkable, Legacy, Sound, Verify;
    VerifyUnfolds(rows, n);
  }

  lemma VerifyUnfolds(rows: seq<EvidenceRow>, n: nat)
    requires 0 < n <= |rows| && Verify(rows, n - 1).Some? && (Legacy(rows[n - 1]) || Checkable(rows[n - 1]))
    ensures Verify(rows, n).Some?
  {
    hide Checkable, Legacy, Link;
  }

  // All rows good but perhaps one that can be checked: the report names it alone.
  lemma {:induction false} OneBadRow(rows: seq<EvidenceRow>, k: nat, n: nat)
    requires n <= |rows| && k < |rows| && (Good(rows, k) || Checkable(rows[k]))
    requires forall i :: 0 <= i < |rows| && i != k ==> Good(rows, i)
    ensures Verify(rows, n).Some?
    ensures Verify(rows, n).value.failed == if k < n && !Good(rows, k) then [rows[k].eventId] else []
  {
    hide Good, Verify, Checkable;
    if n == 0 {
      VerifyNothing(rows);
    } else {
      OneBadRow(rows, k, n - 1);
      RowDecides(rows, n);
      FailedStep(rows, n);
      assert [] + [rows[n - 1].eventId] == [rows[n - 1].eventId];
    }
  }

  lemma {:induction false} AllGoodQuiet(rows: seq<EvidenceRow>, n: nat)
    requires n <= |rows| && AllGood(rows)
    ensures Verify(rows, n).Some? && Verify(rows, n).value.failed == []
  {
    hide Good, Verify;
    if n == 0 {
      VerifyNothing(rows);
    } else {
      AllGoodQuiet(rows, n - 1);
      RowDecides(rows, n);
      FailedStep(rows, n);
    }
  }

  // ----- one edited row in a whole store -----

  // The three hash columns are left alone, and the row can still be checked.
  ghost predicate ContentEdit(r: EvidenceRow, e: EvidenceRow) {
    InPlace(r, e) && e.contentHash == r.contentHash && e.previousHash == r.previousHash && e.eventHash == r.eventHash
    && !Legacy(r) && !Legacy(e) && Checkable(e)
  }

  lemma EditedChain(rows: seq<EvidenceRow>, k: nat, e: EvidenceRow)
    requires AllGood(rows) && k < |rows| && ContentEdit(rows[k], e)
    ensures Verify(rows[k := e], |rows|).Some?
    ensures Verify(rows[k := e], |rows|).value.failed == if SameHashed(e, rows[k]) then [] else [e.eventId]
  {
    hide Intact, SameHashed, Verify, Checkable, Legacy;
    var after := rows[k := e];
    assert Good(rows, k) && Good(after, k) == Link(after, k);
    forall i | 0 <= i < |rows| ensures Before(after, i) == Before(rows, i) { }
    EditedRow(rows[k], Before(rows, k), e);
    forall i | 0 <= i < |rows| && i != k ensures Good(after, i) { assert Good(rows, i); }
    OneBadRow(after, k, |rows|);
  }

  lemma ChainHolds(rows: seq<EvidenceRow>, id: string, row: EvidenceRow) returns (k: nat)
    requires row in rows && row.taskId == id
    ensures k < |ChainOf(rows, id)| && ChainOf(rows, id)[k] == row
  {
    hide ChainOf;
    ChainMembers(rows, id);
    assert row in ChainOf(rows, id);
    k :| 0 <= k < |ChainOf(rows, id)| && ChainOf(rows, id)[k] == row;
  }

  lemma {:induction false} SelectDiffer(rows: seq<EvidenceRow>, id: string)
    requires EventsDiffer(rows)
    ensures EventsDiffer(Select(rows, id))
  {
    if rows != [] {
      var n := |rows| - 1;
      SelectDiffer(rows[..n], id);
      SelectMembers(rows[..n], id);
      var s := Select(rows[..n], id);
      forall i | 0 <= i < |s| ensures s[i].eventId != rows[n].eventId { assert s[i] in rows[..n]; }
    }
  }

  lemma {:induction false} InsertDiffer(rows: seq<EvidenceRow>, row: EvidenceRow)
    requires EventsDiffer(rows) && forall i :: 0 <= i < |rows| ==> rows[i].eventId != row.eventId
    ensures EventsDiffer(InsertRow(rows, row))
  {
    if rows != [] && rows[|rows| - 1].ordinal > row.ordinal {
      var n := |rows| - 1;
      InsertDiffer(rows[..n], row);
      InsertMembers(rows[..n], row);
      var s := InsertRow(rows[..n], row);
      forall i | 0 <= i < |s| ensures s[i].eventId != rows[n].eventId {
        assert s[i] in multiset(s);
        assert s[i] == row || s[i] in multiset(rows[..n]);
        if s[i] != row { assert s[i] in rows[..n]; }
      }
    }
  }

  lemma {:induction false} SortDiffer(rows: seq<EvidenceRow>)
    requires EventsDiffer(rows)
    ensures EventsDiffer(SortRows(rows))
  {
    if rows != [] {
      var n := |rows| - 1;
      SortDiffer(rows[..n]);
      SortMembers(rows[..n]);
      var s := SortRows(rows[..n]);
      forall i | 0 <= i < |s| ensures s[i].eventId != rows[n].eventId {
        assert s[i] in multiset(s);
        assert s[i] in multiset(rows[..n]);
        assert s[i] in rows[..n];
      }
      InsertDiffer(s, rows[n]);
    }
  }

  lemma ChainDiffer(rows: seq<EvidenceRow>, id: string)
    requires EventsDiffer(rows)
    ensures EventsDiffer(ChainOf(rows, id))
  {
    SelectDiffer(rows, id);
    SortDiffer(Select(rows, id));
  }

  // What the report says of one task after the edit.
  lemma ChainAfterEdit(rows: seq<EvidenceRow>, m: nat, e: EvidenceRow, id: string)
    requires EventsDiffer(rows) && m < |rows| && ContentEdit(rows[m], e) && AllGood(ChainOf(rows, id))
    ensures var after := ChainOf(rows[m := e], id);
            && Verify(after, |after|).Some?
            && Verify(after, |after|).value.failed == if rows[m].taskId == id && !SameHashed(e, rows[m]) then [e.eventId] else []
  {
    hide ChainOf, Verify, SameHashed, Good, Checkable, Legacy;
    var r, chain := rows[m], ChainOf(rows, id);
    UpdateIsEdit(rows, m, e);
    ChainEdit(rows, r, e, id);
    ChainDiffer(rows, id);
    ChainMembers(rows, id);
    if r.taskId == id {
      var k := ChainHolds(rows, id, r);
      UpdateIsEdit(chain, k, e);
      EditedChain(chain, k, e);
    } else {
      forall i | 0 <= i < |chain| ensures chain[i] != r { assert chain[i] in chain; }
      assert Edit(chain, r, e) == chain;
      AllGoodQuiet(chain, |chain|);
    }
  }

  lemma {:induction false} QuietIds(rows: seq<EvidenceRow>, ids: seq<string>, n: nat)
    requires n <= |ids| && VerifyIds(rows, ids, n).Some? && VerifyIds(rows, ids, n).value.failed == []
    ensures forall i :: 0 <= i < n ==> AllGood(ChainOf(rows, ids[i]))
  {
    hide ChainOf, Verify, AllGood;
    if n > 0 {
      QuietIds(rows, ids, n - 1);
      QuietChain(ChainOf(rows, ids[n - 1]));
    }
  }

  lemma QuietChain(rows: seq<EvidenceRow>)
    requires Verify(rows, |rows|).Some? && Verify(rows, |rows|).value.failed == []
    ensures AllGood(rows)
  {
    hide Verify, Good;
    QuietIsGood(rows, |rows|);
  }

  lemma {:induction false} IdsAfterEdit(rows: seq<EvidenceRow>, m: nat, e: EvidenceRow, ids: seq<string>, n: nat)
    requires EventsDiffer(rows) && m < |rows| && ContentEdit(rows[m], e) && n <= |ids|
    requires forall i, j :: 0 <= i < j < |ids| ==> ids[i] != ids[j]
    requires forall i :: 0 <= i < |ids| ==> AllGood(ChainOf(rows, ids[i]))
    ensures VerifyIds(rows[m := e], ids, n).Some?
    ensures VerifyIds(rows[m := e], ids, n).value.failed ==
            if rows[m].taskId in ids[..n] && !SameHashed(e, rows[m]) then [e.eventId] else []
  {
    hide ChainOf, Verify, VerifyIds, SameHashed, AllGood, ContentEdit, EventsDiffer;
    if n == 0 {
      NoIds(rows[m := e], ids);
    } else {
      IdsAfterEdit(rows, m, e, ids, n - 1);
      ChainAfterEdit(rows, m, e, ids[n - 1]);
      IdsStep(rows[m := e], ids, n);
      PrefixMember(ids, n, rows[m].taskId);
      JoinedFailures(e.eventId);
    }
  }

  lemma NoIds(evidence: seq<EvidenceRow>, ids: seq<string>)
    ensures VerifyIds(evidence, ids, 0) == Some(NO_TALLY)
  {
  }

  lemma IdsStep(evidence: seq<EvidenceRow>, ids: seq<string>, n: nat)
    requires 0 < n <= |ids| && VerifyIds(evidence, ids, n - 1).Some?
    requires var chain := ChainOf(evidence, ids[n - 1]); Verify(chain, |chain|).Some?
    ensures VerifyIds(evidence, ids, n).Some?
    ensures var chain := ChainOf(evidence, ids[n - 1]);
            VerifyIds(evidence, ids, n).value.failed == VerifyIds(evidence, ids, n - 1).value.failed + Verify(chain, |chain|).value.failed
  {
    hide ChainOf, Verify;
  }

  // Of distinct ids, the first n hold the n-th or the first n - 1 do, not both.
  lemma PrefixMember(ids: seq<string>, n: nat, id: string)
    requires 0 < n <= |ids| && forall i, j :: 0 <= i < j < |ids| ==> ids[i] != ids[j]
    ensures id in ids[..n] <==> id in ids[..n - 1] || id == ids[n - 1]
    ensures id == ids[n - 1] ==> id !in ids[..n - 1]
  {
    assert ids[..n] == ids[..n - 1] + [ids[n - 1]];
  }

  lemma JoinedFailures(e: string)
    ensures [] + [e] == [e] && [e] + [] == [e]
  {
  }

  // In a store that verifies, editing what a non-legacy row records, with its
  // hash columns left alone, makes the report name exactly that row, and an edit
  // the hashes do not cover goes unreported.
  lemma EditReported(rows: seq<EvidenceRow>, m: nat, e: EvidenceRow)
    requires EventsDiffer(rows) && m < |rows| && ContentEdit(rows[m], e)
    requires VerifyTables(rows).Some? && VerifyTables(rows).value.failed == []
    ensures VerifyTables(rows[m := e]).Some?
    ensures VerifyTables(rows[m := e]).value.failed == if SameHashed(e, rows[m]) then [] else [rows[m].eventId]
  {
    hide ChainOf, SameHashed, AllGood, VerifyIds, Checkable, Legacy, Edit, EventsDiffer;
    var ids := TaskIds(rows);
    UpdateIsEdit(rows, m, e);
    TaskIdsEdit(rows, rows[m], e);
    TaskIdsAscending(rows);
    AscendingDistinct(ids);
    TaskIdsMembers(rows);
    assert Mentions(rows, rows[m].taskId);
    QuietIds(rows, ids, |ids|);
    IdsAfterEdit(rows, m, e, ids, |ids|);
    assert ids[..|ids|] == ids;
  }

  // ----- deleting one row -----

  function Minus(rows: seq<EvidenceRow>, r: EvidenceRow): (out: seq<EvidenceRow>)
    ensures forall x :: x in out <==> x in rows && x != r
  {
    if rows == [] then []
    else
      assert rows == rows[..|rows| - 1] + [rows[|rows| - 1]];
      Minus(rows[..|rows| - 1], r) + if rows[|rows| - 1] == r then [] else [rows[|rows| - 1]]
  }

  lemma {:induction false} WithoutAbsent(rows: seq<EvidenceRow>, r: EvidenceRow)
    requires r !in rows
    ensures Minus(rows, r) == rows
  {
    if rows != [] {
      WithoutAbsent(rows[..|rows| - 1], r);
      assert rows == rows[..|rows| - 1] + [rows[|rows| - 1]];
    }
  }

  lemma {:induction false} WithoutOne(rows: seq<EvidenceRow>, k: nat)
    requires EventsDiffer(rows) && k < |rows|
    ensures Minus(rows, rows[k]) == rows[..k] + rows[k + 1..]
  {
    var n := |rows| - 1;
    if k == n {
      assert rows[k] !in rows[..n];
      WithoutAbsent(rows[..n], rows[k]);
      assert rows[..k] + rows[k + 1..] == rows[..n];
    } else {
      WithoutOne(rows[..n], k);
      assert rows[..n][..k] == rows[..k] && rows[..n][k + 1..] + [rows[n]] == rows[k + 1..];
    }
  }

  lemma {:induction false} SelectWithout(rows: seq<EvidenceRow>, r: EvidenceRow, id: string)
    ensures Select(Minus(rows, r), id) == Minus(Select(rows, id), r)
  {
    if rows != [] {
      var n := |rows| - 1;
      SelectWithout(rows[..n], r, id);
      var w := Minus(rows[..n], r);
      if rows[n] != r { assert (w + [rows[n]])[..|w|] == w; }
      var s := Select(rows[..n], id);
      if rows[n].taskId == id { assert (s + [rows[n]])[..|s|] == s; }
      assert w + [] == w && s + [] == s;
    }
  }

  lemma WithoutAppend(rows: seq<EvidenceRow>, row: EvidenceRow, r: EvidenceRow)
    ensures Minus(rows + [row], r) == Minus(rows, r) + if row == r then [] else [row]
  {
    assert (rows + [row])[..|rows|] == rows;
  }

  lemma InsertLast(rows: seq<EvidenceRow>, row: EvidenceRow)
    requires rows == [] || rows[|rows| - 1].ordinal <= row.ordinal
    ensures InsertRow(rows, row) == rows + [row]
  {
  }

  lemma InsertBefore(rows: seq<EvidenceRow>, last: EvidenceRow, row: EvidenceRow)
    requires last.ordinal > row.ordinal
    ensures InsertRow(rows + [last], row) == InsertRow(rows, row) + [last]
  {
    assert (rows + [last])[..|rows|] == rows;
  }

  lemma {:induction false} InsertWithout(rows: seq<EvidenceRow>, row: EvidenceRow, r: EvidenceRow)
    requires InOrder(rows)
    ensures Minus(InsertRow(rows, row), r) == if row == r then Minus(rows, r) else InsertRow(Minus(rows, r), row)
  {
    hide Minus, InsertRow;
    var w := Minus(rows, r);
    if rows == [] || rows[|rows| - 1].ordinal <= row.ordinal {
      InsertLast(rows, row);
      WithoutAppend(rows, row, r);
      assert w + [] == w;
      if w != [] { LastInOrder(rows, w[|w| - 1], row); }
      InsertLast(w, row);
    } else {
      var n := |rows| - 1;
      var v := Minus(rows[..n], r);
      assert rows == rows[..n] + [rows[n]];
      InsertBefore(rows[..n], rows[n], row);
      InsertWithout(rows[..n], row, r);
      WithoutAppend(InsertRow(rows[..n], row), rows[n], r);
      WithoutAppend(rows[..n], rows[n], r);
      InsertBefore(v, rows[n], row);
      assert v + [] == v && InsertRow(v, row) + [] == InsertRow(v, row);
    }
  }

  lemma LastInOrder(rows: seq<EvidenceRow>, x: EvidenceRow, row: EvidenceRow)
    requires InOrder(rows) && x in rows && rows[|rows| - 1].ordinal <= row.ordinal
    ensures x.ordinal <= row.ordinal
  {
    var i :| 0 <= i < |rows| && rows[i] == x;
  }

  lemma {:induction false} SortWithout(rows: seq<EvidenceRow>, r: EvidenceRow)
    ensures SortRows(Minus(rows, r)) == Minus(SortRows(rows), r)
  {
    hide InsertRow;
    if rows != [] {
      var n := |rows| - 1;
      assert rows == rows[..n] + [rows[n]];
      SortWithout(rows[..n], r);
      SortIsInOrder(rows[..n]);
      InsertWithout(SortRows(rows[..n]), rows[n], r);
      var w := Minus(rows[..n], r);
      assert w + [] == w;
      SortAppend(w, rows[n]);
      hide Minus, SortRows;
    }
  }

  lemma SortAppend(rows: seq<EvidenceRow>, row: EvidenceRow)
    ensures SortRows(rows + [row]) == InsertRow(SortRows(rows), row)
  {
    hide InsertRow;
    assert (rows + [row])[..|rows|] == rows;
  }

  lemma ChainWithout(rows: seq<EvidenceRow>, r: EvidenceRow, id: string)
    ensures ChainOf(Minus(rows, r), id) == Minus(ChainOf(rows, id), r)
  {
    SelectWithout(rows, r, id);
    SortWithout(Select(rows, id), r);
  }

  // Two lists of ids in order with the same members are the same.
  lemma {:induction false} IdsDetermined(a: seq<string>, b: seq<string>)
    requires IdsAscending(a) && IdsAscending(b) && forall x :: x in a <==> x in b
    ensures a == b
  {
    NonemptyHasMember(a);
    NonemptyHasMember(b);
    if a != [] {
      FirstIsLeast(a, b);
      var a1, b1 := a[1..], b[1..];
      AscendingDistinct(a);
      AscendingDistinct(b);
      forall x ensures x in a1 <==> x in b1 {
        assert a == [a[0]] + a1 && b == [b[0]] + b1;
        assert x in a <==> x == a[0] || x in a1;
        assert x in b <==> x == b[0] || x in b1;
        assert a[0] !in a1 && b[0] !in b1;
      }
      IdsDetermined(a1, b1);
      assert a == [a[0]] + a1 && b == [b[0]] + b1;
    }
  }

  lemma FirstIsLeast(a: seq<string>, b: seq<string>)
    requires a != [] && b != [] && IdsAscending(a) && IdsAscending(b) && forall x :: x in a <==> x in b
    ensures a[0] == b[0]
  {
    hide C.Less;
    assert a[0] in a && b[0] in b;
    var i :| 0 <= i < |a| && a[i] == b[0];
    var j :| 0 <= j < |b| && b[j] == a[0];
    if i > 0 && j > 0 {
      C.LessTotal(a[0], b[0]);
    }
  }

  lemma SameTaskIds(rows: seq<EvidenceRow>, after: seq<EvidenceRow>, r: EvidenceRow, other: EvidenceRow)
    requires after == Minus(rows, r) && other in after && other.taskId == r.taskId
    ensures TaskIds(after) == TaskIds(rows)
  {
    TaskIdsAscending(rows);
    TaskIdsAscending(after);
    TaskIdsMembers(rows);
    TaskIdsMembers(after);
    forall id ensures Mentions(after, id) <==> Mentions(rows, id) {
      if Mentions(after, id) {
        var i :| 0 <= i < |after| && after[i].taskId == id;
        assert after[i] in rows;
        var k :| 0 <= k < |rows| && rows[k] == after[i];
      }
      if Mentions(rows, id) {
        var i :| 0 <= i < |rows| && rows[i].taskId == id;
        var x := if rows[i] == r then other else rows[i];
        assert x in after;
        var k :| 0 <= k < |after| && after[k] == x;
        assert after[k].taskId == id;
      }
    }
    IdsDetermined(TaskIds(after), TaskIds(rows));
  }

  ghost predicate HashesDiffer(rows: seq<EvidenceRow>) {
    forall i, j :: 0 <= i < j < |rows| ==> rows[i].eventHash != rows[j].eventHash
  }

  // Two rows of one chain are two rows of the table.
  lemma ChainHashesDiffer(rows: seq<EvidenceRow>, id: string, i: nat, j: nat)
    requires EventsDiffer(rows) && HashesDiffer(rows) && i < j < |ChainOf(rows, id)|
    ensures ChainOf(rows, id)[i].eventHash != ChainOf(rows, id)[j].eventHash
  {
    hide ChainOf;
    ChainMembers(rows, id);
    ChainDiffer(rows, id);
    var chain := ChainOf(rows, id);
    assert chain[i] in chain && chain[j] in chain;
    var a :| 0 <= a < |rows| && rows[a] == chain[i];
    var b :| 0 <= b < |rows| && rows[b] == chain[j];
    assert a != b;
  }

  // What is reported of the task that lost a row: its successor, unless that is
  // legacy.
  function Successor(chain: seq<EvidenceRow>, k: nat): seq<string>
    requires k + 1 < |chain|
  {
    if Legacy(chain[k + 1]) then [] else [chain[k + 1].eventId]
  }

  lemma ShortenedChain(chain: seq<EvidenceRow>, k: nat, after: seq<EvidenceRow>)
    requires AllGood(chain) && k + 1 < |chain| && after == chain[..k] + chain[k + 1..]
    requires k > 0 ==> chain[k - 1].eventHash != chain[k].eventHash
    ensures Verify(after, |after|).Some? && Verify(after, |after|).value.failed == Successor(chain, k)
  {
    hide Intact, Verify, Checkable, Legacy;
    Shortened(chain, k, after);
    forall i | 0 <= i < |after| && i != k ensures Good(after, i) {
      assert Good(chain, if i < k then i else i + 1);
    }
    assert Good(chain, k + 1);
    if Legacy(chain[k + 1]) {
      assert Good(after, k);
      OneBadRow(after, k, |after|);
    } else {
      IntactMeans(chain[k + 1], Before(chain, k + 1));
      if Link(after, k) { IntactMeans(after[k], Before(after, k)); }
      OneBadRow(after, k, |after|);
    }
  }

  lemma Shortened(chain: seq<EvidenceRow>, k: nat, after: seq<EvidenceRow>)
    requires k + 1 < |chain| && after == chain[..k] + chain[k + 1..]
    ensures |after| == |chain| - 1
    ensures forall i :: 0 <= i < |after| ==> after[i] == chain[if i < k then i else i + 1]
    ensures forall i :: 0 <= i < |after| ==> Before(after, i) == Before(chain, if i <= k then i else i + 1)
    ensures Before(after, k) == if k == 0 then None else Some(chain[k - 1].eventHash)
  {
  }

  lemma IntactMeans(row: EvidenceRow, previous: Option<Hash>)
    requires Intact(row, previous)
    ensures Checkable(row) && row.previousHash == previous
  {
    hide Checkable;
  }

  // The report on the deleted row's own task, and on every other.
  lemma ChainAfterDeletion(rows: seq<EvidenceRow>, m: nat, k: nat, id: string)
    requires EventsDiffer(rows) && HashesDiffer(rows) && m < |rows| && AllGood(ChainOf(rows, id))
    requires var chain := ChainOf(rows, rows[m].taskId); k + 1 < |chain| && chain[k] == rows[m]
    ensures var after := ChainOf(rows[..m] + rows[m + 1..], id);
            && Verify(after, |after|).Some?
            && Verify(after, |after|).value.failed == if id == rows[m].taskId then Successor(ChainOf(rows, id), k) else []
  {
    hide ChainOf, Verify, AllGood, HashesDiffer, EventsDiffer, Successor;
    if id == rows[m].taskId {
      var chain := ChainOf(rows, id);
      WithoutOne(rows, m);
      ChainWithout(rows, rows[m], id);
      ChainDiffer(rows, id);
      WithoutOne(chain, k);
      if k > 0 { ChainHashesDiffer(rows, id, k - 1, k); }
      ShortenedChain(chain, k, chain[..k] + chain[k + 1..]);
    } else {
      DeletionElsewhere(rows, m, id);
      AllGoodQuiet(ChainOf(rows, id), |ChainOf(rows, id)|);
    }
  }

  lemma {:induction false} IdsAfterDeletion(rows: seq<EvidenceRow>, m: nat, k: nat, ids: seq<string>, n: nat)
    requires EventsDiffer(rows) && HashesDiffer(rows) && m < |rows| && n <= |ids|
    requires forall i, j :: 0 <= i < j < |ids| ==> ids[i] != ids[j]
    requires forall i :: 0 <= i < |ids| ==> AllGood(ChainOf(rows, ids[i]))
    requires var chain := ChainOf(rows, rows[m].taskId); k + 1 < |chain| && chain[k] == rows[m]
    ensures VerifyIds(rows[..m] + rows[m + 1..], ids, n).Some?
    ensures VerifyIds(rows[..m] + rows[m + 1..], ids, n).value.failed ==
            if rows[m].taskId in ids[..n] then Successor(ChainOf(rows, rows[m].taskId), k) else []
  {
    hide ChainOf, Verify, VerifyIds, AllGood, HashesDiffer, EventsDiffer, Successor;
    var after := rows[..m] + rows[m + 1..];
    if n == 0 {
      NoIds(after, ids);
    } else {
      IdsAfterDeletion(rows, m, k, ids, n - 1);
      ChainAfterDeletion(rows, m, k, ids[n - 1]);
      IdsStep(after, ids, n);
      PrefixMember(ids, n, rows[m].taskId);
      var s := Successor(ChainOf(rows, rows[m].taskId), k);
      assert [] + s == s && s + [] == s;
    }
  }

  // In a store that verifies, deleting a row that is not the last of its task
  // makes the report name exactly its successor; a legacy successor hides it.
  lemma DeletionReported(rows: seq<EvidenceRow>, m: nat, k: nat)
    requires EventsDiffer(rows) && HashesDiffer(rows) && m < |rows|
    requires VerifyTables(rows).Some? && VerifyTables(rows).value.failed == []
    requires var chain := ChainOf(rows, rows[m].taskId); k + 1 < |chain| && chain[k] == rows[m]
    ensures VerifyTables(rows[..m] + rows[m + 1..]).Some?
    ensures VerifyTables(rows[..m] + rows[m + 1..]).value.failed == Successor(ChainOf(rows, rows[m].taskId), k)
  {
    hide ChainOf, AllGood, VerifyIds, HashesDiffer, EventsDiffer, Successor, TaskIds;
    var ids, chain, after := TaskIds(rows), ChainOf(rows, rows[m].taskId), rows[..m] + rows[m + 1..];
    WithoutOne(rows, m);
    NextOfTask(rows, m, k);
    SameTaskIds(rows, after, rows[m], chain[k + 1]);
    TaskIdsAscending(rows);
    AscendingDistinct(ids);
    TaskIdsMembers(rows);
    assert Mentions(rows, rows[m].taskId);
    QuietIds(rows, ids, |ids|);
    IdsAfterDeletion(rows, m, k, ids, |ids|);
    assert ids[..|ids|] == ids;
  }

  lemma NextOfTask(rows: seq<EvidenceRow>, m: nat, k: nat)
    requires EventsDiffer(rows) && m < |rows|
    requires var chain := ChainOf(rows, rows[m].taskId); k + 1 < |chain| && chain[k] == rows[m]
    ensures var next := ChainOf(rows, rows[m].taskId)[k + 1]; next in Minus(rows, rows[m]) && next.taskId == rows[m].taskId
  {
    hide ChainOf;
    var chain := ChainOf(rows, rows[m].taskId);
    ChainMembers(rows, rows[m].taskId);
    ChainDiffer(rows, rows[m].taskId);
    assert chain[k + 1] in chain && chain[k + 1].eventId != chain[k].eventId;
  }

  // The report on every other task is unchanged.
  lemma DeletionElsewhere(rows: seq<EvidenceRow>, m: nat, id: string)
    requires EventsDiffer(rows) && m < |rows| && rows[m].taskId != id
    ensures ChainOf(rows[..m] + rows[m + 1..], id) == ChainOf(rows, id)
  {
    hide ChainOf;
    WithoutOne(rows, m);
    ChainWithout(rows, rows[m], id);
    ChainMembers(rows, id);
    WithoutAbsent(ChainOf(rows, id), rows[m]);
  }
}
