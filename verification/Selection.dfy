// SELECT * FROM evidence WHERE task_id=? ORDER BY ordinal, and
// SELECT DISTINCT task_id FROM evidence ORDER BY task_id.
module Selection {
  import opened Canonical
  import opened Evidence

  function Select(rows: seq<EvidenceRow>, taskId: string): seq<EvidenceRow> {
    if rows == [] then []
    else Select(rows[..|rows| - 1], taskId) + if rows[|rows| - 1].taskId == taskId then [rows[|rows| - 1]] else []
  }

  function InsertRow(rows: seq<EvidenceRow>, row: EvidenceRow): seq<EvidenceRow> {
    if rows == [] || rows[|rows| - 1].ordinal <= row.ordinal then rows + [row]
    else InsertRow(rows[..|rows| - 1], row) + [rows[|rows| - 1]]
  }

  function SortRows(rows: seq<EvidenceRow>): seq<EvidenceRow> {
    if rows == [] then [] else InsertRow(SortRows(rows[..|rows| - 1]), rows[|rows| - 1])
  }

  function ChainOf(rows: seq<EvidenceRow>, taskId: string): seq<EvidenceRow> {
    SortRows(Select(rows, taskId))
  }

  lemma {:induction false} SelectAppend(a: seq<EvidenceRow>, b: seq<EvidenceRow>, taskId: string)
    ensures Select(a + b, taskId) == Select(a, taskId) + Select(b, taskId)
    decreases |b|
  {
    if b == [] {
      assert a + b == a;
    } else {
      var n := |b| - 1;
      SelectAppend(a, b[..n], taskId);
      assert (a + b)[..|a + b| - 1] == a + b[..n];
    }
  }

  lemma {:induction false} SelectForeign(rows: seq<EvidenceRow>, taskId: string)
    requires forall i :: 0 <= i < |rows| ==> rows[i].taskId != taskId
    ensures Select(rows, taskId) == []
  {
    if rows != [] { SelectForeign(rows[..|rows| - 1], taskId); }
  }

  lemma {:induction false} SelectOwn(rows: seq<EvidenceRow>, taskId: string)
    requires forall i :: 0 <= i < |rows| ==> rows[i].taskId == taskId
    ensures Select(rows, taskId) == rows
  {
    if rows != [] {
      SelectOwn(rows[..|rows| - 1], taskId);
      assert rows == rows[..|rows| - 1] + [rows[|rows| - 1]];
    }
  }

  lemma {:induction false} SelectMembers(rows: seq<EvidenceRow>, taskId: string)
    ensures forall r :: r in Select(rows, taskId) <==> r in rows && r.taskId == taskId
  {
    if rows != [] {
      SelectMembers(rows[..|rows| - 1], taskId);
      assert rows == rows[..|rows| - 1] + [rows[|rows| - 1]];
    }
  }

  ghost predicate InOrder(rows: seq<EvidenceRow>) {
    forall i, j :: 0 <= i < j < |rows| ==> rows[i].ordinal <= rows[j].ordinal
  }

  lemma {:induction false} SortInOrder(rows: seq<EvidenceRow>)
    requires InOrder(rows)
    ensures SortRows(rows) == rows
  {
    if rows != [] {
      var n := |rows| - 1;
      SortInOrder(rows[..n]);
      assert rows == rows[..n] + [rows[n]];
    }
  }

  lemma {:induction false} InsertMembers(rows: seq<EvidenceRow>, row: EvidenceRow)
    ensures multiset(InsertRow(rows, row)) == multiset(rows) + multiset{row}
  {
    if rows == [] || rows[|rows| - 1].ordinal <= row.ordinal {
    } else {
      InsertMembers(rows[..|rows| - 1], row);
      assert rows == rows[..|rows| - 1] + [rows[|rows| - 1]];
    }
  }

  lemma {:induction false} SortMembers(rows: seq<EvidenceRow>)
    ensures multiset(SortRows(rows)) == multiset(rows)
  {
    if rows != [] {
      SortMembers(rows[..|rows| - 1]);
      InsertMembers(SortRows(rows[..|rows| - 1]), rows[|rows| - 1]);
      assert rows == rows[..|rows| - 1] + [rows[|rows| - 1]];
    }
  }

  lemma {:induction false} InsertInOrder(rows: seq<EvidenceRow>, row: EvidenceRow)
    requires InOrder(rows)
    ensures InOrder(InsertRow(rows, row))
  {
    if rows == [] || rows[|rows| - 1].ordinal <= row.ordinal {
    } else {
      var init, last := rows[..|rows| - 1], rows[|rows| - 1];
      InsertInOrder(init, row);
      InsertMembers(init, row);
      var r := InsertRow(init, row);
      forall i | 0 <= i < |r| ensures r[i].ordinal <= last.ordinal {
        assert r[i] in multiset(r);
        assert r[i] == row || r[i] in multiset(init);
        if r[i] != row { assert r[i] in init; }
      }
    }
  }

  lemma {:induction false} SortIsInOrder(rows: seq<EvidenceRow>)
    ensures InOrder(SortRows(rows))
  {
    if rows != [] {
      SortIsInOrder(rows[..|rows| - 1]);
      InsertInOrder(SortRows(rows[..|rows| - 1]), rows[|rows| - 1]);
    }
  }

  lemma ChainMembers(rows: seq<EvidenceRow>, taskId: string)
    ensures forall r :: r in ChainOf(rows, taskId) <==> r in rows && r.taskId == taskId
    ensures InOrder(ChainOf(rows, taskId))
  {
    SelectMembers(rows, taskId);
    SortMembers(Select(rows, taskId));
    SortIsInOrder(Select(rows, taskId));
    forall r ensures r in ChainOf(rows, taskId) <==> r in Select(rows, taskId) {
      assert r in ChainOf(rows, taskId) <==> r in multiset(ChainOf(rows, taskId));
      assert r in Select(rows, taskId) <==> r in multiset(Select(rows, taskId));
    }
  }

  // ----- the distinct task ids, in order -----

  function AddId(ids: seq<string>, id: string): (r: seq<string>)
    ensures forall x :: x in r <==> x in ids || x == id
  {
    if ids == [] then [id]
    else if ids[0] == id then ids
    else if Less(id, ids[0]) then [id] + ids
    else
      assert ids == [ids[0]] + ids[1..];
      [ids[0]] + AddId(ids[1..], id)
  }

  ghost predicate Mentions(rows: seq<EvidenceRow>, id: string) {
    exists i :: 0 <= i < |rows| && rows[i].taskId == id
  }

  lemma MentionsLast(rows: seq<EvidenceRow>, id: string)
    requires rows != []
    ensures Mentions(rows, id) <==> Mentions(rows[..|rows| - 1], id) || rows[|rows| - 1].taskId == id
  {
    var n := |rows| - 1;
    if Mentions(rows[..n], id) {
      var i :| 0 <= i < n && rows[..n][i].taskId == id;
      assert rows[i].taskId == id;
    }
    if Mentions(rows, id) && rows[n].taskId != id {
      var i :| 0 <= i < |rows| && rows[i].taskId == id;
      assert rows[..n][i].taskId == id;
    }
  }

  function TaskIds(rows: seq<EvidenceRow>): (r: seq<string>) {
    if rows == [] then [] else AddId(TaskIds(rows[..|rows| - 1]), rows[|rows| - 1].taskId)
  }

  lemma {:induction false} TaskIdsMembers(rows: seq<EvidenceRow>)
    ensures forall id :: id in TaskIds(rows) <==> Mentions(rows, id)
  {
    if rows != [] {
      TaskIdsMembers(rows[..|rows| - 1]);
      forall id ensures id in TaskIds(rows) <==> Mentions(rows, id) { MentionsLast(rows, id); }
    }
  }

  ghost predicate IdsAscending(ids: seq<string>) {
    forall i, j :: 0 <= i < j < |ids| ==> Less(ids[i], ids[j])
  }

  lemma {:induction false} AddIdAscending(ids: seq<string>, id: string)
    requires IdsAscending(ids)
    ensures IdsAscending(AddId(ids, id))
  {
    if ids == [] || ids[0] == id {
    } else if Less(id, ids[0]) {
      forall j | 0 <= j < |ids| ensures Less(id, ids[j]) {
        if j > 0 { LessTransitive(id, ids[0], ids[j]); }
      }
    } else {
      AddIdAscending(ids[1..], id);
      LessTotal(id, ids[0]);
      var r := AddId(ids[1..], id);
      forall j | 0 <= j < |r| ensures Less(ids[0], r[j]) {
        assert r[j] in r;
        if r[j] != id { assert r[j] in ids[1..]; }
      }
    }
  }

  lemma {:induction false} TaskIdsAscending(rows: seq<EvidenceRow>)
    ensures IdsAscending(TaskIds(rows))
  {
    if rows != [] {
      TaskIdsAscending(rows[..|rows| - 1]);
      AddIdAscending(TaskIds(rows[..|rows| - 1]), rows[|rows| - 1].taskId);
    }
  }

  lemma AscendingDistinct(ids: seq<string>)
    requires IdsAscending(ids)
    ensures forall i, j :: 0 <= i < j < |ids| ==> ids[i] != ids[j]
  {
    forall i, j | 0 <= i < j < |ids| ensures ids[i] != ids[j] { LessTotal(ids[i], ids[j]); }
  }
}
