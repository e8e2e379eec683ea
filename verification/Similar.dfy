// similar_tasks: the newest tasks whose type has the same normalised label; and
// the path signature, a text that decodes to its steps' marks.
module Similar {
  import opened Wrappers
  import opened Json
  import opened Canonical
  import opened Digests
  import opened Evidence
  import opened Labels
  import opened Schema
  import opened Transactions
  import opened Validation
  import opened Preservation
  import Insertion

  // WHERE task_type_normalized = ?
  function OfType(rows: seq<TaskRow>, kind: string): (r: seq<TaskRow>)
    ensures forall row :: row in r <==> row in rows && row.typeLabel == kind
    ensures |r| <= |rows|
  {
    if rows == [] then []
    else
      var last := rows[|rows| - 1];
      assert forall row :: row in rows <==> row in rows[..|rows| - 1] || row == last by { assert rows == rows[..|rows| - 1] + [last]; }
      OfType(rows[..|rows| - 1], kind) + if last.typeLabel == kind then [last] else []
  }

  ghost predicate NewestFirst(rows: seq<TaskRow>) {
    forall i, j :: 0 <= i < j < |rows| ==> !Less(rows[i].createdAt, rows[j].createdAt)
  }

  // Before the first older row.
  function InsertNewest(rows: seq<TaskRow>, row: TaskRow): (r: seq<TaskRow>)
    ensures multiset(r) == multiset(rows) + multiset{row}
  {
    if rows == [] || Less(rows[0].createdAt, row.createdAt) then [row] + rows
    else
      assert rows == [rows[0]] + rows[1..];
      [rows[0]] + InsertNewest(rows[1..], row)
  }

  // ORDER BY created_at DESC
  function SortNewest(rows: seq<TaskRow>): (r: seq<TaskRow>)
    ensures multiset(r) == multiset(rows)
  {
    if rows == [] then []
    else
      assert rows == rows[..|rows| - 1] + [rows[|rows| - 1]];
      InsertNewest(SortNewest(rows[..|rows| - 1]), rows[|rows| - 1])
  }

  // LIMIT ?: a negative limit is none.
  function Limited(rows: seq<TaskRow>, limit: int): seq<TaskRow> {
    if 0 <= limit < |rows| then rows[..limit] else rows
  }

  function SimilarTasks(t: Tables, taskType: string, limit: int): seq<TaskRow> {
    Limited(SortNewest(OfType(t.tasks, NormalizeLabel(taskType))), limit)
  }

  lemma InsertedMembers(rows: seq<TaskRow>, row: TaskRow)
    ensures forall x :: x in InsertNewest(rows, row) <==> x in rows || x == row
  {
    forall x ensures x in InsertNewest(rows, row) <==> x in rows || x == row {
      assert x in InsertNewest(rows, row) <==> x in multiset(InsertNewest(rows, row));
      assert x in rows <==> x in multiset(rows);
    }
  }

  lemma {:induction false} InsertKeepsNewest(rows: seq<TaskRow>, row: TaskRow)
    requires NewestFirst(rows)
    ensures NewestFirst(InsertNewest(rows, row))
  {
    if rows == [] {
    } else if Less(rows[0].createdAt, row.createdAt) {
      forall j | 0 <= j < |rows| ensures !Less(row.createdAt, rows[j].createdAt) {
        if Less(row.createdAt, rows[j].createdAt) {
          LessTransitive(rows[0].createdAt, row.createdAt, rows[j].createdAt);
          LessTotal(rows[0].createdAt, rows[j].createdAt);
        }
      }
    } else {
      var rest := InsertNewest(rows[1..], row);
      InsertKeepsNewest(rows[1..], row);
      InsertedMembers(rows[1..], row);
      forall j | 0 <= j < |rest| ensures !Less(rows[0].createdAt, rest[j].createdAt) {
        assert rest[j] in rest;
        if rest[j] != row {
          var k :| 0 <= k < |rows[1..]| && rows[1..][k] == rest[j];
          assert rows[k + 1] == rest[j];
        }
      }
    }
  }

  lemma {:induction false} SortedNewest(rows: seq<TaskRow>)
    ensures NewestFirst(SortNewest(rows))
  {
    if rows != [] {
      SortedNewest(rows[..|rows| - 1]);
      InsertKeepsNewest(SortNewest(rows[..|rows| - 1]), rows[|rows| - 1]);
    }
  }

  // The answer is the first `limit` rows of some newest-first arrangement of
  // exactly the tasks with an equal label.
  ghost predicate NewestPrefix(r: seq<TaskRow>, rows: seq<TaskRow>, limit: int) {
    exists all: seq<TaskRow> :: multiset(all) == multiset(rows) && NewestFirst(all) && r <= all && r == Limited(all, limit)
  }

  lemma SimilarIsNewestPrefix(t: Tables, taskType: string, limit: int)
    ensures NewestPrefix(SimilarTasks(t, taskType, limit), OfType(t.tasks, NormalizeLabel(taskType)), limit)
    ensures limit >= 0 ==> |SimilarTasks(t, taskType, limit)| <= limit
    ensures NewestFirst(SimilarTasks(t, taskType, limit))
  {
    hide NormalizeLabel, InsertNewest, Less;
    var rows := OfType(t.tasks, NormalizeLabel(taskType));
    SortedNewest(rows);
    var all := SortNewest(rows);
    assert multiset(all) == multiset(rows) && NewestFirst(all) && Limited(all, limit) <= all;
  }

  // Case and spacing of the asked type do not matter.
  lemma SimilarByWords(t: Tables, a: string, b: string, limit: int)
    requires Words(Lower(Strip(a))) == Words(Lower(Strip(b)))
    ensures SimilarTasks(t, a, limit) == SimilarTasks(t, b, limit) == SimilarTasks(t, NormalizeLabel(a), limit)
  {
    hide SortNewest, OfType, Limited, NormalizeLabel, Words;
    NormalizeIdentifies(a, b);
    NormalizeIdempotent(a);
  }

  // How many of the rows are as recent as a moment.
  function NotOlder(rows: seq<TaskRow>, at: string): nat {
    if rows == [] then 0
    else (if Less(rows[0].createdAt, at) then 0 else 1) + NotOlder(rows[1..], at)
  }

  lemma {:induction false} NotOlderAppend(a: seq<TaskRow>, b: seq<TaskRow>, at: string)
    ensures NotOlder(a + b, at) == NotOlder(a, at) + NotOlder(b, at)
  {
    hide Less;
    if a == [] {
      assert a + b == b;
    } else {
      assert (a + b)[0] == a[0] && (a + b)[1..] == a[1..] + b;
      NotOlderAppend(a[1..], b, at);
    }
  }

  lemma {:induction false} NotOlderInserted(rows: seq<TaskRow>, row: TaskRow, at: string)
    ensures NotOlder(InsertNewest(rows, row), at) == NotOlder([row], at) + NotOlder(rows, at)
  {
    hide Less;
    if rows == [] || Less(rows[0].createdAt, row.createdAt) {
      NotOlderAppend([row], rows, at);
    } else {
      NotOlderInserted(rows[1..], row, at);
      var rest := InsertNewest(rows[1..], row);
      assert ([rows[0]] + rest)[0] == rows[0] && ([rows[0]] + rest)[1..] == rest;
    }
  }

  lemma {:induction false} NotOlderSorted(rows: seq<TaskRow>, at: string)
    ensures NotOlder(SortNewest(rows), at) == NotOlder(rows, at)
  {
    hide Less;
    if rows != [] {
      var n := |rows| - 1;
      NotOlderSorted(rows[..n], at);
      NotOlderInserted(SortNewest(rows[..n]), rows[n], at);
      NotOlderAppend(rows[..n], [rows[n]], at);
      assert rows == rows[..n] + [rows[n]];
    }
  }

  lemma {:induction false} AllOlder(rows: seq<TaskRow>, at: string)
    requires forall i :: 0 <= i < |rows| ==> Less(rows[i].createdAt, at)
    ensures NotOlder(rows, at) == 0
  {
    hide Less;
    if rows != [] { AllOlder(rows[1..], at); }
  }

  // The place of a row among sorted ones is behind those that are not older.
  lemma {:induction false} PlaceOf(rows: seq<TaskRow>, row: TaskRow)
    requires NewestFirst(rows)
    ensures var n := NotOlder(rows, row.createdAt);
            n < |InsertNewest(rows, row)| && InsertNewest(rows, row)[n] == row
  {
    hide Less;
    if rows == [] {
    } else if Less(rows[0].createdAt, row.createdAt) {
      forall i | 0 <= i < |rows| ensures Less(rows[i].createdAt, row.createdAt) { OlderStill(rows, i, row.createdAt); }
      AllOlder(rows, row.createdAt);
    } else {
      PlaceOf(rows[1..], row);
    }
  }

  lemma OlderStill(rows: seq<TaskRow>, i: nat, at: string)
    requires NewestFirst(rows) && i < |rows| && Less(rows[0].createdAt, at)
    ensures Less(rows[i].createdAt, at)
  {
    hide Less;
    var (x, y) := (rows[i].createdAt, rows[0].createdAt);
    assert i > 0 ==> !Less(y, x);
    LessTotal(x, y);
    if x != y { LessTransitive(x, y, at); }
  }

  // A task just inserted is among the tasks similar to its own type, unless the
  // limit is used up by others that are as recent.
  lemma InsertedIsSimilar(t: Tables, payload: Value, kind: string, hash: Hash, committedAt: string, mode: Mode, authorization: Value,
                          uuid: Uuids, now: string, limit: int)
    requires InsertFresh(t, payload, hash, committedAt, mode, authorization, uuid, now).Ok? && Get(payload, "task_type") == Some(Str(kind))
    requires limit < 0 || NotOlder(OfType(t.tasks, NormalizeLabel(kind)), now) < limit
    ensures var ins := InsertFresh(t, payload, hash, committedAt, mode, authorization, uuid, now).value;
            exists task :: task in SimilarTasks(ins.tables, kind, limit) && task.id == ins.taskId
  {
    hide InsertFresh, MakeTask, TaskFits, NormalizeLabel, SortNewest, OfType, InsertNewest, Insertion.FreshAdded, Constraints, Less;
    var ins := InsertFresh(t, payload, hash, committedAt, mode, authorization, uuid, now).value;
    Insertion.FreshInserted(t, payload, hash, committedAt, mode, authorization, uuid, now);
    var task := FreshShape(t, ins.tables, payload, hash, committedAt, mode, authorization, uuid, now);
    TypeLabelled(payload, kind, hash, committedAt, mode, authorization, task.id, now);
    SimilarAppended(t.tasks, task);
    var rows := OfType(t.tasks, task.typeLabel);
    SortedNewest(rows);
    PlaceOf(SortNewest(rows), task);
    NotOlderSorted(rows, now);
    var place := NotOlder(rows, now);
    assert SimilarTasks(ins.tables, kind, limit)[place] == task;
  }

  lemma SimilarAppended(rows: seq<TaskRow>, task: TaskRow)
    ensures SortNewest(OfType(rows + [task], task.typeLabel)) == InsertNewest(SortNewest(OfType(rows, task.typeLabel)), task)
  {
    hide InsertNewest;
    var all := rows + [task];
    assert all[..|all| - 1] == rows && all[|all| - 1] == task;
    var found := OfType(rows, task.typeLabel) + [task];
    assert found[..|found| - 1] == OfType(rows, task.typeLabel);
  }

  lemma TypeLabelled(payload: Value, kind: string, hash: Hash, committedAt: string, mode: Mode, authorization: Value, id: string, now: string)
    requires MakeTask(payload, hash, committedAt, mode, authorization, id, now).Some? && Get(payload, "task_type") == Some(Str(kind))
    ensures var row := MakeTask(payload, hash, committedAt, mode, authorization, id, now).value;
            row.typeLabel == NormalizeLabel(kind) && row.createdAt == now
  {
    hide Get, BindText, NormalizeLabel;
  }

  // ----- the path signature -----

  datatype Piece = Piece(actor: string, event: string, code: string)

  // The first twelve hexadecimal characters of a digest are a parameter.
  function PieceOf(short: Hash -> string, m: Mark): Piece {
    Piece(m.actor, m.event, short(m.summary))
  }

  function Pieces(short: Hash -> string, ms: seq<Mark>): (r: seq<Piece>)
    ensures |r| == |ms| && forall i :: 0 <= i < |ms| ==> r[i] == PieceOf(short, ms[i])
  {
    seq(|ms|, i requires 0 <= i < |ms| => PieceOf(short, ms[i]))
  }

  function Shown(m: Piece): string { m.actor + ":" + m.event + ":" + m.code }

  function Signature(ms: seq<Piece>): string {
    if ms == [] then "" else if |ms| == 1 then Shown(ms[0]) else Shown(ms[0]) + ">" + Signature(ms[1..])
  }

  predicate Plain(s: string) {
    forall i :: 0 <= i < |s| ==> s[i] != ':' && s[i] != '>'
  }

  predicate PlainPiece(m: Piece) {
    Plain(m.actor) && Plain(m.event) && Plain(m.code)
  }

  predicate AllPlain(ms: seq<Piece>) {
    forall i :: 0 <= i < |ms| ==> PlainPiece(ms[i])
  }

  // Text up to a separator is pinned down by the whole.
  lemma {:induction false} SplitAt(a: string, b: string, x: string, y: string)
    requires Plain(a) && Plain(b)
    requires x == "" || x[0] == ':' || x[0] == '>'
    requires y == "" || y[0] == ':' || y[0] == '>'
    requires a + x == b + y
    ensures a == b && x == y
  {
    assert a != "" ==> (a + x)[0] == a[0];
    assert b != "" ==> (b + y)[0] == b[0];
    if a == "" || b == "" {
      assert "" + x == x && "" + y == y;
    } else {
      assert (a + x)[1..] == a[1..] + x && (b + y)[1..] == b[1..] + y;
      SplitAt(a[1..], b[1..], x, y);
    }
  }

  lemma AfterColon(a: string, b: string, x: string, y: string)
    requires Plain(a) && Plain(b) && a + (":" + x) == b + (":" + y)
    ensures a == b && x == y
  {
    SplitAt(a, b, ":" + x, ":" + y);
    assert (":" + x)[1..] == x && (":" + y)[1..] == y;
  }

  lemma ShownParts(m: Piece, x: string)
    ensures Shown(m) + x == m.actor + (":" + (m.event + (":" + (m.code + x))))
  {
  }

  lemma PieceDecodes(m: Piece, n: Piece, x: string, y: string)
    requires PlainPiece(m) && PlainPiece(n)
    requires (x == "" || x[0] == '>') && (y == "" || y[0] == '>')
    requires Shown(m) + x == Shown(n) + y
    ensures m == n && x == y
  {
    hide Plain, Shown;
    ShownParts(m, x);
    ShownParts(n, y);
    AfterColon(m.actor, n.actor, m.event + (":" + (m.code + x)), n.event + (":" + (n.code + y)));
    AfterColon(m.event, n.event, m.code + x, n.code + y);
    SplitAt(m.code, n.code, x, y);
  }

  function Tail(ms: seq<Piece>): string {
    if |ms| <= 1 then "" else ">" + Signature(ms[1..])
  }

  lemma HeadAndTail(ms: seq<Piece>)
    requires ms != []
    ensures Signature(ms) == Shown(ms[0]) + Tail(ms)
    ensures |Signature(ms)| >= 2
  {
  }

  lemma {:induction false} SignatureDecodes(ms: seq<Piece>, ns: seq<Piece>)
    requires AllPlain(ms) && AllPlain(ns)
    ensures Signature(ms) == Signature(ns) <==> ms == ns
  {
    hide Shown, PlainPiece;
    if Signature(ms) == Signature(ns) {
      if ms == [] || ns == [] {
        if ms != [] { HeadAndTail(ms); }
        if ns != [] { HeadAndTail(ns); }
      } else {
        HeadAndTail(ms);
        HeadAndTail(ns);
        PieceDecodes(ms[0], ns[0], Tail(ms), Tail(ns));
        SameTails(ms, ns);
        SignatureDecodes(ms[1..], ns[1..]);
        assert ms == [ms[0]] + ms[1..] && ns == [ns[0]] + ns[1..];
      }
    }
  }

  lemma SameTails(ms: seq<Piece>, ns: seq<Piece>)
    requires ms != [] && ns != [] && Tail(ms) == Tail(ns)
    ensures Signature(ms[1..]) == Signature(ns[1..])
  {
    if |ms| > 1 { assert Tail(ms)[1..] == Signature(ms[1..]); }
    if |ns| > 1 { assert Tail(ns)[1..] == Signature(ns[1..]); }
  }

  // The marks of accepted steps contain no separator.
  lemma AcceptedPiece(rd: Reader, short: Hash -> string, step: Value, path: string)
    requires StepProblems(rd, step, path) == [] && forall h :: Plain(short(h))
    ensures PlainPiece(PieceOf(short, MarkOf(step)))
  {
    hide StepProblems, Plain, Digest, NormalizeLabel;
    AcceptedStep(rd, step, path);
    PlainActor(Fld(step, "actor"));
    PlainEvent(Fld(step, "event_type"));
  }

  lemma AcceptedStep(rd: Reader, step: Value, path: string)
    requires StepProblems(rd, step, path) == []
    ensures OneOf(Fld(step, "actor"), ACTORS) && OneOf(Fld(step, "event_type"), EVENT_TYPES)
  {
    hide OneOf, CapabilityProblems, InterventionProblems, BadTimestamp, BadDuration, BadConfidence, EmptyText, Fld;
  }

  lemma PlainActor(actor: Value)
    requires OneOf(actor, ACTORS)
    ensures Plain(PyStr(actor))
  {
    assert Plain("human") && Plain("ai") && Plain("tool") && Plain("system");
  }

  lemma PlainEvent(event: Value)
    requires OneOf(event, EVENT_TYPES)
    ensures Plain(PyStr(event))
  {
    PlainEventNames();
    hide Plain;
  }

  lemma PlainEventNames()
    ensures Plain("action") && Plain("clarification") && Plain("correction") && Plain("retry")
    ensures Plain("failure") && Plain("recovery") && Plain("decision") && Plain("result")
  {
  }

  // Two lists of accepted steps have the same signature exactly when they agree,
  // step by step, on actor, event type and shortened summary digest.
  lemma SignatureIdentifies(rd: Reader, short: Hash -> string, xs: seq<Value>, ys: seq<Value>)
    requires forall h :: Plain(short(h))
    requires forall i :: 0 <= i < |xs| ==> StepProblems(rd, xs[i], "") == []
    requires forall i :: 0 <= i < |ys| ==> StepProblems(rd, ys[i], "") == []
    ensures Signature(Pieces(short, Marks(xs))) == Signature(Pieces(short, Marks(ys))) <==>
              |xs| == |ys| && forall i :: 0 <= i < |xs| ==> PieceOf(short, MarkOf(xs[i])) == PieceOf(short, MarkOf(ys[i]))
  {
    hide StepProblems, Signature, MarkOf;
    forall i | 0 <= i < |xs| ensures PlainPiece(PieceOf(short, MarkOf(xs[i]))) { AcceptedPiece(rd, short, xs[i], ""); }
    forall i | 0 <= i < |ys| ensures PlainPiece(PieceOf(short, MarkOf(ys[i]))) { AcceptedPiece(rd, short, ys[i], ""); }
    SignatureDecodes(Pieces(short, Marks(xs)), Pieces(short, Marks(ys)));
  }
}
