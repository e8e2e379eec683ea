// The verification loop over one task's rows, and what it can and cannot see.
module Chain {
  import opened Wrappers
  import opened Json
  import opened Canonical
  import opened Digests
  import opened Evidence

  // ----- the hashed fields of a row -----

  datatype Hashed =
    | InternalFields(kind: Cell, source: Cell, provenance: Cell, excerpt: Cell)
    | ExternalFields(kind: Cell, source: Cell, provenance: Cell, extDigest: Cell, algorithm: Cell, state: Cell)

  // Checkable rows only; the external digest counts in lower case.
  function HashedOf(row: EvidenceRow): Option<Hashed> {
    if Truthy(row.excerpt) then Some(InternalFields(row.evidenceType, row.sourceRef, row.provenance, row.excerpt))
    else match LowerText(row.externalDigest)
      case None => None
      case Some(d) => Some(ExternalFields(row.evidenceType, row.sourceRef, row.provenance, d, row.algorithm, row.state))
  }

  function HashedState(h: Hashed): Cell {
    if h.InternalFields? then Str("internally_verified") else h.state
  }

  function HashedContent(h: Hashed): Hash {
    match h
    case InternalFields(k, s, p, x) => Digest(Record(INTERNAL_KEYS, [k, s, p, x]))
    case ExternalFields(k, s, p, d, a, v) => Digest(Record(EXTERNAL_KEYS, [k, s, p, d, a, v]))
  }

  lemma ItemColumns(row: EvidenceRow)
    ensures var item := ItemOf(row);
            && Get(item, "evidence_type") == Some(row.evidenceType)
            && Get(item, "source_ref") == Some(row.sourceRef)
            && Get(item, "sanitized_excerpt") == Some(row.excerpt)
            && Get(item, "provenance") == Some(row.provenance)
            && Get(item, "external_digest") == Some(row.externalDigest)
            && Get(item, "hash_algorithm") == Some(row.algorithm)
            && Get(item, "verification_state") == Some(row.state)
  {
    KeysDistinct();
    var vs: seq<Value> := [row.evidenceType, row.sourceRef, row.excerpt, row.provenance,
                           row.externalDigest, row.algorithm, row.state];
    forall i | 0 <= i < 7 ensures Get(ItemOf(row), ITEM_KEYS[i]) == Some(vs[i]) { RecordGet(ITEM_KEYS, vs, i); }
    assert ITEM_KEYS[0] == "evidence_type" && ITEM_KEYS[1] == "source_ref" && ITEM_KEYS[2] == "sanitized_excerpt";
    assert ITEM_KEYS[3] == "provenance" && ITEM_KEYS[4] == "external_digest" && ITEM_KEYS[5] == "hash_algorithm";
    assert ITEM_KEYS[6] == "verification_state";
  }

  lemma ExpectedOf(row: EvidenceRow)
    ensures Checkable(row) <==> HashedOf(row).Some?
    ensures Checkable(row) ==> Expected(row).contentHash == HashedContent(HashedOf(row).value)
    ensures Checkable(row) ==> Expected(row).state == HashedState(HashedOf(row).value)
  {
    ItemColumns(row);
  }

  // A content hash pins down every hashed field.
  lemma ContentIdentifies(g: Hashed, h: Hashed)
    ensures HashedContent(g) == HashedContent(h) <==> g == h
  {
    hide Digest, Record;
    KeysDistinct();
    match (g, h)
    case (InternalFields(k, s, p, x), InternalFields(k', s', p', x')) =>
      CellsIdentify(INTERNAL_KEYS, [k, s, p, x], [k', s', p', x']);
    case (ExternalFields(k, s, p, d, a, v), ExternalFields(k', s', p', d', a', v')) =>
      CellsIdentify(EXTERNAL_KEYS, [k, s, p, d, a, v], [k', s', p', d', a', v']);
    case (InternalFields(k, s, p, x), ExternalFields(k', s', p', d', a', v')) =>
      RecordsOfDifferentShape([k, s, p, x], [k', s', p', d', a', v']);
    case (ExternalFields(k', s', p', d', a', v'), InternalFields(k, s, p, x)) =>
      RecordsOfDifferentShape([k, s, p, x], [k', s', p', d', a', v']);
  }

  lemma CellsIdentify(keys: seq<string>, vs: seq<Value>, ws: seq<Value>)
    requires |keys| == |vs| == |ws| && Distinct(keys)
    requires forall i :: 0 <= i < |vs| ==> !vs[i].Arr? && !vs[i].Obj? && !vs[i].Float?
    requires forall i :: 0 <= i < |ws| ==> !ws[i].Arr? && !ws[i].Obj? && !ws[i].Float?
    ensures Digest(Record(keys, vs)) == Digest(Record(keys, ws)) <==> vs == ws
  {
    hide Digest, Record;
    RecordsIdentify(keys, vs, ws);
    forall i | 0 <= i < |vs| ensures Same(vs[i], ws[i]) <==> vs[i] == ws[i] { SameCells(vs[i], ws[i]); }
  }

  // An event hash pins down the link: its place, its content and its predecessor.
  lemma EventIdentifies(t: string, o: int, k: string, c: Hash, s: Cell, p: Option<Hash>,
                        t': string, o': int, k': string, c': Hash, s': Cell, p': Option<Hash>)
    ensures EventHash(t, o, k, c, s, p) == EventHash(t', o', k', c', s', p')
       <==> t == t' && o == o' && k == k' && c == c' && s == s' && p == p'
  {
    hide Digest, Record;
    KeysDistinct();
    var vs, ws := EventValues(t, o, k, c, s, p), EventValues(t', o', k', c', s', p');
    CellsIdentify(EVENT_KEYS, vs, ws);
    if vs == ws {
      assert vs[0] == ws[0] && vs[1] == ws[1] && vs[2] == ws[2] && vs[3] == ws[3] && vs[5] == ws[5] && vs[6] == ws[6];
    }
  }

  // ----- the loop -----

  function Before(rows: seq<EvidenceRow>, i: nat): Option<Hash>
    requires i <= |rows|
  {
    if i == 0 then None else Some(rows[i - 1].eventHash)
  }

  predicate Link(rows: seq<EvidenceRow>, i: nat)
    requires i < |rows|
  {
    Intact(rows[i], Before(rows, i))
  }

  predicate Intact(row: EvidenceRow, previous: Option<Hash>) {
    Checkable(row) && Sound(row, previous)
  }

  datatype Tally = Tally(checked: nat, legacy: nat, failed: seq<string>)

  const NO_TALLY := Tally(0, 0, [])

  // The counters after the first n rows; None once the checker has raised.
  function Verify(rows: seq<EvidenceRow>, n: nat): Option<Tally>
    requires n <= |rows|
  {
    if n == 0 then Some(NO_TALLY)
    else match Verify(rows, n - 1)
      case None => None
      case Some(t) =>
        if Legacy(rows[n - 1]) then Some(t.(legacy := t.legacy + 1))
        else if !Checkable(rows[n - 1]) then None
        else Some(t.(checked := t.checked + 1,
                     failed := t.failed + if Link(rows, n - 1) then [] else [rows[n - 1].eventId]))
  }

  // The loop of verify_evidence_chains for one task.
  method VerifyChain(rows: seq<EvidenceRow>) returns (r: Option<Tally>)
    ensures r == Verify(rows, |rows|)
  {
    hide CanonicalEvidence, Digest, Record;
    var previousHash := None;
    var tally := NO_TALLY;
    for i := 0 to |rows|
      invariant previousHash == Before(rows, i)
      invariant Verify(rows, i) == Some(tally)
    {
      var row := rows[i];
      ghost var before := tally.failed;
      if Legacy(row) {
        tally := tally.(legacy := tally.legacy + 1);
      } else {
        if !Checkable(row) {
          VerifyRaises(rows, i + 1, |rows|);
          return None;
        }
        if row.contentHash != Expected(row).contentHash || row.previousHash != previousHash
           || row.eventHash != EventHash(row.taskId, row.ordinal, row.kind, Expected(row).contentHash, Expected(row).state, previousHash) {
          tally := tally.(failed := tally.failed + [row.eventId]);
        }
        tally := tally.(checked := tally.checked + 1);
      }
      previousHash := Some(row.eventHash);
      assert before + [] == before;
    }
    r := Some(tally);
  }

  lemma {:induction false} VerifyRaises(rows: seq<EvidenceRow>, m: nat, n: nat)
    requires m <= n <= |rows| && Verify(rows, m).None?
    ensures Verify(rows, n).None?
    decreases n
  {
    hide Checkable, Sound;
    if m < n { VerifyRaises(rows, m, n - 1); }
  }

  // ----- what verification accepts -----

  predicate AllNew(rows: seq<EvidenceRow>) {
    forall i :: 0 <= i < |rows| ==> !Legacy(rows[i])
  }

  predicate AllLinked(rows: seq<EvidenceRow>) {
    forall i :: 0 <= i < |rows| ==> Link(rows, i)
  }

  predicate OfTask(rows: seq<EvidenceRow>, taskId: string) {
    forall i :: 0 <= i < |rows| ==> rows[i].taskId == taskId
  }

  // On a chain without legacy rows, no failure is reported exactly when every
  // link is intact, and every row is counted as checked.
  lemma {:induction false} VerifiedIff(rows: seq<EvidenceRow>, n: nat)
    requires n <= |rows| && AllNew(rows)
    ensures Verify(rows, n) == Some(Tally(n, 0, [])) <==> forall i :: 0 <= i < n ==> Link(rows, i)
    ensures Verify(rows, n).Some? ==> Verify(rows, n).value.checked == n && Verify(rows, n).value.legacy == 0
    ensures Verify(rows, n).Some? && Verify(rows, n).value.failed == [] ==> forall i :: 0 <= i < n ==> Link(rows, i)
  {
    hide Checkable, Sound;
    if n > 0 { VerifiedIff(rows, n - 1); }
  }

  // Where each of two chains of one task is intact and the last event hashes
  // agree, the chains agree everywhere on what is hashed.
  lemma {:induction false} ChainBinding(rows: seq<EvidenceRow>, other: seq<EvidenceRow>, taskId: string)
    requires AllLinked(rows) && AllLinked(other) && OfTask(rows, taskId) && OfTask(other, taskId)
    requires Before(rows, |rows|) == Before(other, |other|)
    ensures |rows| == |other|
    ensures forall i :: 0 <= i < |rows| ==>
              && rows[i].ordinal == other[i].ordinal && rows[i].kind == other[i].kind
              && HashedOf(rows[i]) == HashedOf(other[i])
              && rows[i].contentHash == other[i].contentHash && rows[i].eventHash == other[i].eventHash
    decreases |rows|
  {
    hide Checkable, Sound, HashedOf;
    if rows != [] {
      var m, n := |rows| - 1, |other| - 1;
      assert Link(rows, m) && Link(other, n);
      LinkIdentifies(rows[m], Before(rows, m), other[n], Before(other, n));
      PrefixLinked(rows, m);
      PrefixLinked(other, n);
      ChainBinding(rows[..m], other[..n], taskId);
    }
  }

  lemma LinkIdentifies(r: EvidenceRow, p: Option<Hash>, s: EvidenceRow, q: Option<Hash>)
    requires Checkable(r) && Checkable(s) && Sound(r, p) && Sound(s, q)
    ensures r.eventHash == s.eventHash <==>
              r.taskId == s.taskId && r.ordinal == s.ordinal && r.kind == s.kind && HashedOf(r) == HashedOf(s) && p == q
    ensures r.eventHash == s.eventHash ==> r.contentHash == s.contentHash
  {
    hide CanonicalEvidence, EventHash, HashedContent, HashedOf, HashedState;
    ExpectedOf(r);
    ExpectedOf(s);
    var g, h := HashedOf(r).value, HashedOf(s).value;
    ContentIdentifies(g, h);
    EventIdentifies(r.taskId, r.ordinal, r.kind, HashedContent(g), HashedState(g), p,
                    s.taskId, s.ordinal, s.kind, HashedContent(h), HashedState(h), q);
  }

  lemma PrefixLinked(rows: seq<EvidenceRow>, n: nat)
    requires n <= |rows| && AllLinked(rows)
    ensures AllLinked(rows[..n]) && Before(rows[..n], n) == Before(rows, n)
  {
    hide Checkable, Sound;
    forall i | 0 <= i < n ensures Link(rows[..n], i) {
      assert Link(rows, i) && Before(rows[..n], i) == Before(rows, i);
    }
  }

  // ----- tampering -----

  ghost predicate SameHashed(a: EvidenceRow, b: EvidenceRow) {
    HashedOf(a) == HashedOf(b) && a.taskId == b.taskId && a.ordinal == b.ordinal && a.kind == b.kind
  }

  // With the three hash columns left alone, a row still verifies exactly when
  // nothing it hashes has changed.
  lemma EditedRow(row: EvidenceRow, previous: Option<Hash>, edited: EvidenceRow)
    requires Intact(row, previous) && Checkable(edited)
    requires edited.contentHash == row.contentHash && edited.previousHash == row.previousHash && edited.eventHash == row.eventHash
    ensures Intact(edited, previous) <==> SameHashed(edited, row)
  {
    hide CanonicalEvidence, EventHash, HashedContent, HashedOf, HashedState;
    ExpectedOf(row);
    ExpectedOf(edited);
    var g, h := HashedOf(row).value, HashedOf(edited).value;
    ContentIdentifies(g, h);
    EventIdentifies(row.taskId, row.ordinal, row.kind, HashedContent(g), HashedState(g), previous,
                    edited.taskId, edited.ordinal, edited.kind, HashedContent(h), HashedState(h), previous);
  }

  // Editing one row of an intact chain is reported at that row and nowhere else.
  lemma TamperLocalised(rows: seq<EvidenceRow>, k: nat, edited: EvidenceRow)
    requires AllNew(rows) && AllLinked(rows) && k < |rows|
    requires !Legacy(edited) && Checkable(edited)
    requires edited.contentHash == rows[k].contentHash && edited.previousHash == rows[k].previousHash
    requires edited.eventHash == rows[k].eventHash
    ensures Verify(rows[k := edited], |rows|) ==
            Some(Tally(|rows|, 0, if SameHashed(edited, rows[k]) then [] else [edited.eventId]))
  {
    hide Intact, SameHashed, Verify, Checkable, Legacy;
    var after := rows[k := edited];
    assert Link(rows, k);
    EditedRow(rows[k], Before(rows, k), edited);
    forall i | 0 <= i < |rows| ensures Before(after, i) == Before(rows, i) { }
    forall i | 0 <= i < |rows| && i != k ensures Link(after, i) {
      assert Link(rows, i);
    }
    OneBadLink(after, k, |rows|);
  }

  lemma VerifyNothing(rows: seq<EvidenceRow>)
    ensures Verify(rows, 0) == Some(NO_TALLY)
  {
  }

  lemma VerifyStep(rows: seq<EvidenceRow>, n: nat, t: Tally)
    requires 0 < n <= |rows| && Verify(rows, n - 1) == Some(t)
    requires !Legacy(rows[n - 1]) && Checkable(rows[n - 1])
    ensures Verify(rows, n) ==
            Some(Tally(t.checked + 1, t.legacy, if Link(rows, n - 1) then t.failed else t.failed + [rows[n - 1].eventId]))
  {
    hide Checkable, Link, Legacy;
    assert t.failed + [] == t.failed;
  }

  lemma {:induction false} OneBadLink(rows: seq<EvidenceRow>, k: nat, n: nat)
    requires k < |rows| && n <= |rows| && AllNew(rows) && Checkable(rows[k])
    requires forall i :: 0 <= i < |rows| && i != k ==> Link(rows, i)
    ensures Verify(rows, n) == Some(Tally(n, 0, if k < n && !Link(rows, k) then [rows[k].eventId] else []))
  {
    hide Checkable, Link, Legacy, Verify, Sound, Before;
    VerifyNothing(rows);
    if n > 0 {
      OneBadLink(rows, k, n - 1);
      if n - 1 != k { LinkCheckable(rows, n - 1); }
      VerifyStep(rows, n, Verify(rows, n - 1).value);
      assert [] + [rows[n - 1].eventId] == [rows[n - 1].eventId];
    }
  }

  // Emptying an internal excerpt is not a report: the checker raises.
  lemma EmptiedExcerptRaises(rows: seq<EvidenceRow>, k: nat, edited: EvidenceRow)
    requires k < |rows| && !Legacy(edited)
    requires edited == rows[k].(excerpt := edited.excerpt) && edited.externalDigest.Null?
    ensures !Truthy(edited.excerpt) ==> Verify(rows[k := edited], |rows|).None?
  {
    hide CanonicalEvidence, Sound;
    if !Truthy(edited.excerpt) {
      ExpectedOf(edited);
      assert Verify(rows[k := edited], k + 1).None?;
      VerifyRaises(rows[k := edited], k + 1, |rows|);
    }
  }

  ghost predicate OrdinalsDiffer(rows: seq<EvidenceRow>) {
    forall i, j :: 0 <= i < j < |rows| ==> rows[i].ordinal != rows[j].ordinal
  }

  lemma IntactAfterOne(row: EvidenceRow, p: Option<Hash>, q: Option<Hash>)
    requires Intact(row, p) && Intact(row, q)
    ensures p == q
  {
  }

  // Deleting a row that is not the last is reported at its successor.
  lemma DeletionLocalised(rows: seq<EvidenceRow>, k: nat)
    requires AllNew(rows) && AllLinked(rows) && OrdinalsDiffer(rows) && k + 1 < |rows|
    ensures Verify(rows[..k] + rows[k + 1..], |rows| - 1) == Some(Tally(|rows| - 1, 0, [rows[k + 1].eventId]))
  {
    hide Link, Verify, Checkable, Sound, Legacy;
    Deleted(rows, k);
    DeletionReported(rows, k, rows[..k] + rows[k + 1..]);
  }

  ghost predicate Without(rows: seq<EvidenceRow>, k: nat, after: seq<EvidenceRow>)
    requires k + 1 < |rows|
  {
    && |after| == |rows| - 1
    && (forall i :: 0 <= i < |after| ==> after[i] == rows[if i < k then i else i + 1])
    && (forall i :: 0 <= i < |after| ==> Before(after, i) == Before(rows, if i <= k then i else i + 1))
  }

  lemma DeletionReported(rows: seq<EvidenceRow>, k: nat, after: seq<EvidenceRow>)
    requires AllNew(rows) && AllLinked(rows) && OrdinalsDiffer(rows) && k + 1 < |rows|
    requires Without(rows, k, after)
    ensures Verify(after, |rows| - 1) == Some(Tally(|rows| - 1, 0, [rows[k + 1].eventId]))
  {
    hide Intact, Verify, Checkable, Sound, Legacy, Before;
    forall i | 0 <= i < |after| && i != k ensures Link(after, i) {
      assert Link(rows, if i < k then i else i + 1);
    }
    assert Link(rows, k + 1);
    PredecessorsDiffer(rows, k);
    if Link(after, k) { IntactAfterOne(after[k], Before(after, k), Before(rows, k + 1)); }
    LinkCheckable(rows, k + 1);
    OneBadLink(after, k, |after|);
  }

  lemma Deleted(rows: seq<EvidenceRow>, k: nat)
    requires k + 1 < |rows|
    ensures Without(rows, k, rows[..k] + rows[k + 1..])
  {
  }

  lemma LinkCheckable(rows: seq<EvidenceRow>, i: nat)
    requires i < |rows| && Link(rows, i)
    ensures Checkable(rows[i]) && Sound(rows[i], Before(rows, i))
  {
  }

  lemma PredecessorsDiffer(rows: seq<EvidenceRow>, k: nat)
    requires AllLinked(rows) && OrdinalsDiffer(rows) && k < |rows|
    ensures Before(rows, k) != Before(rows, k + 1)
  {
    hide Checkable, Sound, HashedOf;
    if k > 0 {
      assert Link(rows, k) && Link(rows, k - 1);
      LinkIdentifies(rows[k], Before(rows, k), rows[k - 1], Before(rows, k - 1));
    }
  }

  // Cutting the tail off goes unnoticed.
  lemma TruncationUnseen(rows: seq<EvidenceRow>, n: nat)
    requires AllNew(rows) && AllLinked(rows) && n <= |rows|
    ensures Verify(rows[..n], n) == Some(Tally(n, 0, []))
  {
    hide Checkable, Sound;
    PrefixLinked(rows, n);
    VerifiedIff(rows[..n], n);
  }

  // ----- the insertion loop meets the verification loop -----

  predicate IsCell(v: Value) {
    v.Null? || IsString(v)
  }

  // Every field that reaches a TEXT column is a string or null already.
  predicate TextItem(item: Value) {
    && IsCell(ItemType(item)) && IsCell(ItemSource(item)) && IsCell(ItemProvenance(item)) && IsCell(ItemExcerpt(item))
    && (Truthy(ItemExcerpt(item))
        || (IsCell(GetOr(item, "hash_algorithm", Null)) && IsCell(GetOr(item, "verification_state", Null))))
  }

  lemma BindKeepsCells(v: Value)
    requires BindText(v).Some?
    ensures !v.Arr? && !v.Obj?
    ensures BindText(v).value == v <==> IsCell(v)
    ensures Truthy(v) && WellFormed(v) ==> Truthy(BindText(v).value)
  {
  }

  lemma ItemFieldsWellFormed(item: Value)
    requires WellFormed(item)
    ensures WellFormed(ItemType(item)) && WellFormed(ItemSource(item)) && WellFormed(ItemProvenance(item)) && WellFormed(ItemExcerpt(item))
    ensures WellFormed(GetOr(item, "hash_algorithm", Null)) && WellFormed(GetOr(item, "verification_state", Null))
  {
    GetWellFormed(item, "evidence_type");
    GetWellFormed(item, "source_ref");
    GetWellFormed(item, "provenance");
    GetWellFormed(item, "sanitized_excerpt");
    GetWellFormed(item, "hash_algorithm");
    GetWellFormed(item, "verification_state");
  }

  lemma CellWellFormed(c: Cell)
    ensures WellFormed(c)
  {
  }

  lemma FloatsAreNotEmpty(v: Value)
    requires WellFormed(v)
    ensures v.Float? ==> Truthy(Str(v.repr))
  {
  }

  // The content hashes of two lists of column values agree exactly when the lists do.
  lemma ScalarsIdentify(keys: seq<string>, vs: seq<Value>, ws: seq<Value>)
    requires |keys| == |vs| == |ws| && Distinct(keys) && AllWellFormed(vs) && AllWellFormed(ws)
    requires forall i :: 0 <= i < |vs| ==> !vs[i].Arr? && !vs[i].Obj?
    ensures Digest(Record(keys, vs)) == Digest(Record(keys, ws)) <==> vs == ws
  {
    hide Digest, Record;
    RecordsIdentify(keys, vs, ws);
    forall i | 0 <= i < |vs| ensures Same(vs[i], ws[i]) <==> vs[i] == ws[i] { SameCells(vs[i], ws[i]); }
  }

  // What MakeRow puts in the columns.
  lemma MadeRow(item: Value, row: EvidenceRow)
    requires MakeRow(row.taskId, row.ordinal, item, row.previousHash, row.eventId, row.createdAt) == Some(row)
    ensures CanonicalEvidence(item).Some?
    ensures var c := CanonicalEvidence(item).value;
            && row.contentHash == c.contentHash && row.kind == c.kind && row.externalDigest == c.externalDigest
            && row.eventHash == EventHash(row.taskId, row.ordinal, c.kind, c.contentHash, c.state, row.previousHash)
            && BindText(ItemType(item)) == Some(row.evidenceType) && BindText(ItemSource(item)) == Some(row.sourceRef)
            && BindText(ItemExcerpt(item)) == Some(row.excerpt) && BindText(ItemProvenance(item)) == Some(row.provenance)
            && BindText(c.algorithm) == Some(row.algorithm) && BindText(c.state) == Some(row.state)
  {
    hide CanonicalEvidence, EventHash;
  }

  lemma InternalContentKept(item: Value, row: EvidenceRow, c: Canonicalized)
    requires WellFormed(item) && Truthy(ItemExcerpt(item)) && CanonicalEvidence(item) == Some(c)
    requires BindText(ItemType(item)) == Some(row.evidenceType) && BindText(ItemSource(item)) == Some(row.sourceRef)
    requires BindText(ItemExcerpt(item)) == Some(row.excerpt) && BindText(ItemProvenance(item)) == Some(row.provenance)
    ensures Truthy(row.excerpt) && HashedState(HashedOf(row).value) == c.state
    ensures HashedContent(HashedOf(row).value) == c.contentHash <==> TextItem(item)
  {
    hide Digest, Record, BindText, WellFormed, ItemType, ItemSource, ItemProvenance, ItemExcerpt;
    ItemFieldsWellFormed(item);
    BindKeepsCells(ItemType(item));
    BindKeepsCells(ItemSource(item));
    BindKeepsCells(ItemProvenance(item));
    BindKeepsCells(ItemExcerpt(item));
    FloatsAreNotEmpty(ItemExcerpt(item));
    InternalValuesIdentify(ItemType(item), ItemSource(item), ItemProvenance(item), ItemExcerpt(item),
                           row.evidenceType, row.sourceRef, row.provenance, row.excerpt);
  }

  lemma InternalValuesIdentify(k: Value, s: Value, p: Value, x: Value, k': Cell, s': Cell, p': Cell, x': Cell)
    requires WellFormed(k) && WellFormed(s) && WellFormed(p) && WellFormed(x)
    requires !k.Arr? && !k.Obj? && !s.Arr? && !s.Obj? && !p.Arr? && !p.Obj? && !x.Arr? && !x.Obj?
    ensures Digest(Record(INTERNAL_KEYS, [k, s, p, x])) == Digest(Record(INTERNAL_KEYS, [k', s', p', x']))
       <==> k == k' && s == s' && p == p' && x == x'
  {
    hide Digest, Record;
    KeysDistinct();
    var vs: seq<Value> := [k, s, p, x];
    var ws: seq<Value> := [k', s', p', x'];
    ScalarsIdentify(INTERNAL_KEYS, vs, ws);
    assert vs == ws <==> vs[0] == ws[0] && vs[1] == ws[1] && vs[2] == ws[2] && vs[3] == ws[3];
  }

  lemma ExternalContentKept(item: Value, row: EvidenceRow, c: Canonicalized)
    requires WellFormed(item) && !Truthy(ItemExcerpt(item)) && CanonicalEvidence(item) == Some(c)
    requires BindText(ItemType(item)) == Some(row.evidenceType) && BindText(ItemSource(item)) == Some(row.sourceRef)
    requires BindText(ItemExcerpt(item)) == Some(row.excerpt) && BindText(ItemProvenance(item)) == Some(row.provenance)
    requires BindText(c.algorithm) == Some(row.algorithm) && BindText(c.state) == Some(row.state)
    requires row.externalDigest == c.externalDigest && !Truthy(row.excerpt)
    ensures HashedOf(row).Some?
    ensures HashedContent(HashedOf(row).value) == c.contentHash <==> TextItem(item)
    ensures TextItem(item) ==> HashedState(HashedOf(row).value) == c.state
  {
    hide Digest, Record, BindText, WellFormed, ItemType, ItemSource, ItemProvenance, ItemExcerpt, LowerText;
    ExternalParts(item, c);
    ItemFieldsWellFormed(item);
    EmptyExcerptKept(item, row);
    BindKeepsCells(ItemType(item));
    BindKeepsCells(ItemSource(item));
    BindKeepsCells(ItemProvenance(item));
    BindKeepsCells(c.algorithm);
    BindKeepsCells(c.state);
    ExternalValuesIdentify(ItemType(item), ItemSource(item), ItemProvenance(item), c.externalDigest, c.algorithm, c.state,
                           row.evidenceType, row.sourceRef, row.provenance, row.algorithm, row.state);
  }

  lemma ExternalParts(item: Value, c: Canonicalized)
    requires !Truthy(ItemExcerpt(item)) && CanonicalEvidence(item) == Some(c)
    ensures c.algorithm == GetOr(item, "hash_algorithm", Null) && c.state == GetOr(item, "verification_state", Null)
    ensures LowerText(c.externalDigest) == Some(c.externalDigest)
    ensures c.contentHash == Digest(Record(EXTERNAL_KEYS,
              [ItemType(item), ItemSource(item), ItemProvenance(item), c.externalDigest, c.algorithm, c.state]))
  {
    hide Digest, Record, ItemType, ItemSource, ItemProvenance, ItemExcerpt;
    LowerTextIdempotent(Get(item, "external_digest").value);
  }

  lemma ExternalValuesIdentify(k: Value, s: Value, p: Value, d: Cell, a: Value, v: Value, k': Cell, s': Cell, p': Cell, a': Cell, v': Cell)
    requires WellFormed(k) && WellFormed(s) && WellFormed(p) && WellFormed(a) && WellFormed(v)
    requires !k.Arr? && !k.Obj? && !s.Arr? && !s.Obj? && !p.Arr? && !p.Obj? && !a.Arr? && !a.Obj? && !v.Arr? && !v.Obj?
    ensures Digest(Record(EXTERNAL_KEYS, [k, s, p, d, a, v])) == Digest(Record(EXTERNAL_KEYS, [k', s', p', d, a', v']))
       <==> k == k' && s == s' && p == p' && a == a' && v == v'
  {
    hide Digest, Record;
    KeysDistinct();
    var vs: seq<Value> := [k, s, p, d, a, v];
    var ws: seq<Value> := [k', s', p', d, a', v'];
    ScalarsIdentify(EXTERNAL_KEYS, vs, ws);
    assert vs == ws <==> vs[0] == ws[0] && vs[1] == ws[1] && vs[2] == ws[2] && vs[3] == ws[3] && vs[4] == ws[4] && vs[5] == ws[5];
  }

  lemma EmptyExcerptKept(item: Value, row: EvidenceRow)
    requires WellFormed(item) && BindText(ItemExcerpt(item)) == Some(row.excerpt) && !Truthy(ItemExcerpt(item))
    ensures !Truthy(row.excerpt) <==> IsCell(ItemExcerpt(item))
  {
    ItemFieldsWellFormed(item);
    FloatsAreNotEmpty(ItemExcerpt(item));
  }

  lemma ExternalMistaken(item: Value, row: EvidenceRow, c: Canonicalized)
    requires WellFormed(item) && !Truthy(ItemExcerpt(item)) && CanonicalEvidence(item) == Some(c) && Truthy(row.excerpt)
    requires BindText(c.algorithm).Some? && BindText(c.state).Some?
    requires BindText(ItemType(item)).Some? && BindText(ItemSource(item)).Some? && BindText(ItemProvenance(item)).Some?
    ensures HashedContent(HashedOf(row).value) != c.contentHash
  {
    hide Digest, Record, BindText, WellFormed, ItemType, ItemSource, ItemProvenance, ItemExcerpt;
    ItemFieldsWellFormed(item);
    CellWellFormed(row.evidenceType);
    CellWellFormed(row.sourceRef);
    CellWellFormed(row.provenance);
    CellWellFormed(row.excerpt);
    CellWellFormed(c.externalDigest);
    RecordsOfDifferentShape([row.evidenceType, row.sourceRef, row.provenance, row.excerpt],
                            [ItemType(item), ItemSource(item), ItemProvenance(item), c.externalDigest, c.algorithm, c.state]);
  }

  lemma SoundIsContent(row: EvidenceRow, c: Canonicalized)
    requires Checkable(row) && row.contentHash == c.contentHash && row.kind == c.kind
    requires row.eventHash == EventHash(row.taskId, row.ordinal, c.kind, c.contentHash, c.state, row.previousHash)
    requires Expected(row).contentHash == c.contentHash ==> Expected(row).state == c.state
    ensures Sound(row, row.previousHash) <==> Expected(row).contentHash == c.contentHash
  {
    hide Checkable, EventHash;
  }

  // A row verifies in its place exactly when its item was textual: any number or
  // boolean is hashed as such but comes back from the column as text.
  lemma InsertedRowSound(item: Value, row: EvidenceRow)
    requires WellFormed(item)
    requires MakeRow(row.taskId, row.ordinal, item, row.previousHash, row.eventId, row.createdAt) == Some(row)
    ensures Intact(row, row.previousHash) <==> TextItem(item)
    ensures Checkable(row)
  {
    hide CanonicalEvidence, EventHash, HashedContent, HashedState, MakeRow, BindText, TextItem, Sound, ItemType, ItemSource,
         ItemProvenance, ItemExcerpt;
    MadeRow(item, row);
    ExpectedOf(row);
    var c := CanonicalEvidence(item).value;
    if Truthy(ItemExcerpt(item)) {
      InternalContentKept(item, row, c);
    } else {
      EmptyExcerptKept(item, row);
      if Truthy(row.excerpt) {
        ExternalMistaken(item, row, c);
        NotTextual(item);
      } else {
        ExternalContentKept(item, row, c);
      }
    }
    SoundIsContent(row, c);
  }

  lemma NotTextual(item: Value)
    ensures TextItem(item) ==> IsCell(ItemExcerpt(item))
  {
  }
}
