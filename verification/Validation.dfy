// validate_candidate and validate_enterprise_untrusted: checks append to a
// shared list of problems, and a candidate is accepted when the list is empty.
module Validation {
  import opened Wrappers
  import opened Json
  import opened Canonical
  import opened Digests
  import opened Evidence
  import opened Chain
  import opened Redaction

  datatype Problem = NotAnObject | ForbiddenKey(path: string) | Missing(field: string) | Invalid(path: string)

  // Reading of timestamps (an instant, if the text is one) and of decimal
  // numbers (whether the number lies in [0, 1]).
  datatype Reader = Reader(instant: Value -> Option<int>, unit: string -> bool)

  const ACTORS := {"human", "ai", "tool", "system"}
  const EVENT_TYPES := {"action", "clarification", "correction", "retry", "failure", "recovery", "decision", "result"}
  const ADOPTION := {"adopted", "partially_adopted", "rejected", "abandoned", "unknown"}
  const PROVENANCE := {"observed", "user_reported", "ai_inferred", "system_generated"}
  const CONTEXT_PROVENANCE := {"harness_provided", "user_reported"}
  const AI_CONTEXT_PROVENANCE := {"harness_provided", "user_reported", "observed"}
  const CAPABILITY_KINDS := {"model", "skill", "tool", "harness"}
  const INTERVENTION_REASONS := {"error", "business_preference", "style", "other", "unknown"}
  const VERIFICATION_STATES := {"verified", "unverified"}
  const FORBIDDEN_KEYS := {
    "employee_score", "ai_usage_score", "productivity_rank", "employee_ranking", "department_ranking",
    "performance_score", "capture_authorized", "enterprise_authorized", "authorized", "authorization",
    "authorization_grant", "grant", "grant_id", "trust_root", "trust_class", "public_key", "private_key",
    "verification_key", "verifier", "assertion", "assertion_id", "issuer", "signature"}

  const MAX_EXCERPT_LENGTH := 2000
  const MAX_SUMMARY_LENGTH := 4000
  const MAX_SESSION_ID_LENGTH := 200

  class Problems {
    var entries: seq<Problem>

    constructor ()
      ensures entries == []
    {
      entries := [];
    }
  }

  // ----- the forbidden-key scan -----

  predicate Forbidden(key: string) {
    Lower(Strip(key)) in FORBIDDEN_KEYS
  }

  function KeyProblem(path: string, key: string): seq<Problem> {
    if Forbidden(key) then [ForbiddenKey(KeyPath(path, key))] else []
  }

  function Scan(v: Value, path: string): seq<Problem>
    decreases v, 1, 0
  {
    match v
    case Obj(fs) => ScanFields(v, path, |fs|)
    case Arr(xs) => ScanItems(v, path, |xs|)
    case _ => []
  }

  function ScanFields(v: Value, path: string, n: nat): seq<Problem>
    requires v.Obj? && n <= |v.fields|
    decreases v, 0, n
  {
    if n == 0 then []
    else ScanFields(v, path, n - 1) + KeyProblem(path, v.fields[n - 1].key)
         + Scan(v.fields[n - 1].val, KeyPath(path, v.fields[n - 1].key))
  }

  function ScanItems(v: Value, path: string, n: nat): seq<Problem>
    requires v.Arr? && n <= |v.items|
    decreases v, 0, n
  {
    if n == 0 then [] else ScanItems(v, path, n - 1) + Scan(v.items[n - 1], ItemPath(path, n - 1))
  }

  method ScanForbidden(v: Value, path: string, errors: Problems)
    modifies errors
    ensures errors.entries == old(errors.entries) + Scan(v, path)
    decreases v
  {
    hide Forbidden, KeyPath, ItemPath;
    match v
    case Obj(fs) =>
      for i := 0 to |fs|
        invariant errors.entries == old(errors.entries) + ScanFields(v, path, i)
      {
        errors.entries := errors.entries + KeyProblem(path, fs[i].key);
        ScanForbidden(fs[i].val, KeyPath(path, fs[i].key), errors);
      }
    case Arr(xs) =>
      for i := 0 to |xs|
        invariant errors.entries == old(errors.entries) + ScanItems(v, path, i)
      {
        ScanForbidden(xs[i], ItemPath(path, i), errors);
      }
    case _ =>
  }

  // No forbidden key at any depth.
  ghost predicate NoForbidden(v: Value) {
    match v
    case Obj(fs) => forall f :: f in fs ==> !Forbidden(f.key) && NoForbidden(f.val)
    case Arr(xs) => forall x :: x in xs ==> NoForbidden(x)
    case _ => true
  }

  lemma {:induction false} ScanIff(v: Value, path: string)
    ensures Scan(v, path) == [] <==> NoForbidden(v)
    decreases v, 1, 0
  {
    hide Forbidden, KeyPath, ItemPath;
    match v
    case Obj(fs) =>
      ScanFieldsIff(v, path, |fs|);
      assert NoForbidden(v) <==> forall i :: 0 <= i < |fs| ==> !Forbidden(fs[i].key) && NoForbidden(fs[i].val);
    case Arr(xs) =>
      ScanItemsIff(v, path, |xs|);
      assert NoForbidden(v) <==> forall i :: 0 <= i < |xs| ==> NoForbidden(xs[i]);
    case _ =>
  }

  lemma {:induction false} ScanFieldsIff(v: Value, path: string, n: nat)
    requires v.Obj? && n <= |v.fields|
    ensures ScanFields(v, path, n) == [] <==> forall i :: 0 <= i < n ==> !Forbidden(v.fields[i].key) && NoForbidden(v.fields[i].val)
    decreases v, 0, n
  {
    hide Forbidden, KeyPath, NoForbidden;
    if n > 0 {
      ScanFieldsIff(v, path, n - 1);
      ScanIff(v.fields[n - 1].val, KeyPath(path, v.fields[n - 1].key));
    }
  }

  lemma {:induction false} ScanItemsIff(v: Value, path: string, n: nat)
    requires v.Arr? && n <= |v.items|
    ensures ScanItems(v, path, n) == [] <==> forall i :: 0 <= i < n ==> NoForbidden(v.items[i])
    decreases v, 0, n
  {
    hide ItemPath, NoForbidden;
    if n > 0 {
      ScanItemsIff(v, path, n - 1);
      ScanIff(v.items[n - 1], ItemPath(path, n - 1));
    }
  }

  // Sanitising never changes the scan: same problems at the same paths.
  lemma {:induction false} ScanShape(v: Value, w: Value, path: string)
    requires SameShape(v, w)
    ensures Scan(v, path) == Scan(w, path)
    decreases v, 1, 0
  {
    hide Forbidden, KeyPath, ItemPath;
    match v
    case Obj(fs) => ScanFieldsShape(v, w, path, |fs|);
    case Arr(xs) => ScanItemsShape(v, w, path, |xs|);
    case _ =>
  }

  lemma {:induction false} ScanFieldsShape(v: Value, w: Value, path: string, n: nat)
    requires v.Obj? && SameShape(v, w) && n <= |v.fields|
    ensures ScanFields(v, path, n) == ScanFields(w, path, n)
    decreases v, 0, n
  {
    hide Forbidden, KeyPath;
    if n > 0 {
      ScanFieldsShape(v, w, path, n - 1);
      ScanShape(v.fields[n - 1].val, w.fields[n - 1].val, KeyPath(path, v.fields[n - 1].key));
    }
  }

  lemma {:induction false} ScanItemsShape(v: Value, w: Value, path: string, n: nat)
    requires v.Arr? && SameShape(v, w) && n <= |v.items|
    ensures ScanItems(v, path, n) == ScanItems(w, path, n)
    decreases v, 0, n
  {
    hide ItemPath;
    if n > 0 {
      ScanItemsShape(v, w, path, n - 1);
      ScanShape(v.items[n - 1], w.items[n - 1], ItemPath(path, n - 1));
    }
  }

  lemma ScanUnchangedByCleaning(r: Redactor, v: Value, path: string)
    ensures Scan(Clean(r, v), path) == Scan(v, path)
    ensures NoForbidden(Clean(r, v)) <==> NoForbidden(v)
  {
    CleanKeepsShape(r, v);
    ScanShape(v, Clean(r, v), path);
    ScanIff(v, path);
    ScanIff(Clean(r, v), path);
  }

  // Storing with sorted keys does not add or hide a forbidden key.
  lemma {:induction false} NoForbiddenCanon(v: Value)
    ensures NoForbidden(Canon(v)) <==> NoForbidden(v)
    decreases v
  {
    hide Forbidden;
    match v
    case Obj(fs) =>
      CanonMembers(fs);
      forall f | f in fs ensures NoForbidden(CanonField(f).val) <==> NoForbidden(f.val) { NoForbiddenCanon(f.val); }
      forall f | f in fs ensures CanonField(f) in Canon(v).fields { }
    case Arr(xs) =>
      forall x | x in xs ensures NoForbidden(Canon(x)) <==> NoForbidden(x) { NoForbiddenCanon(x); }
      assert forall i :: 0 <= i < |xs| ==> Canon(v).items[i] == Canon(xs[i]);
    case _ =>
  }

  // ----- field checks -----

  function Fld(v: Value, k: string): Value { GetOr(v, k, Null) }

  predicate OneOf(v: Value, names: set<string>) {
    v.Str? && v.s in names
  }

  function When(bad: bool, p: Problem): seq<Problem> {
    if bad then [p] else []
  }

  predicate EmptyText(v: Value, k: string) {
    Blank(PyStr(GetOr(v, k, Str(""))))
  }

  predicate BadTimestamp(rd: Reader, v: Value) {
    !v.Null? && rd.instant(v).None?
  }

  predicate BadDuration(v: Value) {
    !v.Null? && !(v.Int? && v.n >= 0)
  }

  // A field that is present and not null must be a string.
  predicate BadText(v: Value, k: string) {
    !Fld(v, k).Null? && !IsString(Fld(v, k))
  }

  function CapabilityProblems(v: Value, path: string): seq<Problem> {
    if v.Null? then []
    else if !v.Obj? then [Invalid(path)]
    else When(!OneOf(Fld(v, "kind"), CAPABILITY_KINDS), Invalid(path + ".kind"))
         + When(EmptyText(v, "name"), Invalid(path + ".name"))
         + When(Get(v, "version").Some? && !IsString(Fld(v, "version")), Invalid(path + ".version"))
  }

  function InterventionProblems(v: Value, path: string): seq<Problem> {
    if v.Null? then []
    else if !v.Obj? then [Invalid(path)]
    else When(!OneOf(Fld(v, "reason"), INTERVENTION_REASONS), Invalid(path + ".reason"))
         + When(Get(v, "rework").Some? && !Fld(v, "rework").Bool?, Invalid(path + ".rework"))
         + When(Get(v, "modified_step").Some? && !(Fld(v, "modified_step").Int? && Fld(v, "modified_step").n >= 1),
                Invalid(path + ".modified_step"))
  }

  function BusinessProblems(v: Value): seq<Problem> {
    if v.Null? then []
    else if !v.Obj? then [Invalid("business_context")]
    else When(!OneOf(Fld(v, "provenance"), CONTEXT_PROVENANCE), Invalid("business_context.provenance"))
         + When(BadText(v, "ref"), Invalid("business_context.ref"))
         + When(BadText(v, "department"), Invalid("business_context.department"))
         + When(BadText(v, "workflow"), Invalid("business_context.workflow"))
  }

  function AiProblems(v: Value): seq<Problem> {
    if v.Null? then []
    else if !v.Obj? then [Invalid("ai_context")]
    else When(!OneOf(Fld(v, "provenance"), AI_CONTEXT_PROVENANCE), Invalid("ai_context.provenance"))
         + When(BadText(v, "model"), Invalid("ai_context.model"))
         + When(BadText(v, "provider"), Invalid("ai_context.provider"))
         + When(BadText(v, "skill"), Invalid("ai_context.skill"))
         + When(BadText(v, "version"), Invalid("ai_context.version"))
  }

  predicate BadSession(v: Value) {
    !v.Null? && (!IsString(v) || Blank(PyStr(v)) || |PyStr(v)| > MAX_SESSION_ID_LENGTH)
  }

  predicate BadConfidence(rd: Reader, v: Value) {
    match v
    case Int(n) => n != 0 && n != 1
    case Float(r) => !rd.unit(r)
    case _ => true
  }

  function StepProblems(rd: Reader, step: Value, path: string): seq<Problem> {
    if !step.Obj? then [Invalid(path)]
    else
      When(!OneOf(Fld(step, "actor"), ACTORS), Invalid(path + ".actor"))
      + When(!OneOf(Fld(step, "event_type"), EVENT_TYPES), Invalid(path + ".event_type"))
      + When(!OneOf(Fld(step, "provenance"), PROVENANCE), Invalid(path + ".provenance"))
      + When(Fld(step, "provenance") == Str("ai_inferred") && BadConfidence(rd, Fld(step, "confidence")), Invalid(path + ".confidence"))
      + When(EmptyText(step, "summary") || |PyStr(GetOr(step, "summary", Str("")))| > MAX_SUMMARY_LENGTH, Invalid(path + ".summary"))
      + When(BadTimestamp(rd, Fld(step, "occurred_at")), Invalid(path + ".occurred_at"))
      + When(BadDuration(Fld(step, "duration_ms")), Invalid(path + ".duration_ms"))
      + CapabilityProblems(Fld(step, "capability"), path + ".capability")
      + InterventionProblems(Fld(step, "intervention"), path + ".intervention")
  }

  function AlgorithmLength(v: Value): Option<nat> {
    if v == Str("sha256") then Some(64)
    else if v == Str("sha512") || v == Str("blake2b") then Some(128)
    else None
  }

  predicate HexText(s: string) {
    forall i :: 0 <= i < |s| ==> '0' <= s[i] <= '9' || 'a' <= s[i] <= 'f'
  }

  // A digest printed in hexadecimal is 64 hexadecimal characters.
  predicate DigestText(v: Value, length: nat) {
    if v.HexStr? then length == 64 else |PyStr(v)| == length && HexText(Lower(PyStr(v)))
  }

  predicate HasExcerpt(item: Value) {
    var x := Fld(item, "sanitized_excerpt");
    x.HexStr? || (x.Str? && !Blank(x.s))
  }

  const EXTERNAL_FIELDS := ["external_digest", "hash_algorithm", "source_ref", "verification_state"]

  function EvidenceProblems(item: Value, path: string): seq<Problem> {
    if !item.Obj? then [Invalid(path)]
    else
      When(Get(item, "content_hash").Some?, Invalid(path + ".content_hash"))
      + if HasExcerpt(item) then
          When(Fld(item, "sanitized_excerpt").Str? && |Fld(item, "sanitized_excerpt").s| > MAX_EXCERPT_LENGTH, Invalid(path + ".sanitized_excerpt"))
          + When(Get(item, "external_digest").Some?, Invalid(path + ".external_digest"))
          + When(Get(item, "hash_algorithm").Some?, Invalid(path + ".hash_algorithm"))
          + When(Get(item, "verification_state").Some?, Invalid(path + ".verification_state"))
        else
          When(EmptyText(item, "external_digest"), Missing(path + ".external_digest"))
          + When(EmptyText(item, "hash_algorithm"), Missing(path + ".hash_algorithm"))
          + When(EmptyText(item, "source_ref"), Missing(path + ".source_ref"))
          + When(EmptyText(item, "verification_state"), Missing(path + ".verification_state"))
          + When(AlgorithmLength(Fld(item, "hash_algorithm")).None?, Invalid(path + ".hash_algorithm"))
          + When(!OneOf(Fld(item, "verification_state"), VERIFICATION_STATES), Invalid(path + ".verification_state"))
          + match AlgorithmLength(Fld(item, "hash_algorithm"))
            case Some(n) => When(!DigestText(GetOr(item, "external_digest", Str("")), n), Invalid(path + ".external_digest"))
            case None => []
  }

  function AllSteps(rd: Reader, xs: seq<Value>, n: nat): seq<Problem>
    requires n <= |xs|
  {
    if n == 0 then [] else AllSteps(rd, xs, n - 1) + StepProblems(rd, xs[n - 1], ItemPath("steps", n - 1))
  }

  function AllEvidence(xs: seq<Value>, n: nat): seq<Problem>
    requires n <= |xs|
  {
    if n == 0 then [] else AllEvidence(xs, n - 1) + EvidenceProblems(xs[n - 1], ItemPath("evidence", n - 1))
  }

  function HeadProblems(rd: Reader, data: Value): seq<Problem> {
    When(Get(data, "task_type").None?, Missing("task_type")) + When(Get(data, "task_goal").None?, Missing("task_goal"))
    + When(Get(data, "steps").None?, Missing("steps")) + When(Get(data, "final_result").None?, Missing("final_result"))
    + When(EmptyText(data, "task_type"), Invalid("task_type")) + When(EmptyText(data, "task_goal"), Invalid("task_goal"))
    + When(BadSession(Fld(data, SESSION)), Invalid(SESSION))
    + When(BadTimestamp(rd, Fld(data, "started_at")), Invalid("started_at"))
    + When(BadTimestamp(rd, Fld(data, "completed_at")), Invalid("completed_at"))
    + BusinessProblems(Fld(data, "business_context")) + AiProblems(Fld(data, "ai_context"))
    + When(!Fld(data, "process_summary").Null? && |PyStr(Fld(data, "process_summary"))| > MAX_SUMMARY_LENGTH, Invalid("process_summary"))
  }

  function StepListProblems(rd: Reader, data: Value): seq<Problem> {
    match Get(data, "steps")
    case Some(Arr(xs)) => if xs == [] then [Invalid("steps")] else AllSteps(rd, xs, |xs|)
    case _ => [Invalid("steps")]
  }

  function ResultProblems(data: Value): seq<Problem> {
    var result := Fld(data, "final_result");
    if !result.Obj? then [Invalid("final_result")]
    else When(!OneOf(Fld(result, "adoption_status"), ADOPTION), Invalid("final_result.adoption_status"))
  }

  function EvidenceListProblems(data: Value): seq<Problem> {
    match GetOr(data, "evidence", Arr([]))
    case Arr(xs) => AllEvidence(xs, |xs|)
    case _ => [Invalid("evidence")]
  }

  function CandidateProblems(rd: Reader, data: Value): seq<Problem> {
    if !data.Obj? then [NotAnObject]
    else Scan(data, "$") + HeadProblems(rd, data) + StepListProblems(rd, data) + ResultProblems(data) + EvidenceListProblems(data)
  }

  predicate Accepts(rd: Reader, data: Value) {
    CandidateProblems(rd, data) == []
  }

  method ValidateSteps(rd: Reader, data: Value, errors: Problems)
    modifies errors
    ensures errors.entries == old(errors.entries) + StepListProblems(rd, data)
  {
    hide StepProblems, ItemPath;
    var steps := Get(data, "steps");
    if steps.Some? && steps.value.Arr? && steps.value.items != [] {
      for i := 0 to |steps.value.items|
        invariant errors.entries == old(errors.entries) + AllSteps(rd, steps.value.items, i)
      {
        errors.entries := errors.entries + StepProblems(rd, steps.value.items[i], ItemPath("steps", i));
      }
    } else {
      errors.entries := errors.entries + [Invalid("steps")];
    }
  }

  method ValidateEvidence(data: Value, errors: Problems)
    modifies errors
    ensures errors.entries == old(errors.entries) + EvidenceListProblems(data)
  {
    hide EvidenceProblems, ItemPath;
    var evidence := GetOr(data, "evidence", Arr([]));
    if evidence.Arr? {
      for i := 0 to |evidence.items|
        invariant errors.entries == old(errors.entries) + AllEvidence(evidence.items, i)
      {
        errors.entries := errors.entries + EvidenceProblems(evidence.items[i], ItemPath("evidence", i));
      }
    } else {
      errors.entries := errors.entries + [Invalid("evidence")];
    }
  }

  // validate_candidate: raises exactly when some check appended a problem.
  method ValidateCandidate(rd: Reader, data: Value) returns (r: Outcome<Value>)
    ensures r == if Accepts(rd, data) then Ok(data) else Err(ValidationError)
  {
    hide HeadProblems, ResultProblems, Scan, StepListProblems, EvidenceListProblems;
    if !data.Obj? { return Err(ValidationError); }
    var errors := new Problems();
    ScanForbidden(data, "$", errors);
    errors.entries := errors.entries + HeadProblems(rd, data);
    ValidateSteps(rd, data, errors);
    errors.entries := errors.entries + ResultProblems(data);
    ValidateEvidence(data, errors);
    assert [] + Scan(data, "$") == Scan(data, "$");
    r := if errors.entries == [] then Ok(data) else Err(ValidationError);
  }

  // ----- what acceptance guarantees -----

  lemma AcceptedParts(rd: Reader, data: Value)
    requires Accepts(rd, data)
    ensures data.Obj? && Scan(data, "$") == [] && HeadProblems(rd, data) == [] && StepListProblems(rd, data) == []
    ensures ResultProblems(data) == [] && EvidenceListProblems(data) == [] && NoForbidden(data)
  {
    hide HeadProblems, StepListProblems, ResultProblems, EvidenceListProblems, Scan, NoForbidden;
    ScanIff(data, "$");
  }

  lemma {:induction false} AcceptedEvidence(xs: seq<Value>, n: nat)
    requires n <= |xs| && AllEvidence(xs, n) == []
    ensures forall i :: 0 <= i < n ==> EvidenceProblems(xs[i], ItemPath("evidence", i)) == []
  {
    hide EvidenceProblems, ItemPath;
    if n > 0 { AcceptedEvidence(xs, n - 1); }
  }

  // An accepted item never becomes a legacy row, and it verifies exactly when
  // its four free-form fields are strings or null: validation does not look at
  // the type of evidence_type, source_ref or provenance.
  lemma AcceptedItem(item: Value, path: string)
    requires EvidenceProblems(item, path) == []
    ensures item.Obj?
    ensures TextItem(item) <==> IsCell(ItemType(item)) && IsCell(ItemSource(item)) && IsCell(ItemProvenance(item)) && IsCell(ItemExcerpt(item))
    ensures CanonicalEvidence(item).Some? ==> CanonicalEvidence(item).value.state != LEGACY_STATE
  {
    hide Digest, Evidence.Record, DigestText, EmptyText;
    if !Truthy(ItemExcerpt(item)) {
      assert !HasExcerpt(item);
      assert AlgorithmLength(Fld(item, "hash_algorithm")).Some?;
      assert OneOf(Fld(item, "verification_state"), VERIFICATION_STATES);
    }
  }

  // An accepted item whose row is reported as soon as it has been inserted: its
  // evidence_type is a number, which the column turns into text.
  lemma AcceptedYetReported()
    ensures var item := Obj([Field("evidence_type", Int(5)), Field("sanitized_excerpt", Str("ok"))]);
            var row := MakeRow("task_1", 1, item, None, "event_1", "2025-01-01");
            EvidenceProblems(item, "evidence") == [] && row.Some? && Verify([row.value], 1) == Some(Tally(1, 0, ["event_1"]))
  {
    hide *;
    var fs := [Field("evidence_type", Int(5)), Field("sanitized_excerpt", Str("ok"))];
    NumberedItem(fs);
    NumberedAccepted(Obj(fs));
    NumberedRow(Obj(fs));
    var row := MakeRow("task_1", 1, Obj(fs), None, "event_1", "2025-01-01").value;
    InsertedRowSound(Obj(fs), row);
    OneRowReported(row);
  }

  lemma NumberedAccepted(item: Value)
    requires item.Obj? && Get(item, "evidence_type") == Some(Int(5)) && Get(item, "sanitized_excerpt") == Some(Str("ok"))
    requires forall k :: k != "evidence_type" && k != "sanitized_excerpt" ==> Get(item, k) == None
    ensures EvidenceProblems(item, "evidence") == [] && !TextItem(item)
  {
    hide Get;
    assert !IsSpace("ok"[0]);
  }

  lemma NumberedRow(item: Value)
    requires item.Obj? && Get(item, "evidence_type") == Some(Int(5)) && Get(item, "sanitized_excerpt") == Some(Str("ok"))
    requires forall k :: k != "evidence_type" && k != "sanitized_excerpt" ==> Get(item, k) == None
    ensures var row := MakeRow("task_1", 1, item, None, "event_1", "2025-01-01");
            row.Some? && row.value.taskId == "task_1" && row.value.ordinal == 1 && row.value.previousHash == None
            && row.value.eventId == "event_1" && row.value.createdAt == "2025-01-01" && !Legacy(row.value)
  {
    hide Get, Digest, Evidence.Record, EventHash, IntText;
  }

  lemma OneRowReported(row: EvidenceRow)
    requires Checkable(row) && !Intact(row, None) && !Legacy(row)
    ensures Verify([row], 1) == Some(Tally(1, 0, [row.eventId]))
  {
    hide Checkable, Intact, Legacy, Verify;
    VerifyNothing([row]);
    VerifyStep([row], 1, NO_TALLY);
    assert [] + [row.eventId] == [row.eventId];
  }

  lemma NumberedItem(fs: seq<Field>)
    requires fs == [Field("evidence_type", Int(5)), Field("sanitized_excerpt", Str("ok"))]
    ensures Get(Obj(fs), "evidence_type") == Some(Int(5)) && Get(Obj(fs), "sanitized_excerpt") == Some(Str("ok"))
    ensures forall k :: k != "evidence_type" && k != "sanitized_excerpt" ==> Get(Obj(fs), k) == None
    ensures WellFormed(Obj(fs))
  {
    GetAt(fs, 0);
    GetAt(fs, 1);
    forall k | k != "evidence_type" && k != "sanitized_excerpt" ensures Get(Obj(fs), k) == None {
      GetIn(Obj(fs), k);
    }
  }

  // ----- the extra rules before an assertion is used -----

  function UntrustedProblems(data: Value): seq<Problem> {
    var business, ai := Fld(data, "business_context"), Fld(data, "ai_context");
    When(!Fld(data, SESSION).Null?, Invalid(SESSION))
    + (if business.Obj? then
         When(Fld(business, "provenance") == Str("harness_provided"), Invalid("business_context.provenance"))
         + When(!Fld(business, "department").Null?, Invalid("business_context.department"))
         + When(!Fld(business, "workflow").Null?, Invalid("business_context.workflow"))
         + When(!Fld(business, "ref").Null?, Invalid("business_context.ref"))
       else [])
    + When(ai.Obj? && Fld(ai, "provenance") == Str("harness_provided"), Invalid("ai_context.provenance"))
  }

  predicate Untrusted(data: Value) {
    UntrustedProblems(data) == []
  }

  // What an accepted untrusted candidate cannot carry.
  lemma UntrustedMeans(rd: Reader, data: Value)
    requires Accepts(rd, data) && Untrusted(data)
    ensures Fld(data, SESSION).Null?
    ensures var business := Fld(data, "business_context");
            (business.Null? || business.Obj?) && Fld(business, "ref").Null? && Fld(business, "department").Null?
            && Fld(business, "workflow").Null? && Fld(business, "provenance") != Str("harness_provided")
    ensures var ai := Fld(data, "ai_context");
            (ai.Null? || ai.Obj?) && Fld(ai, "provenance") != Str("harness_provided")
  {
    hide Scan, StepListProblems, ResultProblems, EvidenceListProblems, EmptyText, BadTimestamp, BadSession;
    AcceptedParts(rd, data);
    assert BusinessProblems(Fld(data, "business_context")) == [] && AiProblems(Fld(data, "ai_context")) == [];
  }
}
