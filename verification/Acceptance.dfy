// Which candidates are acceptable, field by field, and that validate_candidate
// accepts exactly these.
module Acceptance {
  import opened Wrappers
  import opened Json
  import opened Digests
  import opened Evidence
  import opened Labels
  import opened Redaction
  import opened Validation

  // ----- fields: an absent one reads as null -----

  // Its text has a character that is not space.
  ghost predicate Visible(v: Value) {
    exists i :: 0 <= i < |PyStr(v)| && !IsSpace(PyStr(v)[i])
  }

  ghost predicate HasText(v: Value, k: string) {
    Get(v, k).Some? && Visible(Fld(v, k))
  }

  ghost predicate Named(v: Value, names: set<string>) {
    exists name :: name in names && v == Str(name)
  }

  ghost predicate NullOrString(v: Value) {
    v.Null? || IsString(v)
  }

  ghost predicate NullOrInstant(rd: Reader, v: Value) {
    v.Null? || rd.instant(v).Some?
  }

  ghost predicate AcceptableBusiness(v: Value) {
    && v.Obj? && Named(Fld(v, "provenance"), CONTEXT_PROVENANCE)
    && NullOrString(Fld(v, "ref")) && NullOrString(Fld(v, "department")) && NullOrString(Fld(v, "workflow"))
  }

  ghost predicate AcceptableAi(v: Value) {
    && v.Obj? && Named(Fld(v, "provenance"), AI_CONTEXT_PROVENANCE)
    && NullOrString(Fld(v, "model")) && NullOrString(Fld(v, "provider")) && NullOrString(Fld(v, "skill")) && NullOrString(Fld(v, "version"))
  }

  ghost predicate AcceptableCapability(v: Value) {
    && v.Obj? && Named(Fld(v, "kind"), CAPABILITY_KINDS) && HasText(v, "name")
    && (Get(v, "version").None? || IsString(Fld(v, "version")))
  }

  ghost predicate AcceptableIntervention(v: Value) {
    && v.Obj? && Named(Fld(v, "reason"), INTERVENTION_REASONS)
    && (Get(v, "rework").None? || Fld(v, "rework").Bool?)
    && (Get(v, "modified_step").None? || (Fld(v, "modified_step").Int? && Fld(v, "modified_step").n > 0))
  }

  // A number from 0 to 1; a boolean is none.
  ghost predicate UnitNumber(rd: Reader, v: Value) {
    (v.Int? && 0 <= v.n <= 1) || (v.Float? && rd.unit(v.repr))
  }

  ghost predicate NullOrDuration(v: Value) {
    v.Null? || (v.Int? && v.n >= 0)
  }

  ghost predicate AcceptableStep(rd: Reader, step: Value) {
    && step.Obj? && Named(Fld(step, "actor"), ACTORS) && Named(Fld(step, "event_type"), EVENT_TYPES)
    && Named(Fld(step, "provenance"), PROVENANCE)
    && (Fld(step, "provenance") == Str("ai_inferred") ==> UnitNumber(rd, Fld(step, "confidence")))
    && HasText(step, "summary") && |PyStr(Fld(step, "summary"))| <= MAX_SUMMARY_LENGTH
    && NullOrInstant(rd, Fld(step, "occurred_at")) && NullOrDuration(Fld(step, "duration_ms"))
    && (Fld(step, "capability").Null? || AcceptableCapability(Fld(step, "capability")))
    && (Fld(step, "intervention").Null? || AcceptableIntervention(Fld(step, "intervention")))
  }

  // So many hexadecimal characters, in any case.
  ghost predicate Hexadecimal(v: Value, length: nat) {
    if v.HexStr? then length == 64
    else |PyStr(v)| == length && forall i :: 0 <= i < length ==> HexChar(PyStr(v)[i])
  }

  ghost predicate HexChar(c: char) {
    '0' <= c <= '9' || 'a' <= c <= 'f' || 'A' <= c <= 'F'
  }

  ghost predicate Retained(item: Value) {
    IsString(Fld(item, "sanitized_excerpt")) && Visible(Fld(item, "sanitized_excerpt"))
  }

  // A retained excerpt that claims nothing about anything outside, or the digest
  // of something kept outside.
  ghost predicate AcceptableItem(item: Value) {
    && item.Obj? && Get(item, "content_hash").None?
    && if Retained(item) then
         && |PyStr(Fld(item, "sanitized_excerpt"))| <= MAX_EXCERPT_LENGTH
         && Get(item, "external_digest").None? && Get(item, "hash_algorithm").None? && Get(item, "verification_state").None?
       else
         && HasText(item, "external_digest") && HasText(item, "source_ref")
         && Named(Fld(item, "verification_state"), VERIFICATION_STATES)
         && Hexadecimal(Fld(item, "external_digest"), if Fld(item, "hash_algorithm") == Str("sha256") then 64 else 128)
         && Named(Fld(item, "hash_algorithm"), {"sha256", "sha512", "blake2b"})
  }

  ghost predicate AcceptableHead(rd: Reader, data: Value) {
    && HasText(data, "task_type") && HasText(data, "task_goal")
    && NullOrString(Fld(data, SESSION))
    && (IsString(Fld(data, SESSION)) ==> Visible(Fld(data, SESSION)) && |PyStr(Fld(data, SESSION))| <= MAX_SESSION_ID_LENGTH)
    && NullOrInstant(rd, Fld(data, "started_at")) && NullOrInstant(rd, Fld(data, "completed_at"))
    && (Fld(data, "business_context").Null? || AcceptableBusiness(Fld(data, "business_context")))
    && (Fld(data, "ai_context").Null? || AcceptableAi(Fld(data, "ai_context")))
    && (Fld(data, "process_summary").Null? || |PyStr(Fld(data, "process_summary"))| <= MAX_SUMMARY_LENGTH)
  }

  ghost predicate AcceptableSteps(rd: Reader, v: Value) {
    v.Arr? && |v.items| > 0 && forall i :: 0 <= i < |v.items| ==> AcceptableStep(rd, v.items[i])
  }

  ghost predicate AcceptableItems(v: Value) {
    v.Arr? && forall i :: 0 <= i < |v.items| ==> AcceptableItem(v.items[i])
  }

  ghost predicate Acceptable(rd: Reader, data: Value) {
    && data.Obj? && NoForbidden(data) && AcceptableHead(rd, data)
    && AcceptableSteps(rd, Fld(data, "steps"))
    && Fld(data, "final_result").Obj? && Named(Fld(Fld(data, "final_result"), "adoption_status"), ADOPTION)
    && (Get(data, "evidence").None? || AcceptableItems(Fld(data, "evidence")))
  }

  // ----- each check against its field -----

  lemma BlankIff(v: Value)
    ensures Blank(PyStr(v)) <==> !Visible(v)
  {
    hide PyStr, IsSpace;
  }

  lemma EmptyTextIff(v: Value, k: string)
    ensures EmptyText(v, k) <==> !HasText(v, k)
  {
    hide Get, IsSpace;
    BlankIff(GetOr(v, k, Str("")));
  }

  lemma NamedIff(v: Value, names: set<string>)
    ensures OneOf(v, names) <==> Named(v, names)
  {
  }

  lemma BusinessIff(v: Value)
    ensures BusinessProblems(v) == [] <==> v.Null? || AcceptableBusiness(v)
  {
    hide Get, OneOf, Named;
    NamedIff(Fld(v, "provenance"), CONTEXT_PROVENANCE);
  }

  lemma AiIff(v: Value)
    ensures AiProblems(v) == [] <==> v.Null? || AcceptableAi(v)
  {
    hide Get, OneOf, Named;
    NamedIff(Fld(v, "provenance"), AI_CONTEXT_PROVENANCE);
  }

  lemma CapabilityIff(v: Value, path: string)
    ensures CapabilityProblems(v, path) == [] <==> v.Null? || AcceptableCapability(v)
  {
    hide Get, OneOf, EmptyText, Named, HasText;
    NamedIff(Fld(v, "kind"), CAPABILITY_KINDS);
    EmptyTextIff(v, "name");
  }

  lemma InterventionIff(v: Value, path: string)
    ensures InterventionProblems(v, path) == [] <==> v.Null? || AcceptableIntervention(v)
  {
    hide Get, OneOf, Named;
    NamedIff(Fld(v, "reason"), INTERVENTION_REASONS);
  }

  lemma ValuesIff(rd: Reader, v: Value)
    ensures BadTimestamp(rd, v) <==> !NullOrInstant(rd, v)
    ensures BadDuration(v) <==> !NullOrDuration(v)
  {
  }

  lemma ConfidenceIff(rd: Reader, step: Value)
    ensures BadConfidence(rd, Fld(step, "confidence")) <==> !UnitNumber(rd, Fld(step, "confidence"))
  {
    hide Get;
  }

  lemma StepIff(rd: Reader, step: Value, path: string)
    ensures StepProblems(rd, step, path) == [] <==> AcceptableStep(rd, step)
  {
    hide OneOf, EmptyText, Named, HasText, BadConfidence, BadTimestamp, BadDuration, UnitNumber, NullOrInstant, NullOrDuration,
         CapabilityProblems, InterventionProblems, AcceptableCapability, AcceptableIntervention, PyStr, Get;
    NamedIff(Fld(step, "actor"), ACTORS);
    NamedIff(Fld(step, "event_type"), EVENT_TYPES);
    NamedIff(Fld(step, "provenance"), PROVENANCE);
    ConfidenceIff(rd, step);
    EmptyTextIff(step, "summary");
    TextPresent(step, "summary");
    ValuesIff(rd, Fld(step, "occurred_at"));
    ValuesIff(rd, Fld(step, "duration_ms"));
    CapabilityIff(Fld(step, "capability"), path + ".capability");
    InterventionIff(Fld(step, "intervention"), path + ".intervention");
  }

  lemma TextPresent(v: Value, k: string)
    ensures HasText(v, k) ==> GetOr(v, k, Str("")) == Fld(v, k)
  {
    hide Get;
  }

  lemma RetainedIff(item: Value)
    ensures HasExcerpt(item) <==> Retained(item)
    ensures HasExcerpt(item) && Fld(item, "sanitized_excerpt").HexStr? ==> |PyStr(Fld(item, "sanitized_excerpt"))| <= MAX_EXCERPT_LENGTH
  {
    hide Get;
    BlankIff(Fld(item, "sanitized_excerpt"));
    assert |"<digest>"| == 8;
    assert Fld(item, "sanitized_excerpt").HexStr? ==> !IsSpace(PyStr(Fld(item, "sanitized_excerpt"))[0]);
  }

  lemma HexCharIff(c: char)
    ensures '0' <= LowerChar(c) <= '9' || 'a' <= LowerChar(c) <= 'f' <==> HexChar(c)
  {
  }

  lemma HexadecimalIff(v: Value, length: nat)
    ensures DigestText(v, length) <==> Hexadecimal(v, length)
  {
    hide PyStr, LowerChar, HexChar;
    var s := PyStr(v);
    forall i | 0 <= i < |s| ensures '0' <= Lower(s)[i] <= '9' || 'a' <= Lower(s)[i] <= 'f' <==> HexChar(s[i]) { HexCharIff(s[i]); }
  }

  lemma AlgorithmIff(v: Value)
    ensures AlgorithmLength(v).Some? <==> Named(v, {"sha256", "sha512", "blake2b"})
    ensures AlgorithmLength(v).Some? ==> AlgorithmLength(v).value == if v == Str("sha256") then 64 else 128
    ensures AlgorithmLength(v).Some? ==> Visible(v)
  {
    assert !IsSpace("sha256"[0]) && !IsSpace("sha512"[0]) && !IsSpace("blake2b"[0]);
    if AlgorithmLength(v).Some? { assert !IsSpace(PyStr(v)[0]); }
  }

  lemma StateIff(v: Value)
    ensures OneOf(v, VERIFICATION_STATES) <==> Named(v, VERIFICATION_STATES)
    ensures OneOf(v, VERIFICATION_STATES) ==> Visible(v)
  {
    assert !IsSpace("verified"[0]) && !IsSpace("unverified"[0]);
    if OneOf(v, VERIFICATION_STATES) { assert !IsSpace(PyStr(v)[0]); }
  }

  lemma ItemIff(item: Value, path: string)
    ensures EvidenceProblems(item, path) == [] <==> AcceptableItem(item)
  {
    hide EmptyText, HasText, HasExcerpt, Retained, OneOf, Named, AlgorithmLength, DigestText, Hexadecimal, Get, PyStr;
    RetainedIff(item);
    ExcerptIs(item);
    if item.Obj? && !Retained(item) {
      var size := AlgorithmLength(Fld(item, "hash_algorithm"));
      ExternalText(item);
      AlgorithmIff(Fld(item, "hash_algorithm"));
      StateIff(Fld(item, "verification_state"));
      TextPresent(item, "external_digest");
      HexadecimalIff(Fld(item, "external_digest"), 64);
      HexadecimalIff(Fld(item, "external_digest"), 128);
    }
  }

  lemma ExcerptIs(item: Value)
    ensures HasExcerpt(item) && Fld(item, "sanitized_excerpt").Str? ==>
              PyStr(Fld(item, "sanitized_excerpt")) == Fld(item, "sanitized_excerpt").s
    ensures HasExcerpt(item) ==> IsString(Fld(item, "sanitized_excerpt"))
  {
    hide Get;
  }

  lemma ExternalText(item: Value)
    ensures EmptyText(item, "external_digest") <==> !HasText(item, "external_digest")
    ensures EmptyText(item, "source_ref") <==> !HasText(item, "source_ref")
    ensures OneOf(Fld(item, "verification_state"), VERIFICATION_STATES) ==> !EmptyText(item, "verification_state")
    ensures AlgorithmLength(Fld(item, "hash_algorithm")).Some? ==> !EmptyText(item, "hash_algorithm")
  {
    hide EmptyText, OneOf, AlgorithmLength, Visible, Get, PyStr;
    EmptyTextIff(item, "external_digest");
    EmptyTextIff(item, "source_ref");
    EmptyTextIff(item, "verification_state");
    EmptyTextIff(item, "hash_algorithm");
    StateIff(Fld(item, "verification_state"));
    AlgorithmIff(Fld(item, "hash_algorithm"));
    NotNamed();
  }

  lemma NotNamed()
    ensures !OneOf(Null, VERIFICATION_STATES) && AlgorithmLength(Null).None?
  {
  }

  lemma SessionIff(v: Value)
    ensures BadSession(v) <==>
            !(NullOrString(v) && (IsString(v) ==> Visible(v) && |PyStr(v)| <= MAX_SESSION_ID_LENGTH))
  {
    hide PyStr, Blank, Visible;
    BlankIff(v);
  }

  lemma HeadIff(rd: Reader, data: Value)
    requires Get(data, "steps").Some? && Get(data, "final_result").Some?
    ensures HeadProblems(rd, data) == [] <==> AcceptableHead(rd, data)
  {
    hide EmptyText, HasText, BadTimestamp, NullOrInstant, BadSession, BusinessProblems, AiProblems, AcceptableBusiness, AcceptableAi,
         Get, PyStr, Visible, NullOrString, IsString;
    EmptyTextIff(data, "task_type");
    EmptyTextIff(data, "task_goal");
    TextSome(data, "task_type");
    TextSome(data, "task_goal");
    SessionIff(Fld(data, SESSION));
    ValuesIff(rd, Fld(data, "started_at"));
    ValuesIff(rd, Fld(data, "completed_at"));
    BusinessIff(Fld(data, "business_context"));
    AiIff(Fld(data, "ai_context"));
  }

  lemma TextSome(v: Value, k: string)
    ensures HasText(v, k) ==> Get(v, k).Some?
  {
  }

  lemma HeadNeeds(rd: Reader, data: Value)
    ensures HeadProblems(rd, data) == [] ==> Get(data, "steps").Some? && Get(data, "final_result").Some?
  {
    hide EmptyText, BadTimestamp, BadSession, BusinessProblems, AiProblems, Get, PyStr;
  }

  lemma {:induction false} AllStepsIff(rd: Reader, xs: seq<Value>, n: nat)
    requires n <= |xs|
    ensures AllSteps(rd, xs, n) == [] <==> forall i :: 0 <= i < n ==> AcceptableStep(rd, xs[i])
  {
    hide StepProblems, AcceptableStep, ItemPath;
    if n > 0 {
      AllStepsIff(rd, xs, n - 1);
      StepIff(rd, xs[n - 1], ItemPath("steps", n - 1));
    }
  }

  lemma {:induction false} AllEvidenceIff(xs: seq<Value>, n: nat)
    requires n <= |xs|
    ensures AllEvidence(xs, n) == [] <==> forall i :: 0 <= i < n ==> AcceptableItem(xs[i])
  {
    hide EvidenceProblems, AcceptableItem, ItemPath;
    if n > 0 {
      AllEvidenceIff(xs, n - 1);
      ItemIff(xs[n - 1], ItemPath("evidence", n - 1));
    }
  }

  lemma StepListIff(rd: Reader, data: Value)
    ensures StepListProblems(rd, data) == [] <==> AcceptableSteps(rd, Fld(data, "steps"))
  {
    hide Get, AllSteps, AcceptableStep;
    if Fld(data, "steps").Arr? { AllStepsIff(rd, Fld(data, "steps").items, |Fld(data, "steps").items|); }
  }

  lemma EvidenceListIff(data: Value)
    ensures EvidenceListProblems(data) == [] <==> Get(data, "evidence").None? || AcceptableItems(Fld(data, "evidence"))
  {
    hide Get, AllEvidence, AcceptableItem;
    if Fld(data, "evidence").Arr? { AllEvidenceIff(Fld(data, "evidence").items, |Fld(data, "evidence").items|); }
    AllEvidenceIff([], 0);
  }

  lemma ResultIff(data: Value)
    ensures ResultProblems(data) == [] <==>
            Fld(data, "final_result").Obj? && Named(Fld(Fld(data, "final_result"), "adoption_status"), ADOPTION)
  {
    hide Get, OneOf, Named;
    NamedIff(Fld(Fld(data, "final_result"), "adoption_status"), ADOPTION);
  }

  // validate_candidate accepts exactly the acceptable candidates.
  lemma AcceptsIff(rd: Reader, data: Value)
    ensures Accepts(rd, data) <==> Acceptable(rd, data)
  {
    hide HeadProblems, AcceptableHead, StepListProblems, AcceptableSteps, ResultProblems, Named, EvidenceListProblems, AcceptableItems,
         Scan, NoForbidden, Get;
    ScanIff(data, "$");
    StepListIff(rd, data);
    ResultIff(data);
    EvidenceListIff(data);
    HeadNeeds(rd, data);
    StepsThere(rd, data);
    if Get(data, "steps").Some? && Get(data, "final_result").Some? { HeadIff(rd, data); }
  }

  lemma StepsThere(rd: Reader, data: Value)
    ensures AcceptableSteps(rd, Fld(data, "steps")) ==> Get(data, "steps").Some?
  {
    hide Get, AcceptableStep;
  }

  // normalize_label leaves nothing of a task type exactly when it shows nothing.
  lemma LabelledIff(v: Value)
    ensures NormalizeLabel(PyStr(v)) != "" <==> Visible(v)
  {
    hide PyStr, NormalizeLabel, IsSpace;
    NormalizedEmptyIff(PyStr(v));
  }

  // ----- two spellings of one external digest -----

  // One hexadecimal character, whatever its case.
  ghost predicate SameHexChar(c: char, d: char) {
    c == d || ('a' <= c <= 'f' && d as int + 32 == c as int) || ('a' <= d <= 'f' && c as int + 32 == d as int)
  }

  ghost predicate SameHex(s: string, t: string) {
    |s| == |t| && forall i :: 0 <= i < |s| ==> SameHexChar(s[i], t[i])
  }

  ghost predicate AllHex(s: string) {
    forall i :: 0 <= i < |s| ==> HexChar(s[i])
  }

  lemma LowerHexIff(c: char, d: char)
    requires HexChar(c) && HexChar(d)
    ensures LowerChar(c) == LowerChar(d) <==> SameHexChar(c, d)
    ensures ('0' <= LowerChar(c) <= '9' || 'a' <= LowerChar(c) <= 'f') && SameHexChar(LowerChar(c), c)
  {
  }

  lemma LowerSameHex(s: string, t: string)
    requires AllHex(s) && AllHex(t)
    ensures Lower(s) == Lower(t) <==> SameHex(s, t)
    ensures SameHex(Lower(s), s) && forall i :: 0 <= i < |s| ==> '0' <= Lower(s)[i] <= '9' || 'a' <= Lower(s)[i] <= 'f'
  {
    hide LowerChar, HexChar, SameHexChar;
    forall i | 0 <= i < |s| ensures SameHexChar(Lower(s)[i], s[i]) && ('0' <= Lower(s)[i] <= '9' || 'a' <= Lower(s)[i] <= 'f') {
      LowerHexIff(s[i], s[i]);
    }
    if |s| == |t| {
      forall i | 0 <= i < |s| ensures Lower(s)[i] == Lower(t)[i] <==> SameHexChar(s[i], t[i]) { LowerHexIff(s[i], t[i]); }
      if SameHex(s, t) { assert forall i :: 0 <= i < |s| ==> Lower(s)[i] == Lower(t)[i]; }
    }
  }

  // Two external items that differ at most in their digest are recorded alike,
  // under one content hash, exactly when the digests are one digest in whatever
  // case; and what is stored is that digest in lower case.
  lemma DigestSpellings(a: Value, b: Value, s: string, t: string)
    requires a.Obj? && b.Obj? && !Truthy(ItemExcerpt(a))
    requires Get(a, "external_digest") == Some(Str(s)) && Get(b, "external_digest") == Some(Str(t)) && AllHex(s) && AllHex(t)
    requires Get(a, "hash_algorithm").Some? && Get(a, "verification_state").Some?
    requires forall k :: k != "external_digest" ==> Get(a, k) == Get(b, k)
    ensures CanonicalEvidence(a).Some? && CanonicalEvidence(b).Some?
    ensures CanonicalEvidence(a) == CanonicalEvidence(b) <==> SameHex(s, t)
    ensures var stored := CanonicalEvidence(a).value.externalDigest;
            stored.Str? && SameHex(stored.s, s) && forall i :: 0 <= i < |stored.s| ==> '0' <= stored.s[i] <= '9' || 'a' <= stored.s[i] <= 'f'
  {
    hide Get, Digest, SameHex, AllHex, Lower, Evidence.Record;
    LowerSameHex(s, t);
  }

  // ----- the forbidden keys -----

  // The same letters, upper or lower case; the Kelvin sign is a K.
  ghost predicate SameLetter(c: char, lower: char) {
    c == lower || ('A' <= c <= 'Z' && c as int + 32 == lower as int) || (c as int == 0x212a && lower == 'k')
  }

  // Space, the name in any case, space.
  ghost predicate Spells(key: string, name: string, i: nat) {
    && i + |name| <= |key| && Blank(key[..i]) && Blank(key[i + |name|..])
    && forall n :: 0 <= n < |name| ==> SameLetter(key[i + n], name[n])
  }

  ghost predicate Lowercase(c: char) {
    'a' <= c <= 'z' || c == '_'
  }

  lemma LetterIff(c: char, lower: char)
    requires Lowercase(lower)
    ensures LowerChar(c) == lower <==> SameLetter(c, lower)
    ensures SameLetter(c, lower) ==> !IsSpace(c)
  {
  }

  ghost predicate Plain(s: string) {
    s != "" && forall n :: 0 <= n < |s| ==> Lowercase(s[n])
  }

  lemma PlainScores(name: string)
    requires name in {"employee_score", "ai_usage_score", "productivity_rank", "employee_ranking", "department_ranking", "performance_score"}
    ensures Plain(name)
  {
  }

  lemma PlainClaims(name: string)
    requires name in {"capture_authorized", "enterprise_authorized", "authorized", "authorization", "authorization_grant", "grant", "grant_id"}
    ensures Plain(name)
  {
  }

  lemma PlainKeys(name: string)
    requires name in {"trust_root", "trust_class", "public_key", "private_key", "verification_key", "verifier", "assertion",
                      "assertion_id", "issuer", "signature"}
    ensures Plain(name)
  {
  }

  lemma ForbiddenNames(name: string)
    requires name in FORBIDDEN_KEYS
    ensures Plain(name)
  {
    hide Plain;
    if name in {"employee_score", "ai_usage_score", "productivity_rank", "employee_ranking", "department_ranking", "performance_score"} {
      PlainScores(name);
    } else if name in {"capture_authorized", "enterprise_authorized", "authorized", "authorization", "authorization_grant", "grant",
                       "grant_id"} {
      PlainClaims(name);
    } else {
      PlainKeys(name);
    }
  }

  lemma SpelledLowers(key: string, name: string, i: nat)
    requires Spells(key, name, i) && Plain(name)
    ensures Lower(Strip(key)) == name
  {
    hide IsSpace, LowerChar, SameLetter;
    var j := i + |name|;
    LetterIff(key[i], name[0]);
    LetterIff(key[j - 1], name[|name| - 1]);
    StripIs(key, i, j);
    forall n | 0 <= n < |name| ensures Lower(key[i..j])[n] == name[n] { LetterIff(key[i + n], name[n]); }
  }

  // A key is forbidden exactly when it spells one of the names, in any case and
  // with any space around it.
  lemma ForbiddenIff(key: string)
    ensures Forbidden(key) <==> exists name, i :: name in FORBIDDEN_KEYS && Spells(key, name, i)
  {
    hide IsSpace, LowerChar, SameLetter, Lowercase;
    if Forbidden(key) {
      var name := Lower(Strip(key));
      var i, j := StripLeaves(key);
      ForbiddenNames(name);
      forall n | 0 <= n < |name| ensures SameLetter(key[i + n], name[n]) { LetterIff(key[i + n], name[n]); }
      assert Spells(key, name, i);
    }
    forall name, i | name in FORBIDDEN_KEYS && Spells(key, name, i) ensures Forbidden(key) {
      ForbiddenNames(name);
      SpelledLowers(key, name, i);
    }
  }

  // ----- the extra rules before an assertion is used -----

  // No session, no claim to be the harness, none of the harness's own fields.
  ghost predicate ClaimsNothing(data: Value) {
    && Get(data, SESSION) in [None, Some(Null)]
    && (Fld(data, "business_context").Obj? ==>
          && Get(Fld(data, "business_context"), "provenance") != Some(Str("harness_provided"))
          && forall k :: k in ["department", "workflow", "ref"] ==> Get(Fld(data, "business_context"), k) in [None, Some(Null)])
    && (Fld(data, "ai_context").Obj? ==> Get(Fld(data, "ai_context"), "provenance") != Some(Str("harness_provided")))
  }

  lemma NullIff(v: Value, k: string)
    ensures Fld(v, k).Null? <==> Get(v, k) in [None, Some(Null)]
    ensures Fld(v, k) == Str("harness_provided") <==> Get(v, k) == Some(Str("harness_provided"))
  {
    hide Get;
  }

  lemma UntrustedIff(data: Value)
    ensures Untrusted(data) <==> ClaimsNothing(data)
  {
    hide Get, Fld;
    var business, ai := Fld(data, "business_context"), Fld(data, "ai_context");
    NullIff(data, SESSION);
    NullIff(business, "provenance");
    NullIff(business, "department");
    NullIff(business, "workflow");
    NullIff(business, "ref");
    NullIff(ai, "provenance");
  }

  // ----- an acceptable candidate with every optional field -----

  const MOMENT := Str("2026-07-01T09:00:00Z")

  const BUSINESS := [Field("provenance", Str("user_reported")), Field("ref", Str("T-1")), Field("department", Str("sales")),
                     Field("workflow", Str("quotes"))]
  const AI := [Field("provenance", Str("observed")), Field("model", Str("m1")), Field("provider", Str("p1")), Field("skill", Str("s1")),
               Field("version", Str("1"))]
  const CAPABILITY := [Field("kind", Str("tool")), Field("name", Str("quoter")), Field("version", Str("1"))]
  const INTERVENTION := [Field("reason", Str("style")), Field("rework", Bool(false)), Field("modified_step", Int(1))]
  const STEP := [Field("actor", Str("ai")), Field("event_type", Str("action")), Field("provenance", Str("ai_inferred")),
                 Field("confidence", Float("0.5")), Field("summary", Str("drafted")), Field("occurred_at", MOMENT),
                 Field("duration_ms", Int(40)), Field("capability", Obj(CAPABILITY)), Field("intervention", Obj(INTERVENTION))]
  const RETAINED := [Field("evidence_type", Str("note")), Field("sanitized_excerpt", Str("ok"))]
  const EXTERNAL := [Field("external_digest", Str(seq(64, i => 'A'))), Field("hash_algorithm", Str("sha256")),
                     Field("source_ref", Str("crm")), Field("verification_state", Str("verified"))]
  const FULL := [Field("task_type", Str("quote")), Field("task_goal", Str("price it")), Field("capture_session_id", Str("s-1")),
                 Field("started_at", MOMENT), Field("completed_at", MOMENT), Field("business_context", Obj(BUSINESS)),
                 Field("ai_context", Obj(AI)), Field("process_summary", Str("short")), Field("steps", Arr([Obj(STEP)])),
                 Field("final_result", Obj([Field("adoption_status", Str("adopted"))])),
                 Field("evidence", Arr([Obj(RETAINED), Obj(EXTERNAL)]))]

  // Keys that differ, none of them forbidden, over harmless values.
  ghost predicate Harmless(fs: seq<Field>) {
    UniqueKeys(fs) && forall i :: 0 <= i < |fs| ==> Usual(fs[i].key) && NoForbidden(fs[i].val)
  }

  ghost predicate Usual(key: string) {
    Plain(key) && key !in FORBIDDEN_KEYS
  }

  lemma PlainAllowed(key: string)
    requires Usual(key)
    ensures !Forbidden(key)
  {
    hide IsSpace, LowerChar, Lowercase, SameLetter;
    assert key[..0] == "" && key[|key|..] == "";
    assert Spells(key, key, 0) by { assert forall n :: 0 <= n < |key| ==> SameLetter(key[0 + n], key[n]) by { Same(); } }
    SpelledLowers(key, key, 0);
  }

  lemma Same()
    ensures forall c :: SameLetter(c, c)
  {
  }

  lemma HarmlessObject(fs: seq<Field>)
    requires Harmless(fs)
    ensures NoForbidden(Obj(fs))
  {
    hide Forbidden, Usual;
    forall f | f in fs ensures !Forbidden(f.key) && NoForbidden(f.val) {
      var i :| 0 <= i < |fs| && fs[i] == f;
      PlainAllowed(fs[i].key);
    }
  }

  // Reading a field by its place.
  lemma Reads(fs: seq<Field>, i: nat)
    requires UniqueKeys(fs) && i < |fs|
    ensures Get(Obj(fs), fs[i].key) == Some(fs[i].val) && Fld(Obj(fs), fs[i].key) == fs[i].val
  {
    GetAt(fs, i);
  }

  lemma ReadsNothing(fs: seq<Field>, k: string)
    requires forall i :: 0 <= i < |fs| ==> fs[i].key != k
    ensures Get(Obj(fs), k).None? && Fld(Obj(fs), k).Null?
  {
    GetIn(Obj(fs), k);
  }

  lemma ContextKeys()
    ensures Usual("provenance")
    ensures Usual("ref")
    ensures Usual("department")
    ensures Usual("workflow")
    ensures Usual("model")
    ensures Usual("provider")
  {
  }

  lemma PartKeys()
    ensures Usual("skill")
    ensures Usual("version")
    ensures Usual("kind")
    ensures Usual("name")
    ensures Usual("reason")
    ensures Usual("rework")
  {
  }

  lemma StepKeys()
    ensures Usual("modified_step")
    ensures Usual("actor")
    ensures Usual("event_type")
    ensures Usual("confidence")
    ensures Usual("summary")
  {
  }

  lemma TimeKeys()
    ensures Usual("occurred_at")
    ensures Usual("duration_ms")
    ensures Usual("capability")
    ensures Usual("intervention")
    ensures Usual("evidence_type")
  {
  }

  lemma ItemKeys()
    ensures Usual("sanitized_excerpt")
    ensures Usual("external_digest")
    ensures Usual("hash_algorithm")
    ensures Usual("source_ref")
  {
  }

  lemma HeadKeys()
    ensures Usual("verification_state")
    ensures Usual("task_type")
    ensures Usual("task_goal")
    ensures Usual("capture_session_id")
  {
  }

  lemma WhenKeys()
    ensures Usual("started_at")
    ensures Usual("completed_at")
    ensures Usual("business_context")
    ensures Usual("ai_context")
  {
  }

  lemma BodyKeys()
    ensures Usual("process_summary")
    ensures Usual("steps")
    ensures Usual("final_result")
    ensures Usual("evidence")
    ensures Usual("adoption_status")
  {
  }

  lemma ContextsHarmless()
    ensures Harmless(BUSINESS) && Harmless(AI)
  {
    hide Usual;
    ContextKeys();
    PartKeys();
  }

  lemma PartsHarmless()
    ensures Harmless(CAPABILITY) && Harmless(INTERVENTION)
  {
    hide Usual;
    PartKeys();
    StepKeys();
  }

  lemma ScalarHarmless(v: Value)
    requires !v.Obj? && !v.Arr?
    ensures NoForbidden(v)
  {
  }

  lemma StepDiffers()
    ensures UniqueKeys(STEP)
  {
  }

  lemma StepUsual(i: nat)
    requires i < |STEP|
    ensures Usual(STEP[i].key)
  {
    hide Usual;
    ContextKeys();
    StepKeys();
    TimeKeys();
  }

  lemma StepHarmless()
    ensures Harmless(STEP)
  {
    hide Usual, UniqueKeys, NoForbidden;
    StepDiffers();
    PartsHarmless();
    HarmlessObject(CAPABILITY);
    HarmlessObject(INTERVENTION);
    forall i | 0 <= i < |STEP| ensures Usual(STEP[i].key) && NoForbidden(STEP[i].val) {
      StepUsual(i);
      if i < 7 { ScalarHarmless(STEP[i].val); }
    }
  }

  lemma ItemsHarmless()
    ensures Harmless(RETAINED) && Harmless(EXTERNAL)
  {
    hide Usual;
    TimeKeys();
    ItemKeys();
    HeadKeys();
  }

  lemma FullDiffers()
    ensures UniqueKeys(FULL)
  {
  }

  lemma FullUsual(i: nat)
    requires i < |FULL|
    ensures Usual(FULL[i].key)
  {
    hide Usual;
    HeadKeys();
    WhenKeys();
    BodyKeys();
  }

  lemma ListHarmless(xs: seq<Value>)
    requires forall i :: 0 <= i < |xs| ==> NoForbidden(xs[i])
    ensures NoForbidden(Arr(xs))
  {
  }

  lemma ListsHarmless()
    ensures NoForbidden(Arr([Obj(STEP)])) && NoForbidden(Arr([Obj(RETAINED), Obj(EXTERNAL)]))
    ensures NoForbidden(Obj([Field("adoption_status", Str("adopted"))]))
  {
    hide Usual, UniqueKeys, NoForbidden;
    StepHarmless();
    HarmlessObject(STEP);
    ItemsHarmless();
    HarmlessObject(RETAINED);
    HarmlessObject(EXTERNAL);
    ListHarmless([Obj(STEP)]);
    ListHarmless([Obj(RETAINED), Obj(EXTERNAL)]);
    BodyKeys();
    var result := [Field("adoption_status", Str("adopted"))];
    assert UniqueKeys(result) by { OneDiffers(result); }
    ScalarHarmless(result[0].val);
    HarmlessObject(result);
  }

  lemma OneDiffers(fs: seq<Field>)
    requires |fs| == 1
    ensures UniqueKeys(fs)
  {
  }

  lemma FullHarmless()
    ensures Harmless(FULL)
  {
    hide Usual, UniqueKeys, NoForbidden;
    FullDiffers();
    ContextsHarmless();
    HarmlessObject(BUSINESS);
    HarmlessObject(AI);
    ListsHarmless();
    forall i | 0 <= i < |FULL| ensures Usual(FULL[i].key) && NoForbidden(FULL[i].val) {
      FullUsual(i);
      if i < 5 || i == 7 { ScalarHarmless(FULL[i].val); }
    }
  }

  lemma StepAcceptable(rd: Reader)
    requires rd.instant(MOMENT).Some? && rd.unit("0.5")
    ensures AcceptableStep(rd, Obj(STEP))
  {
    hide UniqueKeys, Get, Fld;
    StepDiffers();
    StepReads();
    PartsAcceptable();
    Shown("drafted");
    assert |PyStr(Str("drafted"))| == 7;
  }

  lemma StepReads()
    requires UniqueKeys(STEP)
    ensures Fld(Obj(STEP), "actor") == Str("ai") && Fld(Obj(STEP), "event_type") == Str("action")
    ensures Fld(Obj(STEP), "provenance") == Str("ai_inferred") && Fld(Obj(STEP), "confidence") == Float("0.5")
    ensures Get(Obj(STEP), "summary").Some? && Fld(Obj(STEP), "summary") == Str("drafted")
    ensures Fld(Obj(STEP), "occurred_at") == MOMENT && Fld(Obj(STEP), "duration_ms") == Int(40)
    ensures Fld(Obj(STEP), "capability") == Obj(CAPABILITY) && Fld(Obj(STEP), "intervention") == Obj(INTERVENTION)
  {
    hide UniqueKeys, Get, Fld;
    forall i | 0 <= i < |STEP| ensures Get(Obj(STEP), STEP[i].key).Some? && Fld(Obj(STEP), STEP[i].key) == STEP[i].val { Reads(STEP, i); }
    assert STEP[0].key == "actor" && STEP[1].key == "event_type" && STEP[2].key == "provenance" && STEP[3].key == "confidence";
    assert STEP[4].key == "summary" && STEP[5].key == "occurred_at" && STEP[6].key == "duration_ms";
    assert STEP[7].key == "capability" && STEP[8].key == "intervention";
  }

  lemma Shown(s: string)
    requires s != "" && !IsSpace(s[0])
    ensures Visible(Str(s))
  {
    assert !IsSpace(PyStr(Str(s))[0]);
  }

  lemma PartsAcceptable()
    ensures AcceptableCapability(Obj(CAPABILITY)) && AcceptableIntervention(Obj(INTERVENTION))
  {
    hide Get, Fld;
    Reads(CAPABILITY, 0);
    Reads(CAPABILITY, 1);
    Reads(CAPABILITY, 2);
    Reads(INTERVENTION, 0);
    Reads(INTERVENTION, 1);
    Reads(INTERVENTION, 2);
    Shown("quoter");
  }

  lemma BusinessAcceptable()
    ensures AcceptableBusiness(Obj(BUSINESS))
  {
    hide Get, Fld;
    Reads(BUSINESS, 0);
    Reads(BUSINESS, 1);
    Reads(BUSINESS, 2);
    Reads(BUSINESS, 3);
  }

  lemma AiAcceptable()
    ensures AcceptableAi(Obj(AI))
  {
    hide Get, Fld;
    Reads(AI, 0);
    Reads(AI, 1);
    Reads(AI, 2);
    Reads(AI, 3);
    Reads(AI, 4);
  }

  lemma RetainedAcceptable()
    ensures AcceptableItem(Obj(RETAINED))
  {
    hide Get, Fld;
    Reads(RETAINED, 1);
    ReadsNothing(RETAINED, "content_hash");
    ReadsNothing(RETAINED, "external_digest");
    ReadsNothing(RETAINED, "hash_algorithm");
    ReadsNothing(RETAINED, "verification_state");
    Shown("ok");
  }

  lemma ExternalAcceptable()
    ensures AcceptableItem(Obj(EXTERNAL))
  {
    hide Get, Fld;
    ReadsNothing(EXTERNAL, "content_hash");
    ReadsNothing(EXTERNAL, "sanitized_excerpt");
    Reads(EXTERNAL, 0);
    Reads(EXTERNAL, 1);
    Reads(EXTERNAL, 2);
    Reads(EXTERNAL, 3);
    Shown(EXTERNAL[0].val.s);
    Shown("crm");
  }

  lemma FullReads()
    requires UniqueKeys(FULL)
    ensures Get(Obj(FULL), "task_type") == Some(Str("quote")) && Get(Obj(FULL), "task_goal") == Some(Str("price it"))
    ensures Fld(Obj(FULL), "task_type") == Str("quote") && Fld(Obj(FULL), "task_goal") == Str("price it")
    ensures Fld(Obj(FULL), SESSION) == Str("s-1") && Fld(Obj(FULL), "started_at") == MOMENT && Fld(Obj(FULL), "completed_at") == MOMENT
    ensures Fld(Obj(FULL), "business_context") == Obj(BUSINESS) && Fld(Obj(FULL), "ai_context") == Obj(AI)
    ensures Fld(Obj(FULL), "process_summary") == Str("short") && Fld(Obj(FULL), "steps") == Arr([Obj(STEP)])
    ensures Fld(Obj(FULL), "final_result") == Obj([Field("adoption_status", Str("adopted"))])
    ensures Fld(Obj(FULL), "evidence") == Arr([Obj(RETAINED), Obj(EXTERNAL)])
  {
    hide UniqueKeys, Get, Fld;
    forall i | 0 <= i < |FULL| ensures Get(Obj(FULL), FULL[i].key) == Some(FULL[i].val) && Fld(Obj(FULL), FULL[i].key) == FULL[i].val {
      Reads(FULL, i);
    }
    assert FULL[0].key == "task_type" && FULL[1].key == "task_goal" && FULL[2].key == SESSION && FULL[3].key == "started_at";
    assert FULL[4].key == "completed_at" && FULL[5].key == "business_context" && FULL[6].key == "ai_context";
    assert FULL[7].key == "process_summary" && FULL[8].key == "steps" && FULL[9].key == "final_result" && FULL[10].key == "evidence";
  }

  // Every optional field is given, and the candidate is accepted.
  lemma FullAccepted(rd: Reader)
    requires rd.instant(MOMENT).Some? && rd.unit("0.5")
    ensures Accepts(rd, Obj(FULL))
  {
    hide UniqueKeys, Get, Fld, NoForbidden, AcceptableStep, AcceptableItem, AcceptableBusiness, AcceptableAi, Accepts, Visible;
    FullHarmless();
    HarmlessObject(FULL);
    FullDiffers();
    FullReads();
    BusinessAcceptable();
    AiAcceptable();
    StepAcceptable(rd);
    RetainedAcceptable();
    ExternalAcceptable();
    Shown("quote");
    Shown("price it");
    Shown("s-1");
    assert |PyStr(Str("s-1"))| == 3 && |PyStr(Str("short"))| == 5;
    var result := [Field("adoption_status", Str("adopted"))];
    assert UniqueKeys(result) by { OneDiffers(result); }
    Reads(result, 0);
    AcceptsIff(rd, Obj(FULL));
  }
}
