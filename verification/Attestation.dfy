// Exactly which deployments and candidates are admitted: what the trust root,
// the assertion and the grant have to say, condition by condition.
module Attestation {
  import opened Wrappers
  import opened Json
  import opened Canonical
  import opened CanonicalText
  import opened Digests
  import opened Labels
  import opened Validation
  import opened Acceptance
  import opened Authorization

  // ----- values -----

  const FALSY := [Null, Bool(false), Int(0), Float("0.0"), Float("-0.0"), Str(""), Arr([]), Obj([])]

  lemma TruthyIff(v: Value)
    ensures Truthy(v) <==> v !in FALSY
  {
  }

  ghost predicate One(v: Value) {
    v in [Int(1), Bool(true), Float("1.0")]
  }

  // The variable names a file that holds this object.
  ghost predicate FileHolds(env: Environment, name: string, data: Value) {
    && name in env.vars && Visible(Str(env.vars[name])) && env.vars[name] in env.files && env.files[env.vars[name]] == data
    && data.Obj?
  }

  lemma FileIff(env: Environment, name: string)
    ensures forall data :: ReadJsonFile(env, Var(env, name)) == Ok(data) <==> FileHolds(env, name, data)
    ensures ReadJsonFile(env, Var(env, name)).Ok? <==> exists data :: FileHolds(env, name, data)
  {
    hide Visible;
    BlankIff(Str(Var(env, name)));
    forall data ensures ReadJsonFile(env, Var(env, name)) == Ok(data) <==> FileHolds(env, name, data) { }
    if ReadJsonFile(env, Var(env, name)).Ok? { assert FileHolds(env, name, env.files[Var(env, name)]); }
  }

  ghost predicate Unexpired(vf: Verifier, env: Environment, data: Value) {
    && vf.instant(Fld(data, "issued_at")).Some?
    && vf.instant(Fld(data, "expires_at")).Some? && vf.instant(Fld(data, "expires_at")).value > env.now
  }

  ghost predicate Complete(data: Value, names: seq<string>) {
    forall name :: name in names ==> Get(data, name).Some?
  }

  lemma CompleteIff(data: Value, names: seq<string>)
    ensures HasAll(data, names) <==> Complete(data, names)
  {
    hide Get;
  }

  // ----- the text that is signed -----

  // Every key but the signature, as it is.
  ghost predicate Unsigned(data: Value, signed: Value) {
    && signed.Obj? && WellFormed(signed)
    && forall k :: Get(signed, k) == if k == "signature" then None else Get(data, k)
  }

  // The signed text is the canonical text of the data without its signature.
  lemma SignedTextIs(data: Value)
    requires data.Obj? && WellFormed(data)
    ensures exists signed :: Unsigned(data, signed)
    ensures forall signed :: Unsigned(data, signed) ==> SignedText(data) == CanonicalJson(signed)
  {
    hide CanonicalJson, Get;
    var own := Obj(Drop(data.fields, "signature"));
    DropKeeps(data, "signature");
    assert Obj(data.fields) == data;
    forall k ensures Get(own, k) == if k == "signature" then None else Get(data, k) { GetDrop(data.fields, "signature", k); }
    assert Unsigned(data, own);
    forall signed | Unsigned(data, signed) ensures SignedText(data) == CanonicalJson(signed) {
      forall k ensures SameAt(own, signed, k) {
        GetWellFormed(own, k);
        if Get(own, k).Some? { CanonicalJsonIdentifies(Get(own, k).value, Get(own, k).value); }
      }
      SameByGet(own, signed);
      CanonicalJsonIdentifies(own, signed);
    }
  }

  lemma DropKeeps(data: Value, k: string)
    requires data.Obj? && WellFormed(data)
    ensures WellFormed(Obj(Drop(data.fields, k)))
  {
    DropUnique(data.fields, k);
    var r := Drop(data.fields, k);
    forall i | 0 <= i < |r| ensures WellFormed(r[i].val) { assert r[i] in data.fields; }
  }

  // ----- the assertion -----

  // No mode, or the mode of the trust root's class.
  ghost predicate ModeFits(mode: string, trustClass: Value) {
    || mode == ""
    || (mode == "PRODUCTION_ENTERPRISE" && trustClass == Str("PRODUCTION_ENTERPRISE"))
    || (mode == "DEVELOPMENT_TEST" && trustClass == Str("DEVELOPMENT_TEST_ONLY"))
  }

  ghost predicate RootStands(env: Environment, root: Value) {
    && FileHolds(env, ENV_TRUST_ROOT, root) && One(Fld(root, "trust_root_version"))
    && Named(Fld(root, "trust_class"), {"PRODUCTION_ENTERPRISE", "DEVELOPMENT_TEST_ONLY"})
    && Fld(root, "trusted_issuers").Obj? && |Fld(root, "trusted_issuers").fields| > 0
    && ModeFits(Strip(Var(env, ENV_MODE)), Fld(root, "trust_class"))
  }

  ghost predicate AssertionStands(vf: Verifier, env: Environment, assertion: Value) {
    && FileHolds(env, ENV_ASSERTION, assertion) && Complete(assertion, ASSERTION_FIELDS)
    && One(Fld(assertion, "assertion_version")) && Fld(assertion, "capture_authorized") == Bool(true)
    && Fld(assertion, "mode") == Str("ENTERPRISE_MANAGED_CAPTURE")
    && Fld(assertion, "capture_scope").Obj? && Fld(assertion, "storage_scope").Obj?
    && Visible(Fld(assertion, "capture_session_id")) && Unexpired(vf, env, assertion)
  }

  // Both name a key, and not the same one.
  ghost predicate KeysDiffer(assertion: Value, pinned: Value) {
    && Fld(assertion, "key_id") !in FALSY && Fld(pinned, "key_id") !in FALSY
    && Canon(Fld(assertion, "key_id")) != Canon(Fld(pinned, "key_id"))
  }

  // The root pins this key for the issuer, and it accepts the signature.
  ghost predicate SignedUnder(vf: Verifier, root: Value, assertion: Value, pinned: Value) {
    && Fld(assertion, "issuer").Str? && Get(Fld(root, "trusted_issuers"), Fld(assertion, "issuer").s) == Some(pinned) && pinned.Obj?
    && Fld(pinned, "algorithm") == Str("Ed25519") && !KeysDiffer(assertion, pinned)
    && vf.ed25519(GetOr(pinned, "public_key", Str("")), PyStr(Fld(assertion, "signature")), SignedText(assertion))
  }

  ghost predicate Verified(vf: Verifier, env: Environment, root: Value, assertion: Value, pinned: Value) {
    RootStands(env, root) && AssertionStands(vf, env, assertion) && SignedUnder(vf, root, assertion, pinned)
  }

  lemma ModeIff(mode: string, trustClass: Value)
    requires Named(trustClass, {"PRODUCTION_ENTERPRISE", "DEVELOPMENT_TEST_ONLY"})
    ensures ModeAllows(mode, trustClass.s) <==> ModeFits(mode, trustClass)
  {
  }

  lemma RootIff(env: Environment, root: Value)
    requires FileHolds(env, ENV_TRUST_ROOT, root)
    ensures var trustClass, issuers := Fld(root, "trust_class"), Fld(root, "trusted_issuers");
            RootStands(env, root) <==>
              && IsOne(Fld(root, "trust_root_version")) && (trustClass == Str(CLASS_PRODUCTION) || trustClass == Str(CLASS_DEVELOPMENT))
              && issuers.Obj? && issuers.fields != [] && ModeAllows(Strip(Var(env, ENV_MODE)), trustClass.s)
  {
    hide Get, FileHolds, ModeAllows, ModeFits, Strip, Fld;
    ClassIff(Fld(root, "trust_class"));
    if Named(Fld(root, "trust_class"), {"PRODUCTION_ENTERPRISE", "DEVELOPMENT_TEST_ONLY"}) {
      ModeIff(Strip(Var(env, ENV_MODE)), Fld(root, "trust_class"));
    }
  }

  lemma ClassIff(v: Value)
    ensures v == Str(CLASS_PRODUCTION) || v == Str(CLASS_DEVELOPMENT) <==> Named(v, {"PRODUCTION_ENTERPRISE", "DEVELOPMENT_TEST_ONLY"})
  {
  }

  lemma AssertionIff(vf: Verifier, env: Environment, assertion: Value)
    requires FileHolds(env, ENV_ASSERTION, assertion)
    ensures AssertionStands(vf, env, assertion) <==>
              && HasAll(assertion, ASSERTION_FIELDS) && IsOne(Fld(assertion, "assertion_version"))
              && Fld(assertion, "capture_authorized") == Bool(true) && Fld(assertion, "mode") == Str(MODE_ENTERPRISE)
              && Fld(assertion, "capture_scope").Obj? && Fld(assertion, "storage_scope").Obj?
              && !Blank(PyStr(Fld(assertion, SESSION))) && InTime(vf, env, assertion)
  {
    hide Get, FileHolds, HasAll, Complete, Visible, Fld;
    CompleteIff(assertion, ASSERTION_FIELDS);
    BlankIff(Fld(assertion, SESSION));
  }

  lemma KeysIff(assertion: Value, pinned: Value)
    ensures KeyMismatch(assertion, pinned) <==> KeysDiffer(assertion, pinned)
  {
    hide Get, Canon, Truthy, Fld;
    TruthyIff(Fld(assertion, "key_id"));
    TruthyIff(Fld(pinned, "key_id"));
  }

  lemma SignedIff(vf: Verifier, root: Value, assertion: Value, pinned: Value)
    ensures SignedUnder(vf, root, assertion, pinned) <==>
              && PinnedIssuer(Fld(root, "trusted_issuers"), Fld(assertion, "issuer")) == Ok(pinned)
              && Fld(pinned, "algorithm") == Str("Ed25519") && !KeyMismatch(assertion, pinned)
              && vf.ed25519(GetOr(pinned, "public_key", Str("")), PyStr(Fld(assertion, "signature")), SignedText(assertion))
  {
    hide Get, KeyMismatch, KeysDiffer, SignedText, PyStr, Fld;
    KeysIff(assertion, pinned);
  }

  lemma VerifiedSuffices(vf: Verifier, env: Environment, root: Value, assertion: Value, pinned: Value)
    requires Verified(vf, env, root, assertion, pinned)
    ensures VerifyCaptureAssertion(vf, env) == Ok(Context(assertion, PyStr(Fld(root, "trust_class")), env.clock))
  {
    hide Get, FileHolds, RootStands, AssertionStands, SignedUnder, ReadJsonFile, ModeAllows, IsOne, HasAll, InTime, Blank, PinnedIssuer,
         KeyMismatch, SignedText, Fld, GetOr, Strip;
    StandingFiles(vf, env);
    FileIff(env, ENV_TRUST_ROOT);
    FileIff(env, ENV_ASSERTION);
    RootIff(env, root);
    AssertionIff(vf, env, assertion);
    SignedIff(vf, root, assertion, pinned);
  }

  lemma VerifiedNeeds(vf: Verifier, env: Environment) returns (root: Value, assertion: Value, pinned: Value)
    requires VerifyCaptureAssertion(vf, env).Ok?
    ensures Verified(vf, env, root, assertion, pinned)
  {
    hide Get, FileHolds, RootStands, AssertionStands, SignedUnder, ReadJsonFile, ModeAllows, IsOne, HasAll, InTime, Blank, PinnedIssuer,
         KeyMismatch, SignedText, Fld, GetOr, Strip;
    root, assertion := ReadJsonFile(env, Var(env, ENV_TRUST_ROOT)).value, ReadJsonFile(env, Var(env, ENV_ASSERTION)).value;
    pinned := PinnedIssuer(Fld(root, "trusted_issuers"), Fld(assertion, "issuer")).value;
    FileIff(env, ENV_TRUST_ROOT);
    FileIff(env, ENV_ASSERTION);
    RootIff(env, root);
    AssertionIff(vf, env, assertion);
    SignedIff(vf, root, assertion, pinned);
  }

  // An assertion is verified exactly when the trust root, the assertion and the
  // pinned key stand, and the context is that assertion's, of the root's class.
  lemma VerifiedIff(vf: Verifier, env: Environment)
    ensures VerifyCaptureAssertion(vf, env).Ok? <==>
              exists root, assertion, pinned :: Verified(vf, env, root, assertion, pinned)
    ensures forall root, assertion, pinned :: Verified(vf, env, root, assertion, pinned) ==>
              VerifyCaptureAssertion(vf, env) == Ok(Context(assertion, PyStr(Fld(root, "trust_class")), env.clock))
  {
    hide Verified, VerifyCaptureAssertion, Fld, PyStr;
    if VerifyCaptureAssertion(vf, env).Ok? { var root, assertion, pinned := VerifiedNeeds(vf, env); }
    forall root, assertion, pinned | Verified(vf, env, root, assertion, pinned)
      ensures VerifyCaptureAssertion(vf, env) == Ok(Context(assertion, PyStr(Fld(root, "trust_class")), env.clock))
    {
      VerifiedSuffices(vf, env, root, assertion, pinned);
    }
  }

  lemma StandingFiles(vf: Verifier, env: Environment)
    ensures forall root :: RootStands(env, root) ==> FileHolds(env, ENV_TRUST_ROOT, root)
    ensures forall assertion :: AssertionStands(vf, env, assertion) ==> FileHolds(env, ENV_ASSERTION, assertion)
  {
    hide Get, FileHolds, Fld, Visible, Complete, Strip;
  }

  // ----- inside the scopes -----

  // The storage scope names this adapter.
  ghost predicate StorageNamed(scope: Value, kind: string) {
    var adapter := GetOr(scope, "adapter", Str(""));
    Visible(adapter) && Words(Lower(Strip(PyStr(adapter)))) == Words(Lower(Strip(kind)))
  }

  lemma StorageIff(scope: Value, kind: string)
    ensures StorageAllowed(scope, kind) <==> StorageNamed(scope, kind)
  {
    hide Get, NormalizeLabel, PyStr, Words, Visible;
    var adapter := GetOr(scope, "adapter", Str(""));
    LabelledIff(adapter);
    NormalizeIdentifies(PyStr(adapter), kind);
  }

  // Task type, storage and the assertion's own department are inside the scopes,
  // and the candidate names no other reference.
  ghost predicate Within(candidate: Value, ctx: Context, kind: string) {
    var scope, business, claimed := Fld(ctx.assertion, "capture_scope"), Fld(ctx.assertion, "business_context"), Fld(candidate, "business_context");
    && (business in FALSY || business.Obj?) && (claimed in FALSY || claimed.Obj?)
    && InScope(scope, "task_types", GetOr(candidate, "task_type", Str("")))
    && StorageNamed(Fld(ctx.assertion, "storage_scope"), kind)
    && (Fld(business, "department") !in FALSY ==> InScope(scope, "departments", Fld(business, "department")))
    && (Fld(business, CONTEXT_REF) !in FALSY && Fld(claimed, "ref") !in FALSY ==>
          PyStr(Fld(claimed, "ref")) == PyStr(Fld(business, CONTEXT_REF)))
  }

  lemma OrEmptyIs(v: Value, k: string)
    ensures OrEmpty(v).Obj? <==> v in FALSY || v.Obj?
    ensures OrEmpty(v).Obj? ==> Fld(OrEmpty(v), k) == Fld(v, k)
  {
    TruthyIff(v);
    assert Index([], k) == 0;
  }

  // Both name a reference, and not the same one.
  ghost predicate ReferencesDiffer(candidate: Value, ctx: Context) {
    var claimed, pinned := Fld(Fld(candidate, "business_context"), "ref"), Fld(Fld(ctx.assertion, "business_context"), CONTEXT_REF);
    claimed !in FALSY && pinned !in FALSY && PyStr(claimed) != PyStr(pinned)
  }

  lemma WithinIff(candidate: Value, ctx: Context, kind: string)
    ensures EnforceWithin(candidate, ctx, kind).Ok? <==> Within(candidate, ctx, kind)
    ensures EnforceWithin(candidate, ctx, kind).Ok? ==> !ReferencesDiffer(candidate, ctx)
    ensures EnforceWithin(candidate, ctx, kind) == Err(ReferenceMismatch) ==> ReferencesDiffer(candidate, ctx)
    ensures EnforceWithin(candidate, ctx, kind) == Err(AuthorizationError) ==>
              var scope, business := Fld(ctx.assertion, "capture_scope"), Fld(ctx.assertion, "business_context");
              || !InScope(scope, "task_types", GetOr(candidate, "task_type", Str("")))
              || !StorageNamed(Fld(ctx.assertion, "storage_scope"), kind)
              || (Fld(business, "department") !in FALSY && !InScope(scope, "departments", Fld(business, "department")))
  {
    hide Get, GetOr, Fld, ScopeAllows, StorageAllowed, StorageNamed, InScope, PyStr, Truthy, OrEmpty;
    var business, claimed := Fld(ctx.assertion, "business_context"), Fld(candidate, "business_context");
    OrEmptyIs(business, "department");
    OrEmptyIs(business, CONTEXT_REF);
    OrEmptyIs(claimed, "ref");
    TruthyIff(Fld(business, "department"));
    TruthyIff(Fld(business, CONTEXT_REF));
    TruthyIff(Fld(claimed, "ref"));
    ScopeAllowsIff(Fld(ctx.assertion, "capture_scope"), "task_types", GetOr(candidate, "task_type", Str("")));
    ScopeAllowsIff(Fld(ctx.assertion, "capture_scope"), "departments", Fld(business, "department"));
    StorageIff(Fld(ctx.assertion, "storage_scope"), kind);
  }

  // ----- the development grant -----

  // A complete, unexpired grant outside production mode, signed under the
  // configured key, or unsigned where no key is configured.
  ghost predicate GrantHolds(vf: Verifier, env: Environment, data: Value) {
    var signature, key := GetOr(data, "signature", Str("")), Var(env, ENV_GRANT_KEY);
    && Strip(Var(env, ENV_MODE)) != "PRODUCTION_ENTERPRISE" && FileHolds(env, ENV_GRANT_FILE, data) && Complete(data, GRANT_FIELDS)
    && Fld(data, "capture_authorized") == Bool(true)
    && Named(Fld(data, "mode"), {"ENTERPRISE_MANAGED_CAPTURE", "PERSONAL_EXPLICIT_CAPTURE"})
    && Fld(data, "capture_scope").Obj? && Fld(data, "storage_scope").Obj? && Unexpired(vf, env, data)
    && (Visible(signature) <==> key != "")
    && (key != "" ==> vf.hmac(key, SignedText(data)) == Lower(Strip(PyStr(signature))))
  }

  lemma GrantHoldsIff(vf: Verifier, env: Environment, data: Value)
    ensures GrantHolds(vf, env, data) <==> LoadGrant(vf, env).Ok? && LoadGrant(vf, env).value.data == data
  {
    hide Get, GetOr, FileHolds, ReadJsonFile, HasAll, Complete, Visible, SignedText, Strip, Lower, PyStr, Blank, Fld, InTime, Unexpired, Named;
    FileIff(env, ENV_GRANT_FILE);
    CompleteIff(data, GRANT_FIELDS);
    BlankIff(GetOr(data, "signature", Str("")));
    GrantModes(Fld(data, "mode"));
    assert InTime(vf, env, data) <==> Unexpired(vf, env, data) by { TimesIff(vf, env, data); }
  }

  lemma TimesIff(vf: Verifier, env: Environment, data: Value)
    ensures InTime(vf, env, data) <==> Unexpired(vf, env, data)
  {
    hide Get;
  }

  lemma GrantModes(v: Value)
    ensures v == Str(MODE_ENTERPRISE) || v == Str(MODE_PERSONAL) <==> Named(v, {"ENTERPRISE_MANAGED_CAPTURE", "PERSONAL_EXPLICIT_CAPTURE"})
  {
  }

  // A grant is loaded exactly when it holds, and says how it was checked.
  lemma GrantIff(vf: Verifier, env: Environment)
    ensures LoadGrant(vf, env).Ok? <==> exists data :: GrantHolds(vf, env, data)
    ensures LoadGrant(vf, env).Ok? ==>
              LoadGrant(vf, env).value.verification ==
                if Var(env, ENV_GRANT_KEY) == "" then "harness_asserted_unverified" else "hmac_sha256_verified"
  {
    hide GrantHolds, ReadJsonFile, HasAll, SignedText, Strip, Lower, PyStr, Blank, Fld, InTime, Get;
    if LoadGrant(vf, env).Ok? { GrantHoldsIff(vf, env, LoadGrant(vf, env).value.data); }
    forall data | GrantHolds(vf, env, data) ensures LoadGrant(vf, env).Ok? { GrantHoldsIff(vf, env, data); }
  }

  // An enterprise grant whose scopes hold a candidate that brings a session of
  // its own, and whose department and workflow are the harness's.
  ghost predicate Covers(grant: Value, candidate: Value, kind: string) {
    var scope, business := Fld(grant, "capture_scope"), Fld(candidate, "business_context");
    var department, workflow := Fld(business, "department"), Fld(business, "workflow");
    && Fld(grant, "mode") == Str("ENTERPRISE_MANAGED_CAPTURE")
    && IsString(Fld(candidate, SESSION)) && Visible(Fld(candidate, SESSION))
    && InScope(scope, "task_types", GetOr(candidate, "task_type", Str(""))) && StorageNamed(Fld(grant, "storage_scope"), kind)
    && (department !in FALSY || workflow !in FALSY ==> Fld(business, "provenance") == Str("harness_provided"))
    && (department !in FALSY ==> InScope(scope, "departments", department))
  }

  lemma CoversIff(g: Grant, candidate: Value, kind: string, clock: string)
    ensures RequireEnterpriseCapture(g, candidate, kind, clock).Ok? <==> Covers(g.data, candidate, kind)
    ensures Covers(g.data, candidate, kind) ==> RequireEnterpriseCapture(g, candidate, kind, clock) == Ok(GrantRecord(g, clock))
  {
    hide Get, GetOr, ScopeAllows, StorageAllowed, StorageNamed, InScope, PyStr, Truthy, GrantRecord, Visible, Blank, IsString;
    var scope, business := Fld(g.data, "capture_scope"), Fld(candidate, "business_context");
    BlankIff(Fld(candidate, SESSION));
    ScopeAllowsIff(scope, "task_types", GetOr(candidate, "task_type", Str("")));
    ScopeAllowsIff(scope, "departments", Fld(business, "department"));
    StorageIff(Fld(g.data, "storage_scope"), kind);
    TruthyIff(Fld(business, "department"));
    TruthyIff(Fld(business, "workflow"));
    NoFields(business, "department");
    NoFields(business, "workflow");
  }

  // Only a dict has fields.
  lemma NoFields(v: Value, k: string)
    ensures !v.Obj? ==> Fld(v, k) == Null
  {
  }

  // ----- what is put on record -----

  lemma PublicRecordGet(ctx: Context, k: string)
    ensures Get(ctx.PublicRecord(), k) ==
            if k == "assertion_id" || k == "issuer" || k == "retention_policy" then Some(Fld(ctx.assertion, k))
            else if k == "mode" then Some(Str("ENTERPRISE_MANAGED_CAPTURE"))
            else if k == "verification" then Some(Str("asymmetric_signature_verified"))
            else if k == "trust_class" then Some(Str(ctx.trustClass))
            else if k == "verified_at" then Some(Str(ctx.verifiedAt))
            else None
  {
    hide Get, Fld;
    var fs := ctx.PublicRecord().fields;
    RecordKeys(ctx);
    assert fs[0].key == "assertion_id" && fs[1].key == "issuer" && fs[2].key == "mode" && fs[3].key == "verification";
    assert fs[4].key == "trust_class" && fs[5].key == "retention_policy" && fs[6].key == "verified_at";
    if i :| 0 <= i < |fs| && fs[i].key == k { Reads(fs, i); } else { ReadsNothing(fs, k); }
  }

  lemma RecordKeys(ctx: Context)
    ensures UniqueKeys(ctx.PublicRecord().fields)
  {
    hide Fld;
  }

  lemma GrantRecordGet(g: Grant, clock: string, k: string)
    ensures Get(GrantRecord(g, clock), k) ==
            if k == "grant_id" || k == "issuer" || k == "mode" || k == "retention_policy" then Some(Fld(g.data, k))
            else if k == "verification" then Some(Str("development_test_only"))
            else if k == "dev_mechanism" then Some(Str(g.verification))
            else if k == "trust_class" then Some(Str("DEVELOPMENT_TEST_ONLY"))
            else if k == "checked_at" then Some(Str(clock))
            else None
  {
    hide Get, Fld;
    var fs := GrantRecord(g, clock).fields;
    GrantKeys(g, clock);
    assert fs[0].key == "grant_id" && fs[1].key == "issuer" && fs[2].key == "mode" && fs[3].key == "retention_policy";
    assert fs[4].key == "verification" && fs[5].key == "dev_mechanism" && fs[6].key == "trust_class" && fs[7].key == "checked_at";
    if i :| 0 <= i < |fs| && fs[i].key == k { Reads(fs, i); } else { ReadsNothing(fs, k); }
  }

  lemma GrantKeys(g: Grant, clock: string)
    ensures UniqueKeys(GrantRecord(g, clock).fields)
  {
    hide Fld;
  }

  // ----- the gate -----

  // With an assertion configured: a candidate that claims nothing, under a
  // verified assertion, inside its scopes. Without: under a covering grant.
  ghost predicate Admissible(vf: Verifier, env: Environment, candidate: Value, kind: string) {
    if ENV_ASSERTION in env.vars && Visible(Str(env.vars[ENV_ASSERTION])) then
      && ClaimsNothing(candidate)
      && exists root, assertion, pinned :: Verified(vf, env, root, assertion, pinned)
           && Within(candidate, Context(assertion, PyStr(Fld(root, "trust_class")), env.clock), kind)
           && (Fld(assertion, "ai_context") in FALSY || Fld(assertion, "ai_context").Obj?)
    else
      exists data :: GrantHolds(vf, env, data) && Covers(data, candidate, kind)
  }

  lemma AttestedIff(env: Environment)
    ensures Attested(env) <==> ENV_ASSERTION in env.vars && Visible(Str(env.vars[ENV_ASSERTION]))
  {
    hide Visible;
    BlankIff(Str(Var(env, ENV_ASSERTION)));
  }

  // Capture is admitted exactly then.
  lemma AdmittedIff(vf: Verifier, env: Environment, candidate: Value, kind: string)
    requires candidate.Obj?
    ensures Admit(vf, env, candidate, kind).Ok? <==> Admissible(vf, env, candidate, kind)
  {
    AttestedIff(env);
    if Attested(env) { AttestedAdmitted(vf, env, candidate, kind); } else { GrantAdmitted(vf, env, candidate, kind); }
  }

  lemma AttestedAdmitted(vf: Verifier, env: Environment, candidate: Value, kind: string)
    requires candidate.Obj? && Attested(env)
    ensures Admit(vf, env, candidate, kind).Ok? <==> Admissible(vf, env, candidate, kind)
  {
    hide Verified, VerifyCaptureAssertion, EnforceWithin, Within, Untrusted, ClaimsNothing, Injected, Fld, OrEmpty, Attested, PyStr, Visible;
    AttestedIff(env);
    UntrustedIff(candidate);
    if VerifyCaptureAssertion(vf, env).Ok? {
      var root, assertion, pinned := VerifiedNeeds(vf, env);
      VerifiedSuffices(vf, env, root, assertion, pinned);
      var ctx := VerifyCaptureAssertion(vf, env).value;
      WithinIff(candidate, ctx, kind);
      WithinDicts(candidate, ctx, kind);
      OrEmptyIs(Fld(assertion, "ai_context"), "");
    }
    forall root, assertion, pinned | Verified(vf, env, root, assertion, pinned)
      ensures VerifyCaptureAssertion(vf, env) == Ok(Context(assertion, PyStr(Fld(root, "trust_class")), env.clock))
    {
      VerifiedSuffices(vf, env, root, assertion, pinned);
    }
  }

  lemma WithinDicts(candidate: Value, ctx: Context, kind: string)
    ensures Within(candidate, ctx, kind) ==> ctx.Business().Obj?
  {
    hide Fld, InScope, StorageNamed, PyStr, OrEmpty;
    OrEmptyIs(Fld(ctx.assertion, "business_context"), "");
  }

  lemma GrantAdmitted(vf: Verifier, env: Environment, candidate: Value, kind: string)
    requires candidate.Obj? && !Attested(env)
    ensures Admit(vf, env, candidate, kind).Ok? <==> Admissible(vf, env, candidate, kind)
  {
    hide LoadGrant, RequireEnterpriseCapture, GrantHolds, Covers, Attested, Visible;
    AttestedIff(env);
    GrantIff(vf, env);
    if LoadGrant(vf, env).Ok? {
      var g := LoadGrant(vf, env).value;
      GrantHoldsIff(vf, env, g.data);
      CoversIff(g, candidate, kind, env.clock);
      forall data | GrantHolds(vf, env, data) ensures data == g.data { GrantHoldsIff(vf, env, data); }
    }
  }
}
