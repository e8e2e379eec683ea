// The trust boundary: the verified assertion, what it lets a candidate do, and
// what is injected from it; and the development grant.
module Authorization {
  import opened Wrappers
  import opened Json
  import opened Canonical
  import opened CanonicalText
  import opened Digests
  import opened Labels
  import opened Validation

  // Environment variables, the JSON files that can be read, and the clock.
  datatype Environment = Environment(vars: map<string, string>, files: map<string, Value>, now: int, clock: string)

  // Signature checking (section 5.1.7 of RFC 8032), the keyed digest of a grant,
  // and the reading of timestamps.
  datatype Verifier = Verifier(ed25519: (Value, string, Text) -> bool, hmac: (string, Text) -> string, instant: Value -> Option<int>)

  const ENV_GRANT_FILE := "WORKFLOW_CAPTURE_AUTHORIZATION_FILE"
  const ENV_GRANT_KEY := "WORKFLOW_CAPTURE_AUTHORIZATION_KEY"
  const ENV_ASSERTION := "WORKFLOW_CAPTURE_ASSERTION"
  const ENV_TRUST_ROOT := "WORKFLOW_CAPTURE_TRUST_ROOT"
  const ENV_MODE := "WORKFLOW_CAPTURE_MODE"

  const MODE_ENTERPRISE := "ENTERPRISE_MANAGED_CAPTURE"
  const MODE_PERSONAL := "PERSONAL_EXPLICIT_CAPTURE"
  const TRUST_PRODUCTION := "PRODUCTION_ENTERPRISE"
  const TRUST_DEVELOPMENT := "DEVELOPMENT_TEST"
  const CLASS_PRODUCTION := "PRODUCTION_ENTERPRISE"
  const CLASS_DEVELOPMENT := "DEVELOPMENT_TEST_ONLY"
  const HARNESS := Str("harness_provided")
  const CONTEXT_REF := "business_context_ref"

  const ASSERTION_FIELDS := ["assertion_version", "assertion_id", "issuer", "capture_authorized", "mode", "capture_session_id",
    "capture_scope", "storage_scope", "retention_policy", "issued_at", "expires_at", "nonce", "signature"]
  const GRANT_FIELDS := ["grant_version", "grant_id", "issuer", "mode", "capture_authorized", "capture_scope", "storage_scope",
    "retention_policy", "issued_at", "expires_at"]

  // env.get(name) or ""
  function Var(env: Environment, name: string): string {
    if name in env.vars then env.vars[name] else ""
  }

  function ReadJsonFile(env: Environment, path: string): Outcome<Value> {
    if Blank(path) || path !in env.files || !env.files[path].Obj? then Err(AuthorizationError) else Ok(env.files[path])
  }

  predicate InTime(vf: Verifier, env: Environment, data: Value) {
    var expires := vf.instant(Fld(data, "expires_at"));
    expires.Some? && expires.value > env.now && vf.instant(Fld(data, "issued_at")).Some?
  }

  predicate HasAll(data: Value, names: seq<string>) {
    forall i :: 0 <= i < |names| ==> Get(data, names[i]).Some?
  }

  // value == 1
  predicate IsOne(v: Value) {
    v == Int(1) || v == Bool(true) || v == Float("1.0")
  }

  // ----- scopes -----

  function ScopeList(scope: Value, key: string): seq<string> {
    var values := GetOr(scope, key, Arr([Str("*")]));
    if values == Str("*") then ["*"]
    else if !values.Arr? then []
    else seq(|values.items|, i requires 0 <= i < |values.items| => NormalizeLabel(PyStr(values.items[i])))
  }

  predicate ScopeAllows(scope: Value, key: string, value: Value) {
    var allowed := ScopeList(scope, key);
    "*" in allowed || NormalizeLabel(PyStr(value)) in allowed
  }

  predicate StorageAllowed(scope: Value, kind: string) {
    var expected := NormalizeLabel(PyStr(GetOr(scope, "adapter", Str(""))));
    expected != "" && expected == NormalizeLabel(kind)
  }

  // ----- the verified context -----

  // Facts of one verified assertion. Only VerifyCaptureAssertion builds one.
  datatype Context = Context(assertion: Value, trustClass: string, verifiedAt: string) {
    function Session(): Value { Fld(assertion, SESSION) }
    function Business(): Value { OrEmpty(Fld(assertion, "business_context")) }
    function Ai(): Value { OrEmpty(Fld(assertion, "ai_context")) }

    function PublicRecord(): Value {
      Obj([Field("assertion_id", Fld(assertion, "assertion_id")), Field("issuer", Fld(assertion, "issuer")),
           Field("mode", Str(MODE_ENTERPRISE)), Field("verification", Str("asymmetric_signature_verified")),
           Field("trust_class", Str(trustClass)), Field("retention_policy", Fld(assertion, "retention_policy")),
           Field("verified_at", Str(verifiedAt))])
    }
  }

  // The text a signature covers: everything but the signature itself.
  function SignedText(data: Value): Text {
    CanonicalJson(if data.Obj? then Obj(Drop(data.fields, "signature")) else data)
  }

  predicate ModeAllows(mode: string, trustClass: string) {
    && (mode == TRUST_PRODUCTION ==> trustClass == CLASS_PRODUCTION)
    && (mode == TRUST_DEVELOPMENT ==> trustClass == CLASS_DEVELOPMENT)
    && (mode != "" ==> mode == TRUST_PRODUCTION || mode == TRUST_DEVELOPMENT)
  }

  function PinnedIssuer(issuers: Value, issuer: Value): Outcome<Value> {
    if issuer.Arr? || issuer.Obj? then Err(Raised)
    else if !issuer.Str? then Err(AuthorizationError)
    else match Get(issuers, issuer.s)
      case Some(pinned) => if pinned.Null? then Err(AuthorizationError) else if pinned.Obj? then Ok(pinned) else Err(Raised)
      case None => Err(AuthorizationError)
  }

  predicate KeyMismatch(assertion: Value, pinned: Value) {
    Truthy(Fld(assertion, "key_id")) && Truthy(Fld(pinned, "key_id"))
    && Canon(Fld(assertion, "key_id")) != Canon(Fld(pinned, "key_id"))
  }

  function VerifyCaptureAssertion(vf: Verifier, env: Environment): Outcome<Context> {
    var root :- ReadJsonFile(env, Var(env, ENV_TRUST_ROOT));
    if !IsOne(Fld(root, "trust_root_version")) then Err(AuthorizationError)
    else if Fld(root, "trust_class") != Str(CLASS_PRODUCTION) && Fld(root, "trust_class") != Str(CLASS_DEVELOPMENT) then
      Err(AuthorizationError)
    else
      var trustClass := Fld(root, "trust_class").s;
      var issuers := Fld(root, "trusted_issuers");
      if !issuers.Obj? || issuers.fields == [] then Err(AuthorizationError)
      else if !ModeAllows(Strip(Var(env, ENV_MODE)), trustClass) then Err(AuthorizationError)
      else
        var assertion :- ReadJsonFile(env, Var(env, ENV_ASSERTION));
        if !HasAll(assertion, ASSERTION_FIELDS) || !IsOne(Fld(assertion, "assertion_version"))
           || Fld(assertion, "capture_authorized") != Bool(true) || Fld(assertion, "mode") != Str(MODE_ENTERPRISE)
           || !Fld(assertion, "capture_scope").Obj? || !Fld(assertion, "storage_scope").Obj?
           || Blank(PyStr(Fld(assertion, SESSION))) || !InTime(vf, env, assertion) then Err(AuthorizationError)
        else
          var pinned :- PinnedIssuer(issuers, Fld(assertion, "issuer"));
          if Fld(pinned, "algorithm") != Str("Ed25519") || KeyMismatch(assertion, pinned) then Err(AuthorizationError)
          else if !vf.ed25519(GetOr(pinned, "public_key", Str("")), PyStr(Fld(assertion, "signature")), SignedText(assertion)) then
            Err(AuthorizationError)
          else Ok(Context(assertion, trustClass, env.clock))
  }

  function EnforceWithin(candidate: Value, ctx: Context, kind: string): Outcome<()> {
    var business, claimed := ctx.Business(), OrEmpty(Fld(candidate, "business_context"));
    if !ScopeAllows(Fld(ctx.assertion, "capture_scope"), "task_types", GetOr(candidate, "task_type", Str(""))) then Err(AuthorizationError)
    else if !StorageAllowed(Fld(ctx.assertion, "storage_scope"), kind) then Err(AuthorizationError)
    else if !business.Obj? then Err(Raised)
    else if Truthy(Fld(business, "department"))
            && !ScopeAllows(Fld(ctx.assertion, "capture_scope"), "departments", Fld(business, "department")) then Err(AuthorizationError)
    else if !claimed.Obj? then Err(Raised)
    else if Truthy(Fld(business, CONTEXT_REF)) && Truthy(Fld(claimed, "ref"))
            && PyStr(Fld(claimed, "ref")) != PyStr(Fld(business, CONTEXT_REF)) then Err(ReferenceMismatch)
    else Ok(())
  }

  // ----- injection -----

  // {**base, **updates}
  function Merge(base: seq<Field>, updates: seq<Field>): seq<Field>
    decreases |updates|
  {
    if updates == [] then base else Merge(Put(base, updates[0].key, updates[0].val), updates[1..])
  }

  // What the assertion puts under business_context: its own provenance key, if
  // it has one, overrides the literal.
  function BusinessProjection(business: Value): Value
    requires business.Obj?
  {
    var fields := Merge([Field("provenance", HARNESS)], Drop(business.fields, CONTEXT_REF));
    var ref := Fld(business, CONTEXT_REF);
    Obj(if Truthy(ref) then Put(fields, "ref", ref) else fields)
  }

  function AiProjection(ai: Value): Value
    requires ai.Obj?
  {
    Obj(Put(ai.fields, "provenance", HARNESS))
  }

  function Injected(candidate: seq<Field>, ctx: Context): seq<Field>
    requires ctx.Business().Obj? && ctx.Ai().Obj?
  {
    var m1 := Put(candidate, SESSION, ctx.Session());
    var m2 := if Truthy(ctx.Business()) then Put(m1, "business_context", BusinessProjection(ctx.Business())) else m1;
    if Truthy(ctx.Ai()) then Put(m2, "ai_context", AiProjection(ctx.Ai())) else m2
  }

  method InjectTrustedContext(candidate: Value, ctx: Context) returns (r: Outcome<Value>)
    requires candidate.Obj?
    ensures r == if ctx.Business().Obj? && ctx.Ai().Obj? then Ok(Obj(Injected(candidate.fields, ctx))) else Err(Raised)
  {
    var merged := candidate.fields;
    merged := Put(merged, SESSION, ctx.Session());
    var business := ctx.Business();
    if !business.Obj? { return Err(Raised); }
    if Truthy(business) {
      var updates := Drop(business.fields, CONTEXT_REF);
      var fields := [Field("provenance", HARNESS)];
      for i := 0 to |updates|
        invariant Merge(fields, updates[i..]) == Merge([Field("provenance", HARNESS)], updates)
      {
        fields := Put(fields, updates[i].key, updates[i].val);
        assert updates[i..][1..] == updates[i + 1..];
      }
      if Truthy(Fld(business, CONTEXT_REF)) { fields := Put(fields, "ref", Fld(business, CONTEXT_REF)); }
      merged := Put(merged, "business_context", Obj(fields));
    }
    var ai := ctx.Ai();
    if !ai.Obj? { return Err(Raised); }
    if Truthy(ai) { merged := Put(merged, "ai_context", AiProjection(ai)); }
    r := Ok(Obj(merged));
  }

  // ----- non-interference -----

  predicate Marked(v: Value) {
    Fld(v, "provenance") == HARNESS
  }

  // Key by key: what the merged record holds.
  lemma InjectedGet(candidate: seq<Field>, ctx: Context, k: string)
    requires ctx.Business().Obj? && ctx.Ai().Obj?
    ensures Get(Obj(Injected(candidate, ctx)), k) ==
            if k == SESSION then Some(ctx.Session())
            else if k == "business_context" && Truthy(ctx.Business()) then Some(BusinessProjection(ctx.Business()))
            else if k == "ai_context" && Truthy(ctx.Ai()) then Some(AiProjection(ctx.Ai()))
            else Get(Obj(candidate), k)
  {
    hide Get, BusinessProjection, AiProjection, Put;
    var m1 := Put(candidate, SESSION, ctx.Session());
    GetPut(candidate, SESSION, ctx.Session(), k);
    var m2 := if Truthy(ctx.Business()) then Put(m1, "business_context", BusinessProjection(ctx.Business())) else m1;
    if Truthy(ctx.Business()) { GetPut(m1, "business_context", BusinessProjection(ctx.Business()), k); }
    if Truthy(ctx.Ai()) { GetPut(m2, "ai_context", AiProjection(ctx.Ai()), k); }
  }

  // Of two candidates that pass the checks, under one assertion: the session id
  // is the assertion's, and whatever either record marks as harness-provided is
  // the assertion's projection, so the same in both.
  lemma NonInterference(rd: Reader, a: Value, b: Value, ctx: Context)
    requires Accepts(rd, a) && Untrusted(a) && Accepts(rd, b) && Untrusted(b)
    requires ctx.Business().Obj? && ctx.Ai().Obj?
    ensures var m, n := Obj(Injected(a.fields, ctx)), Obj(Injected(b.fields, ctx));
            && Fld(m, SESSION) == Fld(n, SESSION) == ctx.Session()
            && (Marked(Fld(m, "business_context")) ==>
                  Fld(m, "business_context") == BusinessProjection(ctx.Business()) == Fld(n, "business_context"))
            && (Marked(Fld(m, "ai_context")) ==>
                  Fld(m, "ai_context") == AiProjection(ctx.Ai()) == Fld(n, "ai_context"))
            && forall k :: k != SESSION && k != "business_context" && k != "ai_context" ==> Get(m, k) == Get(a, k)
  {
    hide Accepts, Untrusted, BusinessProjection, AiProjection, Injected, Get;
    UntrustedMeans(rd, a);
    AcceptedParts(rd, a);
    AcceptedParts(rd, b);
    InjectedGet(a.fields, ctx, SESSION);
    InjectedGet(b.fields, ctx, SESSION);
    InjectedGet(a.fields, ctx, "business_context");
    InjectedGet(b.fields, ctx, "business_context");
    InjectedGet(a.fields, ctx, "ai_context");
    InjectedGet(b.fields, ctx, "ai_context");
    assert Obj(a.fields) == a;
    forall k | k != SESSION && k != "business_context" && k != "ai_context"
      ensures Get(Obj(Injected(a.fields, ctx)), k) == Get(a, k)
    {
      InjectedGet(a.fields, ctx, k);
    }
  }

  lemma {:induction false} MergeGet(base: seq<Field>, updates: seq<Field>, k: string)
    requires UniqueKeys(updates)
    ensures Get(Obj(Merge(base, updates)), k) ==
            match Get(Obj(updates), k) case Some(x) => Some(x) case None => Get(Obj(base), k)
    decreases |updates|
  {
    if updates != [] {
      GetPut(base, updates[0].key, updates[0].val, k);
      MergeGet(Put(base, updates[0].key, updates[0].val), updates[1..], k);
      assert updates == [updates[0]] + updates[1..];
      GetIn(Obj(updates), k);
      GetIn(Obj(updates[1..]), k);
    }
  }

  // Key by key: what the assertion's projections hold.
  lemma BusinessProjectionGet(business: Value, k: string)
    requires business.Obj? && UniqueKeys(business.fields)
    ensures Get(BusinessProjection(business), k) ==
            if k == "ref" && Truthy(Fld(business, CONTEXT_REF)) then Some(Fld(business, CONTEXT_REF))
            else if k == CONTEXT_REF then None
            else if k == "provenance" && Get(business, k).None? then Some(HARNESS)
            else Get(business, k)
  {
    hide Get, Merge, Put;
    var own := Drop(business.fields, CONTEXT_REF);
    var base := [Field("provenance", HARNESS)];
    DropUnique(business.fields, CONTEXT_REF);
    GetDrop(business.fields, CONTEXT_REF, k);
    assert Obj(business.fields) == business;
    MergeGet(base, own, k);
    OneField(base, k);
    GetPut(Merge(base, own), "ref", Fld(business, CONTEXT_REF), k);
  }

  lemma OneField(fs: seq<Field>, k: string)
    requires |fs| == 1
    ensures Get(Obj(fs), k) == if k == fs[0].key then Some(fs[0].val) else None
  {
  }

  lemma AiProjectionGet(ai: Value, k: string)
    requires ai.Obj?
    ensures Get(AiProjection(ai), k) == if k == "provenance" then Some(HARNESS) else Get(ai, k)
  {
    hide Get, Put;
    assert Obj(ai.fields) == ai;
    GetPut(ai.fields, "provenance", HARNESS, k);
  }

  // The injected business context is marked harness-provided unless the
  // assertion itself says otherwise; the injected AI context always is.
  lemma ProjectionMarkedIff(business: Value, ai: Value)
    requires business.Obj? && UniqueKeys(business.fields) && ai.Obj?
    ensures Marked(BusinessProjection(business)) <==> Fld(business, "provenance") == HARNESS || Get(business, "provenance").None?
    ensures Marked(AiProjection(ai))
  {
    hide BusinessProjection, AiProjection, Get;
    BusinessProjectionGet(business, "provenance");
    AiProjectionGet(ai, "provenance");
  }

  // The reference-mismatch refusal cannot be reached by a candidate that passed
  // the untrusted-candidate rules.
  lemma MismatchUnreachable(rd: Reader, candidate: Value, ctx: Context, kind: string)
    requires Accepts(rd, candidate) && Untrusted(candidate)
    ensures EnforceWithin(candidate, ctx, kind) != Err(ReferenceMismatch)
  {
    hide Accepts, Untrusted, ScopeAllows, StorageAllowed;
    UntrustedMeans(rd, candidate);
    var business := Fld(candidate, "business_context");
    assert OrEmpty(business) == business || OrEmpty(business) == Obj([]);
    assert Index([], "ref") == 0;
  }

  // ----- the development grant -----

  datatype Grant = Grant(data: Value, verification: string)

  function LoadGrant(vf: Verifier, env: Environment): Outcome<Grant> {
    if Strip(Var(env, ENV_MODE)) == TRUST_PRODUCTION then Err(AuthorizationError)
    else
      var data :- ReadJsonFile(env, Var(env, ENV_GRANT_FILE));
      var signature := PyStr(GetOr(data, "signature", Str("")));
      if !HasAll(data, GRANT_FIELDS) || Fld(data, "capture_authorized") != Bool(true) then Err(AuthorizationError)
      else if Fld(data, "mode") != Str(MODE_ENTERPRISE) && Fld(data, "mode") != Str(MODE_PERSONAL) then Err(AuthorizationError)
      else if !Fld(data, "capture_scope").Obj? || !Fld(data, "storage_scope").Obj? then Err(AuthorizationError)
      else if Var(env, ENV_GRANT_KEY) != "" then
        if Blank(signature) || vf.hmac(Var(env, ENV_GRANT_KEY), SignedText(data)) != Lower(Strip(signature)) || !InTime(vf, env, data)
        then Err(AuthorizationError)
        else Ok(Grant(data, "hmac_sha256_verified"))
      else if !Blank(signature) || !InTime(vf, env, data) then Err(AuthorizationError)
      else Ok(Grant(data, "harness_asserted_unverified"))
  }

  function GrantRecord(g: Grant, clock: string): Value {
    Obj([Field("grant_id", Fld(g.data, "grant_id")), Field("issuer", Fld(g.data, "issuer")), Field("mode", Fld(g.data, "mode")),
         Field("retention_policy", Fld(g.data, "retention_policy")), Field("verification", Str("development_test_only")),
         Field("dev_mechanism", Str(g.verification)), Field("trust_class", Str(CLASS_DEVELOPMENT)), Field("checked_at", Str(clock))])
  }

  function RequireEnterpriseCapture(g: Grant, candidate: Value, kind: string, clock: string): Outcome<Value> {
    var session, business := Fld(candidate, SESSION), Fld(candidate, "business_context");
    var scope := Fld(g.data, "capture_scope");
    if Fld(g.data, "mode") != Str(MODE_ENTERPRISE) then Err(AuthorizationError)
    else if !IsString(session) || Blank(PyStr(session)) then Err(AuthorizationError)
    else if !ScopeAllows(scope, "task_types", GetOr(candidate, "task_type", Str(""))) then Err(AuthorizationError)
    else if !StorageAllowed(Fld(g.data, "storage_scope"), kind) then Err(AuthorizationError)
    else if business.Obj? && (Truthy(Fld(business, "department")) || Truthy(Fld(business, "workflow")))
            && (!Marked(business)
                || (Truthy(Fld(business, "department")) && !ScopeAllows(scope, "departments", Fld(business, "department")))) then
      Err(AuthorizationError)
    else Ok(GrantRecord(g, clock))
  }

  // ----- the gate in front of persistence -----

  datatype Admitted = Admitted(record: Value, authorization: Value, trustClass: string)

  predicate Attested(env: Environment) {
    !Blank(Var(env, ENV_ASSERTION))
  }

  // From an accepted candidate to the record to be sanitised and stored.
  function Admit(vf: Verifier, env: Environment, candidate: Value, kind: string): Outcome<Admitted>
    requires candidate.Obj?
  {
    if Attested(env) then
      if !Untrusted(candidate) then Err(ValidationError)
      else
        var ctx :- VerifyCaptureAssertion(vf, env);
        var _ :- EnforceWithin(candidate, ctx, kind);
        if !ctx.Business().Obj? || !ctx.Ai().Obj? then Err(Raised)
        else Ok(Admitted(Obj(Injected(candidate.fields, ctx)), ctx.PublicRecord(), ctx.trustClass))
    else
      var grant :- LoadGrant(vf, env);
      var record :- RequireEnterpriseCapture(grant, candidate, kind, env.clock);
      Ok(Admitted(candidate, record, CLASS_DEVELOPMENT))
  }

  // The key that the trust root pins for the assertion's issuer accepted the
  // signature over the assertion minus its signature.
  ghost predicate SignatureAccepted(vf: Verifier, env: Environment) {
    exists root: Value, assertion: Value, pinned: Value :: SignedBy(vf, env, root, assertion, pinned)
  }

  ghost predicate SignedBy(vf: Verifier, env: Environment, root: Value, assertion: Value, pinned: Value) {
    && ReadJsonFile(env, Var(env, ENV_TRUST_ROOT)) == Ok(root) && ReadJsonFile(env, Var(env, ENV_ASSERTION)) == Ok(assertion)
    && Fld(assertion, "issuer").Str? && Get(Fld(root, "trusted_issuers"), Fld(assertion, "issuer").s) == Some(pinned)
    && Fld(pinned, "algorithm") == Str("Ed25519")
    && vf.ed25519(GetOr(pinned, "public_key", Str("")), PyStr(Fld(assertion, "signature")), SignedText(assertion))
  }

  // What a verified assertion says, besides being signed: it authorises
  // enterprise capture, is complete, and has not expired. Its session is null,
  // which prints as None, or does not print as blank.
  ghost predicate Authorizes(vf: Verifier, env: Environment, assertion: Value) {
    && HasAll(assertion, ASSERTION_FIELDS)
    && Fld(assertion, "capture_authorized") == Bool(true) && Fld(assertion, "mode") == Str(MODE_ENTERPRISE)
    && (Fld(assertion, SESSION).Null? || !Blank(PyStr(Fld(assertion, SESSION))))
    && (exists expires :: vf.instant(Fld(assertion, "expires_at")) == Some(expires) && expires > env.now)
  }

  lemma VerifiedMeans(vf: Verifier, env: Environment)
    requires VerifyCaptureAssertion(vf, env).Ok?
    ensures SignatureAccepted(vf, env)
    ensures ReadJsonFile(env, Var(env, ENV_ASSERTION)) == Ok(VerifyCaptureAssertion(vf, env).value.assertion)
    ensures Authorizes(vf, env, VerifyCaptureAssertion(vf, env).value.assertion)
    ensures var c := VerifyCaptureAssertion(vf, env).value.trustClass;
            (c == CLASS_PRODUCTION || c == CLASS_DEVELOPMENT) && ModeAllows(Strip(Var(env, ENV_MODE)), c)
  {
    hide SignedText, KeyMismatch, HasAll, Blank, Strip, PyStr, IsOne, ModeAllows, ReadJsonFile, Get, Canon;
    var root := ReadJsonFile(env, Var(env, ENV_TRUST_ROOT)).value;
    var assertion := ReadJsonFile(env, Var(env, ENV_ASSERTION)).value;
    var pinned := PinnedIssuer(Fld(root, "trusted_issuers"), Fld(assertion, "issuer")).value;
    assert SignedBy(vf, env, root, assertion, pinned);
  }

  // ----- an assertion that binds no session -----

  function NullSessionRoot(): Value {
    Obj([Field("trust_root_version", Int(1)), Field("trust_class", Str(CLASS_DEVELOPMENT)),
         Field("trusted_issuers", Obj([Field("harness", Obj([Field("algorithm", Str("Ed25519")), Field("public_key", Str("key"))]))]))])
  }

  function NullSessionAssertion(): Value {
    Obj([Field("assertion_version", Int(1)), Field("assertion_id", Str("a1")), Field("issuer", Str("harness")),
         Field("capture_authorized", Bool(true)), Field("mode", Str(MODE_ENTERPRISE)), Field("capture_session_id", Null),
         Field("capture_scope", Obj([])), Field("storage_scope", Obj([])), Field("retention_policy", Str("standard")),
         Field("issued_at", Str("past")), Field("expires_at", Str("future")), Field("nonce", Str("n1")), Field("signature", Str("s1"))])
  }

  function NullSessionEnvironment(): Environment {
    Environment(map[ENV_TRUST_ROOT := "root.json", ENV_ASSERTION := "assertion.json"],
                map["root.json" := NullSessionRoot(), "assertion.json" := NullSessionAssertion()], 0, "now")
  }

  // A verifier under which the signature is good and every text is a time.
  function LenientVerifier(): Verifier {
    Verifier((key: Value, signature: string, text: Text) => true, (key: string, text: Text) => "", (v: Value) => Some(1))
  }

  // Verification accepts an assertion whose session is null.
  lemma NullSessionVerifies()
    ensures var r := VerifyCaptureAssertion(LenientVerifier(), NullSessionEnvironment());
            r.Ok? && r.value.Session() == Null
  {
    hide SignedText, Fld, GetOr, HasAll, Blank, ModeAllows, Strip;
    NullSessionFiles();
    NullSessionRootFields();
    NullSessionFields();
    NoMode();
    assert !Blank("None") by { NoneIsText(); }
  }

  lemma NoneIsText()
    ensures !Blank("None")
  {
    assert !IsSpace("None"[0]);
  }

  lemma NoMode()
    ensures ModeAllows(Strip(""), CLASS_DEVELOPMENT)
  {
    assert Strip("") == "";
  }

  lemma NullSessionFiles()
    ensures var env := NullSessionEnvironment();
            && ReadJsonFile(env, Var(env, ENV_TRUST_ROOT)) == Ok(NullSessionRoot())
            && ReadJsonFile(env, Var(env, ENV_ASSERTION)) == Ok(NullSessionAssertion())
            && Var(env, ENV_MODE) == ""
  {
    assert !IsSpace("root.json"[0]) && !IsSpace("assertion.json"[0]);
    assert "root.json"[0] != "assertion.json"[0];
  }

  lemma NullSessionRootFields()
    ensures var root := NullSessionRoot();
            && Fld(root, "trust_root_version") == Int(1) && Fld(root, "trust_class") == Str(CLASS_DEVELOPMENT)
            && Fld(root, "trusted_issuers").Obj? && Fld(root, "trusted_issuers").fields != []
            && Get(Fld(root, "trusted_issuers"), "harness").Some?
            && var pinned := Get(Fld(root, "trusted_issuers"), "harness").value;
               pinned.Obj? && Fld(pinned, "algorithm") == Str("Ed25519") && !Truthy(Fld(pinned, "key_id"))
  {
    var fs := NullSessionRoot().fields;
    assert UniqueKeys(fs);
    GetAt(fs, 0);
    GetAt(fs, 1);
    GetAt(fs, 2);
    var issuers := fs[2].val.fields;
    GetAt(issuers, 0);
    var pinned := issuers[0].val.fields;
    assert UniqueKeys(pinned);
    GetAt(pinned, 0);
    GetIn(Obj(pinned), "key_id");
  }

  lemma NullSessionFields()
    ensures var a := NullSessionAssertion();
            && HasAll(a, ASSERTION_FIELDS) && Fld(a, "assertion_version") == Int(1) && Fld(a, "capture_authorized") == Bool(true)
            && Fld(a, "mode") == Str(MODE_ENTERPRISE) && Fld(a, "capture_scope").Obj? && Fld(a, "storage_scope").Obj?
            && Fld(a, SESSION) == Null && Fld(a, "issuer") == Str("harness")
  {
    hide Get, Fld;
    forall i | 0 <= i < |ASSERTION_FIELDS| ensures Get(NullSessionAssertion(), ASSERTION_FIELDS[i]).Some? { NullSessionField(i); }
    NullSessionField(0);
    NullSessionField(2);
    NullSessionField(3);
    NullSessionField(4);
    NullSessionField(5);
    NullSessionField(6);
    NullSessionField(7);
  }

  lemma NullSessionField(i: nat)
    requires i < |ASSERTION_FIELDS|
    ensures var a := NullSessionAssertion();
            i < |a.fields| && Get(a, ASSERTION_FIELDS[i]) == Some(a.fields[i].val) && Fld(a, ASSERTION_FIELDS[i]) == a.fields[i].val
  {
    hide Get;
    NullSessionKeys();
    GetAt(NullSessionAssertion().fields, i);
    FoundFld(NullSessionAssertion(), ASSERTION_FIELDS[i]);
  }

  lemma FoundFld(v: Value, k: string)
    ensures Get(v, k).Some? ==> Fld(v, k) == Get(v, k).value
  {
  }

  lemma NullSessionKeys()
    ensures var fs := NullSessionAssertion().fields;
            |fs| == 13 && UniqueKeys(fs) && forall i :: 0 <= i < 13 ==> fs[i].key == ASSERTION_FIELDS[i]
  {
  }

  // The label of the value is one the scope lists, or the scope does not limit
  // the key at all.
  ghost predicate InScope(scope: Value, key: string, value: Value) {
    || GetOr(scope, key, Str("*")) == Str("*")
    || (exists i :: 0 <= i < |ScopeItems(scope, key)|
          && (NormalizeLabel(PyStr(ScopeItems(scope, key)[i])) == "*"
              || NormalizeLabel(PyStr(ScopeItems(scope, key)[i])) == NormalizeLabel(PyStr(value))))
  }

  function ScopeItems(scope: Value, key: string): seq<Value> {
    match Get(scope, key) case Some(Arr(xs)) => xs case _ => []
  }

  lemma StarIsStar()
    ensures NormalizeLabel("*") == "*"
  {
    var star := "*";
    assert Lower(star) == star && Strip(star) == star;
    assert star[1..] == "" && star[..1] == star && WordLength(star) == 1 + WordLength("") == 1;
    assert Words(star) == [star] + Words("") == [star];
  }

  lemma ScopeListIs(scope: Value, key: string)
    ensures GetOr(scope, key, Str("*")) == Str("*") ==> ScopeList(scope, key) == ["*"]
    ensures GetOr(scope, key, Str("*")) != Str("*") ==>
              |ScopeList(scope, key)| == |ScopeItems(scope, key)|
              && forall i :: 0 <= i < |ScopeItems(scope, key)| ==> ScopeList(scope, key)[i] == NormalizeLabel(PyStr(ScopeItems(scope, key)[i]))
  {
    hide NormalizeLabel, Get;
    StarIsStar();
  }

  lemma ScopeAllowsIff(scope: Value, key: string, value: Value)
    ensures ScopeAllows(scope, key, value) <==> InScope(scope, key, value)
  {
    hide NormalizeLabel, PyStr, GetOr, ScopeList, ScopeItems;
    ScopeListIs(scope, key);
    if GetOr(scope, key, Str("*")) != Str("*") { ListAllowsIff(ScopeList(scope, key), ScopeItems(scope, key), value); }
  }

  lemma ListAllowsIff(allowed: seq<string>, xs: seq<Value>, value: Value)
    requires |allowed| == |xs| && forall i :: 0 <= i < |xs| ==> allowed[i] == NormalizeLabel(PyStr(xs[i]))
    ensures "*" in allowed || NormalizeLabel(PyStr(value)) in allowed <==>
            exists i :: 0 <= i < |xs| && (NormalizeLabel(PyStr(xs[i])) == "*" || NormalizeLabel(PyStr(xs[i])) == NormalizeLabel(PyStr(value)))
  {
    hide NormalizeLabel, PyStr;
    if i :| 0 <= i < |xs| && (NormalizeLabel(PyStr(xs[i])) == "*" || NormalizeLabel(PyStr(xs[i])) == NormalizeLabel(PyStr(value))) {
      assert allowed[i] in allowed;
    }
  }

  // An attested capture is admitted only for a candidate that claims nothing of
  // its own, inside the verified scopes, and only into the named storage.
  lemma AdmittedWithinScope(vf: Verifier, env: Environment, candidate: Value, kind: string)
    requires candidate.Obj? && Attested(env) && Admit(vf, env, candidate, kind).Ok?
    ensures VerifyCaptureAssertion(vf, env).Ok?
    ensures var ctx := VerifyCaptureAssertion(vf, env).value;
            var department := Fld(ctx.Business(), "department");
            && Untrusted(candidate) && SignatureAccepted(vf, env) && Authorizes(vf, env, ctx.assertion)
            && InScope(Fld(ctx.assertion, "capture_scope"), "task_types", GetOr(candidate, "task_type", Str("")))
            && StorageAllowed(Fld(ctx.assertion, "storage_scope"), kind)
            && (Truthy(department) ==> InScope(Fld(ctx.assertion, "capture_scope"), "departments", department))
            && Fld(Admit(vf, env, candidate, kind).value.record, SESSION) == ctx.Session()
  {
    hide VerifyCaptureAssertion, Untrusted, SignatureAccepted, Authorizes, ScopeAllows, InScope, StorageAllowed, Injected, Get, Blank;
    VerifiedMeans(vf, env);
    var ctx := VerifyCaptureAssertion(vf, env).value;
    ScopeAllowsIff(Fld(ctx.assertion, "capture_scope"), "task_types", GetOr(candidate, "task_type", Str("")));
    ScopeAllowsIff(Fld(ctx.assertion, "capture_scope"), "departments", Fld(ctx.Business(), "department"));
    InjectedGet(candidate.fields, ctx, SESSION);
  }

  // Without an assertion, a capture is admitted only outside production mode, on
  // an authorising, unexpired enterprise grant whose signature, if a key is
  // configured, verifies; for a candidate with a session of its own, inside the
  // grant's scopes, and with department or workflow only if marked.
  lemma AdmittedByGrant(vf: Verifier, env: Environment, candidate: Value, kind: string)
    requires candidate.Obj? && !Attested(env) && Admit(vf, env, candidate, kind).Ok?
    ensures LoadGrant(vf, env).Ok?
    ensures GrantStands(vf, env, LoadGrant(vf, env).value.data)
    ensures var scope, business := Fld(LoadGrant(vf, env).value.data, "capture_scope"), Fld(candidate, "business_context");
            && Admit(vf, env, candidate, kind).value.record == candidate
            && Admit(vf, env, candidate, kind).value.trustClass == CLASS_DEVELOPMENT
            && IsString(Fld(candidate, SESSION)) && !Blank(PyStr(Fld(candidate, SESSION)))
            && InScope(scope, "task_types", GetOr(candidate, "task_type", Str("")))
            && StorageAllowed(Fld(LoadGrant(vf, env).value.data, "storage_scope"), kind)
            && (business.Obj? && (Truthy(Fld(business, "department")) || Truthy(Fld(business, "workflow"))) ==> Marked(business))
            && (business.Obj? && Truthy(Fld(business, "department")) ==> InScope(scope, "departments", Fld(business, "department")))
  {
    hide ScopeAllows, InScope, StorageAllowed, GrantRecord, Get, Blank, LoadGrant, GrantStands, PyStr;
    GrantLoaded(vf, env);
    var g := LoadGrant(vf, env).value;
    GrantEnterprise(vf, env, g, candidate, kind);
    ScopeAllowsIff(Fld(g.data, "capture_scope"), "task_types", GetOr(candidate, "task_type", Str("")));
    ScopeAllowsIff(Fld(g.data, "capture_scope"), "departments", Fld(Fld(candidate, "business_context"), "department"));
  }

  ghost predicate GrantStands(vf: Verifier, env: Environment, data: Value) {
    && Strip(Var(env, ENV_MODE)) != TRUST_PRODUCTION
    && ReadJsonFile(env, Var(env, ENV_GRANT_FILE)) == Ok(data) && HasAll(data, GRANT_FIELDS)
    && Fld(data, "capture_authorized") == Bool(true)
    && (exists expires :: vf.instant(Fld(data, "expires_at")) == Some(expires) && expires > env.now)
    && (if Var(env, ENV_GRANT_KEY) != ""
        then vf.hmac(Var(env, ENV_GRANT_KEY), SignedText(data)) == Lower(Strip(PyStr(GetOr(data, "signature", Str("")))))
        else Blank(PyStr(GetOr(data, "signature", Str("")))))
  }

  lemma GrantLoaded(vf: Verifier, env: Environment)
    requires LoadGrant(vf, env).Ok?
    ensures GrantStands(vf, env, LoadGrant(vf, env).value.data)
  {
    hide SignedText, HasAll, Blank, Strip, Lower, PyStr, Get, ReadJsonFile;
  }

  lemma GrantEnterprise(vf: Verifier, env: Environment, g: Grant, candidate: Value, kind: string)
    requires RequireEnterpriseCapture(g, candidate, kind, env.clock).Ok?
    ensures Fld(g.data, "mode") == Str(MODE_ENTERPRISE)
  {
    hide ScopeAllows, StorageAllowed, Get, Blank, PyStr;
  }

  // Every admission reports the class its environment demands, and production
  // only on an accepted signature.
  lemma TrustClass(vf: Verifier, env: Environment, candidate: Value, kind: string)
    requires candidate.Obj? && Admit(vf, env, candidate, kind).Ok?
    ensures var c := Admit(vf, env, candidate, kind).value.trustClass;
            var mode := Strip(Var(env, ENV_MODE));
            && (mode == TRUST_PRODUCTION ==> c == CLASS_PRODUCTION)
            && (mode == TRUST_DEVELOPMENT ==> c == CLASS_DEVELOPMENT)
            && (c == CLASS_PRODUCTION ==> Attested(env) && SignatureAccepted(vf, env))
            && Fld(Admit(vf, env, candidate, kind).value.authorization, "trust_class") == Str(c)
  {
    hide Untrusted, EnforceWithin, VerifyCaptureAssertion, Injected, RequireEnterpriseCapture, SignatureAccepted;
    if Attested(env) {
      VerifiedMeans(vf, env);
      RecordClass(VerifyCaptureAssertion(vf, env).value);
    } else {
      GrantClass(vf, env, candidate, kind);
    }
  }

  lemma RecordClass(ctx: Context)
    ensures Fld(ctx.PublicRecord(), "trust_class") == Str(ctx.trustClass)
  {
    var fs := ctx.PublicRecord().fields;
    assert UniqueKeys(fs);
    GetAt(fs, 4);
  }

  lemma GrantClass(vf: Verifier, env: Environment, candidate: Value, kind: string)
    requires LoadGrant(vf, env).Ok?
    requires RequireEnterpriseCapture(LoadGrant(vf, env).value, candidate, kind, env.clock).Ok?
    ensures Strip(Var(env, ENV_MODE)) != TRUST_PRODUCTION
    ensures Fld(RequireEnterpriseCapture(LoadGrant(vf, env).value, candidate, kind, env.clock).value, "trust_class") == Str(CLASS_DEVELOPMENT)
  {
    hide ScopeAllows, StorageAllowed, InTime, HasAll, SignedText, GrantRecord, ReadJsonFile, GetOr, Blank, Strip;
    GrantRecordClass(LoadGrant(vf, env).value, env.clock);
  }

  lemma GrantRecordClass(g: Grant, clock: string)
    ensures Fld(GrantRecord(g, clock), "trust_class") == Str(CLASS_DEVELOPMENT)
  {
    var fs := GrantRecord(g, clock).fields;
    assert UniqueKeys(fs);
    GetAt(fs, 6);
  }
}
