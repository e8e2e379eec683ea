// digest and payload_digest, and what equality of digests means.
module Digests {
  import opened Wrappers
  import opened Json
  import opened Canonical
  import opened CanonicalText

  const SESSION := "capture_session_id"

  function Digest(v: Value): Hash {
    Sha256(CanonicalJson(v))
  }

  // The work content of a payload: everything but the session identity.
  function Content(payload: Value): Value {
    if payload.Obj? then Obj(Drop(payload.fields, SESSION)) else payload
  }

  function PayloadDigest(payload: Value): Hash {
    Digest(Content(payload))
  }

  lemma DigestIdentifies(a: Value, b: Value)
    requires WellFormed(a) && WellFormed(b)
    ensures Digest(a) == Digest(b) <==> Same(a, b)
  {
    CanonicalJsonIdentifies(a, b);
  }

  // Two keys of two objects hold the same thing, or neither is there.
  ghost predicate SameAt(a: Value, b: Value, k: string) {
    match (Get(a, k), Get(b, k))
    case (Some(x), Some(y)) => Same(x, y)
    case (None, None) => true
    case _ => false
  }

  lemma SameGet(a: Value, b: Value, k: string)
    requires WellFormed(a) && WellFormed(b) && a.Obj? && b.Obj?
    requires Same(a, b)
    ensures SameAt(a, b, k)
  {
    GetIn(a, k);
    GetIn(b, k);
    if Get(a, k).Some? {
      var f := Field(k, Get(a, k).value);
      assert FoundIn(f, b.fields);
      var g :| g in b.fields && f.key == g.key && Same(f.val, g.val);
      assert Field(k, g.val) == g;
    } else {
      assert forall g :: g in b.fields ==> Finds(a.fields, g);
    }
  }

  ghost predicate SameEverywhere(a: Value, b: Value) {
    forall k :: SameAt(a, b, k)
  }

  ghost predicate SameButSession(a: Value, b: Value) {
    forall k :: k != SESSION ==> SameAt(a, b, k)
  }

  lemma SameByGet(a: Value, b: Value)
    requires WellFormed(a) && WellFormed(b) && a.Obj? && b.Obj?
    requires SameEverywhere(a, b)
    ensures Same(a, b)
  {
    forall f | f in a.fields ensures FoundIn(f, b.fields) {
      GetIn(a, f.key);
      GetIn(b, f.key);
      assert f == Field(f.key, f.val) && SameAt(a, b, f.key);
      assert Field(f.key, Get(b, f.key).value) in b.fields;
    }
    forall g | g in b.fields ensures Finds(a.fields, g) {
      GetIn(a, g.key);
      GetIn(b, g.key);
      assert g == Field(g.key, g.val) && SameAt(a, b, g.key);
      assert Field(g.key, Get(a, g.key).value) in a.fields;
    }
  }

  lemma ContentWellFormed(p: Value)
    requires WellFormed(p)
    ensures WellFormed(Content(p))
  {
    if p.Obj? {
      DropUnique(p.fields, SESSION);
      var d := Drop(p.fields, SESSION);
      forall i | 0 <= i < |d| ensures WellFormed(d[i].val) {
        assert d[i] in d;
        assert d[i] in p.fields;
      }
    }
  }

  lemma ContentAt(p: Value, q: Value, k: string)
    requires WellFormed(p) && WellFormed(q) && p.Obj? && q.Obj?
    ensures SameAt(Content(p), Content(q), k) <==> k == SESSION || SameAt(p, q, k)
  {
    GetDrop(p.fields, SESSION, k);
    GetDrop(q.fields, SESSION, k);
  }

  // The payload digest identifies a payload up to key order and session id.
  lemma PayloadDigestIdentifies(p: Value, q: Value)
    requires WellFormed(p) && WellFormed(q) && p.Obj? && q.Obj?
    ensures PayloadDigest(p) == PayloadDigest(q) <==> SameButSession(p, q)
  {
    ContentWellFormed(p);
    ContentWellFormed(q);
    DigestIdentifies(Content(p), Content(q));
    if Same(Content(p), Content(q)) {
      forall k | k != SESSION ensures SameAt(p, q, k) {
        SameGet(Content(p), Content(q), k);
        ContentAt(p, q, k);
      }
    }
    if SameButSession(p, q) {
      forall k ensures SameAt(Content(p), Content(q), k) { ContentAt(p, q, k); }
      SameByGet(Content(p), Content(q));
    }
  }

  lemma CanonIsSame(v: Value)
    requires WellFormed(v)
    ensures WellFormed(Canon(v)) && Same(Canon(v), v) && Same(v, Canon(v))
    ensures Digest(Canon(v)) == Digest(v) && CanonicalJson(Canon(v)) == CanonicalJson(v)
  {
    CanonWellFormed(v);
    CanonSame(v);
    CanonIdempotent(v);
    SameCanon(v, Canon(v));
  }

  // Storing a payload as text and loading it back does not change its digest.
  lemma PayloadDigestReloaded(p: Value)
    requires WellFormed(p)
    ensures Loads(CanonicalJson(p)) == Some(Canon(p))
    ensures PayloadDigest(Canon(p)) == PayloadDigest(p)
  {
    LoadsCanonicalJson(p);
    CanonIsSame(p);
    if p.Obj? {
      forall k ensures SameAt(Canon(p), p, k) { SameGet(Canon(p), p, k); }
      PayloadDigestIdentifies(Canon(p), p);
    }
  }
}
