// canonical_json: sorted keys, no spaces, non-ASCII characters left as they are.
// The main results: parsing a canonical text gives the value back with its keys
// sorted, and two values share a canonical text exactly when they are equal up
// to the order of object keys.
module Canonical {
  import opened Wrappers
  import opened Json

  // ----- key order -----

  predicate Less(a: string, b: string) {
    if b == "" then false
    else if a == "" then true
    else if a[0] != b[0] then a[0] < b[0]
    else Less(a[1..], b[1..])
  }

  lemma {:induction false} LessTotal(a: string, b: string)
    ensures a == b || Less(a, b) || Less(b, a)
    ensures !(Less(a, b) && Less(b, a))
    ensures Less(a, b) ==> a != b
  {
    if a != "" && b != "" && a[0] == b[0] {
      LessTotal(a[1..], b[1..]);
      assert a == [a[0]] + a[1..] && b == [b[0]] + b[1..];
    }
  }

  lemma {:induction false} LessTransitive(a: string, b: string, c: string)
    requires Less(a, b) && Less(b, c)
    ensures Less(a, c)
  {
    if a != "" && a[0] == b[0] && b[0] == c[0] { LessTransitive(a[1..], b[1..], c[1..]); }
  }

  ghost predicate Ascending(fs: seq<Field>) {
    forall i, j :: 0 <= i < j < |fs| ==> Less(fs[i].key, fs[j].key)
  }

  function Insert(fs: seq<Field>, f: Field): (r: seq<Field>)
    ensures multiset(r) == multiset(fs) + multiset{f}
  {
    if fs == [] || !Less(fs[0].key, f.key) then
      assert multiset([f] + fs) == multiset(fs) + multiset{f};
      [f] + fs
    else
      assert fs == [fs[0]] + fs[1..];
      [fs[0]] + Insert(fs[1..], f)
  }

  // sorted(value.items()) for unique keys
  function Sort(fs: seq<Field>): (r: seq<Field>)
    ensures multiset(r) == multiset(fs)
  {
    if fs == [] then []
    else
      assert fs == [fs[0]] + fs[1..];
      Insert(Sort(fs[1..]), fs[0])
  }

  lemma SortMembers(fs: seq<Field>)
    ensures |Sort(fs)| == |fs|
    ensures forall f :: f in Sort(fs) <==> f in fs
  {
    assert |multiset(Sort(fs))| == |multiset(fs)|;
    forall f ensures f in Sort(fs) <==> f in fs {
      assert f in Sort(fs) <==> f in multiset(Sort(fs));
      assert f in fs <==> f in multiset(fs);
    }
  }

  lemma {:induction false} InsertAscending(fs: seq<Field>, f: Field)
    requires Ascending(fs) && forall g :: g in fs ==> g.key != f.key
    ensures Ascending(Insert(fs, f))
  {
    if fs == [] {
    } else if !Less(fs[0].key, f.key) {
      LessTotal(fs[0].key, f.key);
      forall j | 0 < j < |fs| ensures Less(f.key, fs[j].key) {
        LessTransitive(f.key, fs[0].key, fs[j].key);
      }
    } else {
      var rest := Insert(fs[1..], f);
      InsertAscending(fs[1..], f);
      forall j | 0 <= j < |rest| ensures Less(fs[0].key, rest[j].key) {
        assert rest[j] in multiset(rest);
        assert rest[j] == f || rest[j] in fs[1..];
      }
    }
  }

  lemma {:induction false} SortAscending(fs: seq<Field>)
    requires UniqueKeys(fs)
    ensures Ascending(Sort(fs))
  {
    if fs != [] {
      SortAscending(fs[1..]);
      SortMembers(fs[1..]);
      InsertAscending(Sort(fs[1..]), fs[0]);
    }
  }

  lemma AscendingUnique(fs: seq<Field>)
    requires Ascending(fs)
    ensures UniqueKeys(fs)
  {
    forall i, j | 0 <= i < j < |fs| ensures fs[i].key != fs[j].key {
      LessTotal(fs[i].key, fs[j].key);
    }
  }

  lemma NonemptyHasMember(fs: seq<Field>)
    ensures fs == [] || exists f :: f in fs
  {
    assert fs == [] || fs[0] in fs;
  }

  // An ascending list is determined by its members.
  lemma {:induction false} AscendingDetermined(fs: seq<Field>, gs: seq<Field>)
    requires Ascending(fs) && Ascending(gs)
    requires forall f :: f in fs <==> f in gs
    ensures fs == gs
  {
    if fs == [] {
      NonemptyHasMember(gs);
    } else {
      assert fs[0] in fs;
      var j :| 0 <= j < |gs| && gs[j] == fs[0];
      assert gs[0] in gs;
      var i :| 0 <= i < |fs| && fs[i] == gs[0];
      LessTotal(fs[0].key, gs[0].key);
      assert fs[0] == gs[0];
      LessTotal(fs[0].key, fs[0].key);
      forall f ensures f in fs[1..] <==> f in gs[1..] {
        if f in fs[1..] { assert f in gs && f != fs[0]; }
        if f in gs[1..] { assert f in fs && f != gs[0]; }
      }
      AscendingDetermined(fs[1..], gs[1..]);
      assert fs == [fs[0]] + fs[1..] && gs == [gs[0]] + gs[1..];
    }
  }

  // ----- sorting the keys at every depth -----

  function Canon(v: Value): Value {
    match v
    case Arr(xs) => Arr(seq(|xs|, i requires 0 <= i < |xs| => Canon(xs[i])))
    case Obj(fs) => Obj(Sort(CanonFields(fs)))
    case _ => v
  }

  function CanonFields(fs: seq<Field>): (r: seq<Field>)
    ensures |r| == |fs|
    ensures forall i :: 0 <= i < |fs| ==> r[i] == Field(fs[i].key, Canon(fs[i].val))
  {
    seq(|fs|, i requires 0 <= i < |fs| => Field(fs[i].key, Canon(fs[i].val)))
  }

  lemma CanonFieldsUnique(fs: seq<Field>)
    requires UniqueKeys(fs)
    ensures UniqueKeys(CanonFields(fs)) && Ascending(Sort(CanonFields(fs)))
    ensures UniqueKeys(Sort(CanonFields(fs)))
  {
    SortAscending(CanonFields(fs));
    AscendingUnique(Sort(CanonFields(fs)));
  }

  // Equality up to the order of object keys at every depth.
  ghost predicate Same(a: Value, b: Value) {
    match a
    case Arr(xs) => b.Arr? && |xs| == |b.items| && forall i :: 0 <= i < |xs| ==> Same(xs[i], b.items[i])
    case Obj(fs) => b.Obj? && AllFoundIn(fs, b.fields) && FindsAll(fs, b.fields)
    case _ => a == b
  }

  ghost predicate AllFoundIn(fs: seq<Field>, gs: seq<Field>)
    decreases fs, 1
  {
    forall f :: f in fs ==> FoundIn(f, gs)
  }

  ghost predicate FindsAll(fs: seq<Field>, gs: seq<Field>)
    decreases fs, 1
  {
    forall g :: g in gs ==> Finds(fs, g)
  }

  ghost predicate FoundIn(f: Field, gs: seq<Field>) {
    exists g :: g in gs && f.key == g.key && Same(f.val, g.val)
  }

  ghost predicate Finds(fs: seq<Field>, g: Field)
    decreases fs, 0
  {
    exists f :: f in fs && f.key == g.key && Same(f.val, g.val)
  }

  lemma {:induction false} SameCanon(a: Value, b: Value)
    requires WellFormed(a) && WellFormed(b)
    ensures Same(a, b) <==> Canon(a) == Canon(b)
    decreases a
  {
    match a
    case Arr(xs) =>
      if b.Arr? && |xs| == |b.items| {
        forall i | 0 <= i < |xs| ensures Same(xs[i], b.items[i]) <==> Canon(xs[i]) == Canon(b.items[i]) {
          SameCanon(xs[i], b.items[i]);
        }
        if Canon(a) == Canon(b) {
          forall i | 0 <= i < |xs| ensures Canon(xs[i]) == Canon(b.items[i]) {
            assert Canon(xs[i]) == Canon(a).items[i] == Canon(b).items[i];
          }
        }
      } else if b.Arr? {
        assert |Canon(a).items| == |xs| && |Canon(b).items| == |b.items|;
      }
    case Obj(fs) =>
      if b.Obj? {
        var gs := b.fields;
        forall f, g | f in fs && g in gs
          ensures f.key == g.key && Same(f.val, g.val) <==> CanonField(f) == CanonField(g)
        {
          SameCanon(f.val, g.val);
        }
        SameCanonObjects(fs, gs);
      }
    case _ =>
  }

  function CanonField(f: Field): Field {
    Field(f.key, Canon(f.val))
  }

  lemma CanonMembers(fs: seq<Field>)
    ensures forall c :: c in CanonFields(fs) <==> exists f :: f in fs && c == CanonField(f)
    ensures forall c :: c in Sort(CanonFields(fs)) <==> c in CanonFields(fs)
  {
    SortMembers(CanonFields(fs));
    forall c ensures c in CanonFields(fs) <==> exists f :: f in fs && c == CanonField(f) {
      if c in CanonFields(fs) {
        var i :| 0 <= i < |fs| && CanonFields(fs)[i] == c;
        assert fs[i] in fs && c == CanonField(fs[i]);
      }
      if f :| f in fs && c == CanonField(f) {
        var i :| 0 <= i < |fs| && fs[i] == f;
        assert CanonFields(fs)[i] == c;
      }
    }
  }

  lemma FoundCanon(f: Field, gs: seq<Field>)
    requires forall g :: g in gs ==> (f.key == g.key && Same(f.val, g.val) <==> CanonField(f) == CanonField(g))
    ensures FoundIn(f, gs) <==> CanonField(f) in CanonFields(gs)
  {
    CanonMembers(gs);
  }

  lemma FindsCanon(fs: seq<Field>, g: Field)
    requires forall f :: f in fs ==> (f.key == g.key && Same(f.val, g.val) <==> CanonField(f) == CanonField(g))
    ensures Finds(fs, g) <==> CanonField(g) in CanonFields(fs)
  {
    CanonMembers(fs);
  }

  ghost predicate Within(cs: seq<Field>, ds: seq<Field>) {
    forall c :: c in cs ==> c in ds
  }

  lemma AllFoundCanon(fs: seq<Field>, gs: seq<Field>)
    requires forall f :: f in fs ==> (FoundIn(f, gs) <==> CanonField(f) in CanonFields(gs))
    ensures AllFoundIn(fs, gs) <==> Within(CanonFields(fs), CanonFields(gs))
  {
    CanonMembers(fs);
    if AllFoundIn(fs, gs) {
      forall c | c in CanonFields(fs) ensures c in CanonFields(gs) {
        var f :| f in fs && c == CanonField(f);
      }
    }
    if Within(CanonFields(fs), CanonFields(gs)) {
      forall f | f in fs ensures FoundIn(f, gs) {
        assert CanonField(f) in CanonFields(fs);
      }
    }
  }

  lemma FindsAllCanon(fs: seq<Field>, gs: seq<Field>)
    requires forall g :: g in gs ==> (Finds(fs, g) <==> CanonField(g) in CanonFields(fs))
    ensures FindsAll(fs, gs) <==> Within(CanonFields(gs), CanonFields(fs))
  {
    CanonMembers(gs);
    if FindsAll(fs, gs) {
      forall c | c in CanonFields(gs) ensures c in CanonFields(fs) {
        var g :| g in gs && c == CanonField(g);
      }
    }
    if Within(CanonFields(gs), CanonFields(fs)) {
      forall g | g in gs ensures Finds(fs, g) {
        assert CanonField(g) in CanonFields(gs);
      }
    }
  }

  lemma SameCanonObjects(fs: seq<Field>, gs: seq<Field>)
    requires UniqueKeys(fs) && UniqueKeys(gs)
    requires forall f, g :: f in fs && g in gs ==>
               (f.key == g.key && Same(f.val, g.val) <==> CanonField(f) == CanonField(g))
    ensures Same(Obj(fs), Obj(gs)) <==> Canon(Obj(fs)) == Canon(Obj(gs))
  {
    var cf, cg := CanonFields(fs), CanonFields(gs);
    forall f | f in fs ensures FoundIn(f, gs) <==> CanonField(f) in cg { FoundCanon(f, gs); }
    forall g | g in gs ensures Finds(fs, g) <==> CanonField(g) in cf { FindsCanon(fs, g); }
    AllFoundCanon(fs, gs);
    FindsAllCanon(fs, gs);
    SortedEqual(cf, cg);
    CanonFieldsUnique(fs);
    CanonFieldsUnique(gs);
  }

  lemma SortedEqual(cf: seq<Field>, cg: seq<Field>)
    ensures Sort(cf) == Sort(cg) ==> Within(cf, cg) && Within(cg, cf)
    ensures Ascending(Sort(cf)) && Ascending(Sort(cg)) && Within(cf, cg) && Within(cg, cf) ==> Sort(cf) == Sort(cg)
  {
    SortMembers(cf);
    SortMembers(cg);
    if Ascending(Sort(cf)) && Ascending(Sort(cg)) && Within(cf, cg) && Within(cg, cf) {
      AscendingDetermined(Sort(cf), Sort(cg));
    }
  }

  lemma {:induction false} CanonWellFormed(v: Value)
    requires WellFormed(v)
    ensures WellFormed(Canon(v))
    decreases v
  {
    match v
    case Arr(xs) =>
      forall i | 0 <= i < |xs| ensures WellFormed(Canon(xs[i])) { CanonWellFormed(xs[i]); }
    case Obj(fs) =>
      forall i | 0 <= i < |fs| ensures WellFormed(Canon(fs[i].val)) { CanonWellFormed(fs[i].val); }
      CanonFieldsUnique(fs);
      SortMembers(CanonFields(fs));
      var r := Sort(CanonFields(fs));
      forall i | 0 <= i < |r| ensures WellFormed(r[i].val) {
        assert r[i] in r;
        assert r[i] in CanonFields(fs);
      }
    case _ =>
  }

  lemma {:induction false} CanonSame(v: Value)
    requires WellFormed(v)
    ensures Same(Canon(v), v)
    decreases v
  {
    match v
    case Arr(xs) =>
      forall i | 0 <= i < |xs| ensures Same(Canon(xs[i]), xs[i]) { CanonSame(xs[i]); }
    case Obj(fs) =>
      CanonMembers(fs);
      var r := Sort(CanonFields(fs));
      forall f | f in fs ensures Same(Canon(f.val), f.val) { CanonSame(f.val); }
      forall c | c in r ensures FoundIn(c, fs) {
        var f :| f in fs && c == CanonField(f);
      }
      forall f | f in fs ensures Finds(r, f) {
        assert CanonField(f) in r;
      }
    case _ =>
  }

  lemma CanonIdempotent(v: Value)
    requires WellFormed(v)
    ensures Canon(Canon(v)) == Canon(v)
  {
    CanonWellFormed(v);
    CanonSame(v);
    SameCanon(Canon(v), v);
  }

  // Looking a key up commutes with sorting.
  lemma CanonGet(v: Value, k: string)
    requires WellFormed(v) && v.Obj?
    ensures Get(Canon(v), k) == match Get(v, k) case Some(x) => Some(Canon(x)) case None => None
  {
    var cf := CanonFields(v.fields);
    CanonFieldsUnique(v.fields);
    SortMembers(cf);
    GetIn(v, k);
    GetIn(Canon(v), k);
    var i := Index(v.fields, k);
    assert i < |v.fields| ==> cf[i] in cf;
    assert forall f :: f in Canon(v).fields ==> exists m :: 0 <= m < |cf| && cf[m] == f;
  }
}
