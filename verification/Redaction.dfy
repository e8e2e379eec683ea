// sanitize: a recursive rewrite of the string leaves of a JSON tree that logs
// what it replaced. The regular expressions are arbitrary search and
// substitution functions.
module Redaction {
  import opened Json

  datatype Finding = Finding(category: string, path: string)
  datatype Pattern = Pattern(category: string, search: string -> bool, sub: string -> string)

  // hex prints a digest: a string leaf like any other.
  datatype Redactor = Redactor(patterns: seq<Pattern>, hex: Hash -> string)

  // The list shared by the recursive calls.
  class Findings {
    var entries: seq<Finding>

    constructor ()
      ensures entries == []
    {
      entries := [];
    }
  }

  // ----- one string -----

  // The string after the first n patterns.
  function CleanString(ps: seq<Pattern>, s: string, n: nat): string
    requires n <= |ps|
  {
    if n == 0 then s
    else
      var out := CleanString(ps, s, n - 1);
      if ps[n - 1].search(out) then ps[n - 1].sub(out) else out
  }

  function StringFindings(ps: seq<Pattern>, s: string, path: string, n: nat): seq<Finding>
    requires n <= |ps|
  {
    if n == 0 then []
    else StringFindings(ps, s, path, n - 1) +
         if ps[n - 1].search(CleanString(ps, s, n - 1)) then [Finding(ps[n - 1].category, path)] else []
  }

  method SanitizeString(ps: seq<Pattern>, value: string, path: string, findings: Findings) returns (output: string)
    modifies findings
    ensures output == CleanString(ps, value, |ps|)
    ensures findings.entries == old(findings.entries) + StringFindings(ps, value, path, |ps|)
  {
    output := value;
    for n := 0 to |ps|
      invariant output == CleanString(ps, value, n)
      invariant findings.entries == old(findings.entries) + StringFindings(ps, value, path, n)
    {
      if ps[n].search(output) {
        findings.entries := findings.entries + [Finding(ps[n].category, path)];
        output := ps[n].sub(output);
      }
    }
  }

  // ----- the tree -----

  function StringOf(r: Redactor, v: Value): string
    requires IsString(v)
  {
    if v.Str? then v.s else r.hex(v.h)
  }

  function CleanLeaf(r: Redactor, v: Value): Value
    requires IsString(v)
  {
    var out := CleanString(r.patterns, StringOf(r, v), |r.patterns|);
    if out == StringOf(r, v) then v else Str(out)
  }

  function Clean(r: Redactor, v: Value): Value {
    match v
    case Str(_) => CleanLeaf(r, v)
    case HexStr(_) => CleanLeaf(r, v)
    case Arr(xs) => Arr(seq(|xs|, i requires 0 <= i < |xs| => Clean(r, xs[i])))
    case Obj(fs) => Obj(seq(|fs|, i requires 0 <= i < |fs| => Field(fs[i].key, Clean(r, fs[i].val))))
    case _ => v
  }

  function ItemPath(path: string, i: nat): string { path + "[" + IntText(i) + "]" }
  function KeyPath(path: string, key: string): string { path + "." + key }

  // What one traversal logs.
  function Found(r: Redactor, v: Value, path: string): seq<Finding>
    decreases v, 1, 0
  {
    match v
    case Str(_) => StringFindings(r.patterns, StringOf(r, v), path, |r.patterns|)
    case HexStr(_) => StringFindings(r.patterns, StringOf(r, v), path, |r.patterns|)
    case Arr(xs) => FoundItems(r, v, path, |xs|)
    case Obj(fs) => FoundFields(r, v, path, |fs|)
    case _ => []
  }

  function FoundItems(r: Redactor, v: Value, path: string, n: nat): seq<Finding>
    requires v.Arr? && n <= |v.items|
    decreases v, 0, n
  {
    if n == 0 then [] else FoundItems(r, v, path, n - 1) + Found(r, v.items[n - 1], ItemPath(path, n - 1))
  }

  function FoundFields(r: Redactor, v: Value, path: string, n: nat): seq<Finding>
    requires v.Obj? && n <= |v.fields|
    decreases v, 0, n
  {
    if n == 0 then [] else FoundFields(r, v, path, n - 1) + Found(r, v.fields[n - 1].val, KeyPath(path, v.fields[n - 1].key))
  }

  method Sanitize(r: Redactor, value: Value, path: string, findings: Findings) returns (result: Value)
    modifies findings
    ensures result == Clean(r, value)
    ensures findings.entries == old(findings.entries) + Found(r, value, path)
    decreases value
  {
    hide CleanString, StringFindings, ItemPath, KeyPath;
    match value
    case Str(_) =>
      var out := SanitizeString(r.patterns, StringOf(r, value), path, findings);
      result := if out == StringOf(r, value) then value else Str(out);
    case HexStr(_) =>
      var out := SanitizeString(r.patterns, StringOf(r, value), path, findings);
      result := if out == StringOf(r, value) then value else Str(out);
    case Arr(xs) =>
      var cleaned: seq<Value> := [];
      for i := 0 to |xs|
        invariant |cleaned| == i && forall k :: 0 <= k < i ==> cleaned[k] == Clean(r, xs[k])
        invariant findings.entries == old(findings.entries) + FoundItems(r, value, path, i)
      {
        var item := Sanitize(r, xs[i], ItemPath(path, i), findings);
        cleaned := cleaned + [item];
      }
      assert cleaned == Clean(r, value).items;
      result := Arr(cleaned);
    case Obj(fs) =>
      var cleaned: seq<Field> := [];
      for i := 0 to |fs|
        invariant |cleaned| == i && forall k :: 0 <= k < i ==> cleaned[k] == Field(fs[k].key, Clean(r, fs[k].val))
        invariant findings.entries == old(findings.entries) + FoundFields(r, value, path, i)
      {
        var item := Sanitize(r, fs[i].val, KeyPath(path, fs[i].key), findings);
        cleaned := cleaned + [Field(fs[i].key, item)];
      }
      assert cleaned == Clean(r, value).fields;
      result := Obj(cleaned);
    case _ =>
      result := value;
  }

  // ----- shape -----

  // Same keys in the same order, same list lengths, same leaves other than strings.
  ghost predicate SameShape(v: Value, w: Value) {
    match v
    case Str(_) => IsString(w)
    case HexStr(_) => IsString(w)
    case Arr(xs) => w.Arr? && |w.items| == |xs| && forall i :: 0 <= i < |xs| ==> SameShape(xs[i], w.items[i])
    case Obj(fs) =>
      w.Obj? && |w.fields| == |fs| && forall i :: 0 <= i < |fs| ==> w.fields[i].key == fs[i].key && SameShape(fs[i].val, w.fields[i].val)
    case _ => v == w
  }

  lemma {:induction false} CleanKeepsShape(r: Redactor, v: Value)
    ensures SameShape(v, Clean(r, v))
    decreases v
  {
    hide CleanString;
    match v
    case Arr(xs) => forall i | 0 <= i < |xs| ensures SameShape(xs[i], Clean(r, xs[i])) { CleanKeepsShape(r, xs[i]); }
    case Obj(fs) => forall i | 0 <= i < |fs| ensures SameShape(fs[i].val, Clean(r, fs[i].val)) { CleanKeepsShape(r, fs[i].val); }
    case _ =>
  }

  lemma {:induction false} ShapeWellFormed(v: Value, w: Value)
    requires SameShape(v, w) && WellFormed(v)
    ensures WellFormed(w)
    decreases v
  {
    match v
    case Arr(xs) => forall i | 0 <= i < |xs| ensures WellFormed(w.items[i]) { ShapeWellFormed(xs[i], w.items[i]); }
    case Obj(fs) => forall i | 0 <= i < |fs| ensures WellFormed(w.fields[i].val) { ShapeWellFormed(fs[i].val, w.fields[i].val); }
    case _ =>
  }

  lemma CleanWellFormed(r: Redactor, v: Value)
    requires WellFormed(v)
    ensures WellFormed(Clean(r, v))
  {
    CleanKeepsShape(r, v);
    ShapeWellFormed(v, Clean(r, v));
  }

  // ----- nothing found, nothing changed -----

  lemma {:induction false} QuietString(ps: seq<Pattern>, s: string, path: string, n: nat)
    requires n <= |ps| && StringFindings(ps, s, path, n) == []
    ensures CleanString(ps, s, n) == s
  {
    if n > 0 { QuietString(ps, s, path, n - 1); }
  }

  lemma {:induction false} NoFindingsNoChange(r: Redactor, v: Value, path: string)
    requires Found(r, v, path) == []
    ensures Clean(r, v) == v
    decreases v, 1, 0
  {
    match v
    case Str(_) => QuietString(r.patterns, StringOf(r, v), path, |r.patterns|);
    case HexStr(_) => QuietString(r.patterns, StringOf(r, v), path, |r.patterns|);
    case Arr(xs) =>
      QuietItems(r, v, path, |xs|);
      assert Clean(r, v).items == xs;
    case Obj(fs) =>
      QuietFields(r, v, path, |fs|);
      assert Clean(r, v).fields == fs;
    case _ =>
  }

  lemma {:induction false} QuietItems(r: Redactor, v: Value, path: string, n: nat)
    requires v.Arr? && n <= |v.items| && FoundItems(r, v, path, n) == []
    ensures forall i :: 0 <= i < n ==> Clean(r, v.items[i]) == v.items[i]
    decreases v, 0, n
  {
    hide CleanString, StringFindings, ItemPath, KeyPath;
    if n > 0 {
      QuietItems(r, v, path, n - 1);
      NoFindingsNoChange(r, v.items[n - 1], ItemPath(path, n - 1));
    }
  }

  lemma {:induction false} QuietFields(r: Redactor, v: Value, path: string, n: nat)
    requires v.Obj? && n <= |v.fields| && FoundFields(r, v, path, n) == []
    ensures forall i :: 0 <= i < n ==> Clean(r, v.fields[i].val) == v.fields[i].val
    decreases v, 0, n
  {
    hide CleanString, StringFindings, ItemPath, KeyPath;
    if n > 0 {
      QuietFields(r, v, path, n - 1);
      NoFindingsNoChange(r, v.fields[n - 1].val, KeyPath(path, v.fields[n - 1].key));
    }
  }

  // ----- where the findings are -----

  datatype Leaf = Leaf(path: string, text: string)

  // The string leaves in traversal order, with their paths.
  function Leaves(r: Redactor, v: Value, path: string): seq<Leaf>
    decreases v, 1, 0
  {
    match v
    case Str(_) => [Leaf(path, StringOf(r, v))]
    case HexStr(_) => [Leaf(path, StringOf(r, v))]
    case Arr(xs) => ItemLeaves(r, v, path, |xs|)
    case Obj(fs) => FieldLeaves(r, v, path, |fs|)
    case _ => []
  }

  function ItemLeaves(r: Redactor, v: Value, path: string, n: nat): seq<Leaf>
    requires v.Arr? && n <= |v.items|
    decreases v, 0, n
  {
    if n == 0 then [] else ItemLeaves(r, v, path, n - 1) + Leaves(r, v.items[n - 1], ItemPath(path, n - 1))
  }

  function FieldLeaves(r: Redactor, v: Value, path: string, n: nat): seq<Leaf>
    requires v.Obj? && n <= |v.fields|
    decreases v, 0, n
  {
    if n == 0 then [] else FieldLeaves(r, v, path, n - 1) + Leaves(r, v.fields[n - 1].val, KeyPath(path, v.fields[n - 1].key))
  }

  function LeafFindings(ps: seq<Pattern>, leaves: seq<Leaf>): seq<Finding> {
    if leaves == [] then []
    else LeafFindings(ps, leaves[..|leaves| - 1]) +
         StringFindings(ps, leaves[|leaves| - 1].text, leaves[|leaves| - 1].path, |ps|)
  }

  lemma {:induction false} LeafFindingsAppend(ps: seq<Pattern>, a: seq<Leaf>, b: seq<Leaf>)
    ensures LeafFindings(ps, a + b) == LeafFindings(ps, a) + LeafFindings(ps, b)
    decreases |b|
  {
    hide StringFindings;
    if b == [] {
      assert a + b == a;
    } else {
      var n := |b| - 1;
      LeafFindingsAppend(ps, a, b[..n]);
      assert (a + b)[..|a + b| - 1] == a + b[..n];
    }
  }

  // The log is exactly what each string leaf triggers, leaf by leaf in traversal
  // order and pattern by pattern within a leaf.
  lemma {:induction false} FindingsFollowLeaves(r: Redactor, v: Value, path: string)
    ensures Found(r, v, path) == LeafFindings(r.patterns, Leaves(r, v, path))
    decreases v, 1, 0
  {
    hide StringFindings, ItemPath, KeyPath;
    match v
    case Str(_) => OneLeaf(r.patterns, Leaf(path, StringOf(r, v)));
    case HexStr(_) => OneLeaf(r.patterns, Leaf(path, StringOf(r, v)));
    case Arr(xs) => ItemFindings(r, v, path, |xs|);
    case Obj(fs) => FieldFindings(r, v, path, |fs|);
    case _ =>
  }

  lemma OneLeaf(ps: seq<Pattern>, leaf: Leaf)
    ensures LeafFindings(ps, [leaf]) == StringFindings(ps, leaf.text, leaf.path, |ps|)
  {
    hide StringFindings;
    var one := [leaf];
    assert one[..|one| - 1] == [];
    assert [] + StringFindings(ps, leaf.text, leaf.path, |ps|) == StringFindings(ps, leaf.text, leaf.path, |ps|);
  }

  lemma {:induction false} ItemFindings(r: Redactor, v: Value, path: string, n: nat)
    requires v.Arr? && n <= |v.items|
    ensures FoundItems(r, v, path, n) == LeafFindings(r.patterns, ItemLeaves(r, v, path, n))
    decreases v, 0, n
  {
    hide StringFindings, ItemPath;
    if n > 0 {
      ItemFindings(r, v, path, n - 1);
      FindingsFollowLeaves(r, v.items[n - 1], ItemPath(path, n - 1));
      LeafFindingsAppend(r.patterns, ItemLeaves(r, v, path, n - 1), Leaves(r, v.items[n - 1], ItemPath(path, n - 1)));
    }
  }

  lemma {:induction false} FieldFindings(r: Redactor, v: Value, path: string, n: nat)
    requires v.Obj? && n <= |v.fields|
    ensures FoundFields(r, v, path, n) == LeafFindings(r.patterns, FieldLeaves(r, v, path, n))
    decreases v, 0, n
  {
    hide StringFindings, KeyPath;
    if n > 0 {
      FieldFindings(r, v, path, n - 1);
      FindingsFollowLeaves(r, v.fields[n - 1].val, KeyPath(path, v.fields[n - 1].key));
      LeafFindingsAppend(r.patterns, FieldLeaves(r, v, path, n - 1), Leaves(r, v.fields[n - 1].val, KeyPath(path, v.fields[n - 1].key)));
    }
  }

  // ----- a second pass -----

  ghost predicate QuietText(ps: seq<Pattern>, s: string) {
    forall k :: 0 <= k < |ps| ==> !ps[k].search(s)
  }

  // No pattern matches what any string leaf has become.
  ghost predicate QuietAfter(r: Redactor, v: Value) {
    forall leaf :: leaf in Leaves(r, v, "$") ==> QuietText(r.patterns, CleanString(r.patterns, leaf.text, |r.patterns|))
  }

  lemma {:induction false} QuietIff(ps: seq<Pattern>, s: string, path: string, n: nat)
    requires n <= |ps|
    ensures StringFindings(ps, s, path, n) == [] <==> forall k :: 0 <= k < n ==> !ps[k].search(s)
    ensures StringFindings(ps, s, path, n) == [] ==> CleanString(ps, s, n) == s
  {
    if n > 0 { QuietIff(ps, s, path, n - 1); }
  }

  lemma {:induction false} LeafFindingsEmpty(ps: seq<Pattern>, leaves: seq<Leaf>)
    ensures LeafFindings(ps, leaves) == [] <==> forall i :: 0 <= i < |leaves| ==> QuietText(ps, leaves[i].text)
  {
    hide StringFindings, QuietText;
    if leaves != [] {
      var n := |leaves| - 1;
      LeafFindingsEmpty(ps, leaves[..n]);
      QuietLeaf(ps, leaves[n]);
      assert leaves == leaves[..n] + [leaves[n]];
    }
  }

  lemma QuietLeaf(ps: seq<Pattern>, leaf: Leaf)
    ensures StringFindings(ps, leaf.text, leaf.path, |ps|) == [] <==> QuietText(ps, leaf.text)
  {
    QuietIff(ps, leaf.text, leaf.path, |ps|);
  }

  // The leaves of a cleaned tree are the cleaned leaves, at the same paths.
  ghost predicate Cleaned(ps: seq<Pattern>, a: seq<Leaf>, b: seq<Leaf>) {
    |a| == |b| && forall i :: 0 <= i < |a| ==> b[i] == Leaf(a[i].path, CleanString(ps, a[i].text, |ps|))
  }

  lemma {:induction false} CleanedLeaves(r: Redactor, v: Value, path: string)
    ensures Cleaned(r.patterns, Leaves(r, v, path), Leaves(r, Clean(r, v), path))
    decreases v, 1, 0
  {
    hide CleanString, ItemPath, KeyPath;
    match v
    case Arr(xs) => CleanedItems(r, v, path, |xs|);
    case Obj(fs) => CleanedFields(r, v, path, |fs|);
    case _ =>
  }

  lemma {:induction false} CleanedItems(r: Redactor, v: Value, path: string, n: nat)
    requires v.Arr? && n <= |v.items|
    ensures Cleaned(r.patterns, ItemLeaves(r, v, path, n), ItemLeaves(r, Clean(r, v), path, n))
    decreases v, 0, n
  {
    hide CleanString, ItemPath;
    if n > 0 {
      CleanedItems(r, v, path, n - 1);
      CleanedLeaves(r, v.items[n - 1], ItemPath(path, n - 1));
    }
  }

  lemma {:induction false} CleanedFields(r: Redactor, v: Value, path: string, n: nat)
    requires v.Obj? && n <= |v.fields|
    ensures Cleaned(r.patterns, FieldLeaves(r, v, path, n), FieldLeaves(r, Clean(r, v), path, n))
    decreases v, 0, n
  {
    hide CleanString, KeyPath;
    if n > 0 {
      CleanedFields(r, v, path, n - 1);
      CleanedLeaves(r, v.fields[n - 1].val, KeyPath(path, v.fields[n - 1].key));
    }
  }

  // A second pass finds nothing, and then changes nothing, exactly when no
  // pattern matches any cleaned leaf.
  lemma SecondPassQuietIff(r: Redactor, v: Value)
    ensures Found(r, Clean(r, v), "$") == [] <==> QuietAfter(r, v)
    ensures QuietAfter(r, v) ==> Clean(r, Clean(r, v)) == Clean(r, v)
  {
    hide Found, Leaves, LeafFindings, Clean, CleanString, QuietText;
    var a, b := Leaves(r, v, "$"), Leaves(r, Clean(r, v), "$");
    FindingsFollowLeaves(r, Clean(r, v), "$");
    LeafFindingsEmpty(r.patterns, b);
    CleanedLeaves(r, v, "$");
    if forall i :: 0 <= i < |b| ==> QuietText(r.patterns, b[i].text) {
      forall leaf | leaf in a ensures QuietText(r.patterns, CleanString(r.patterns, leaf.text, |r.patterns|)) {
        var i :| 0 <= i < |a| && a[i] == leaf;
        assert b[i].text == CleanString(r.patterns, leaf.text, |r.patterns|);
      }
    }
    if QuietAfter(r, v) {
      forall i | 0 <= i < |b| ensures QuietText(r.patterns, b[i].text) { assert a[i] in a; }
      NoFindingsNoChange(r, Clean(r, v), "$");
    }
  }

  // Every replacement lowers the rank of the text it is made in.
  ghost predicate Lowers(ps: seq<Pattern>, rank: string -> nat) {
    forall k, s :: 0 <= k < |ps| && ps[k].search(s) ==> rank(ps[k].sub(s)) < rank(s)
  }

  lemma {:induction false} RankDrops(ps: seq<Pattern>, rank: string -> nat, s: string, n: nat)
    requires Lowers(ps, rank) && n <= |ps|
    ensures rank(CleanString(ps, s, n)) <= rank(s)
    ensures (forall k :: 0 <= k < n ==> !ps[k].search(s)) ==> CleanString(ps, s, n) == s
    ensures (exists k :: 0 <= k < n && ps[k].search(s)) ==> rank(CleanString(ps, s, n)) < rank(s)
  {
    if n > 0 { RankDrops(ps, rank, s, n - 1); }
  }

  // Where every replacement lowers some rank, sanitising twice is sanitising once
  // exactly when no pattern matches any cleaned leaf.
  lemma IdempotentIff(r: Redactor, v: Value, rank: string -> nat)
    requires Lowers(r.patterns, rank)
    ensures Clean(r, Clean(r, v)) == Clean(r, v) <==> QuietAfter(r, v)
  {
    hide Found, Leaves, Clean, CleanString, Lowers;
    SecondPassQuietIff(r, v);
    if Clean(r, Clean(r, v)) == Clean(r, v) {
      var a, b := Leaves(r, v, "$"), Leaves(r, Clean(r, v), "$");
      CleanedLeaves(r, v, "$");
      CleanedLeaves(r, Clean(r, v), "$");
      forall leaf | leaf in a ensures QuietText(r.patterns, CleanString(r.patterns, leaf.text, |r.patterns|)) {
        var i :| 0 <= i < |a| && a[i] == leaf;
        var out := CleanString(r.patterns, leaf.text, |r.patterns|);
        assert b[i].text == out == CleanString(r.patterns, out, |r.patterns|);
        RankDrops(r.patterns, rank, out, |r.patterns|);
      }
    }
  }
}
