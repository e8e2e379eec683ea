// Where the leaves of a tree are, and what a finding says: which leaf, and which
// pattern on what the earlier patterns have made of it.
module RedactionPaths {
  import opened Wrappers
  import opened Json
  import opened Redaction

  // ----- routes -----

  // One step down a tree.
  datatype Stop = ByKey(name: string) | ByIndex(index: nat)

  function Follow(v: Value, route: seq<Stop>): Option<Value>
    decreases |route|
  {
    if route == [] then Some(v)
    else match route[0]
      case ByKey(name) => if Get(v, name).Some? then Follow(Get(v, name).value, route[1..]) else None
      case ByIndex(i) => if v.Arr? && i < |v.items| then Follow(v.items[i], route[1..]) else None
  }

  // Keys after a dot, indices in brackets.
  function StopText(stop: Stop): string {
    match stop case ByKey(name) => "." + name case ByIndex(i) => "[" + IntText(i) + "]"
  }

  function RouteText(route: seq<Stop>): string {
    if route == [] then "" else StopText(route[0]) + RouteText(route[1..])
  }

  lemma FirstStop(path: string, stop: Stop, rest: seq<Stop>)
    ensures path + RouteText([stop] + rest) == (path + StopText(stop)) + RouteText(rest)
  {
    hide StopText;
    assert ([stop] + rest)[1..] == rest;
  }

  lemma NoStop(v: Value, path: string)
    ensures Follow(v, []) == Some(v) && path + RouteText([]) == path
  {
  }

  lemma StopPaths(path: string, name: string, i: nat)
    ensures KeyPath(path, name) == path + StopText(ByKey(name)) && ItemPath(path, i) == path + StopText(ByIndex(i))
  {
    hide IntText;
    assert (path + ".") + name == path + ("." + name);
    assert ((path + "[") + IntText(i)) + "]" == path + (("[" + IntText(i)) + "]");
  }

  lemma FollowFirst(v: Value, stop: Stop, rest: seq<Stop>)
    ensures stop.ByKey? ==> Follow(v, [stop] + rest) == if Get(v, stop.name).Some? then Follow(Get(v, stop.name).value, rest) else None
    ensures stop.ByIndex? ==>
              Follow(v, [stop] + rest) == if v.Arr? && stop.index < |v.items| then Follow(v.items[stop.index], rest) else None
  {
    hide Get;
    assert ([stop] + rest)[1..] == rest;
  }

  ghost predicate LeafAt(r: Redactor, v: Value, path: string, route: seq<Stop>, leaf: Leaf) {
    Follow(v, route).Some? && IsString(Follow(v, route).value) && leaf == Leaf(path + RouteText(route), StringOf(r, Follow(v, route).value))
  }

  lemma {:induction false} ItemLeafIn(r: Redactor, v: Value, path: string, n: nat, leaf: Leaf)
    requires v.Arr? && n <= |v.items|
    ensures leaf in ItemLeaves(r, v, path, n) <==> exists i :: 0 <= i < n && leaf in Leaves(r, v.items[i], ItemPath(path, i))
    decreases n
  {
    hide Leaves, ItemPath;
    if n > 0 { ItemLeafIn(r, v, path, n - 1, leaf); }
  }

  lemma {:induction false} FieldLeafIn(r: Redactor, v: Value, path: string, n: nat, leaf: Leaf)
    requires v.Obj? && n <= |v.fields|
    ensures leaf in FieldLeaves(r, v, path, n) <==>
            exists i :: 0 <= i < n && leaf in Leaves(r, v.fields[i].val, KeyPath(path, v.fields[i].key))
    decreases n
  {
    hide Leaves, KeyPath;
    if n > 0 { FieldLeafIn(r, v, path, n - 1, leaf); }
  }

  lemma {:induction false} RouteOf(r: Redactor, v: Value, path: string, leaf: Leaf) returns (route: seq<Stop>)
    requires WellFormed(v) && leaf in Leaves(r, v, path)
    ensures LeafAt(r, v, path, route, leaf)
    decreases v
  {
    hide ItemLeaves, FieldLeaves, StringOf, StopText, Get, ItemPath, KeyPath, RouteText, Follow;
    route := [];
    NoStop(v, path);
    match v
    case Arr(xs) =>
      ItemLeafIn(r, v, path, |xs|, leaf);
      var i :| 0 <= i < |xs| && leaf in Leaves(r, xs[i], ItemPath(path, i));
      var rest := RouteOf(r, xs[i], ItemPath(path, i), leaf);
      route := [ByIndex(i)] + rest;
      FollowFirst(v, ByIndex(i), rest);
      FirstStop(path, ByIndex(i), rest);
      StopPaths(path, "", i);
    case Obj(fs) =>
      FieldLeafIn(r, v, path, |fs|, leaf);
      var i :| 0 <= i < |fs| && leaf in Leaves(r, fs[i].val, KeyPath(path, fs[i].key));
      var rest := RouteOf(r, fs[i].val, KeyPath(path, fs[i].key), leaf);
      route := [ByKey(fs[i].key)] + rest;
      GetAt(fs, i);
      FollowFirst(v, ByKey(fs[i].key), rest);
      FirstStop(path, ByKey(fs[i].key), rest);
      StopPaths(path, fs[i].key, 0);
    case _ =>
  }

  lemma {:induction false} LeafOf(r: Redactor, v: Value, path: string, route: seq<Stop>)
    requires Follow(v, route).Some? && IsString(Follow(v, route).value)
    ensures Leaf(path + RouteText(route), StringOf(r, Follow(v, route).value)) in Leaves(r, v, path)
    decreases |route|
  {
    hide ItemLeaves, FieldLeaves, StringOf, StopText, Get, ItemPath, KeyPath, RouteText, Follow;
    if route == [] {
      NoStop(v, path);
    } else {
      var stop, rest := route[0], route[1..];
      assert route == [stop] + rest;
      var leaf := Leaf(path + RouteText(route), StringOf(r, Follow(v, route).value));
      FollowFirst(v, stop, rest);
      FirstStop(path, stop, rest);
      if stop.ByIndex? {
        StopPaths(path, "", stop.index);
        LeafOf(r, v.items[stop.index], ItemPath(path, stop.index), rest);
        ItemLeafIn(r, v, path, |v.items|, leaf);
      } else {
        var i := FieldAt(v, stop.name);
        StopPaths(path, stop.name, 0);
        LeafOf(r, v.fields[i].val, KeyPath(path, stop.name), rest);
        FieldLeafIn(r, v, path, |v.fields|, leaf);
      }
    }
  }

  lemma FieldAt(v: Value, name: string) returns (i: nat)
    requires Get(v, name).Some?
    ensures v.Obj? && i < |v.fields| && v.fields[i].key == name && v.fields[i].val == Get(v, name).value
  {
    i := Index(v.fields, name);
  }

  // The leaves are exactly the strings that a route leads to, each under the
  // text of its route.
  lemma LeafIff(r: Redactor, v: Value, leaf: Leaf)
    requires WellFormed(v)
    ensures leaf in Leaves(r, v, "$") <==> exists route :: LeafAt(r, v, "$", route, leaf)
  {
    hide Leaves, Follow, RouteText, StringOf;
    if leaf in Leaves(r, v, "$") { var route := RouteOf(r, v, "$", leaf); }
    forall route | LeafAt(r, v, "$", route, leaf) ensures leaf in Leaves(r, v, "$") { LeafOf(r, v, "$", route); }
  }

  // ----- findings -----

  // Pattern k matches the leaf after the earlier patterns have had their turn.
  ghost predicate Matched(ps: seq<Pattern>, leaf: Leaf, k: int, f: Finding) {
    0 <= k < |ps| && f == Finding(ps[k].category, leaf.path) && ps[k].search(CleanString(ps, leaf.text, k))
  }

  lemma {:induction false} StringFindingIn(ps: seq<Pattern>, leaf: Leaf, n: nat, f: Finding)
    requires n <= |ps|
    ensures f in StringFindings(ps, leaf.text, leaf.path, n) <==> exists k :: k < n && Matched(ps, leaf, k, f)
  {
    hide CleanString;
    if n > 0 {
      StringFindingIn(ps, leaf, n - 1, f);
      var last := Matched(ps, leaf, n - 1, f);
    }
  }

  lemma {:induction false} LeafFindingIn(ps: seq<Pattern>, leaves: seq<Leaf>, f: Finding)
    ensures f in LeafFindings(ps, leaves) <==> exists i :: 0 <= i < |leaves| && f in StringFindings(ps, leaves[i].text, leaves[i].path, |ps|)
  {
    hide StringFindings;
    if leaves != [] { LeafFindingIn(ps, leaves[..|leaves| - 1], f); }
  }

  // A finding is logged exactly for a leaf and a pattern that matches what the
  // earlier patterns have made of the leaf, under the leaf's path.
  lemma FindingIff(r: Redactor, v: Value, f: Finding)
    ensures f in Found(r, v, "$") <==> exists leaf, k :: leaf in Leaves(r, v, "$") && Matched(r.patterns, leaf, k, f)
  {
    hide Found, Leaves, LeafFindings, StringFindings, CleanString;
    var leaves := Leaves(r, v, "$");
    FindingsFollowLeaves(r, v, "$");
    LeafFindingIn(r.patterns, leaves, f);
    if i :| 0 <= i < |leaves| && f in StringFindings(r.patterns, leaves[i].text, leaves[i].path, |r.patterns|) {
      StringFindingIn(r.patterns, leaves[i], |r.patterns|, f);
    }
    if leaf, k :| leaf in leaves && Matched(r.patterns, leaf, k, f) {
      var i :| 0 <= i < |leaves| && leaves[i] == leaf;
      StringFindingIn(r.patterns, leaf, |r.patterns|, f);
    }
  }
}
