/**
 How many folders a taxonomy can route to: a breadth-first search over a graph
 that may have cycles, duplicate edges and edges to nodes that do not exist.
 */
module TaxonomyRoutable {
  import opened Prelude

  datatype Node = Node(id: string, isRoot: bool, isCatchAll: bool)

  datatype Edge = Edge(source: string, target: string)

  const TAXONOMY_MIN_NON_ROOT_NODES := 3

  // ----------------------------------------------------------- the reference

  ghost predicate IsPath(edges: seq<Edge>, p: seq<string>) {
    p != [] && forall i :: 0 <= i < |p| - 1 ==> Edge(p[i], p[i + 1]) in edges
  }

  ghost predicate Reaches(edges: seq<Edge>, a: string, b: string) {
    exists p :: IsPath(edges, p) && p[0] == a && p[|p| - 1] == b
  }

  /** The first root, if any. */
  function FirstRoot(nodes: seq<Node>): Option<string> {
    if nodes == [] then None else if nodes[0].isRoot then Some(nodes[0].id) else FirstRoot(nodes[1..])
  }

  /** It is the root entry before which there is none, and there is none exactly when no entry is a root. */
  lemma {:induction false} FirstRootIsFirst(nodes: seq<Node>)
    ensures FirstRoot(nodes) == None ==> forall i :: 0 <= i < |nodes| ==> !nodes[i].isRoot
    ensures FirstRoot(nodes).Some? ==> exists i :: 0 <= i < |nodes| && IsFirstRoot(nodes, i, FirstRoot(nodes).value)
  {
    if nodes == [] {
    } else if nodes[0].isRoot {
      assert IsFirstRoot(nodes, 0, nodes[0].id);
    } else {
      FirstRootIsFirst(nodes[1..]);
      if FirstRoot(nodes[1..]).Some? {
        var i :| 0 <= i < |nodes[1..]| && IsFirstRoot(nodes[1..], i, FirstRoot(nodes[1..]).value);
        assert forall j :: 1 <= j < i + 1 ==> nodes[j] == nodes[1..][j - 1];
        assert IsFirstRoot(nodes, i + 1, FirstRoot(nodes).value);
      } else {
        assert forall j :: 1 <= j < |nodes| ==> nodes[j] == nodes[1..][j - 1];
      }
    }
  }

  predicate IsFirstRoot(nodes: seq<Node>, i: nat, id: string) {
    i < |nodes| && nodes[i].isRoot && nodes[i].id == id && forall j :: 0 <= j < i ==> !nodes[j].isRoot
  }

  ghost predicate Routable(node: Node, edges: seq<Edge>, root: string) {
    !node.isRoot && !node.isCatchAll && Reaches(edges, root, node.id)
  }

  ghost function CountFrom(nodes: seq<Node>, edges: seq<Edge>, root: string): nat {
    if nodes == [] then 0
    else (if Routable(nodes[0], edges, root) then 1 else 0) + CountFrom(nodes[1..], edges, root)
  }

  /** Node entries that are reachable from the first root, not root and not catch-all. */
  ghost function RoutableCount(nodes: seq<Node>, edges: seq<Edge>): nat {
    match FirstRoot(nodes) case Some(root) => CountFrom(nodes, edges, root) case None => 0
  }

  /** The positions from `k` on of the entries that count. */
  ghost function RoutableEntries(nodes: seq<Node>, edges: seq<Edge>, root: string, k: nat): set<int> {
    set i | k <= i < |nodes| && !nodes[i].isRoot && !nodes[i].isCatchAll && Reaches(edges, root, nodes[i].id)
  }

  /** The count is of entries: one for each position, repeated ids included. */
  lemma {:induction false} CountsEntries(nodes: seq<Node>, edges: seq<Edge>, root: string, k: nat)
    requires k <= |nodes|
    ensures CountFrom(nodes[k..], edges, root) == |RoutableEntries(nodes, edges, root, k)|
    decreases |nodes| - k
  {
    if k == |nodes| {
      assert RoutableEntries(nodes, edges, root, k) == {};
    } else {
      CountsEntries(nodes, edges, root, k + 1);
      assert nodes[k..][1..] == nodes[k + 1..];
      var rest := RoutableEntries(nodes, edges, root, k + 1);
      assert RoutableEntries(nodes, edges, root, k) == rest + if Routable(nodes[k], edges, root) then {k} else {};
      assert k !in rest;
    }
  }

  lemma ReachesSelf(edges: seq<Edge>, a: string)
    ensures Reaches(edges, a, a)
  {
    assert IsPath(edges, [a]) && [a][0] == a;
  }

  lemma ReachesStep(edges: seq<Edge>, a: string, b: string, c: string)
    requires Reaches(edges, a, b) && Edge(b, c) in edges
    ensures Reaches(edges, a, c)
  {
    var p :| IsPath(edges, p) && p[0] == a && p[|p| - 1] == b;
    var q := p + [c];
    assert IsPath(edges, q) && q[0] == a && q[|q| - 1] == c;
  }

  /** A set that has `a` and is closed under edges has everything `a` reaches. */
  lemma {:induction false} ClosedHoldsPath(edges: seq<Edge>, s: set<string>, p: seq<string>, i: nat)
    requires IsPath(edges, p) && p[0] in s && i < |p|
    requires forall e :: e in edges && e.source in s ==> e.target in s
    ensures p[i] in s
  {
    if i > 0 {
      ClosedHoldsPath(edges, s, p, i - 1);
      assert Edge(p[i - 1], p[i - 1 + 1]) in edges;
    }
  }

  // ------------------------------------------------------------- the algorithm

  /** Children of each parent, in edge order, duplicates included. */
  method ChildrenByParent(edges: seq<Edge>) returns (children: map<string, seq<string>>)
    ensures forall a, b :: (a in children && b in children[a]) <==> Edge(a, b) in edges
  {
    children := map[];
    for i := 0 to |edges|
      invariant forall a, b :: (a in children && b in children[a]) <==> Edge(a, b) in edges[..i]
    {
      var e := edges[i];
      ghost var before := children;
      var list := if e.source in children then children[e.source] else [];
      children := children[e.source := list + [e.target]];
      assert edges[..i + 1] == edges[..i] + [e];
      forall a, b ensures (a in children && b in children[a]) <==> Edge(a, b) in edges[..i + 1] {
        assert (a in before && b in before[a]) <==> Edge(a, b) in edges[..i];
      }
    }
    assert edges[..|edges|] == edges;
  }

  /** The inner loop: children not seen before are marked and queued, in order. */
  method Enqueue(next: seq<string>, seen: set<string>, pending: seq<string>) returns (reachable: set<string>, queue: seq<string>)
    ensures forall x :: x in reachable <==> x in seen || x in next
    ensures forall x :: x in queue <==> x in pending || (x in next && x !in seen)
    ensures pending <= queue && |queue| - |pending| == |reachable - seen|
  {
    reachable, queue := seen, pending;
    assert seen - seen == {};
    for i := 0 to |next|
      invariant forall x :: x in reachable <==> x in seen || x in next[..i]
      invariant forall x :: x in queue <==> x in pending || (x in next[..i] && x !in seen)
      invariant pending <= queue && |queue| - |pending| == |reachable - seen|
    {
      assert next[..i + 1] == next[..i] + [next[i]];
      var child := next[i];
      if child in reachable { continue; }
      assert (reachable + {child}) - seen == (reachable - seen) + {child};
      reachable := reachable + {child};
      queue := queue + [child];
    }
    assert next[..|next|] == next;
  }

  /** The search ends on every graph, and visits exactly what the root reaches. */
  method Visit(root: string, edges: seq<Edge>) returns (reachable: set<string>)
    ensures forall x :: x in reachable <==> Reaches(edges, root, x)
  {
    var children := ChildrenByParent(edges);
    reachable := {root};
    var queue := [root];
    ghost var universe := {root} + set e | e in edges :: e.target;
    ReachesSelf(edges, root);
    while queue != []
      invariant root in reachable && reachable <= universe
      invariant forall x :: x in queue ==> x in reachable
      invariant forall x :: x in reachable ==> Reaches(edges, root, x)
      invariant forall e :: e in edges && e.source in reachable ==> e.source in queue || e.target in reachable
      decreases universe - reachable, |queue|
    {
      var current := queue[0];
      var next := if current in children then children[current] else [];
      assert forall x :: x in next <==> Edge(current, x) in edges;
      ghost var visited := reachable;
      assert queue == [current] + queue[1..];
      reachable, queue := Enqueue(next, reachable, queue[1..]);
      forall x | x in next ensures x in universe && Reaches(edges, root, x) {
        assert Edge(current, x) in edges;
        ReachesStep(edges, root, current, x);
      }
      forall e | e in edges && e.source in reachable ensures e.source in queue || e.target in reachable {
        assert e == Edge(e.source, e.target);
      }
      if reachable == visited { assert reachable - visited == {}; }
    }
    forall x | Reaches(edges, root, x) ensures x in reachable {
      var p :| IsPath(edges, p) && p[0] == root && p[|p| - 1] == x;
      ClosedHoldsPath(edges, reachable, p, |p| - 1);
    }
  }

  method CountRoutableNonRootNodes(nodes: seq<Node>, edges: seq<Edge>) returns (count: nat)
    ensures count == RoutableCount(nodes, edges)
  {
    var root := FirstRoot(nodes);
    if root == None { return 0; }
    var reachable := Visit(root.value, edges);
    count := 0;
    for i := 0 to |nodes|
      invariant count + CountFrom(nodes[i..], edges, root.value) == RoutableCount(nodes, edges)
    {
      var node := nodes[i];
      assert nodes[i..][1..] == nodes[i + 1..];
      if !node.isRoot && !node.isCatchAll && node.id in reachable { count := count + 1; }
    }
  }

  method IsTaxonomyRoutable(nodes: seq<Node>, edges: seq<Edge>) returns (routable: bool)
    ensures routable <==> RoutableCount(nodes, edges) >= 3
  {
    var count := CountRoutableNonRootNodes(nodes, edges);
    routable := count >= TAXONOMY_MIN_NON_ROOT_NODES;
  }

  // --------------------------------------------------------------- monotonicity

  lemma ReachesMore(edges: seq<Edge>, more: seq<Edge>, a: string, b: string)
    requires Reaches(edges, a, b) && forall e :: e in edges ==> e in more
    ensures Reaches(more, a, b)
  {
    var p :| IsPath(edges, p) && p[0] == a && p[|p| - 1] == b;
    assert IsPath(more, p);
  }

  lemma {:induction false} CountGrows(nodes: seq<Node>, edges: seq<Edge>, more: seq<Edge>, root: string)
    requires forall e :: e in edges ==> e in more
    ensures CountFrom(nodes, edges, root) <= CountFrom(nodes, more, root)
  {
    if nodes != [] {
      CountGrows(nodes[1..], edges, more, root);
      if Routable(nodes[0], edges, root) { ReachesMore(edges, more, root, nodes[0].id); }
    }
  }

  /** More edges, in any order and with any repetition, never make fewer folders routable. */
  lemma AddingEdgesNeverLowers(nodes: seq<Node>, edges: seq<Edge>, more: seq<Edge>)
    requires forall e :: e in edges ==> e in more
    ensures RoutableCount(nodes, edges) <= RoutableCount(nodes, more)
  {
    if FirstRoot(nodes).Some? { CountGrows(nodes, edges, more, FirstRoot(nodes).value); }
  }

  /** Only the set of edges matters: order and duplicates do not. */
  lemma EdgeOrderIsIrrelevant(nodes: seq<Node>, edges: seq<Edge>, other: seq<Edge>)
    requires forall e :: e in edges <==> e in other
    ensures RoutableCount(nodes, edges) == RoutableCount(nodes, other)
  {
    AddingEdgesNeverLowers(nodes, edges, other);
    AddingEdgesNeverLowers(nodes, other, edges);
  }
}
