/** The edge table of a graph store: keyed by endpoints, kept in insertion order. */
module GraphEdges {
  import opened Mail
  import opened Plans
  import opened PlanMeaning

  predicate SameKey(a: Edge, b: Edge) { a.from == b.from && a.to == b.to }

  predicate HasKey(edges: seq<Edge>, e: Edge) {
    exists k | 0 <= k < |edges| :: SameKey(edges[k], e)
  }

  predicate Distinct(edges: seq<Edge>) {
    forall i, j | 0 <= i < j < |edges| :: !SameKey(edges[i], edges[j])
  }

  /** Adding an edge replaces the one with its endpoints in place, or appends. */
  function Put(edges: seq<Edge>, e: Edge): seq<Edge> {
    if HasKey(edges, e) then seq(|edges|, k requires 0 <= k < |edges| => if SameKey(edges[k], e) then e else edges[k])
    else edges + [e]
  }

  function PutAll(edges: seq<Edge>, more: seq<Edge>): seq<Edge> {
    if more == [] then edges else Put(PutAll(edges, more[..|more| - 1]), more[|more| - 1])
  }

  function Drop(edges: seq<Edge>, from: nat, to: nat): seq<Edge> {
    if edges == [] then []
    else
      var last := edges[|edges| - 1];
      Drop(edges[..|edges| - 1], from, to) + if last.from == from && last.to == to then [] else [last]
  }

  function DropAll(edges: seq<Edge>, from: nat, children: seq<Edge>): seq<Edge> {
    if children == [] then edges
    else Drop(DropAll(edges, from, children[..|children| - 1]), from, children[|children| - 1].to)
  }

  /** The edges out of an execution, in insertion order. */
  function Children(edges: seq<Edge>, from: nat): seq<Edge> {
    if edges == [] then []
    else
      var last := edges[|edges| - 1];
      Children(edges[..|edges| - 1], from) + if last.from == from then [last] else []
  }

  /** The same targets and conditions from another source. */
  function Resourced(children: seq<Edge>, from: nat): (r: seq<Edge>)
    ensures |r| == |children|
  {
    seq(|children|, k requires 0 <= k < |children| => Edge(from, children[k].to, children[k].condition))
  }

  lemma PutDistinct(edges: seq<Edge>, e: Edge)
    requires Distinct(edges)
    ensures Distinct(Put(edges, e))
  {
  }

  /** Edges with fresh endpoints are simply appended. */
  lemma {:induction false} PutAllFresh(edges: seq<Edge>, more: seq<Edge>)
    requires Distinct(edges + more)
    ensures PutAll(edges, more) == edges + more
    decreases |more|
  {
    if more == [] {
      assert edges + more == edges;
    } else {
      var n, all := |more| - 1, edges + more;
      assert edges + more[..n] == all[..|all| - 1];
      PutAllFresh(edges, more[..n]);
      forall k | 0 <= k < |edges + more[..n]| ensures !SameKey((edges + more[..n])[k], more[n]) {
        assert all[k] == (edges + more[..n])[k] && all[|all| - 1] == more[n];
      }
      assert edges + more[..n] + [more[n]] == all;
    }
  }

  lemma {:induction false} InDrop(edges: seq<Edge>, from: nat, to: nat, e: Edge)
    ensures e in Drop(edges, from, to) <==> e in edges && !(e.from == from && e.to == to)
    decreases |edges|
  {
    if edges == [] {
    } else {
      var n := |edges| - 1;
      InDrop(edges[..n], from, to, e);
      assert edges == edges[..n] + [edges[n]];
    }
  }

  lemma {:induction false} DropDistinct(edges: seq<Edge>, from: nat, to: nat)
    requires Distinct(edges)
    ensures Distinct(Drop(edges, from, to))
    decreases |edges|
  {
    if edges == [] {
    } else {
      var n := |edges| - 1;
      DropDistinct(edges[..n], from, to);
      forall k | 0 <= k < |Drop(edges[..n], from, to)| ensures !SameKey(Drop(edges[..n], from, to)[k], edges[n]) {
        InDrop(edges[..n], from, to, Drop(edges[..n], from, to)[k]);
      }
    }
  }

  lemma {:induction false} InDropAll(edges: seq<Edge>, from: nat, children: seq<Edge>, e: Edge)
    ensures e in DropAll(edges, from, children)
      <==> e in edges && !(e.from == from && exists c | c in children :: c.to == e.to)
    decreases |children|
  {
    if children == [] {
    } else {
      var n := |children| - 1;
      InDropAll(edges, from, children[..n], e);
      InDrop(DropAll(edges, from, children[..n]), from, children[n].to, e);
      assert children == children[..n] + [children[n]];
    }
  }

  lemma {:induction false} DropAllDistinct(edges: seq<Edge>, from: nat, children: seq<Edge>)
    requires Distinct(edges)
    ensures Distinct(DropAll(edges, from, children))
    decreases |children|
  {
    if children == [] {
    } else {
      DropAllDistinct(edges, from, children[..|children| - 1]);
      DropDistinct(DropAll(edges, from, children[..|children| - 1]), from, children[|children| - 1].to);
    }
  }

  lemma {:induction false} InChildren(edges: seq<Edge>, from: nat, e: Edge)
    ensures e in Children(edges, from) <==> e in edges && e.from == from
    decreases |edges|
  {
    if edges == [] {
    } else {
      var n := |edges| - 1;
      InChildren(edges[..n], from, e);
      assert edges == edges[..n] + [edges[n]];
    }
  }

  lemma {:induction false} ChildrenDistinct(edges: seq<Edge>, from: nat)
    requires Distinct(edges)
    ensures Distinct(Children(edges, from))
    decreases |edges|
  {
    if edges == [] {
    } else {
      var n := |edges| - 1;
      ChildrenDistinct(edges[..n], from);
      forall k | 0 <= k < |Children(edges[..n], from)| ensures !SameKey(Children(edges[..n], from)[k], edges[n]) {
        InChildren(edges[..n], from, Children(edges[..n], from)[k]);
      }
    }
  }

  lemma ConcatDistinct(a: seq<Edge>, b: seq<Edge>)
    requires Distinct(a) && Distinct(b)
    requires forall x, y | x in a && y in b :: !SameKey(x, y)
    ensures Distinct(a + b)
  {
  }

  // ---- Staged edges have distinct endpoints ----------------------------------

  lemma WireDistinct(from: nat, starts: seq<nat>, condition: Option<string>)
    requires forall i, j | 0 <= i < j < |starts| :: starts[i] != starts[j]
    ensures Distinct(Wire(from, starts, condition))
  {
  }

  lemma InWire(from: nat, starts: seq<nat>, condition: Option<string>, e: Edge)
    ensures e in Wire(from, starts, condition) <==> e.from == from && e.condition == condition && e.to in starts
  {
    if e.from == from && e.condition == condition && e.to in starts {
      var k :| 0 <= k < |starts| && starts[k] == e.to;
      assert Wire(from, starts, condition)[k] == e;
    }
  }

  lemma JoinDistinct(a: Staged, b: Staged, base: nat)
    requires Within(a, base) && Within(b, base + |a.nodes|) && Distinct(a.edges) && Distinct(b.edges)
    ensures Distinct(Join(a, b).edges)
  {
    ConcatDistinct(a.edges, b.edges);
    WireDistinct(a.end, b.starts, None);
    ConcatDistinct(a.edges + b.edges, Wire(a.end, b.starts, None));
  }

  lemma AddBranchDistinct(a: Staged, b: Staged, base: nat)
    requires a.end < base && BranchesWithin(a, base, a.end) && Within(b, base + |a.nodes|)
    requires Distinct(a.edges) && Distinct(b.edges)
    ensures Distinct(AddBranch(a, b).edges)
  {
    ConcatDistinct(a.edges, b.edges);
    ConcatDistinct(a.edges + b.edges, [Edge(b.end, a.end, None)]);
  }

  lemma {:induction false} StageDistinct(plan: Plan, base: nat)
    requires NonEmpty(plan)
    ensures Distinct(Stage(plan, base).edges)
    decreases plan, 0
  {
    match plan
    case Leaf(_) =>
    case Sequence(items) => ChainDistinct(items, |items|, base);
    case Parallel(branches) => BranchesDistinct(branches, |branches|, base + 1, base);
    case Conditional(c, body) =>
      StageDistinct(body, base + 1);
      StageWithin(body, base + 1);
      var b := Stage(body, base + 1);
      WireDistinct(base, b.starts, Some(c));
      ConcatDistinct(b.edges, Wire(base, b.starts, Some(c)));
  }

  lemma {:induction false} ChainDistinct(items: seq<Plan>, n: nat, base: nat)
    requires 0 < n <= |items| && AllNonEmpty(items, n)
    ensures Distinct(StageChain(items, n, base).edges)
    decreases items, n
  {
    if n == 1 {
      StageDistinct(items[0], base);
    } else {
      ChainDistinct(items, n - 1, base);
      var a, mid, b := ChainParts(items, n, base);
      hide Within, Distinct, Stage, StageChain, NonEmpty, AllNonEmpty;
      StageDistinct(items[n - 1], mid);
      JoinDistinct(a, b, base);
    }
  }

  lemma {:induction false} BranchesDistinct(branches: seq<Plan>, n: nat, base: nat, merge: nat)
    requires n <= |branches| && AllNonEmpty(branches, n) && merge < base
    ensures Distinct(StageBranches(branches, n, base, merge).edges)
    decreases branches, n
  {
    assert n == 0 ==> StageBranches(branches, n, base, merge).edges == [] && Distinct([]);
    hide Within, Distinct, Stage, BranchesWithin, StageBranches, AddBranch;
    if n == 0 {
    } else {
      BranchesStep(branches, n, base, merge);
      BranchesDistinct(branches, n - 1, base, merge);
      BranchesAreWithin(branches, n - 1, base, merge);
      BranchEnd(branches, n - 1, base, merge);
      var a := StageBranches(branches, n - 1, base, merge);
      StageDistinct(branches[n - 1], base + |a.nodes|);
      StageWithin(branches[n - 1], base + |a.nodes|);
      AddBranchDistinct(a, Stage(branches[n - 1], base + |a.nodes|), base);
    }
  }
}
