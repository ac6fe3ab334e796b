/** Splicing a plan in after a running node gives the graph a plan written that way would have had. */
module PlanSplicing {
  import opened Mail
  import opened Plans
  import opened PlanMeaning
  import opened GraphEdges

  // ---- Growing a plan at one leaf --------------------------------------------

  /** The way to a leaf: which item or branch to enter at each level. */
  type Path = seq<nat>

  predicate LeafAt(plan: Plan, path: Path)
    decreases plan
  {
    match plan
    case Leaf(_) => path == []
    case Sequence(items) => path != [] && path[0] < |items| && LeafAt(items[path[0]], path[1..])
    case Parallel(branches) => path != [] && path[0] < |branches| && LeafAt(branches[path[0]], path[1..])
    case Conditional(_, body) => path != [] && path[0] == 0 && LeafAt(body, path[1..])
  }

  /** Where the leaf is staged. */
  function Position(plan: Plan, path: Path, base: nat): nat
    requires LeafAt(plan, path)
    decreases plan
  {
    match plan
    case Leaf(_) => base
    case Sequence(items) => Position(items[path[0]], path[1..], base + SizeOf(items, path[0]))
    case Parallel(branches) => Position(branches[path[0]], path[1..], base + 1 + SizeOf(branches, path[0]))
    case Conditional(_, body) => Position(body, path[1..], base + 1)
  }

  /** The plan with the leaf `n` replaced by the sequence of `n` and `extra`. */
  function Grown(plan: Plan, path: Path, extra: Plan): Plan
    requires LeafAt(plan, path)
    decreases plan
  {
    match plan
    case Leaf(_) => Sequence([plan, extra])
    case Sequence(items) => Sequence(items[path[0] := Grown(items[path[0]], path[1..], extra)])
    case Parallel(branches) => Parallel(branches[path[0] := Grown(branches[path[0]], path[1..], extra)])
    case Conditional(c, body) => Conditional(c, Grown(body, path[1..], extra))
  }

  lemma {:induction false} AllNonEmptyAt(plans: seq<Plan>, n: nat)
    requires n <= |plans|
    ensures AllNonEmpty(plans, n) <==> forall k | 0 <= k < n :: NonEmpty(plans[k])
    decreases n
  {
    if n == 0 {
    } else {
      AllNonEmptyAt(plans, n - 1);
    }
  }

  lemma {:induction false} GrownNonEmpty(plan: Plan, path: Path, extra: Plan)
    requires LeafAt(plan, path) && NonEmpty(plan) && NonEmpty(extra)
    ensures NonEmpty(Grown(plan, path, extra))
    decreases plan
  {
    match plan
    case Leaf(_) => AllNonEmptyAt([plan, extra], 2);
    case Sequence(items) => GrownItems(items, path, extra);
    case Parallel(branches) => GrownItems(branches, path, extra);
    case Conditional(_, body) => GrownNonEmpty(body, path[1..], extra);
  }

  lemma {:induction false} GrownItems(plans: seq<Plan>, path: Path, extra: Plan)
    requires path != [] && path[0] < |plans| && LeafAt(plans[path[0]], path[1..])
    requires AllNonEmpty(plans, |plans|) && NonEmpty(extra)
    ensures AllNonEmpty(plans[path[0] := Grown(plans[path[0]], path[1..], extra)], |plans|)
    decreases plans, 0
  {
    AllNonEmptyAt(plans, |plans|);
    GrownNonEmpty(plans[path[0]], path[1..], extra);
    AllNonEmptyAt(plans[path[0] := Grown(plans[path[0]], path[1..], extra)], |plans|);
  }

  // ---- Relocation ------------------------------------------------------------

  function MoveBy(e: Edge, m: nat): Edge { Edge(e.from + m, e.to + m, e.condition) }

  function Edges(edges: seq<Edge>, m: nat): (r: seq<Edge>)
    ensures |r| == |edges|
  {
    seq(|edges|, k requires 0 <= k < |edges| => MoveBy(edges[k], m))
  }

  function Ids(ids: seq<nat>, m: nat): (r: seq<nat>)
    ensures |r| == |ids|
  {
    seq(|ids|, k requires 0 <= k < |ids| => ids[k] + m)
  }

  function Shifted(g: Staged, m: nat): Staged {
    Staged(g.nodes, Edges(g.edges, m), Ids(g.starts, m), g.end + m)
  }

  lemma WireShift(from: nat, starts: seq<nat>, c: Option<string>, m: nat)
    ensures Wire(from + m, Ids(starts, m), c) == Edges(Wire(from, starts, c), m)
  {
  }

  lemma EdgesConcat(a: seq<Edge>, b: seq<Edge>, m: nat)
    ensures Edges(a + b, m) == Edges(a, m) + Edges(b, m)
  {
  }

  lemma JoinShift(a: Staged, b: Staged, m: nat)
    ensures Join(Shifted(a, m), Shifted(b, m)) == Shifted(Join(a, b), m)
  {
    WireShift(a.end, b.starts, None, m);
    EdgesConcat(a.edges, b.edges, m);
    EdgesConcat(a.edges + b.edges, Wire(a.end, b.starts, None), m);
  }

  lemma AddBranchShift(a: Staged, b: Staged, m: nat)
    ensures AddBranch(Shifted(a, m), Shifted(b, m)) == Shifted(AddBranch(a, b), m)
  {
    EdgesConcat(a.edges, b.edges, m);
    EdgesConcat(a.edges + b.edges, [Edge(b.end, a.end, None)], m);
    assert Edges([Edge(b.end, a.end, None)], m) == [Edge(b.end + m, a.end + m, None)];
    assert Ids(a.starts + b.starts, m) == Ids(a.starts, m) + Ids(b.starts, m);
  }

  lemma GateShift(c: string, b: Staged, base: nat, m: nat)
    ensures GateBefore(c, Shifted(b, m), base + m) == Shifted(GateBefore(c, b, base), m)
  {
    WireShift(base, b.starts, Some(c), m);
    EdgesConcat(b.edges, Wire(base, b.starts, Some(c)), m);
  }

  /** A plan staged elsewhere is the same graph with every identity moved. */
  lemma {:induction false} StageShift(plan: Plan, base: nat, m: nat)
    requires NonEmpty(plan)
    ensures Stage(plan, base + m) == Shifted(Stage(plan, base), m)
    decreases plan, 0
  {
    hide Shifted, Join, AddBranch, GateBefore;
    match plan
    case Leaf(name) => LeafShift(name, base, m);
    case Sequence(items) => ChainShift(items, |items|, base, m);
    case Parallel(branches) =>
      BranchesShift(branches, |branches|, base + 1, base, m);
      MergeShift(StageBranches(branches, |branches|, base + 1, base), base, m);
    case Conditional(c, body) =>
      StageShift(body, base + 1, m);
      GateShift(c, Stage(body, base + 1), base, m);
  }

  lemma LeafShift(name: string, base: nat, m: nat)
    ensures Shifted(Staged([Task(name)], [], [base], base), m) == Staged([Task(name)], [], [base + m], base + m)
  {
  }

  lemma MergeShift(b: Staged, base: nat, m: nat)
    ensures MergeAfter(Shifted(b, m), base + m) == Shifted(MergeAfter(b, base), m)
  {
  }

  lemma {:induction false} ChainShift(items: seq<Plan>, n: nat, base: nat, m: nat)
    requires 0 < n <= |items| && AllNonEmpty(items, n)
    ensures StageChain(items, n, base + m) == Shifted(StageChain(items, n, base), m)
    decreases items, n
  {
    hide Join, Shifted, Stage, StageChain;
    if n == 1 {
      ChainOfOne(items, base);
      ChainOfOne(items, base + m);
      StageShift(items[0], base, m);
    } else {
      ChainStep(items, n, base);
      ChainStep(items, n, base + m);
      ChainShift(items, n - 1, base, m);
      var a := StageChain(items, n - 1, base);
      ShiftSize(a, m);
      StageShift(items[n - 1], base + |a.nodes|, m);
      JoinShift(a, Stage(items[n - 1], base + |a.nodes|), m);
    }
  }

  lemma ChainOfOne(items: seq<Plan>, base: nat)
    requires 0 < |items| && AllNonEmpty(items, 1)
    ensures StageChain(items, 1, base) == Stage(items[0], base)
  {
  }

  lemma ShiftSize(a: Staged, m: nat)
    ensures Shifted(a, m).nodes == a.nodes
  {
  }

  lemma {:induction false} BranchesShift(branches: seq<Plan>, n: nat, base: nat, merge: nat, m: nat)
    requires n <= |branches| && AllNonEmpty(branches, n)
    ensures StageBranches(branches, n, base + m, merge + m) == Shifted(StageBranches(branches, n, base, merge), m)
    decreases branches, n
  {
    if n == 0 {
      assert Shifted(Staged([], [], [], merge), m) == Staged([], [], [], merge + m);
    } else {
      BranchesStep(branches, n, base, merge);
      BranchesStep(branches, n, base + m, merge + m);
      hide AddBranch, Shifted, Stage;
      BranchesShift(branches, n - 1, base, merge, m);
      var a := StageBranches(branches, n - 1, base, merge);
      ShiftSize(a, m);
      StageShift(branches[n - 1], base + |a.nodes|, m);
      AddBranchShift(a, Stage(branches[n - 1], base + |a.nodes|), m);
    }
  }

  // ---- What growing one leaf does to the graph -------------------------------

  /** Identities past the leaf at `n` make room for `m` more. */
  function Later(i: nat, n: nat, m: nat): nat { if i <= n then i else i + m }

  function Earlier(i: nat, n: nat, m: nat): nat { if i <= n + m then i else i - m }

  /** An old edge in the grown graph: the leaf's successors now follow the end of what was put in. */
  function Moved(e: Edge, n: nat, q: Staged): Edge {
    Edge(if e.from == n then q.end else Later(e.from, n, |q.nodes|), Later(e.to, n, |q.nodes|), e.condition)
  }

  function Unmoved(e: Edge, n: nat, q: Staged): Edge {
    Edge(if e.from == q.end then n else Earlier(e.from, n, |q.nodes|), Earlier(e.to, n, |q.nodes|), e.condition)
  }

  /** `e` is an edge of `edges`, moved. */
  predicate Carried(e: Edge, edges: seq<Edge>, n: nat, q: Staged) {
    Unmoved(e, n, q) in edges && Moved(Unmoved(e, n, q), n, q) == e
  }

  predicate GrownEdge(e: Edge, edges: seq<Edge>, n: nat, q: Staged) {
    e in q.edges || e in Wire(n, q.starts, None) || Carried(e, edges, n, q)
  }

  predicate GrownStart(t: nat, starts: seq<nat>, n: nat, q: Staged) {
    Earlier(t, n, |q.nodes|) in starts && !(n < t <= n + |q.nodes|)
  }

  predicate Fresh(q: Staged, n: nat) { Within(q, n + 1) }

  /** `h` is `g` with `q` put in after the execution `n`. */
  ghost predicate Grew(g: Staged, h: Staged, base: nat, n: nat, q: Staged) {
    && base <= n < base + |g.nodes|
    && h.nodes == g.nodes[..n - base + 1] + q.nodes + g.nodes[n - base + 1..]
    && h.end == (if g.end == n then q.end else Later(g.end, n, |q.nodes|))
    && (forall t :: t in h.starts <==> GrownStart(t, g.starts, n, q))
    && (forall e :: e in h.edges <==> GrownEdge(e, g.edges, n, q))
  }

  // A graph wholly past `n` is carried by moving it, one wholly before `n` as it is.

  lemma PastCarried(b: Staged, base: nat, n: nat, q: Staged, e: Edge)
    requires Fresh(q, n) && n < base
    requires Within(b, base)
    ensures e in Shifted(b, |q.nodes|).edges <==> Carried(e, b.edges, n, q)
  {
    var m := |q.nodes|;
    if e in Edges(b.edges, m) {
      var k :| 0 <= k < |b.edges| && Edges(b.edges, m)[k] == e;
      assert b.edges[k] in b.edges && e == MoveBy(b.edges[k], m);
    }
    if Carried(e, b.edges, n, q) {
      var k :| 0 <= k < |b.edges| && b.edges[k] == Unmoved(e, n, q);
      assert Edges(b.edges, m)[k] == e;
    }
  }

  lemma PastStart(b: Staged, base: nat, n: nat, q: Staged, t: nat)
    requires n < base && Within(b, base)
    ensures t in Shifted(b, |q.nodes|).starts <==> GrownStart(t, b.starts, n, q)
  {
    var m := |q.nodes|;
    if t in Ids(b.starts, m) {
      var k :| 0 <= k < |b.starts| && Ids(b.starts, m)[k] == t;
      assert b.starts[k] in b.starts;
    }
    if GrownStart(t, b.starts, n, q) {
      var k :| 0 <= k < |b.starts| && b.starts[k] == Earlier(t, n, m);
      assert Ids(b.starts, m)[k] == t;
    }
  }

  lemma ForeCarried(edges: seq<Edge>, n: nat, q: Staged, e: Edge)
    requires Fresh(q, n)
    requires forall d | d in edges :: d.from < n && d.to < n
    ensures e in edges <==> Carried(e, edges, n, q)
  {
  }

  lemma CarriedConcat(e: Edge, a: seq<Edge>, b: seq<Edge>, n: nat, q: Staged)
    ensures Carried(e, a + b, n, q) <==> Carried(e, a, n, q) || Carried(e, b, n, q)
  {
  }

  /** Wires out of the moved exit point into the moved entry points are the moved wires. */
  lemma WireCarried(from: nat, starts: seq<nat>, from': nat, starts': seq<nat>, c: Option<string>, n: nat, q: Staged,
                    e: Edge)
    requires Fresh(q, n)
    requires from' == if from == n then q.end else Later(from, n, |q.nodes|)
    requires e.to in starts' <==> GrownStart(e.to, starts, n, q)
    ensures e in Wire(from', starts', c) <==> Carried(e, Wire(from, starts, c), n, q)
  {
    hide Wire;
    InWire(from', starts', c, e);
    InWire(from, starts, c, Unmoved(e, n, q));
  }

  lemma GrewJoinLeft(a: Staged, h: Staged, b: Staged, base: nat, n: nat, q: Staged)
    requires Fresh(q, n) && Within(a, base) && Within(b, base + |a.nodes|) && Grew(a, h, base, n, q)
    ensures |h.nodes| == |a.nodes| + |q.nodes|
    ensures Grew(Join(a, b), Join(h, Shifted(b, |q.nodes|)), base, n, q)
  {
    hide Wire, Edges, Ids, GrownStart;
    var g, k := Join(a, b), Join(h, Shifted(b, |q.nodes|));
    var w, v := Wire(a.end, b.starts, None), Wire(h.end, Shifted(b, |q.nodes|).starts, None);
    forall e ensures e in k.edges <==> GrownEdge(e, g.edges, n, q) {
      PastCarried(b, base + |a.nodes|, n, q, e);
      PastStart(b, base + |a.nodes|, n, q, e.to);
      WireCarried(a.end, b.starts, h.end, Shifted(b, |q.nodes|).starts, None, n, q, e);
      CarriedConcat(e, a.edges, b.edges, n, q);
      CarriedConcat(e, a.edges + b.edges, w, n, q);
      assert e in k.edges <==> e in h.edges || e in Shifted(b, |q.nodes|).edges || e in v;
    }
  }

  lemma GrewJoinRight(a: Staged, b: Staged, h: Staged, base: nat, n: nat, q: Staged)
    requires Fresh(q, n) && Within(a, base) && Within(b, base + |a.nodes|) && Grew(b, h, base + |a.nodes|, n, q)
    ensures Grew(Join(a, b), Join(a, h), base, n, q)
  {
    hide Wire, GrownStart;
    var g, k := Join(a, b), Join(a, h);
    var w, v := Wire(a.end, b.starts, None), Wire(a.end, h.starts, None);
    forall e ensures e in k.edges <==> GrownEdge(e, g.edges, n, q) {
      ForeCarried(a.edges, n, q, e);
      WireCarried(a.end, b.starts, a.end, h.starts, None, n, q, e);
      CarriedConcat(e, a.edges, b.edges, n, q);
      CarriedConcat(e, a.edges + b.edges, w, n, q);
      assert e in k.edges <==> e in a.edges || e in h.edges || e in v;
    }
    forall t ensures t in k.starts <==> GrownStart(t, g.starts, n, q) {
      ForeStart(a.starts, n, q, t);
    }
  }

  lemma ForeStart(starts: seq<nat>, n: nat, q: Staged, t: nat)
    requires forall s | s in starts :: s < n
    ensures t in starts <==> GrownStart(t, starts, n, q)
  {
  }

  lemma GrewBranchLeft(a: Staged, h: Staged, b: Staged, base: nat, n: nat, q: Staged)
    requires Fresh(q, n) && a.end < base && BranchesWithin(a, base, a.end) && Within(b, base + |a.nodes|)
    requires Grew(a, h, base, n, q)
    ensures |h.nodes| == |a.nodes| + |q.nodes|
    ensures Grew(AddBranch(a, b), AddBranch(h, Shifted(b, |q.nodes|)), base, n, q)
  {
    hide Edges, Ids, Within;
    var g, k := AddBranch(a, b), AddBranch(h, Shifted(b, |q.nodes|));
    var x, y := [Edge(b.end, a.end, None)], [Edge(b.end + |q.nodes|, a.end, None)];
    assert |q.nodes| > 0 && b.end >= base + |a.nodes| && n < q.end <= n + |q.nodes| by {
      Bounds(q, n + 1);
      Bounds(b, base + |a.nodes|);
    }
    forall e ensures e in k.edges <==> GrownEdge(e, g.edges, n, q) {
      PastCarried(b, base + |a.nodes|, n, q, e);
      CarriedConcat(e, a.edges, b.edges, n, q);
      CarriedConcat(e, a.edges + b.edges, x, n, q);
      assert e in y <==> Carried(e, x, n, q);
      assert e in k.edges <==> e in h.edges || e in Shifted(b, |q.nodes|).edges || e in y;
    }
    forall t ensures t in k.starts <==> GrownStart(t, g.starts, n, q) {
      PastStart(b, base + |a.nodes|, n, q, t);
    }
  }

  lemma Bounds(g: Staged, base: nat)
    requires Within(g, base)
    ensures |g.nodes| > 0 && base <= g.end < base + |g.nodes|
    ensures forall t | t in g.starts :: base <= t < base + |g.nodes|
  {
  }

  lemma GrewBranchRight(a: Staged, b: Staged, h: Staged, base: nat, n: nat, q: Staged)
    requires Fresh(q, n) && a.end < base && BranchesWithin(a, base, a.end) && Within(b, base + |a.nodes|)
    requires Grew(b, h, base + |a.nodes|, n, q)
    ensures Grew(AddBranch(a, b), AddBranch(a, h), base, n, q)
  {
    hide Within;
    var g, k := AddBranch(a, b), AddBranch(a, h);
    var x, y := [Edge(b.end, a.end, None)], [Edge(h.end, a.end, None)];
    assert n < q.end <= n + |q.nodes| by { Bounds(q, n + 1); }
    forall e ensures e in k.edges <==> GrownEdge(e, g.edges, n, q) {
      ForeCarried(a.edges, n, q, e);
      CarriedConcat(e, a.edges, b.edges, n, q);
      CarriedConcat(e, a.edges + b.edges, x, n, q);
      assert e in y <==> Carried(e, x, n, q);
      assert e in k.edges <==> e in a.edges || e in h.edges || e in y;
    }
    forall t ensures t in k.starts <==> GrownStart(t, g.starts, n, q) {
      ForeStart(a.starts, n, q, t);
    }
  }

  lemma GrewMerge(b: Staged, h: Staged, base: nat, n: nat, q: Staged)
    requires Grew(b, h, base + 1, n, q)
    ensures Grew(MergeAfter(b, base), MergeAfter(h, base), base, n, q)
  {
  }

  lemma GrewGate(c: string, b: Staged, h: Staged, base: nat, n: nat, q: Staged)
    requires Fresh(q, n) && Within(b, base + 1) && Grew(b, h, base + 1, n, q)
    ensures Grew(GateBefore(c, b, base), GateBefore(c, h, base), base, n, q)
  {
    hide Wire, GrownStart;
    var g, k := GateBefore(c, b, base), GateBefore(c, h, base);
    var w, v := Wire(base, b.starts, Some(c)), Wire(base, h.starts, Some(c));
    forall e ensures e in k.edges <==> GrownEdge(e, g.edges, n, q) {
      WireCarried(base, b.starts, base, h.starts, Some(c), n, q, e);
      CarriedConcat(e, b.edges, w, n, q);
      assert e in k.edges <==> e in h.edges || e in v;
    }
    forall t ensures t in k.starts <==> GrownStart(t, g.starts, n, q) {
      ForeStart([base], n, q, t);
    }
  }

  lemma GrewLeaf(name: string, base: nat, extra: Plan)
    requires NonEmpty(extra)
    ensures NonEmpty(Sequence([Leaf(name), extra]))
    ensures Grew(Stage(Leaf(name), base), Stage(Sequence([Leaf(name), extra]), base), base, base,
                 Stage(extra, base + 1))
  {
    var items := [Leaf(name), extra];
    AllNonEmptyAt(items, 2);
    var leaf, q := Staged([Task(name)], [], [base], base), Stage(extra, base + 1);
    assert StageChain(items, 1, base) == leaf;
    assert Stage(Sequence(items), base) == Join(leaf, q);
    hide Stage, StageChain, Wire;
    assert [Task(name)][..1] == [Task(name)] && [Task(name)][1..] == [];
    var h := Join(leaf, q);
    forall t ensures t in h.starts <==> GrownStart(t, leaf.starts, base, q) {
    }
  }

  lemma {:induction false} ChainSame(items: seq<Plan>, others: seq<Plan>, n: nat, base: nat)
    requires 0 < n <= |items| && n <= |others| && (forall k | 0 <= k < n :: items[k] == others[k])
    requires AllNonEmpty(items, n)
    ensures AllNonEmpty(others, n) && StageChain(items, n, base) == StageChain(others, n, base)
    decreases n
  {
    AllNonEmptyAt(items, n);
    AllNonEmptyAt(others, n);
    if n > 1 {
      ChainStep(items, n, base);
      ChainStep(others, n, base);
      ChainSame(items, others, n - 1, base);
    }
  }

  lemma {:induction false} BranchesSame(items: seq<Plan>, others: seq<Plan>, n: nat, base: nat, merge: nat)
    requires n <= |items| && n <= |others| && (forall k | 0 <= k < n :: items[k] == others[k])
    requires AllNonEmpty(items, n)
    ensures AllNonEmpty(others, n) && StageBranches(items, n, base, merge) == StageBranches(others, n, base, merge)
    decreases n
  {
    AllNonEmptyAt(items, n);
    AllNonEmptyAt(others, n);
    if n == 0 {
    } else {
      BranchesStep(items, n, base, merge);
      BranchesStep(others, n, base, merge);
      BranchesSame(items, others, n - 1, base, merge);
    }
  }

  function GrownIn(plans: seq<Plan>, path: Path, extra: Plan): (r: seq<Plan>)
    requires path != [] && path[0] < |plans| && LeafAt(plans[path[0]], path[1..])
    ensures |r| == |plans|
  {
    plans[path[0] := Grown(plans[path[0]], path[1..], extra)]
  }

  function PositionIn(plans: seq<Plan>, path: Path, base: nat): nat
    requires path != [] && path[0] < |plans| && LeafAt(plans[path[0]], path[1..])
  {
    Position(plans[path[0]], path[1..], base + SizeOf(plans, path[0]))
  }

  lemma ChainGrowsBefore(items: seq<Plan>, others: seq<Plan>, n: nat, base: nat, at: nat, q: Staged)
    requires 1 < n <= |items| && n <= |others| && AllNonEmpty(items, n) && AllNonEmpty(others, n)
    requires items[n - 1] == others[n - 1] && Fresh(q, at)
    requires Grew(StageChain(items, n - 1, base), StageChain(others, n - 1, base), base, at, q)
    ensures Grew(StageChain(items, n, base), StageChain(others, n, base), base, at, q)
  {
    hide Within, Stage, StageChain, Join, Shifted, Grew;
    var a, mid, b := ChainParts(items, n, base);
    var h := StageChain(others, n - 1, base);
    ChainStep(others, n, base);
    StageShift(items[n - 1], mid, |q.nodes|);
    GrewJoinLeft(a, h, b, base, at, q);
    assert StageChain(others, n, base) == Join(h, Shifted(b, |q.nodes|));
  }

  lemma ChainGrowsLast(items: seq<Plan>, others: seq<Plan>, n: nat, base: nat, at: nat, q: Staged)
    requires 1 < n <= |items| && n <= |others| && AllNonEmpty(items, n) && AllNonEmpty(others, n)
    requires (forall k | 0 <= k < n - 1 :: items[k] == others[k]) && Fresh(q, at)
    requires var mid := base + |StageChain(items, n - 1, base).nodes|;
      Grew(Stage(items[n - 1], mid), Stage(others[n - 1], mid), mid, at, q)
    ensures Grew(StageChain(items, n, base), StageChain(others, n, base), base, at, q)
  {
    hide Within, Stage, StageChain, Join, Grew, SizeOf;
    var a, mid, b := ChainParts(items, n, base);
    ChainStep(others, n, base);
    ChainSame(items, others, n - 1, base);
    GrewJoinRight(a, b, Stage(others[n - 1], mid), base, at, q);
    assert StageChain(others, n, base) == Join(a, Stage(others[n - 1], mid));
  }

  lemma BranchesGrowBefore(items: seq<Plan>, others: seq<Plan>, n: nat, base: nat, merge: nat, at: nat, q: Staged)
    requires 0 < n <= |items| && n <= |others| && AllNonEmpty(items, n) && AllNonEmpty(others, n) && merge < base
    requires items[n - 1] == others[n - 1] && Fresh(q, at)
    requires Grew(StageBranches(items, n - 1, base, merge), StageBranches(others, n - 1, base, merge), base, at, q)
    ensures Grew(StageBranches(items, n, base, merge), StageBranches(others, n, base, merge), base, at, q)
  {
    hide Within, Stage, StageBranches, AddBranch, Shifted, Grew, BranchesWithin;
    var a, mid, b := BranchParts(items, n, base, merge);
    var h := StageBranches(others, n - 1, base, merge);
    BranchesStep(others, n, base, merge);
    StageShift(items[n - 1], mid, |q.nodes|);
    GrewBranchLeft(a, h, b, base, at, q);
    assert StageBranches(others, n, base, merge) == AddBranch(h, Shifted(b, |q.nodes|));
  }

  lemma BranchesGrowLast(items: seq<Plan>, others: seq<Plan>, n: nat, base: nat, merge: nat, at: nat, extra: Plan)
    requires 0 < n <= |items| && n <= |others| && AllNonEmpty(items, n) && AllNonEmpty(others, n) && merge < base
    requires (forall k | 0 <= k < n - 1 :: items[k] == others[k]) && NonEmpty(extra)
    requires var mid := base + SizeOf(items, n - 1);
      Grew(Stage(items[n - 1], mid), Stage(others[n - 1], mid), mid, at, Stage(extra, at + 1))
    ensures Grew(StageBranches(items, n, base, merge), StageBranches(others, n, base, merge), base, at,
                 Stage(extra, at + 1))
  {
    hide Within, Stage, StageBranches, AddBranch, Grew, BranchesWithin;
    var a, mid, b := BranchParts(items, n, base, merge);
    StageSizes(items, n - 1, base, merge);
    BranchesStep(others, n, base, merge);
    BranchesSame(items, others, n - 1, base, merge);
    BranchJoin(a, b, Stage(others[n - 1], mid), base, at, extra);
  }

  lemma BranchJoin(a: Staged, b: Staged, h: Staged, base: nat, at: nat, extra: Plan)
    requires a.end < base && BranchesWithin(a, base, a.end) && Within(b, base + |a.nodes|) && NonEmpty(extra)
    requires Grew(b, h, base + |a.nodes|, at, Stage(extra, at + 1))
    ensures Grew(AddBranch(a, b), AddBranch(a, h), base, at, Stage(extra, at + 1))
  {
    StageWithin(extra, at + 1);
    hide Within, Stage, AddBranch, Grew, BranchesWithin, NonEmpty;
    GrewBranchRight(a, b, h, base, at, Stage(extra, at + 1));
  }

  lemma MergeParts(branches: seq<Plan>, path: Path, extra: Plan, base: nat)
    requires LeafAt(Parallel(branches), path)
    ensures path != [] && path[0] < |branches| && LeafAt(branches[path[0]], path[1..])
    ensures Grown(Parallel(branches), path, extra) == Parallel(GrownIn(branches, path, extra))
    ensures Position(Parallel(branches), path, base) == PositionIn(branches, path, base + 1)
  {
  }

  lemma MergeGrows(branches: seq<Plan>, path: Path, extra: Plan, base: nat)
    requires LeafAt(Parallel(branches), path)
    requires var n, others := PositionIn(branches, path, base + 1), GrownIn(branches, path, extra);
      Grew(StageBranches(branches, |branches|, base + 1, base), StageBranches(others, |branches|, base + 1, base),
           base + 1, n, Stage(extra, n + 1))
    ensures var n := Position(Parallel(branches), path, base);
      Grew(Stage(Parallel(branches), base), Stage(Grown(Parallel(branches), path, extra), base), base, n,
           Stage(extra, n + 1))
  {
    hide Grew, StageBranches, MergeAfter, GrownIn, PositionIn;
    var n, others := PositionIn(branches, path, base + 1), GrownIn(branches, path, extra);
    MergeParts(branches, path, extra, base);
    hide Grown, Position;
    var b, h := StageBranches(branches, |branches|, base + 1, base), StageBranches(others, |branches|, base + 1, base);
    var q := Stage(extra, n + 1);
    assert Stage(Parallel(branches), base) == MergeAfter(b, base)
      && Stage(Parallel(others), base) == MergeAfter(h, base);
    hide Stage;
    GrewMerge(b, h, base, n, q);
  }

  lemma StageFresh(extra: Plan, n: nat)
    requires NonEmpty(extra)
    ensures Fresh(Stage(extra, n + 1), n)
  {
    StageWithin(extra, n + 1);
  }

  lemma GateGrows(c: string, body: Plan, path: Path, extra: Plan, base: nat)
    requires NonEmpty(body) && NonEmpty(extra) && LeafAt(Conditional(c, body), path)
    requires var n := Position(body, path[1..], base + 1);
      Grew(Stage(body, base + 1), Stage(Grown(body, path[1..], extra), base + 1), base + 1, n, Stage(extra, n + 1))
    ensures var n := Position(Conditional(c, body), path, base);
      Grew(Stage(Conditional(c, body), base), Stage(Grown(Conditional(c, body), path, extra), base), base, n,
           Stage(extra, n + 1))
  {
    hide Grew, GateBefore, Within, Fresh;
    var n := Position(body, path[1..], base + 1);
    StageWithin(body, base + 1);
    StageWithin(extra, n + 1);
    StageFresh(extra, n);
    GrewGate(c, Stage(body, base + 1), Stage(Grown(body, path[1..], extra), base + 1), base, n, Stage(extra, n + 1));
  }

  /** Staging the grown plan gives the staged plan with the extra plan put in after the leaf. */
  lemma {:induction false} StageGrows(plan: Plan, path: Path, extra: Plan, base: nat)
    requires NonEmpty(plan) && NonEmpty(extra) && LeafAt(plan, path)
    ensures var n := Position(plan, path, base);
      Grew(Stage(plan, base), Stage(Grown(plan, path, extra), base), base, n, Stage(extra, n + 1))
    decreases plan, 0
  {
    hide Grew, Stage;
    match plan
    case Leaf(name) => GrewLeaf(name, base, extra);
    case Sequence(items) =>
      ChainGrows(items, |items|, path, extra, base);
      SequenceGrows(items, path, extra, base);
    case Parallel(branches) =>
      BranchesGrow(branches, |branches|, path, extra, base + 1, base);
      MergeGrows(branches, path, extra, base);
    case Conditional(c, body) =>
      StageGrows(body, path[1..], extra, base + 1);
      GateGrows(c, body, path, extra, base);
  }

  lemma SequenceGrows(items: seq<Plan>, path: Path, extra: Plan, base: nat)
    requires LeafAt(Sequence(items), path)
    requires var n, others := PositionIn(items, path, base), GrownIn(items, path, extra);
      Grew(StageChain(items, |items|, base), StageChain(others, |items|, base), base, n, Stage(extra, n + 1))
    ensures var n := Position(Sequence(items), path, base);
      Grew(Stage(Sequence(items), base), Stage(Grown(Sequence(items), path, extra), base), base, n, Stage(extra, n + 1))
  {
    var others := GrownIn(items, path, extra);
    assert Grown(Sequence(items), path, extra) == Sequence(others);
    assert Stage(Sequence(items), base) == StageChain(items, |items|, base);
    assert Stage(Sequence(others), base) == StageChain(others, |others|, base);
    assert Position(Sequence(items), path, base) == PositionIn(items, path, base);
    hide Grew, Stage, StageChain, Grown, GrownIn, Position, PositionIn;
  }

  lemma GrownInNonEmpty(items: seq<Plan>, n: nat, path: Path, extra: Plan)
    requires path != [] && path[0] < n <= |items| && LeafAt(items[path[0]], path[1..])
    requires AllNonEmpty(items, n) && NonEmpty(extra)
    ensures forall k | 0 < k <= n :: AllNonEmpty(items, k) && AllNonEmpty(GrownIn(items, path, extra), k)
    ensures forall k | 0 <= k < n :: NonEmpty(items[k]) && NonEmpty(GrownIn(items, path, extra)[k])
  {
    AllNonEmptyAt(items, n);
    GrownNonEmpty(items[path[0]], path[1..], extra);
    forall k | 0 < k <= n ensures AllNonEmpty(items, k) && AllNonEmpty(GrownIn(items, path, extra), k) {
      AllNonEmptyAt(items, k);
      AllNonEmptyAt(GrownIn(items, path, extra), k);
    }
  }

  /** The first `n` items, one of which grows. */
  lemma {:induction false} ChainGrows(items: seq<Plan>, n: nat, path: Path, extra: Plan, base: nat)
    requires path != [] && path[0] < n <= |items| && LeafAt(items[path[0]], path[1..])
    requires AllNonEmpty(items, n) && NonEmpty(extra)
    ensures var at, others := PositionIn(items, path, base), GrownIn(items, path, extra);
      Grew(StageChain(items, n, base), StageChain(others, n, base), base, at, Stage(extra, at + 1))
    decreases items, n
  {
    hide Grew, Fresh, Stage, StageChain, SizeOf, Grown, Position;
    var at, others := PositionIn(items, path, base), GrownIn(items, path, extra);
    if path[0] < n - 1 {
      GrownInNonEmpty(items, n, path, extra);
      StageFresh(extra, at);
      ChainGrows(items, n - 1, path, extra, base);
      ChainGrowsBefore(items, others, n, base, at, Stage(extra, at + 1));
    } else {
      LastGrows(items, n, path, extra, base);
    }
  }

  lemma {:induction false} LastGrows(items: seq<Plan>, n: nat, path: Path, extra: Plan, base: nat)
    requires 0 < n <= |items| && path != [] && path[0] == n - 1 && LeafAt(items[n - 1], path[1..])
    requires AllNonEmpty(items, n) && NonEmpty(extra)
    ensures var at, others := PositionIn(items, path, base), GrownIn(items, path, extra);
      Grew(StageChain(items, n, base), StageChain(others, n, base), base, at, Stage(extra, at + 1))
    decreases items, 0
  {
    hide Grew, Within, Stage, StageChain, Grown, Position, AllNonEmpty, NonEmpty, LeafAt;
    var at, others := PositionIn(items, path, base), GrownIn(items, path, extra);
    GrownInNonEmpty(items, n, path, extra);
    StageGrows(items[n - 1], path[1..], extra, base + SizeOf(items, n - 1));
    if n == 1 {
      ChainOfOne(items, base);
      ChainOfOne(others, base);
    } else {
      StageSizes(items, n - 1, base, 0);
      StageWithin(extra, at + 1);
      ChainGrowsLast(items, others, n, base, at, Stage(extra, at + 1));
    }
  }

  lemma {:induction false} BranchesGrow(items: seq<Plan>, n: nat, path: Path, extra: Plan, base: nat, merge: nat)
    requires path != [] && path[0] < n <= |items| && LeafAt(items[path[0]], path[1..])
    requires AllNonEmpty(items, n) && NonEmpty(extra) && merge < base
    ensures var at, others := PositionIn(items, path, base), GrownIn(items, path, extra);
      Grew(StageBranches(items, n, base, merge), StageBranches(others, n, base, merge), base, at, Stage(extra, at + 1))
    decreases items, n
  {
    hide Grew, Fresh, Stage, StageBranches, SizeOf, Grown, Position;
    var at, others := PositionIn(items, path, base), GrownIn(items, path, extra);
    if path[0] < n - 1 {
      GrownInNonEmpty(items, n, path, extra);
      StageFresh(extra, at);
      BranchesGrow(items, n - 1, path, extra, base, merge);
      BranchesGrowBefore(items, others, n, base, merge, at, Stage(extra, at + 1));
    } else {
      LastBranchGrows(items, n, path, extra, base, merge);
    }
  }

  lemma {:induction false} LastBranchGrows(items: seq<Plan>, n: nat, path: Path, extra: Plan, base: nat, merge: nat)
    requires 0 < n <= |items| && path != [] && path[0] == n - 1 && LeafAt(items[n - 1], path[1..])
    requires AllNonEmpty(items, n) && NonEmpty(extra) && merge < base
    ensures var at, others := PositionIn(items, path, base), GrownIn(items, path, extra);
      Grew(StageBranches(items, n, base, merge), StageBranches(others, n, base, merge), base, at, Stage(extra, at + 1))
    decreases items, 0
  {
    hide Grew, Stage, StageBranches;
    var at, others := PositionIn(items, path, base), GrownIn(items, path, extra);
    GrownInNonEmpty(items, n, path, extra);
    StageGrows(items[n - 1], path[1..], extra, base + SizeOf(items, n - 1));
    BranchesGrowLast(items, others, n, base, merge, at, extra);
  }
}
