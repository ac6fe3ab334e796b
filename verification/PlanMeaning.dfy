/** A staged plan is a graph whose local equations have the plan's meaning as their solution. */
module PlanMeaning {
  import opened Mail
  import opened Plans

  /** A value for every execution. */
  type Valuation = nat -> State

  function Output(node: Node, input: State, f: Program): State {
    if node.Task? then f(node.name, input) else input
  }

  /** The condition on an edge holds of the parent's result, as readiness tests it. */
  predicate EdgeMet(e: Edge, result: State) {
    e.condition.None? || e.condition.value == "" || result == map[] || Truthy(result, e.condition.value)
  }

  function Inputs(parents: seq<Edge>, val: Valuation): (states: seq<State>)
    ensures |states| == |parents|
  {
    seq(|parents|, i requires 0 <= i < |parents| => val(parents[i].from))
  }

  /** An execution takes its value from its parents, and the conditions on their edges hold. */
  predicate FedBy(parents: seq<Edge>, node: Node, i: nat, val: Valuation, f: Program) {
    && parents != []
    && (forall e | e in parents :: EdgeMet(e, val(e.from)))
    && val(i) == Output(node, MergeAll(Inputs(parents, val)), f)
  }

  /** The local equation of one execution, where entry points run on `s`. */
  predicate NodeSound(g: Staged, base: nat, s: State, val: Valuation, f: Program, i: nat)
    requires base <= i < base + |g.nodes|
  {
    if i in g.starts then Parents(g.edges, i) == [] && val(i) == Output(g.nodes[i - base], s, f)
    else FedBy(Parents(g.edges, i), g.nodes[i - base], i, val, f)
  }

  predicate Sound(g: Staged, base: nat, s: State, val: Valuation, f: Program) {
    forall i | base <= i < base + |g.nodes| :: NodeSound(g, base, s, val, f, i)
  }

  // ---- Putting graphs together -----------------------------------------------

  lemma FedByOne(e: Edge, node: Node, i: nat, val: Valuation, f: Program)
    requires EdgeMet(e, val(e.from)) && val(i) == Output(node, val(e.from), f)
    ensures FedBy([e], node, i, val, f)
  {
    assert Inputs([e], val) == [val(e.from)];
    var one := [val(e.from)];
    assert one[..|one| - 1] == [];
    assert MergeAll(one) == map[] + val(e.from) == val(e.from);
  }

  lemma Outside(g: Staged, base: nat, i: nat)
    requires Within(g, base) && !(base <= i < base + |g.nodes|)
    ensures i !in g.starts && Parents(g.edges, i) == []
  {
    ParentsNone(g.edges, i);
  }

  lemma ThreeParents(x: seq<Edge>, y: seq<Edge>, z: seq<Edge>, i: nat)
    ensures Parents(x + y + z, i) == Parents(x, i) + Parents(y, i) + Parents(z, i)
  {
    ParentsConcat(x + y, z, i);
    ParentsConcat(x, y, i);
  }

  lemma JoinParents(a: Staged, b: Staged, base: nat, i: nat)
    requires Within(a, base) && Within(b, base + |a.nodes|)
    ensures i < base + |a.nodes| ==> i !in b.starts && Parents(Join(a, b).edges, i) == Parents(a.edges, i)
    ensures i >= base + |a.nodes| ==>
      && i !in a.starts
      && Parents(Join(a, b).edges, i) == Parents(b.edges, i) + (if i in b.starts then [Edge(a.end, i, None)] else [])
  {
    ParentsWire(a.end, b.starts, None, i);
    ThreeParents(a.edges, b.edges, Wire(a.end, b.starts, None), i);
    hide Within, Parents, Wire;
    if i < base + |a.nodes| {
      Outside(b, base + |a.nodes|, i);
    } else {
      Outside(a, base, i);
    }
  }

  lemma JoinSound(a: Staged, b: Staged, base: nat, s: State, val: Valuation, f: Program)
    requires Within(a, base) && Within(b, base + |a.nodes|)
    requires Sound(a, base, s, val, f) && Sound(b, base + |a.nodes|, val(a.end), val, f)
    ensures Sound(Join(a, b), base, s, val, f)
  {
    hide Within, FedBy, Parents, Output;
    var g, mid := Join(a, b), base + |a.nodes|;
    forall i | base <= i < base + |g.nodes| ensures NodeSound(g, base, s, val, f, i) {
      JoinParents(a, b, base, i);
      if i < mid {
        assert NodeSound(a, base, s, val, f, i);
      } else {
        assert NodeSound(b, mid, val(a.end), val, f, i);
        if i in b.starts {
          var e := Edge(a.end, i, None);
          assert Parents(g.edges, i) == [e];
          FedByOne(e, b.nodes[i - mid], i, val, f);
        } else {
          assert Parents(g.edges, i) == Parents(b.edges, i);
        }
      }
    }
  }

  /** The equations of the branches of a merge, and what reaches the merge in branch order. */
  predicate BranchesSound(g: Staged, base: nat, s: State, val: Valuation, f: Program, outs: seq<State>) {
    && Sound(g, base, s, val, f)
    && (forall e | e in Parents(g.edges, g.end) :: e.condition.None?)
    && Inputs(Parents(g.edges, g.end), val) == outs
  }

  lemma AddBranchParents(a: Staged, b: Staged, base: nat, i: nat)
    requires a.end < base && BranchesWithin(a, base, a.end) && Within(b, base + |a.nodes|)
    ensures base <= i < base + |a.nodes| ==> i !in b.starts && Parents(AddBranch(a, b).edges, i) == Parents(a.edges, i)
    ensures i >= base + |a.nodes| ==> i !in a.starts && Parents(AddBranch(a, b).edges, i) == Parents(b.edges, i)
    ensures Parents(AddBranch(a, b).edges, a.end) == Parents(a.edges, a.end) + [Edge(b.end, a.end, None)]
  {
    forall k ensures Parents(AddBranch(a, b).edges, k)
      == Parents(a.edges, k) + Parents(b.edges, k) + if k == a.end then [Edge(b.end, a.end, None)] else []
    {
      ParentsConcat(a.edges + b.edges, [Edge(b.end, a.end, None)], k);
      ParentsConcat(a.edges, b.edges, k);
    }
    ParentsNone(b.edges, a.end);
    if i < base + |a.nodes| {
      ParentsNone(b.edges, i);
    } else {
      ParentsNone(a.edges, i);
    }
  }

  lemma AddBranchSound(a: Staged, b: Staged, base: nat, s: State, val: Valuation, f: Program, outs: seq<State>)
    requires a.end < base && BranchesWithin(a, base, a.end) && Within(b, base + |a.nodes|)
    requires BranchesSound(a, base, s, val, f, outs) && Sound(b, base + |a.nodes|, s, val, f)
    ensures BranchesSound(AddBranch(a, b), base, s, val, f, outs + [val(b.end)])
  {
    hide Within, BranchesWithin, FedBy, Parents, Output;
    var g, mid := AddBranch(a, b), base + |a.nodes|;
    forall i | base <= i < base + |g.nodes| ensures NodeSound(g, base, s, val, f, i) {
      AddBranchParents(a, b, base, i);
      if i < mid {
        assert NodeSound(a, base, s, val, f, i);
      } else {
        assert NodeSound(b, mid, s, val, f, i);
      }
    }
    AddBranchParents(a, b, base, base);
    assert Inputs(Parents(g.edges, g.end), val) == outs + [val(b.end)];
  }

  lemma MergeSound(b: Staged, base: nat, s: State, val: Valuation, f: Program, outs: seq<State>)
    requires BranchesWithin(b, base + 1, base) && BranchesSound(b, base + 1, s, val, f, outs) && outs != []
    requires val(base) == MergeAll(outs)
    ensures Sound(MergeAfter(b, base), base, s, val, f)
  {
    hide Parents;
    var g := MergeAfter(b, base);
    forall i | base <= i < base + |g.nodes| ensures NodeSound(g, base, s, val, f, i) {
      if i != base {
        assert NodeSound(b, base + 1, s, val, f, i);
      }
    }
  }

  lemma GateParents(c: string, b: Staged, base: nat, i: nat)
    requires Within(b, base + 1)
    ensures var edges := b.edges + Wire(base, b.starts, Some(c));
      Parents(edges, i) == Parents(b.edges, i) + (if i in b.starts then [Edge(base, i, Some(c))] else [])
      && (i == base ==> Parents(edges, i) == [])
  {
    ParentsConcat(b.edges, Wire(base, b.starts, Some(c)), i);
    ParentsWire(base, b.starts, Some(c), i);
    if i == base {
      ParentsNone(b.edges, i);
    }
  }

  lemma GateSound(c: string, b: Staged, base: nat, s: State, val: Valuation, f: Program)
    requires Within(b, base + 1) && Sound(b, base + 1, s, val, f) && Truthy(s, c) && val(base) == s
    ensures Sound(GateBefore(c, b, base), base, s, val, f)
  {
    hide Parents, Within, FedBy;
    var g := GateBefore(c, b, base);
    forall i | base <= i < base + |g.nodes| ensures NodeSound(g, base, s, val, f, i) {
      GateParents(c, b, base, i);
      if i != base {
        assert NodeSound(b, base + 1, s, val, f, i);
        if i in b.starts {
          var e := Edge(base, i, Some(c));
          assert Parents(g.edges, i) == [e];
          FedByOne(e, b.nodes[i - base - 1], i, val, f);
        } else {
          assert Parents(g.edges, i) == Parents(b.edges, i);
        }
      }
    }
  }

  // ---- The meaning of a staged plan ------------------------------------------

  predicate Agrees(val: Valuation, base: nat, v: seq<State>) {
    forall i | base <= i < base + |v| :: val(i) == v[i - base]
  }

  lemma AgreesSplit(val: Valuation, base: nat, a: seq<State>, b: seq<State>)
    requires Agrees(val, base, a + b)
    ensures Agrees(val, base, a) && Agrees(val, base + |a|, b)
  {
    forall i | base + |a| <= i < base + |a| + |b| ensures val(i) == b[i - base - |a|] {
      assert val(i) == (a + b)[i - base];
    }
  }

  /** The plan's values solve the equations of its graph, and its exit point has its meaning. */
  lemma {:induction false} StageMeans(plan: Plan, base: nat, s: State, f: Program, val: Valuation)
    requires NonEmpty(plan) && Open(plan, s, f) && Agrees(val, base, Values(plan, s, f))
    ensures |Stage(plan, base).nodes| == |Values(plan, s, f)|
    ensures Sound(Stage(plan, base), base, s, val, f)
    ensures val(Stage(plan, base).end) == Denote(plan, s, f)
    decreases plan, 0
  {
    hide Sound, BranchesSound, Within, BranchesWithin, MergeAll;
    match plan
    case Leaf(name) => LeafSound(name, base, s, val, f);
    case Sequence(items) => ChainMeans(items, |items|, base, s, f, val);
    case Parallel(branches) =>
      var n := |branches|;
      BranchesAreWithin(branches, n, base + 1, base);
      var outs := DenoteEach(branches, n, s, f);
      AgreesSplit(val, base, [MergeAll(outs)], ValuesEach(branches, n, s, f));
      assert val(base) == MergeAll(outs);
      BranchesMean(branches, n, base + 1, base, s, f, val);
      MergeSound(StageBranches(branches, n, base + 1, base), base, s, val, f, outs);
    case Conditional(c, body) =>
      AgreesSplit(val, base, [s], Values(body, s, f));
      assert val(base) == s;
      StageMeans(body, base + 1, s, f, val);
      StageWithin(body, base + 1);
      GateSound(c, Stage(body, base + 1), base, s, val, f);
  }

  lemma LeafSound(name: string, base: nat, s: State, val: Valuation, f: Program)
    requires Agrees(val, base, [f(name, s)])
    ensures Sound(Staged([Task(name)], [], [base], base), base, s, val, f) && val(base) == f(name, s)
  {
    assert val(base) == f(name, s);
  }

  lemma {:induction false} ChainMeans(items: seq<Plan>, n: nat, base: nat, s: State, f: Program, val: Valuation)
    requires 0 < n <= |items| && AllNonEmpty(items, n) && OpenChain(items, n, s, f)
    requires Agrees(val, base, ValuesChain(items, n, s, f))
    ensures |StageChain(items, n, base).nodes| == |ValuesChain(items, n, s, f)|
    ensures Sound(StageChain(items, n, base), base, s, val, f)
    ensures val(StageChain(items, n, base).end) == DenoteChain(items, n, s, f)
    decreases items, n
  {
    hide Sound, Within, Agrees;
    if n == 1 {
      assert DenoteChain(items, 0, s, f) == s && ValuesChain(items, 0, s, f) == [];
      assert ValuesChain(items, 1, s, f) == Values(items[0], s, f);
      StageMeans(items[0], base, s, f, val);
    } else {
      var t := DenoteChain(items, n - 1, s, f);
      AgreesSplit(val, base, ValuesChain(items, n - 1, s, f), Values(items[n - 1], t, f));
      ChainMeans(items, n - 1, base, s, f, val);
      ChainWithin(items, n - 1, base);
      var a := StageChain(items, n - 1, base);
      StageMeans(items[n - 1], base + |a.nodes|, t, f, val);
      StageWithin(items[n - 1], base + |a.nodes|);
      JoinSound(a, Stage(items[n - 1], base + |a.nodes|), base, s, val, f);
    }
  }

  lemma {:induction false} BranchEnd(branches: seq<Plan>, n: nat, base: nat, merge: nat)
    requires n <= |branches| && AllNonEmpty(branches, n)
    ensures StageBranches(branches, n, base, merge).end == merge
    decreases branches, n
  {
    if n == 0 {
    } else {
      BranchEnd(branches, n - 1, base, merge);
    }
  }

  lemma NoBranches(base: nat, merge: nat, s: State, val: Valuation, f: Program)
    ensures BranchesSound(Staged([], [], [], merge), base, s, val, f, [])
  {
  }

  lemma {:induction false} BranchesMean(branches: seq<Plan>, n: nat, base: nat, merge: nat, s: State, f: Program,
                                        val: Valuation)
    requires n <= |branches| && AllNonEmpty(branches, n) && OpenEach(branches, n, s, f) && merge < base
    requires Agrees(val, base, ValuesEach(branches, n, s, f))
    ensures |StageBranches(branches, n, base, merge).nodes| == |ValuesEach(branches, n, s, f)|
    ensures BranchesSound(StageBranches(branches, n, base, merge), base, s, val, f, DenoteEach(branches, n, s, f))
    decreases branches, n
  {
    hide Sound, BranchesSound, Within, BranchesWithin, Agrees;
    if n == 0 {
      NoBranches(base, merge, s, val, f);
    } else {
      AgreesSplit(val, base, ValuesEach(branches, n - 1, s, f), Values(branches[n - 1], s, f));
      BranchesStep(branches, n, base, merge);
      hide StageBranches, Stage, Values, AllNonEmpty, NonEmpty, Open, Denote;
      BranchesMean(branches, n - 1, base, merge, s, f, val);
      BranchesAreWithin(branches, n - 1, base, merge);
      BranchEnd(branches, n - 1, base, merge);
      var a := StageBranches(branches, n - 1, base, merge);
      StageMeans(branches[n - 1], base + |a.nodes|, s, f, val);
      StageWithin(branches[n - 1], base + |a.nodes|);
      AddBranchSound(a, Stage(branches[n - 1], base + |a.nodes|), base, s, val, f, DenoteEach(branches, n - 1, s, f));
    }
  }

  // ---- Precedence ------------------------------------------------------------

  /** How many executions a plan is staged into. */
  function Size(plan: Plan): nat
    decreases plan, 0
  {
    match plan
    case Leaf(_) => 1
    case Sequence(items) => SizeOf(items, |items|)
    case Parallel(branches) => 1 + SizeOf(branches, |branches|)
    case Conditional(_, body) => 1 + Size(body)
  }

  function SizeOf(plans: seq<Plan>, n: nat): nat
    requires n <= |plans|
    decreases plans, n
  {
    if n == 0 then 0 else SizeOf(plans, n - 1) + Size(plans[n - 1])
  }

  /** The place of the `i`th staged execution in a topological order of the plan's graph. */
  function Rank(plan: Plan, i: nat): nat
    decreases plan, 0
  {
    match plan
    case Leaf(_) => 0
    case Sequence(items) => RankIn(items, |items|, i)
    case Parallel(branches) => if i == 0 then SizeOf(branches, |branches|) else RankIn(branches, |branches|, i - 1)
    case Conditional(_, body) => if i == 0 then 0 else 1 + Rank(body, i - 1)
  }

  function RankIn(plans: seq<Plan>, n: nat, i: nat): nat
    requires n <= |plans|
    decreases plans, n
  {
    if n == 0 then 0
    else if i < SizeOf(plans, n - 1) then RankIn(plans, n - 1, i)
    else SizeOf(plans, n - 1) + Rank(plans[n - 1], i - SizeOf(plans, n - 1))
  }

  lemma {:induction false} RankBound(plan: Plan, i: nat)
    requires i < Size(plan)
    ensures Rank(plan, i) < Size(plan)
    decreases plan, 0
  {
    match plan
    case Leaf(_) =>
    case Sequence(items) => RankInBound(items, |items|, i);
    case Parallel(branches) => if i > 0 { RankInBound(branches, |branches|, i - 1); }
    case Conditional(_, body) => if i > 0 { RankBound(body, i - 1); }
  }

  lemma {:induction false} RankInBound(plans: seq<Plan>, n: nat, i: nat)
    requires n <= |plans| && i < SizeOf(plans, n)
    ensures RankIn(plans, n, i) < SizeOf(plans, n)
    decreases plans, n
  {
    if n == 0 {
    } else {
      if i < SizeOf(plans, n - 1) {
        RankInBound(plans, n - 1, i);
      } else {
        RankBound(plans[n - 1], i - SizeOf(plans, n - 1));
      }
    }
  }

  lemma {:induction false} StageSize(plan: Plan, base: nat)
    requires NonEmpty(plan)
    ensures |Stage(plan, base).nodes| == Size(plan)
    decreases plan, 0
  {
    match plan
    case Leaf(_) =>
    case Sequence(items) => StageSizes(items, |items|, base, 0);
    case Parallel(branches) => StageSizes(branches, |branches|, base + 1, base);
    case Conditional(_, body) => StageSize(body, base + 1);
  }

  lemma {:induction false} StageSizes(plans: seq<Plan>, n: nat, base: nat, merge: nat)
    requires n <= |plans| && AllNonEmpty(plans, n)
    ensures |StageBranches(plans, n, base, merge).nodes| == SizeOf(plans, n)
    ensures n > 0 ==> |StageChain(plans, n, base).nodes| == SizeOf(plans, n)
    decreases plans, n
  {
    if n == 0 {
    } else {
      StageSizes(plans, n - 1, base, merge);
      StageSize(plans[n - 1], base + SizeOf(plans, n - 1));
    }
  }

  /** The edge stays inside the plan staged at `base` and goes up in rank. */
  predicate Climbs(e: Edge, base: nat, plan: Plan) {
    && base <= e.from < base + Size(plan)
    && base <= e.to < base + Size(plan)
    && Rank(plan, e.from - base) < Rank(plan, e.to - base)
  }

  predicate ClimbsIn(e: Edge, base: nat, plans: seq<Plan>, n: nat)
    requires n <= |plans|
  {
    && base <= e.from < base + SizeOf(plans, n)
    && base <= e.to < base + SizeOf(plans, n)
    && RankIn(plans, n, e.from - base) < RankIn(plans, n, e.to - base)
  }

  /** As `ClimbsIn`, or the edge enters the merge that lies just before. */
  predicate ClimbsOrMerges(e: Edge, base: nat, merge: nat, plans: seq<Plan>, n: nat)
    requires n <= |plans|
  {
    ClimbsIn(e, base, plans, n) || (base <= e.from < base + SizeOf(plans, n) && e.to == merge)
  }

  lemma ClimbsBefore(e: Edge, base: nat, plans: seq<Plan>, n: nat)
    requires 0 < n <= |plans| && ClimbsIn(e, base, plans, n - 1)
    ensures ClimbsIn(e, base, plans, n)
  {
  }

  lemma ClimbsLast(e: Edge, base: nat, plans: seq<Plan>, n: nat)
    requires 0 < n <= |plans| && Climbs(e, base + SizeOf(plans, n - 1), plans[n - 1])
    ensures ClimbsIn(e, base, plans, n)
  {
  }

  lemma ClimbsAcross(e: Edge, base: nat, plans: seq<Plan>, n: nat)
    requires 0 < n <= |plans|
    requires base <= e.from < base + SizeOf(plans, n - 1) <= e.to < base + SizeOf(plans, n)
    ensures ClimbsIn(e, base, plans, n)
  {
    RankInBound(plans, n - 1, e.from - base);
  }

  /** Every edge of a staged plan goes up in rank, so its graph has no cycle. */
  lemma {:induction false} StageClimbs(plan: Plan, base: nat, e: Edge)
    requires NonEmpty(plan) && e in Stage(plan, base).edges
    ensures Climbs(e, base, plan)
    decreases plan, 0
  {
    match plan
    case Leaf(_) =>
    case Sequence(items) => ChainClimbs(items, |items|, base, e);
    case Parallel(branches) =>
      BranchesClimb(branches, |branches|, base + 1, base, e);
      MergeClimbs(e, base, branches);
    case Conditional(c, body) =>
      if e in Stage(body, base + 1).edges {
        StageClimbs(body, base + 1, e);
      } else {
        GateClimbs(e, base, c, body);
      }
  }

  lemma MergeClimbs(e: Edge, base: nat, branches: seq<Plan>)
    requires ClimbsOrMerges(e, base + 1, base, branches, |branches|)
    ensures Climbs(e, base, Parallel(branches))
  {
    RankInBound(branches, |branches|, e.from - base - 1);
  }

  lemma GateClimbs(e: Edge, base: nat, c: string, body: Plan)
    requires NonEmpty(body) && e in Wire(base, Stage(body, base + 1).starts, Some(c))
    ensures Climbs(e, base, Conditional(c, body))
  {
    StageSize(body, base + 1);
    StageWithin(body, base + 1);
  }

  lemma {:induction false} ChainClimbs(items: seq<Plan>, n: nat, base: nat, e: Edge)
    requires 0 < n <= |items| && AllNonEmpty(items, n) && e in StageChain(items, n, base).edges
    ensures ClimbsIn(e, base, items, n)
    decreases items, n
  {
    hide Climbs, ClimbsIn, Rank, RankIn, Size, Within, Stage, Wire, NonEmpty;
    if n == 1 {
      StageClimbs(items[0], base, e);
      ClimbsLast(e, base, items, n);
    } else {
      hide StageChain, AllNonEmpty;
      var a, mid, b := ChainParts(items, n, base);
      StageSizes(items, n - 1, base, 0);
      if e in a.edges {
        ChainClimbs(items, n - 1, base, e);
        ClimbsBefore(e, base, items, n);
      } else if e in b.edges {
        StageClimbs(items[n - 1], mid, e);
        ClimbsLast(e, base, items, n);
      } else {
        StageSize(items[n - 1], mid);
        WireBetween(a, b, base, e);
        ClimbsAcross(e, base, items, n);
      }
    }
  }

  lemma WireBetween(a: Staged, b: Staged, base: nat, e: Edge)
    requires Within(a, base) && Within(b, base + |a.nodes|) && e in Wire(a.end, b.starts, None)
    ensures base <= e.from < base + |a.nodes| <= e.to < base + |a.nodes| + |b.nodes|
  {
  }

  lemma {:induction false} BranchesClimb(branches: seq<Plan>, n: nat, base: nat, merge: nat, e: Edge)
    requires n <= |branches| && AllNonEmpty(branches, n) && e in StageBranches(branches, n, base, merge).edges
    ensures ClimbsOrMerges(e, base, merge, branches, n)
    decreases branches, n
  {
    hide Stage, StageBranches, NonEmpty, AllNonEmpty, BranchesWithin, AddBranch, Within;
    hide Climbs, ClimbsIn, ClimbsOrMerges, Rank, RankIn, Size;
    if n == 0 {
      NoBranchEdges(branches, base, merge);
    } else {
      var a, mid, b := BranchParts(branches, n, base, merge);
      StageSizes(branches, n - 1, base, merge);
      BranchEdge(a, b, e);
      if e in a.edges {
        BranchesClimb(branches, n - 1, base, merge, e);
        MergesBefore(e, base, merge, branches, n);
      } else if e in b.edges {
        StageClimbs(branches[n - 1], mid, e);
        ClimbsLast(e, base, branches, n);
        ClimbsAtLeast(e, base, merge, branches, n);
      } else {
        StageSize(branches[n - 1], mid);
        EndWithin(b, mid);
        MergesLast(e, base, merge, branches, n);
      }
    }
  }

  lemma NoBranchEdges(branches: seq<Plan>, base: nat, merge: nat)
    ensures StageBranches(branches, 0, base, merge).edges == []
  {
  }

  lemma MergesBefore(e: Edge, base: nat, merge: nat, plans: seq<Plan>, n: nat)
    requires 0 < n <= |plans| && ClimbsOrMerges(e, base, merge, plans, n - 1)
    ensures ClimbsOrMerges(e, base, merge, plans, n)
  {
    if ClimbsIn(e, base, plans, n - 1) {
      ClimbsBefore(e, base, plans, n);
    }
  }

  lemma ClimbsAtLeast(e: Edge, base: nat, merge: nat, plans: seq<Plan>, n: nat)
    requires n <= |plans| && ClimbsIn(e, base, plans, n)
    ensures ClimbsOrMerges(e, base, merge, plans, n)
  {
  }

  lemma MergesLast(e: Edge, base: nat, merge: nat, plans: seq<Plan>, n: nat)
    requires 0 < n <= |plans| && e.to == merge
    requires base + SizeOf(plans, n - 1) <= e.from < base + SizeOf(plans, n - 1) + Size(plans[n - 1])
    ensures ClimbsOrMerges(e, base, merge, plans, n)
  {
  }

  lemma BranchEdge(a: Staged, b: Staged, e: Edge)
    requires e in AddBranch(a, b).edges
    ensures e in a.edges || e in b.edges || e == Edge(b.end, a.end, None)
  {
  }

  lemma EndWithin(b: Staged, base: nat)
    requires Within(b, base)
    ensures base <= b.end < base + |b.nodes|
  {
  }

  // ---- The meaning, part by part ---------------------------------------------

  /** Merging keeps every key, with the value of the last state that has it. */
  lemma {:induction false} LastWins(states: seq<State>, key: string)
    ensures key in MergeAll(states) <==> exists j :: 0 <= j < |states| && key in states[j]
    ensures forall j | 0 <= j < |states| && key in states[j] && (forall l | j < l < |states| :: key !in states[l]) ::
      key in MergeAll(states) && MergeAll(states)[key] == states[j][key]
    decreases |states|
  {
    if states == [] {
    } else {
      var n := |states| - 1;
      LastWins(states[..n], key);
      assert forall j | 0 <= j < n :: states[..n][j] == states[j];
      if key in states[n] {
        assert MergeAll(states)[key] == states[n][key];
      }
    }
  }

  lemma {:induction false} EachAt(branches: seq<Plan>, n: nat, j: nat, s: State, f: Program)
    requires j < n <= |branches|
    ensures DenoteEach(branches, n, s, f)[j] == Denote(branches[j], s, f)
    decreases n
  {
    if j < n - 1 {
      EachAt(branches, n - 1, j, s, f);
    }
  }

  /** A parallel runs its branches on the same input; a key comes from the last branch that writes it. */
  lemma ParallelMeans(branches: seq<Plan>, s: State, f: Program, key: string)
    ensures var d := Denote(Parallel(branches), s, f);
      && (key in d <==> exists j :: 0 <= j < |branches| && key in Denote(branches[j], s, f))
      && forall j | 0 <= j < |branches| && key in Denote(branches[j], s, f)
                    && (forall l | j < l < |branches| :: key !in Denote(branches[l], s, f)) ::
          key in d && d[key] == Denote(branches[j], s, f)[key]
  {
    hide Denote, MergeAll, DenoteEach;
    var each := DenoteEach(branches, |branches|, s, f);
    ParallelIs(branches, s, f);
    forall j | 0 <= j < |branches| ensures each[j] == Denote(branches[j], s, f) {
      EachAt(branches, |branches|, j, s, f);
    }
    LastWins(each, key);
  }

  lemma ParallelIs(branches: seq<Plan>, s: State, f: Program)
    ensures Denote(Parallel(branches), s, f) == MergeAll(DenoteEach(branches, |branches|, s, f))
  {
  }

  /** A sequence hands each result on: a longer one starts where the shorter one ended. */
  lemma SequenceMeans(first: seq<Plan>, rest: seq<Plan>, s: State, f: Program)
    ensures Denote(Sequence(first + rest), s, f) == Denote(Sequence(rest), Denote(Sequence(first), s, f), f)
    ensures forall p :: Denote(Sequence([p]), s, f) == Denote(p, s, f)
  {
    ChainSplit(first, rest, |rest|, s, f);
    forall p ensures Denote(Sequence([p]), s, f) == Denote(p, s, f) {
      assert DenoteChain([p], 0, s, f) == s;
    }
  }

  lemma {:induction false} ChainSplit(first: seq<Plan>, rest: seq<Plan>, n: nat, s: State, f: Program)
    requires n <= |rest|
    ensures DenoteChain(first + rest, |first| + n, s, f) == DenoteChain(rest, n, DenoteChain(first, |first|, s, f), f)
    decreases n
  {
    if n == 0 {
      ChainPrefix(first, rest, |first|, s, f);
    } else {
      ChainSplit(first, rest, n - 1, s, f);
    }
  }

  lemma {:induction false} ChainPrefix(first: seq<Plan>, rest: seq<Plan>, n: nat, s: State, f: Program)
    requires n <= |first|
    ensures DenoteChain(first + rest, n, s, f) == DenoteChain(first, n, s, f)
    decreases n
  {
    if n > 0 {
      ChainPrefix(first, rest, n - 1, s, f);
    }
  }

  predicate Plain(plan: Plan)
    decreases plan
  {
    match plan
    case Leaf(_) => true
    case Sequence(items) => forall p | p in items :: Plain(p)
    case Parallel(branches) => forall p | p in branches :: Plain(p)
    case Conditional(_, _) => false
  }

  /** A plan without conditionals is open on every input; a conditional is open exactly when its condition is met and
      its body is open. */
  lemma {:induction false} PlainIsOpen(plan: Plan, s: State, f: Program)
    ensures Plain(plan) ==> Open(plan, s, f)
    ensures plan.Conditional? ==>
      (Open(plan, s, f) <==> plan.condition in s && !Falsy(s[plan.condition]) && Open(plan.body, s, f))
    decreases plan
  {
    if Plain(plan) {
      match plan
      case Leaf(_) =>
      case Sequence(items) =>
        forall p, t | p in items ensures Open(p, t, f) {
          PlainIsOpen(p, t, f);
        }
        ChainOpens(items, |items|, s, f);
      case Parallel(branches) =>
        forall p, t | p in branches ensures Open(p, t, f) {
          PlainIsOpen(p, t, f);
        }
        EachOpens(branches, |branches|, s, f);
    }
  }

  lemma {:induction false} ChainOpens(items: seq<Plan>, n: nat, s: State, f: Program)
    requires n <= |items| && forall p, t | p in items :: Open(p, t, f)
    ensures OpenChain(items, n, s, f)
    decreases n
  {
    if n == 0 {
    } else {
      ChainOpens(items, n - 1, s, f);
      assert items[n - 1] in items;
    }
  }

  lemma {:induction false} EachOpens(branches: seq<Plan>, n: nat, s: State, f: Program)
    requires n <= |branches| && forall p, t | p in branches :: Open(p, t, f)
    ensures OpenEach(branches, n, s, f)
    decreases n
  {
    if n == 0 {
    } else {
      EachOpens(branches, n - 1, s, f);
      assert branches[n - 1] in branches;
    }
  }
}
