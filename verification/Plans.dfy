/** Plan trees, their meaning, and the graph a plan is staged into. */
module Plans {
  import opened Mail

  /** A plan of nodes; a node is named, and what it does is a function of that name. */
  datatype Plan =
    | Leaf(name: string)
    | Sequence(items: seq<Plan>)
    | Parallel(branches: seq<Plan>)
    | Conditional(condition: string, body: Plan)

  /** A session state: a JSON object. */
  type State = map<string, Json>

  type Program = (string, State) -> State

  predicate Falsy(v: Json) { v in {"null", "false", "0", "0.0", "\"\"", "[]", "{}"} }

  predicate Truthy(s: State, key: string) { key in s && !Falsy(s[key]) }

  /** No sequence and no parallel in the plan is empty. */
  predicate NonEmpty(plan: Plan)
    decreases plan, 0
  {
    match plan
    case Leaf(_) => true
    case Sequence(items) => items != [] && AllNonEmpty(items, |items|)
    case Parallel(branches) => branches != [] && AllNonEmpty(branches, |branches|)
    case Conditional(_, body) => NonEmpty(body)
  }

  /** The first `n` plans are nonempty throughout. */
  predicate AllNonEmpty(plans: seq<Plan>, n: nat)
    requires n <= |plans|
    decreases plans, n
  {
    n == 0 || (AllNonEmpty(plans, n - 1) && NonEmpty(plans[n - 1]))
  }

  /** The compiler accepts the plan: no sequence in it is empty. An empty parallel is accepted, as a merge of
      nothing. */
  predicate Buildable(plan: Plan)
    decreases plan, 0
  {
    match plan
    case Leaf(_) => true
    case Sequence(items) => items != [] && AllBuildable(items, |items|)
    case Parallel(branches) => AllBuildable(branches, |branches|)
    case Conditional(_, body) => Buildable(body)
  }

  predicate AllBuildable(plans: seq<Plan>, n: nat)
    requires n <= |plans|
    decreases plans, n
  {
    n == 0 || (AllBuildable(plans, n - 1) && Buildable(plans[n - 1]))
  }

  lemma {:induction false} NonEmptyBuilds(plan: Plan)
    requires NonEmpty(plan)
    ensures Buildable(plan)
    decreases plan, 0
  {
    match plan
    case Leaf(_) =>
    case Sequence(items) => AllNonEmptyBuild(items, |items|);
    case Parallel(branches) => AllNonEmptyBuild(branches, |branches|);
    case Conditional(_, body) => NonEmptyBuilds(body);
  }

  lemma {:induction false} AllNonEmptyBuild(plans: seq<Plan>, n: nat)
    requires n <= |plans| && AllNonEmpty(plans, n)
    ensures AllBuildable(plans, n)
    decreases plans, n
  {
    if n == 0 {
    } else {
      AllNonEmptyBuild(plans, n - 1);
      NonEmptyBuilds(plans[n - 1]);
    }
  }

  lemma {:induction false} AllBuildableAt(plans: seq<Plan>, n: nat, k: nat)
    requires k < n <= |plans| && AllBuildable(plans, n)
    ensures Buildable(plans[k])
    decreases n
  {
    if k < n - 1 {
      AllBuildableAt(plans, n - 1, k);
    }
  }

  /** Later states win, key by key. */
  function MergeAll(states: seq<State>): State {
    if states == [] then map[] else MergeAll(states[..|states| - 1]) + states[|states| - 1]
  }

  // ---- Meaning ---------------------------------------------------------------

  /** What a plan computes: a sequence composes, branches run on the same input and merge in order,
      and an open gate passes its input on. */
  function Denote(plan: Plan, s: State, f: Program): State
    decreases plan, 0
  {
    match plan
    case Leaf(name) => f(name, s)
    case Sequence(items) => DenoteChain(items, |items|, s, f)
    case Parallel(branches) => MergeAll(DenoteEach(branches, |branches|, s, f))
    case Conditional(_, body) => Denote(body, s, f)
  }

  /** The first `n` items, one after the other. */
  function DenoteChain(items: seq<Plan>, n: nat, s: State, f: Program): State
    requires n <= |items|
    decreases items, n
  {
    if n == 0 then s else Denote(items[n - 1], DenoteChain(items, n - 1, s, f), f)
  }

  /** The first `n` branches, each on the same input. */
  function DenoteEach(branches: seq<Plan>, n: nat, s: State, f: Program): (r: seq<State>)
    requires n <= |branches|
    ensures |r| == n
    decreases branches, n
  {
    if n == 0 then [] else DenoteEach(branches, n - 1, s, f) + [Denote(branches[n - 1], s, f)]
  }

  /** Every gate the plan reaches finds its condition true. */
  predicate Open(plan: Plan, s: State, f: Program)
    decreases plan, 0
  {
    match plan
    case Leaf(_) => true
    case Sequence(items) => OpenChain(items, |items|, s, f)
    case Parallel(branches) => OpenEach(branches, |branches|, s, f)
    case Conditional(c, body) => Truthy(s, c) && Open(body, s, f)
  }

  predicate OpenChain(items: seq<Plan>, n: nat, s: State, f: Program)
    requires n <= |items|
    decreases items, n
  {
    n == 0 || (OpenChain(items, n - 1, s, f) && Open(items[n - 1], DenoteChain(items, n - 1, s, f), f))
  }

  predicate OpenEach(branches: seq<Plan>, n: nat, s: State, f: Program)
    requires n <= |branches|
    decreases branches, n
  {
    n == 0 || (OpenEach(branches, n - 1, s, f) && Open(branches[n - 1], s, f))
  }

  // ---- Staging ---------------------------------------------------------------

  datatype Node = Task(name: string) | Merge | Gate(condition: string) | Head | End

  datatype Edge = Edge(from: nat, to: nat, condition: Option<string>)

  /** A plan expanded into executions and edges. An execution is identified by its position in the
      staging order, counted from the base; distinct positions stand for the generated identities. */
  datatype Staged = Staged(nodes: seq<Node>, edges: seq<Edge>, starts: seq<nat>, end: nat)

  /** Edges from one execution to each of several. */
  function Wire(from: nat, starts: seq<nat>, condition: Option<string>): (edges: seq<Edge>)
    ensures |edges| == |starts|
  {
    seq(|starts|, i requires 0 <= i < |starts| => Edge(from, starts[i], condition))
  }

  /** The staged plan. An empty sequence has no entry and no exit point: staging it fails, and nothing is said
      of it here. */
  function Stage(plan: Plan, base: nat): Staged
    decreases plan, 0
  {
    match plan
    case Leaf(name) => Staged([Task(name)], [], [base], base)
    case Sequence(items) => StageChain(items, |items|, base)
    case Parallel(branches) => MergeAfter(StageBranches(branches, |branches|, base + 1, base), base)
    case Conditional(c, body) => GateBefore(c, Stage(body, base + 1), base)
  }

  function MergeAfter(b: Staged, base: nat): Staged { Staged([Merge] + b.nodes, b.edges, b.starts, base) }

  function GateBefore(c: string, b: Staged, base: nat): Staged {
    Staged([Gate(c)] + b.nodes, b.edges + Wire(base, b.starts, Some(c)), [base], b.end)
  }

  function Join(a: Staged, b: Staged): Staged {
    Staged(a.nodes + b.nodes, a.edges + b.edges + Wire(a.end, b.starts, None), a.starts, b.end)
  }

  function StageChain(items: seq<Plan>, n: nat, base: nat): Staged
    requires n <= |items|
    decreases items, n
  {
    if n == 0 then Staged([], [], [], base)
    else if n == 1 then Stage(items[0], base)
    else
      var a := StageChain(items, n - 1, base);
      Join(a, Stage(items[n - 1], base + |a.nodes|))
  }

  function AddBranch(a: Staged, b: Staged): Staged {
    Staged(a.nodes + b.nodes, a.edges + b.edges + [Edge(b.end, a.end, None)], a.starts + b.starts, a.end)
  }

  function StageBranches(branches: seq<Plan>, n: nat, base: nat, merge: nat): Staged
    requires n <= |branches|
    decreases branches, n
  {
    if n == 0 then Staged([], [], [], merge)
    else
      var a := StageBranches(branches, n - 1, base, merge);
      AddBranch(a, Stage(branches[n - 1], base + |a.nodes|))
  }

  lemma BranchesStep(branches: seq<Plan>, n: nat, base: nat, merge: nat)
    requires 0 < n <= |branches| && AllNonEmpty(branches, n)
    ensures AllNonEmpty(branches, n - 1) && NonEmpty(branches[n - 1])
    ensures var a := StageBranches(branches, n - 1, base, merge);
      StageBranches(branches, n, base, merge) == AddBranch(a, Stage(branches[n - 1], base + |a.nodes|))
  {
  }

  lemma ChainStep(items: seq<Plan>, n: nat, base: nat)
    requires 1 < n <= |items| && AllNonEmpty(items, n)
    ensures AllNonEmpty(items, n - 1) && NonEmpty(items[n - 1])
    ensures var a := StageChain(items, n - 1, base);
      StageChain(items, n, base) == Join(a, Stage(items[n - 1], base + |a.nodes|))
  {
  }

  // ---- The value of every execution ------------------------------------------

  /** The result each staged execution must have, in staging order. */
  function Values(plan: Plan, s: State, f: Program): seq<State>
    decreases plan, 0
  {
    match plan
    case Leaf(name) => [f(name, s)]
    case Sequence(items) => ValuesChain(items, |items|, s, f)
    case Parallel(branches) =>
      [MergeAll(DenoteEach(branches, |branches|, s, f))] + ValuesEach(branches, |branches|, s, f)
    case Conditional(_, body) => [s] + Values(body, s, f)
  }

  function ValuesChain(items: seq<Plan>, n: nat, s: State, f: Program): seq<State>
    requires n <= |items|
    decreases items, n
  {
    if n == 0 then []
    else ValuesChain(items, n - 1, s, f) + Values(items[n - 1], DenoteChain(items, n - 1, s, f), f)
  }

  function ValuesEach(branches: seq<Plan>, n: nat, s: State, f: Program): seq<State>
    requires n <= |branches|
    decreases branches, n
  {
    if n == 0 then [] else ValuesEach(branches, n - 1, s, f) + Values(branches[n - 1], s, f)
  }

  // ---- Shape -----------------------------------------------------------------

  /** The parents of an execution, in the order their edges were added. */
  function Parents(edges: seq<Edge>, to: nat): seq<Edge> {
    if edges == [] then []
    else
      var last := edges[|edges| - 1];
      Parents(edges[..|edges| - 1], to) + if last.to == to then [last] else []
  }

  predicate Within(g: Staged, base: nat) {
    && base <= g.end < base + |g.nodes|
    && (forall e | e in g.edges :: base <= e.from < base + |g.nodes| && base <= e.to < base + |g.nodes|)
    && (forall i | 0 <= i < |g.starts| :: base <= g.starts[i] < base + |g.nodes|)
    && (forall i, j | 0 <= i < j < |g.starts| :: g.starts[i] != g.starts[j])
    && g.starts != []
  }

  /** As `Within`, for the branches of a merge that lies just before them. */
  predicate BranchesWithin(g: Staged, base: nat, merge: nat) {
    && g.end == merge
    && (forall e | e in g.edges ::
        base <= e.from < base + |g.nodes| && (e.to == merge || base <= e.to < base + |g.nodes|))
    && (forall i | 0 <= i < |g.starts| :: base <= g.starts[i] < base + |g.nodes|)
    && (forall i, j | 0 <= i < j < |g.starts| :: g.starts[i] != g.starts[j])
  }

  lemma {:induction false} StageWithin(plan: Plan, base: nat)
    requires NonEmpty(plan)
    ensures Within(Stage(plan, base), base)
    decreases plan, 0
  {
    match plan
    case Leaf(_) =>
    case Sequence(items) => ChainWithin(items, |items|, base);
    case Parallel(branches) => BranchesAreWithin(branches, |branches|, base + 1, base);
    case Conditional(_, body) => StageWithin(body, base + 1);
  }

  lemma {:induction false} ChainWithin(items: seq<Plan>, n: nat, base: nat)
    requires 0 < n <= |items| && AllNonEmpty(items, n)
    ensures Within(StageChain(items, n, base), base)
    decreases items, n
  {
    if n == 1 {
      StageWithin(items[0], base);
    } else {
      ChainWithin(items, n - 1, base);
      StageWithin(items[n - 1], base + |StageChain(items, n - 1, base).nodes|);
    }
  }

  lemma {:induction false} BranchesAreWithin(branches: seq<Plan>, n: nat, base: nat, merge: nat)
    requires n <= |branches| && AllNonEmpty(branches, n)
    ensures BranchesWithin(StageBranches(branches, n, base, merge), base, merge)
    ensures n > 0 ==> StageBranches(branches, n, base, merge).starts != []
    decreases branches, n
  {
    if n == 0 {
    } else {
      BranchesAreWithin(branches, n - 1, base, merge);
      StageWithin(branches[n - 1], base + |StageBranches(branches, n - 1, base, merge).nodes|);
    }
  }

  /** A chain of several items is the chain of all but the last joined to the last. */
  lemma ChainParts(items: seq<Plan>, n: nat, base: nat) returns (a: Staged, mid: nat, b: Staged)
    requires 1 < n <= |items| && AllNonEmpty(items, n)
    ensures AllNonEmpty(items, n - 1) && NonEmpty(items[n - 1])
    ensures a == StageChain(items, n - 1, base) && mid == base + |a.nodes| && b == Stage(items[n - 1], mid)
    ensures StageChain(items, n, base) == Join(a, b) && Within(a, base) && Within(b, mid)
  {
    a := StageChain(items, n - 1, base);
    mid := base + |a.nodes|;
    b := Stage(items[n - 1], mid);
    ChainStep(items, n, base);
    ChainWithin(items, n - 1, base);
    StageWithin(items[n - 1], mid);
  }

  /** Some branches are all but the last, and the last added. */
  lemma BranchParts(branches: seq<Plan>, n: nat, base: nat, merge: nat) returns (a: Staged, mid: nat, b: Staged)
    requires 0 < n <= |branches| && AllNonEmpty(branches, n)
    ensures AllNonEmpty(branches, n - 1) && NonEmpty(branches[n - 1])
    ensures a == StageBranches(branches, n - 1, base, merge) && mid == base + |a.nodes|
    ensures b == Stage(branches[n - 1], mid)
    ensures StageBranches(branches, n, base, merge) == AddBranch(a, b)
    ensures a.end == merge && BranchesWithin(a, base, merge) && Within(b, mid)
  {
    a := StageBranches(branches, n - 1, base, merge);
    mid := base + |a.nodes|;
    b := Stage(branches[n - 1], mid);
    BranchesStep(branches, n, base, merge);
    BranchesAreWithin(branches, n - 1, base, merge);
    StageWithin(branches[n - 1], mid);
  }

  lemma {:induction false} ParentsConcat(a: seq<Edge>, b: seq<Edge>, to: nat)
    ensures Parents(a + b, to) == Parents(a, to) + Parents(b, to)
    decreases |b|
  {
    if b == [] {
      assert a + b == a;
    } else {
      var n := |b| - 1;
      ParentsConcat(a, b[..n], to);
      assert (a + b)[..|a + b| - 1] == a + b[..n];
    }
  }

  lemma {:induction false} ParentsNone(edges: seq<Edge>, to: nat)
    requires forall e | e in edges :: e.to != to
    ensures Parents(edges, to) == []
    decreases |edges|
  {
    if edges == [] {
    } else {
      ParentsNone(edges[..|edges| - 1], to);
    }
  }

  lemma {:induction false} ParentsIn(edges: seq<Edge>, to: nat, e: Edge)
    ensures e in Parents(edges, to) <==> e in edges && e.to == to
    decreases |edges|
  {
    if edges == [] {
    } else {
      var n := |edges| - 1;
      ParentsIn(edges[..n], to, e);
      assert edges == edges[..n] + [edges[n]];
    }
  }

  lemma {:induction false} ParentsWire(from: nat, starts: seq<nat>, condition: Option<string>, to: nat)
    requires forall i, j | 0 <= i < j < |starts| :: starts[i] != starts[j]
    ensures Parents(Wire(from, starts, condition), to) == if to in starts then [Edge(from, to, condition)] else []
    decreases |starts|
  {
    if starts == [] {
    } else {
      var n := |starts| - 1;
      ParentsWire(from, starts[..n], condition, to);
      WireLast(from, starts, condition);
      if starts[n] == to {
        assert forall i | 0 <= i < n :: starts[i] != to;
      } else {
        assert to in starts <==> to in starts[..n];
      }
    }
  }

  lemma WireLast(from: nat, starts: seq<nat>, condition: Option<string>)
    requires starts != []
    ensures var n := |starts| - 1;
      && Wire(from, starts, condition)[..n] == Wire(from, starts[..n], condition)
      && Wire(from, starts, condition)[n] == Edge(from, starts[n], condition)
  {
  }
}
