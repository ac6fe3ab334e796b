/** A running node's returned plan is spliced into the live graph; the result is the graph of a larger plan. */
module LiveGraph {
  import opened Mail
  import opened Plans
  import opened PlanMeaning
  import opened GraphEdges
  import opened PlanSplicing
  import opened Scheduling
  import opened SchedulingTheorems

  /** The graph after the execution `x` returned the plan `extra`: the plan's executions and edges are added,
      the edges out of `x` are dropped, `x` leads to the plan's entry points and its exit point to the old
      children, under the old conditions. */
  function Spliced(g: Graph, x: nat, extra: Plan): Graph {
    var s := Stage(extra, |g.nodes|);
    var children := Children(g.edges, x);
    var without := DropAll(PutAll(g.edges, s.edges), x, children);
    Graph(g.nodes + s.nodes, PutAll(PutAll(without, Wire(x, s.starts, None)), Resourced(children, s.end)))
  }

  predicate InRange(g: Graph) {
    forall e | e in g.edges :: e.from < |g.nodes| && e.to < |g.nodes|
  }

  /** Which edges a splice leaves. */
  predicate SplicedEdge(g: Graph, x: nat, s: Staged, e: Edge) {
    || (e in g.edges && e.from != x)
    || e in s.edges
    || e in Wire(x, s.starts, None)
    || (e.from == s.end && Edge(x, e.to, e.condition) in g.edges)
  }

  lemma InResourced(children: seq<Edge>, from: nat, e: Edge)
    ensures e in Resourced(children, from)
      <==> e.from == from && exists c | c in children :: c.to == e.to && c.condition == e.condition
  {
    if e.from == from && exists c | c in children :: c.to == e.to && c.condition == e.condition {
      var c :| c in children && c.to == e.to && c.condition == e.condition;
      var k :| 0 <= k < |children| && children[k] == c;
      assert Resourced(children, from)[k] == e;
    }
  }

  lemma ResourcedDistinct(edges: seq<Edge>, x: nat, from: nat)
    requires Distinct(edges)
    ensures Distinct(Resourced(Children(edges, x), from))
  {
    var children := Children(edges, x);
    ChildrenDistinct(edges, x);
    forall i, j | 0 <= i < j < |children| ensures children[i].to != children[j].to {
      InChildren(edges, x, children[i]);
      InChildren(edges, x, children[j]);
    }
  }

  lemma ChildrenDropped(edges: seq<Edge>, more: seq<Edge>, x: nat, e: Edge)
    requires forall d | d in more :: d.from != x
    ensures e in DropAll(edges + more, x, Children(edges, x)) <==> e in edges + more && e.from != x
  {
    InDropAll(edges + more, x, Children(edges, x), e);
    if e in edges + more && e.from == x {
      InChildren(edges, x, e);
    }
  }

  lemma SplicePuts(g: Graph, x: nat, extra: Plan)
    requires InRange(g) && Distinct(g.edges) && x < |g.nodes| && NonEmpty(extra)
    ensures var s, children := Stage(extra, |g.nodes|), Children(g.edges, x);
      && Spliced(g, x, extra).edges
        == DropAll(g.edges + s.edges, x, children) + Wire(x, s.starts, None) + Resourced(children, s.end)
      && Distinct(Spliced(g, x, extra).edges)
  {
    var s, children := Stage(extra, |g.nodes|), Children(g.edges, x);
    var wires, outs := Wire(x, s.starts, None), Resourced(children, s.end);
    var without := DropAll(g.edges + s.edges, x, children);
    StageWithin(extra, |g.nodes|);
    StageDistinct(extra, |g.nodes|);
    ConcatDistinct(g.edges, s.edges);
    PutAllFresh(g.edges, s.edges);
    DropAllDistinct(g.edges + s.edges, x, children);
    WireDistinct(x, s.starts, None);
    ResourcedDistinct(g.edges, x, s.end);
    hide Children, DropAll, Distinct, PutAll, Stage, NonEmpty;
    forall e, d | e in without && d in wires ensures !SameKey(e, d) {
      ChildrenDropped(g.edges, s.edges, x, e);
    }
    ConcatDistinct(without, wires);
    PutAllFresh(without, wires);
    forall e, d | e in without + wires && d in outs ensures !SameKey(e, d) {
      ChildrenDropped(g.edges, s.edges, x, e);
      InResourced(children, s.end, d);
      var c :| c in children && c.to == d.to;
      InChildren(g.edges, x, c);
    }
    ConcatDistinct(without + wires, outs);
    PutAllFresh(without + wires, outs);
  }

  lemma SpliceEdges(g: Graph, x: nat, extra: Plan, e: Edge)
    requires InRange(g) && Distinct(g.edges) && x < |g.nodes| && NonEmpty(extra)
    ensures e in Spliced(g, x, extra).edges <==> SplicedEdge(g, x, Stage(extra, |g.nodes|), e)
  {
    var s, children := Stage(extra, |g.nodes|), Children(g.edges, x);
    SplicePuts(g, x, extra);
    StageWithin(extra, |g.nodes|);
    hide Stage, Spliced, Children, DropAll, Wire, Resourced, NonEmpty, Distinct;
    ChildrenDropped(g.edges, s.edges, x, e);
    InResourced(children, s.end, e);
    InChildren(g.edges, x, Edge(x, e.to, e.condition));
    if e in Resourced(children, s.end) {
      var c :| c in children && c.to == e.to && c.condition == e.condition;
      InChildren(g.edges, x, c);
    }
  }

  // ---- Same graph up to names ------------------------------------------------

  /** A one-to-one naming: `live[i]` is the live execution at position `i`, `place[j]` the position of `j`. */
  datatype Naming = Naming(live: seq<nat>, place: seq<nat>)

  predicate Inverse(m: Naming) {
    && |m.live| == |m.place|
    && (forall i | 0 <= i < |m.live| :: m.live[i] < |m.place| && m.place[m.live[i]] == i)
    && (forall j | 0 <= j < |m.place| :: m.place[j] < |m.live| && m.live[m.place[j]] == j)
  }

  predicate EdgeIn(e: Edge, count: nat) { e.from < count && e.to < count }

  function Named(e: Edge, m: Naming): Edge
    requires EdgeIn(e, |m.live|)
  {
    Edge(m.live[e.from], m.live[e.to], e.condition)
  }

  /** The live graph `g` is the graph `h` up to the names of executions. */
  ghost predicate SameGraph(h: Graph, g: Graph, m: Naming) {
    && Inverse(m) && |m.live| == |h.nodes| == |g.nodes| && InRange(h) && InRange(g)
    && (forall i | 0 <= i < |h.nodes| :: g.nodes[m.live[i]] == h.nodes[i])
    && (forall e | EdgeIn(e, |h.nodes|) :: e in h.edges <==> Named(e, m) in g.edges)
  }

  /** `k` new executions, named next, take the positions after `n`. */
  function Extended(m: Naming, n: nat, k: nat): Naming
    requires n < |m.live|
  {
    var count := |m.live|;
    Naming(m.live[..n + 1] + seq(k, i requires 0 <= i < k => count + i) + m.live[n + 1..],
           seq(|m.place|, j requires 0 <= j < |m.place| => Later(m.place[j], n, k)) +
             seq(k, i requires 0 <= i < k => n + 1 + i))
  }

  /** Where a position of the grown graph is named. */
  lemma ExtendedAt(m: Naming, n: nat, k: nat, i: nat)
    requires Inverse(m) && n < |m.live| && i < |m.live| + k
    ensures |Extended(m, n, k).live| == |m.live| + k
    ensures Extended(m, n, k).live[i] ==
      if n < i <= n + k then |m.live| + (i - n - 1) else m.live[Earlier(i, n, k)]
    ensures n < i <= n + k || Earlier(i, n, k) < |m.live|
  {
  }

  /** Where an execution of the grown graph is placed. */
  lemma ExtendedPlace(m: Naming, n: nat, k: nat, j: nat)
    requires Inverse(m) && n < |m.live| && j < |m.live| + k
    ensures |Extended(m, n, k).place| == |m.live| + k
    ensures Extended(m, n, k).place[j] ==
      if j < |m.live| then Later(m.place[j], n, k) else n + 1 + (j - |m.live|)
  {
  }

  lemma ExtendedInverse(m: Naming, n: nat, k: nat)
    requires Inverse(m) && n < |m.live|
    ensures Inverse(Extended(m, n, k)) && |Extended(m, n, k).live| == |m.live| + k
  {
    hide Extended;
    var x := Extended(m, n, k);
    ExtendedAt(m, n, k, 0);
    ExtendedPlace(m, n, k, 0);
    forall i | 0 <= i < |x.live| ensures x.live[i] < |x.place| && x.place[x.live[i]] == i {
      ExtendedAt(m, n, k, i);
      ExtendedPlace(m, n, k, x.live[i]);
    }
    forall j | 0 <= j < |x.place| ensures x.place[j] < |x.live| && x.live[x.place[j]] == j {
      ExtendedPlace(m, n, k, j);
      ExtendedAt(m, n, k, x.place[j]);
    }
  }

  // ---- The session graph of a grown plan -------------------------------------

  /** `h` is `g` with `q` put in after `n`, as whole graphs. */
  ghost predicate GraphGrew(g: Graph, h: Graph, n: nat, q: Staged) {
    && FIRST <= n < |g.nodes|
    && h.nodes == g.nodes[..n + 1] + q.nodes + g.nodes[n + 1..]
    && (forall e :: e in h.edges <==> GrownEdge(e, g.edges, n, q))
  }

  lemma StagedGraphGrew(p: Staged, r: Staged, n: nat, q: Staged)
    requires Grew(p, r, FIRST, n, q) && Fresh(q, n) && Within(p, FIRST)
    ensures GraphGrew(Graph([Node.Head, Node.End] + p.nodes,
                            p.edges + Wire(HEAD, p.starts, None) + [Edge(p.end, END, None)]),
                      Graph([Node.Head, Node.End] + r.nodes,
                            r.edges + Wire(HEAD, r.starts, None) + [Edge(r.end, END, None)]), n, q)
  {
    hide Wire, GrownStart;
    var w, v := Wire(HEAD, p.starts, None), Wire(HEAD, r.starts, None);
    var x, y := [Edge(p.end, END, None)], [Edge(r.end, END, None)];
    var g := p.edges + w + x;
    forall e ensures e in r.edges + v + y <==> GrownEdge(e, g, n, q) {
      WireCarried(HEAD, p.starts, HEAD, r.starts, None, n, q, e);
      CarriedConcat(e, p.edges, w, n, q);
      CarriedConcat(e, p.edges + w, x, n, q);
      assert e in y <==> Carried(e, x, n, q);
      assert e in r.edges + v + y <==> e in r.edges || e in v || e in y;
    }
  }

  lemma SessionGrows(plan: Plan, path: Path, extra: Plan)
    requires NonEmpty(plan) && NonEmpty(extra) && LeafAt(plan, path)
    ensures NonEmpty(Grown(plan, path, extra))
    ensures var n := Position(plan, path, FIRST);
      GraphGrew(SessionGraph(plan), SessionGraph(Grown(plan, path, extra)), n, Stage(extra, n + 1))
  {
    var n := Position(plan, path, FIRST);
    GrownNonEmpty(plan, path, extra);
    StageGrows(plan, path, extra, FIRST);
    StageWithin(plan, FIRST);
    StageWithin(extra, n + 1);
    hide Stage, NonEmpty, Grew, Within, GraphGrew;
    StagedGraphGrew(Stage(plan, FIRST), Stage(Grown(plan, path, extra), FIRST), n, Stage(extra, n + 1));
  }

  // ---- Splicing is static compilation ----------------------------------------

  lemma NewEdge(m: Naming, n: nat, q: Staged, up: nat, e: Edge)
    requires Inverse(m) && n < |m.live| && up == |m.live| - (n + 1) && Fresh(q, n)
    requires EdgeIn(e, |m.live| + |q.nodes|) && |Extended(m, n, |q.nodes|).live| == |m.live| + |q.nodes|
    ensures e in q.edges <==> Named(e, Extended(m, n, |q.nodes|)) in Shifted(q, up).edges
  {
    ExtendedAt(m, n, |q.nodes|, e.from);
    ExtendedAt(m, n, |q.nodes|, e.to);
    hide Extended;
    var d := Named(e, Extended(m, n, |q.nodes|));
    if e in q.edges {
      var i :| 0 <= i < |q.edges| && q.edges[i] == e;
      assert Edges(q.edges, up)[i] == d;
    }
    if d in Edges(q.edges, up) {
      var i :| 0 <= i < |q.edges| && Edges(q.edges, up)[i] == d;
      assert q.edges[i] in q.edges && d == MoveBy(q.edges[i], up);
    }
  }

  lemma NewStart(m: Naming, n: nat, q: Staged, up: nat, t: nat)
    requires Inverse(m) && n < |m.live| && up == |m.live| - (n + 1) && Fresh(q, n)
    requires t < |m.live| + |q.nodes| && |Extended(m, n, |q.nodes|).live| == |m.live| + |q.nodes|
    ensures t in q.starts <==> Extended(m, n, |q.nodes|).live[t] in Shifted(q, up).starts
  {
    ExtendedAt(m, n, |q.nodes|, t);
    hide Extended;
    var d := Extended(m, n, |q.nodes|).live[t];
    if t in q.starts {
      var i :| 0 <= i < |q.starts| && q.starts[i] == t;
      assert Ids(q.starts, up)[i] == d;
    }
    if d in Ids(q.starts, up) {
      var i :| 0 <= i < |q.starts| && Ids(q.starts, up)[i] == d;
      assert q.starts[i] in q.starts;
    }
  }

  lemma NewWire(m: Naming, n: nat, q: Staged, up: nat, e: Edge)
    requires Inverse(m) && n < |m.live| && up == |m.live| - (n + 1) && Fresh(q, n)
    requires EdgeIn(e, |m.live| + |q.nodes|) && |Extended(m, n, |q.nodes|).live| == |m.live| + |q.nodes|
    ensures e in Wire(n, q.starts, None)
      <==> Named(e, Extended(m, n, |q.nodes|)) in Wire(m.live[n], Shifted(q, up).starts, None)
  {
    NewStart(m, n, q, up, e.to);
    InWire(n, q.starts, None, e);
    InWire(m.live[n], Shifted(q, up).starts, None, Named(e, Extended(m, n, |q.nodes|)));
    ExtendedAt(m, n, |q.nodes|, e.from);
    hide Extended, Wire, Ids;
    assert m.place[m.live[n]] == n;
  }

  /** An edge of the old graph, moved, is an edge the splice keeps or takes over from `n`. */
  lemma OldEdge(h: Graph, g: Graph, m: Naming, n: nat, q: Staged, up: nat, e: Edge)
    requires SameGraph(h, g, m) && n < |m.live| && up == |m.live| - (n + 1) && Fresh(q, n)
    requires EdgeIn(e, |m.live| + |q.nodes|) && |Extended(m, n, |q.nodes|).live| == |m.live| + |q.nodes|
    ensures var d := Named(e, Extended(m, n, |q.nodes|));
      Carried(e, h.edges, n, q)
      <==> (|| (d in g.edges && d.from != m.live[n])
            || (d.from == Shifted(q, up).end && Edge(m.live[n], d.to, d.condition) in g.edges))
  {
    var k := |q.nodes|;
    var d, u := Named(e, Extended(m, n, k)), Unmoved(e, n, q);
    ExtendedAt(m, n, k, e.from);
    ExtendedAt(m, n, k, e.to);
    hide Extended, Edges, Ids;
    Bounds(q, n + 1);
    if EdgeIn(u, |m.live|) {
      assert u in h.edges <==> Named(u, m) in g.edges;
      assert m.place[m.live[n]] == n && m.place[m.live[u.from]] == u.from;
    }
  }

  /** The edges of the grown graph are, renamed, the edges the splice leaves. */
  lemma GrownIsSpliced(h: Graph, g: Graph, m: Naming, n: nat, q: Staged, up: nat, e: Edge)
    requires SameGraph(h, g, m) && n < |m.live| && up == |m.live| - (n + 1) && Fresh(q, n)
    requires EdgeIn(e, |m.live| + |q.nodes|) && |Extended(m, n, |q.nodes|).live| == |m.live| + |q.nodes|
    ensures GrownEdge(e, h.edges, n, q)
      <==> SplicedEdge(g, m.live[n], Shifted(q, up), Named(e, Extended(m, n, |q.nodes|)))
  {
    NewEdge(m, n, q, up, e);
    NewWire(m, n, q, up, e);
    OldEdge(h, g, m, n, q, up, e);
    hide SameGraph, Extended, Shifted, Carried, Wire, Fresh;
  }

  lemma GrownNodes(h: seq<Node>, g: seq<Node>, m: Naming, n: nat, q: seq<Node>, i: nat)
    requires Inverse(m) && |m.live| == |h| == |g| && n < |h| && i < |h| + |q|
    requires forall j | 0 <= j < |h| :: g[m.live[j]] == h[j]
    ensures |Extended(m, n, |q|).live| == |h| + |q| && Extended(m, n, |q|).live[i] < |g + q|
    ensures (g + q)[Extended(m, n, |q|).live[i]] == (h[..n + 1] + q + h[n + 1..])[i]
  {
    ExtendedAt(m, n, |q|, i);
    hide Extended;
  }

  lemma SplicedInRange(g: Graph, x: nat, s: Staged, e: Edge)
    requires InRange(g) && x < |g.nodes| && Within(s, |g.nodes|) && SplicedEdge(g, x, s, e)
    ensures EdgeIn(e, |g.nodes| + |s.nodes|)
  {
    InWire(x, s.starts, None, e);
  }

  lemma GrownInRange(h: Graph, n: nat, q: Staged, e: Edge)
    requires InRange(h) && n < |h.nodes| && Fresh(q, n) && GrownEdge(e, h.edges, n, q)
    ensures EdgeIn(e, |h.nodes| + |q.nodes|)
  {
    InWire(n, q.starts, None, e);
  }

  lemma SplicedSameGraph(h: Graph, g: Graph, r: Graph, t: Graph, m: Naming, n: nat, q: Staged, s: Staged, up: nat)
    requires SameGraph(h, g, m) && GraphGrew(h, r, n, q) && Fresh(q, n) && Within(s, |g.nodes|)
    requires up == |g.nodes| - (n + 1) && s == Shifted(q, up)
    requires t.nodes == g.nodes + s.nodes && forall e :: e in t.edges <==> SplicedEdge(g, m.live[n], s, e)
    ensures SameGraph(r, t, Extended(m, n, |q.nodes|))
  {
    var x := Extended(m, n, |q.nodes|);
    ExtendedInverse(m, n, |q.nodes|);
    hide Extended, GrownEdge, SplicedEdge, Within, Inverse;
    forall e | e in r.edges ensures EdgeIn(e, |r.nodes|) {
      GrownInRange(h, n, q, e);
    }
    forall e | e in t.edges ensures EdgeIn(e, |t.nodes|) {
      SplicedInRange(g, m.live[n], s, e);
    }
    forall i | 0 <= i < |r.nodes| ensures x.live[i] < |t.nodes| && t.nodes[x.live[i]] == r.nodes[i] {
      GrownNodes(h.nodes, g.nodes, m, n, q.nodes, i);
    }
    forall e | EdgeIn(e, |r.nodes|) ensures e in r.edges <==> Named(e, x) in t.edges {
      GrownIsSpliced(h, g, m, n, q, up, e);
    }
  }

  lemma SpliceLeaves(g: Graph, x: nat, extra: Plan)
    requires InRange(g) && Distinct(g.edges) && x < |g.nodes| && NonEmpty(extra)
    ensures var s, t := Stage(extra, |g.nodes|), Spliced(g, x, extra);
      && t.nodes == g.nodes + s.nodes && Distinct(t.edges)
      && forall e :: e in t.edges <==> SplicedEdge(g, x, s, e)
  {
    SplicePuts(g, x, extra);
    forall e ensures e in Spliced(g, x, extra).edges <==> SplicedEdge(g, x, Stage(extra, |g.nodes|), e) {
      SpliceEdges(g, x, extra, e);
    }
  }

  lemma ExtraStaged(extra: Plan, n: nat, count: nat)
    requires NonEmpty(extra) && n < count
    ensures var q, s := Stage(extra, n + 1), Stage(extra, count);
      s == Shifted(q, count - (n + 1)) && Fresh(q, n) && Within(s, count) && |q.nodes| == Size(extra)
  {
    StageShift(extra, n + 1, count - (n + 1));
    StageSize(extra, n + 1);
    StageWithin(extra, n + 1);
    StageWithin(extra, count);
  }

  lemma SpliceGrows(h: Graph, r: Graph, extra: Plan, g: Graph, m: Naming, n: nat)
    requires NonEmpty(extra) && n < |g.nodes| && GraphGrew(h, r, n, Stage(extra, n + 1))
    requires SameGraph(h, g, m) && Distinct(g.edges)
    ensures SameGraph(r, Spliced(g, m.live[n], extra), Extended(m, n, Size(extra)))
    ensures Distinct(Spliced(g, m.live[n], extra).edges)
  {
    assert m.live[n] < |g.nodes| && InRange(g);
    ExtraStaged(extra, n, |g.nodes|);
    SpliceLeaves(g, m.live[n], extra);
    hide Stage, Distinct, Spliced, SplicedEdge, Within, SameGraph, GraphGrew, Extended, Size, Shifted, NonEmpty;
    SplicedSameGraph(h, g, r, Spliced(g, m.live[n], extra), m, n, Stage(extra, n + 1), Stage(extra, |g.nodes|),
                     |g.nodes| - (n + 1));
  }

  lemma SessionSpliced(plan: Plan, path: Path, extra: Plan, g: Graph, m: Naming, n: nat)
    requires NonEmpty(plan) && NonEmpty(extra) && LeafAt(plan, path) && n == Position(plan, path, FIRST)
    requires SameGraph(SessionGraph(plan), g, m) && Distinct(g.edges)
    ensures n < |m.live|
    ensures SameGraph(SessionGraph(Grown(plan, path, extra)), Spliced(g, m.live[n], extra), Extended(m, n, Size(extra)))
    ensures Distinct(Spliced(g, m.live[n], extra).edges)
  {
    SessionGrows(plan, path, extra);
    assert n < |SessionGraph(plan).nodes|;
    hide SessionGraph, Grown, GraphGrew, Spliced, Distinct, Position, Stage, LeafAt;
    SpliceGrows(SessionGraph(plan), SessionGraph(Grown(plan, path, extra)), extra, g, m, n);
  }

  /** One splice: after the leaf at `path`, the plan `extra`. */
  datatype Splice = Splice(path: Path, extra: Plan)

  /** Each splice comes after a leaf of the plan as grown so far. */
  predicate Sensible(plan: Plan, splices: seq<Splice>)
    decreases |splices|, 0
  {
    splices == [] ||
    var n := |splices| - 1;
    Sensible(plan, splices[..n]) && LeafAt(GrownBy(plan, splices[..n]), splices[n].path) && NonEmpty(splices[n].extra)
  }

  /** The plan as it would have been written with every splice in place. */
  function GrownBy(plan: Plan, splices: seq<Splice>): Plan
    requires Sensible(plan, splices)
    decreases |splices|, 1
  {
    if splices == [] then plan
    else
      var n := |splices| - 1;
      Grown(GrownBy(plan, splices[..n]), splices[n].path, splices[n].extra)
  }

  datatype Live = Live(graph: Graph, names: Naming)

  /** The live graph and the names of its executions after the splices, one by one. */
  function LiveAfter(plan: Plan, splices: seq<Splice>): Live
    requires NonEmpty(plan) && Sensible(plan, splices)
    decreases |splices|
  {
    if splices == [] then
      var ids := seq(|SessionGraph(plan).nodes|, i => i);
      Live(SessionGraph(plan), Naming(ids, ids))
    else
      var k := |splices| - 1;
      var before, extra := LiveAfter(plan, splices[..k]), splices[k].extra;
      var n := Position(GrownBy(plan, splices[..k]), splices[k].path, FIRST);
      if n < |before.names.live| then
        Live(Spliced(before.graph, before.names.live[n], extra), Extended(before.names, n, Size(extra)))
      else before
  }

  lemma StartIsStatic(plan: Plan)
    requires NonEmpty(plan)
    ensures SameGraph(SessionGraph(plan), LiveAfter(plan, []).graph, LiveAfter(plan, []).names)
    ensures Distinct(SessionGraph(plan).edges)
  {
    forall e | e in SessionGraph(plan).edges ensures EdgeIn(e, |SessionGraph(plan).nodes|) {
      SessionEdges(plan, e);
    }
    var p := Stage(plan, FIRST);
    StageWithin(plan, FIRST);
    StageDistinct(plan, FIRST);
    WireDistinct(HEAD, p.starts, None);
    hide Stage, NonEmpty;
    ConcatDistinct(p.edges, Wire(HEAD, p.starts, None));
    ConcatDistinct(p.edges + Wire(HEAD, p.starts, None), [Edge(p.end, END, None)]);
  }

  /** Splicing equals static compilation, any number of times: the live graph is, up to the names of
      executions, the graph of the plan in which every spliced plan was written after its node. */
  lemma {:induction false} SplicingIsStatic(plan: Plan, splices: seq<Splice>)
    requires NonEmpty(plan) && Sensible(plan, splices)
    ensures NonEmpty(GrownBy(plan, splices))
    ensures SameGraph(SessionGraph(GrownBy(plan, splices)), LiveAfter(plan, splices).graph,
                      LiveAfter(plan, splices).names)
    ensures Distinct(LiveAfter(plan, splices).graph.edges)
    decreases |splices|
  {
    hide SessionGraph, SameGraph, Distinct, Spliced, Extended, Position, Grown;
    if splices == [] {
      StartIsStatic(plan);
    } else {
      var k := |splices| - 1;
      SplicingIsStatic(plan, splices[..k]);
      var whole, before := GrownBy(plan, splices[..k]), LiveAfter(plan, splices[..k]);
      var path, extra := splices[k].path, splices[k].extra;
      GrownNonEmpty(whole, path, extra);
      SessionSpliced(whole, path, extra, before.graph, before.names, Position(whole, path, FIRST));
    }
  }

  /** So splicing never makes a cycle: every live edge goes up in the grown plan's order. */
  lemma SplicingStaysAcyclic(plan: Plan, splices: seq<Splice>, e: Edge)
    requires NonEmpty(plan) && Sensible(plan, splices) && e in LiveAfter(plan, splices).graph.edges
    ensures var live := LiveAfter(plan, splices);
      && EdgeIn(e, |live.names.place|)
      && SessionRank(GrownBy(plan, splices), live.names.place[e.from])
        < SessionRank(GrownBy(plan, splices), live.names.place[e.to])
  {
    SplicingIsStatic(plan, splices);
    var live := LiveAfter(plan, splices);
    var d := Edge(live.names.place[e.from], live.names.place[e.to], e.condition);
    hide GrownBy, LiveAfter, SessionGraph, SessionRank, NonEmpty, Sensible;
    assert Named(d, live.names) == e;
    SessionClimbs(GrownBy(plan, splices), d);
  }
}
