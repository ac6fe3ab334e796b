/** The splice as stored: committing a returned plan leaves in the store exactly the graph the live splice makes. */
module StoredSplice {
  import opened Mail
  import Plans
  import GraphEdges
  import Scheduling
  import Live = LiveGraph
  import opened GraphCommit
  import opened CommitEffects

  /** A condition as it is stored. */
  function Text(condition: Option<string>): string { if condition.None? then "" else condition.value }

  const MERGE := "__MERGE__"
  const GATE := "__GATE__"

  /** A node as it is stored. */
  function NodeName(node: Plans.Node): string {
    match node
    case Task(name) => name
    case Merge => MERGE
    case Gate(condition) => GATE + condition
    case Head => HEAD
    case End => END
  }

  /** The session's executions are stored under these names, each as its node. */
  predicate Named(g: Graph, session: Id, names: seq<Id>, nodes: seq<Plans.Node>) {
    && |names| == |nodes|
    && forall i | 0 <= i < |names| ::
      names[i] in g.rows && g.rows[names[i]].session == session && g.rows[names[i]].node == NodeName(nodes[i])
  }

  /** The store holds these edges, each under the identities of the executions it joins, and no others among them. */
  ghost predicate Stored(g: Graph, names: seq<Id>, edges: seq<Plans.Edge>) {
    && (forall i, j | 0 <= i < j < |names| :: names[i] != names[j])
    && (forall i | 0 <= i < |names| :: names[i] in g.rows)
    && (forall e | e in edges :: e.from < |names| && e.to < |names|)
    && (forall key | key in g.edges && (key.0 in names || key.1 in names) :: key.0 in names && key.1 in names)
    && (forall i, j, text | 0 <= i < |names| && 0 <= j < |names| ::
          StoredEdge(g, names[i], names[j], text) <==> Drawn(edges, i, j, text))
  }

  predicate StoredEdge(g: Graph, from: Id, to: Id, text: string) {
    (from, to) in g.edges && g.edges[(from, to)] == text
  }

  predicate Drawn(edges: seq<Plans.Edge>, i: nat, j: nat, text: string) {
    exists e | e in edges :: e.from == i && e.to == j && Text(e.condition) == text
  }

  /** The staged plan under generated identities: `names` continues the session's own. */
  predicate StagedAs(p: StagedPlan, s: Plans.Staged, names: seq<Id>, n: nat) {
    && |names| == n + |s.nodes| && (forall i, j | 0 <= i < j < |names| :: names[i] != names[j])
    && n <= s.end < |names| && p.end == names[s.end]
    && |p.executions| == |s.nodes|
    && (forall i | 0 <= i < |s.nodes| :: p.executions[i] == NewRow(names[n + i], NodeName(s.nodes[i])))
    && |p.starts| == |s.starts|
    && (forall i | 0 <= i < |s.starts| :: s.starts[i] < |names| && p.starts[i] == names[s.starts[i]])
    && |p.edges| == |s.edges|
    && (forall i | 0 <= i < |s.edges| ::
          && s.edges[i].from < |names| && s.edges[i].to < |names|
          && p.edges[i] == NewEdge(names[s.edges[i].from], names[s.edges[i].to], Text(s.edges[i].condition)))
  }

  /** The edges a live splice leaves, as stored text. */
  predicate SplicedText(g: Scheduling.Graph, x: nat, s: Plans.Staged, i: nat, j: nat, text: string) {
    || (i != x && Drawn(g.edges, i, j, text))
    || Drawn(s.edges, i, j, text)
    || (i == x && j in s.starts && text == "")
    || (i == s.end && Drawn(g.edges, x, j, text))
  }

  lemma SplicedDrawn(g: Scheduling.Graph, x: nat, extra: Plans.Plan, i: nat, j: nat, text: string)
    requires Live.InRange(g) && GraphEdges.Distinct(g.edges) && x < |g.nodes| && Plans.NonEmpty(extra)
    ensures Drawn(Live.Spliced(g, x, extra).edges, i, j, text)
      <==> SplicedText(g, x, Plans.Stage(extra, |g.nodes|), i, j, text)
  {
    var s, edges := Plans.Stage(extra, |g.nodes|), Live.Spliced(g, x, extra).edges;
    hide Plans.Stage, Live.Spliced, Plans.NonEmpty, Live.InRange, GraphEdges.Distinct;
    forall e: Plans.Edge ensures e in edges <==> Live.SplicedEdge(g, x, s, e) {
      Live.SpliceEdges(g, x, extra, e);
    }
    if Drawn(edges, i, j, text) {
      var e :| e in edges && e.from == i && e.to == j && Text(e.condition) == text;
      FromEdge(g, x, s, e);
    }
    if SplicedText(g, x, s, i, j, text) {
      var e := ToEdge(g, x, s, i, j, text);
      assert e in edges;
    }
  }

  lemma FromEdge(g: Scheduling.Graph, x: nat, s: Plans.Staged, e: Plans.Edge)
    requires Live.SplicedEdge(g, x, s, e)
    ensures SplicedText(g, x, s, e.from, e.to, Text(e.condition))
  {
    var wires := Plans.Wire(x, s.starts, None);
    if e in wires {
      var k :| 0 <= k < |wires| && wires[k] == e;
      assert e.to == s.starts[k];
    } else if e.from == s.end && Plans.Edge(x, e.to, e.condition) in g.edges {
      var d := Plans.Edge(x, e.to, e.condition);
      assert d.from == x && d.to == e.to;
    }
  }

  lemma ToEdge(g: Scheduling.Graph, x: nat, s: Plans.Staged, i: nat, j: nat, text: string) returns (e: Plans.Edge)
    requires SplicedText(g, x, s, i, j, text)
    ensures Live.SplicedEdge(g, x, s, e) && e.from == i && e.to == j && Text(e.condition) == text
  {
    if i != x && Drawn(g.edges, i, j, text) {
      e :| e in g.edges && e.from == i && e.to == j && Text(e.condition) == text;
    } else if Drawn(s.edges, i, j, text) {
      e :| e in s.edges && e.from == i && e.to == j && Text(e.condition) == text;
    } else if i == x && j in s.starts && text == "" {
      e := Plans.Edge(x, j, None);
      var k :| 0 <= k < |s.starts| && s.starts[k] == j;
      assert Plans.Wire(x, s.starts, None)[k] == e;
    } else {
      var d :| d in g.edges && d.from == x && d.to == j && Text(d.condition) == text;
      e := Plans.Edge(i, j, d.condition);
      assert Plans.Edge(x, e.to, e.condition) == d;
    }
  }

  // ---- The commit ------------------------------------------------------------

  /** A commit of node `x` that returned the plan `extra`: `all` names the session's executions and then the plan's. */
  ghost predicate Splices(g: Graph, t: Transition, live: Scheduling.Graph, x: nat, extra: Plans.Plan, all: seq<Id>) {
    && Live.InRange(live) && GraphEdges.Distinct(live.edges) && x < |live.nodes| && Plans.NonEmpty(extra)
    && |live.nodes| <= |all| && Stored(g, all[..|live.nodes|], live.edges)
    && Named(g, t.session, all[..|live.nodes|], live.nodes)
    && Fresh(g, t) && t.id == all[x] && t.staged.Some?
    && StagedAs(t.staged.value, Plans.Stage(extra, |live.nodes|), all, |live.nodes|)
  }

  /** The identities of the plan's executions are new to the store. */
  lemma NewNames(g: Graph, t: Transition, s: Plans.Staged, all: seq<Id>, n: nat, i: nat)
    requires Fresh(g, t) && t.staged.Some? && StagedAs(t.staged.value, s, all, n) && i < |all|
    requires forall k | 0 <= k < n :: all[k] in g.rows
    ensures i < n <==> all[i] in g.rows
    ensures i >= n ==> all[i] in RowIds(t.staged.value.executions)
    ensures i >= n ==> forall key | key in g.edges :: key.0 != all[i] && key.1 != all[i]
  {
    if i >= n {
      assert t.staged.value.executions[i - n].id == all[i];
    }
  }

  lemma OldEdges(g: Graph, t: Transition, s: Plans.Staged, all: seq<Id>, edges: seq<Plans.Edge>, n: nat, i: nat, j: nat,
                 text: string)
    requires Fresh(g, t) && t.staged.Some? && StagedAs(t.staged.value, s, all, n) && n <= |all|
    requires Stored(g, all[..n], edges) && i < |all| && j < |all|
    ensures StoredEdge(g, all[i], all[j], text) <==> Drawn(edges, i, j, text)
  {
    assert forall k | 0 <= k < n :: all[..n][k] == all[k];
    hide Fresh, StagedAs;
    NewNames(g, t, s, all, n, i);
    NewNames(g, t, s, all, n, j);
    if i < n && j < n {
      assert StoredEdge(g, all[..n][i], all[..n][j], text) <==> Drawn(edges, i, j, text);
    }
  }

  lemma PlanEdges(p: StagedPlan, s: Plans.Staged, all: seq<Id>, n: nat, i: nat, j: nat, text: string)
    requires StagedAs(p, s, all, n) && i < |all| && j < |all|
    ensures NewEdge(all[i], all[j], text) in p.edges <==> Drawn(s.edges, i, j, text)
  {
    if NewEdge(all[i], all[j], text) in p.edges {
      var k :| 0 <= k < |p.edges| && p.edges[k] == NewEdge(all[i], all[j], text);
      var e := s.edges[k];
      assert e.from == i && e.to == j && Text(e.condition) == text;
    }
    if Drawn(s.edges, i, j, text) {
      var e :| e in s.edges && e.from == i && e.to == j && Text(e.condition) == text;
      var k :| 0 <= k < |s.edges| && s.edges[k] == e;
      assert p.edges[k] == NewEdge(all[i], all[j], text);
    }
  }

  lemma PlanStarts(p: StagedPlan, s: Plans.Staged, all: seq<Id>, n: nat, j: nat)
    requires StagedAs(p, s, all, n) && j < |all|
    ensures all[j] in p.starts <==> j in s.starts
  {
    if all[j] in p.starts {
      var k :| 0 <= k < |p.starts| && p.starts[k] == all[j];
      assert s.starts[k] == j;
    }
    if j in s.starts {
      var k :| 0 <= k < |s.starts| && s.starts[k] == j;
      assert p.starts[k] == all[j];
    }
  }

  /** No child session's edge is among them. */
  lemma NoChildEdge(g: Graph, t: Transition, s: Plans.Staged, all: seq<Id>, n: nat, from: Id, to: Id, text: string)
    requires Fresh(g, t) && t.staged.Some? && StagedAs(t.staged.value, s, all, n)
    requires forall k | 0 <= k < n :: all[k] in g.rows
    requires from in all || to in all
    ensures !ChildEdge(g, t, (from, to), text)
  {
    if ChildEdge(g, t, (from, to), text) {
      var c :| c in t.spawns && c.session !in g.sessions && NewEdge(from, to, text) in c.edges;
      ChildFrom(g, t, c, NewEdge(from, to, text));
      assert FreshChild(g, c) && from in Names(c) && to in Names(c);
      var i :| 0 <= i < |t.spawns| && t.spawns[i] == c;
      assert Names(t.spawns[i]) !! Used(t);
      var name := if from in all then from else to;
      var k :| 0 <= k < |all| && all[k] == name;
      NewNames(g, t, s, all, n, k);
      assert false;
    }
  }

  lemma EdgeStored(g: Graph, t: Transition, live: Scheduling.Graph, x: nat, extra: Plans.Plan, all: seq<Id>, i: nat,
                   j: nat, text: string)
    requires Splices(g, t, live, x, extra, all) && i < |all| && j < |all|
    ensures EdgeLeft(g, t, all[i], all[j], text) <==> Drawn(Live.Spliced(live, x, extra).edges, i, j, text)
  {
    var s, n := Plans.Stage(extra, |live.nodes|), |live.nodes|;
    hide Fresh, Plans.Stage, Live.Spliced, Plans.NonEmpty, Live.InRange, GraphEdges.Distinct;
    hide EdgeLeft, Drawn, ChildEdge;
    assert forall k | 0 <= k < n :: all[..n][k] == all[k];
    SplicedDrawn(live, x, extra, i, j, text);
    OldEdges(g, t, s, all, live.edges, n, i, j, text);
    OldEdges(g, t, s, all, live.edges, n, x, j, text);
    PlanEdges(t.staged.value, s, all, n, i, j, text);
    PlanStarts(t.staged.value, s, all, n, j);
    NoChildEdge(g, t, s, all, n, all[i], all[j], text);
    LeftParts(g, t, all[i], all[j], text);
    assert (all[i] == t.id <==> i == x) && (all[i] == t.staged.value.end <==> i == s.end);
  }

  /** Committing a returned plan leaves in the store the graph of the live splice, under the generated identities. */
  lemma CommitIsSplice(g: Graph, t: Transition, live: Scheduling.Graph, x: nat, extra: Plans.Plan, all: seq<Id>)
    requires Splices(g, t, live, x, extra, all)
    ensures Stored(StepCommit(g, t), all, Live.Spliced(live, x, extra).edges)
    ensures Named(StepCommit(g, t), t.session, all, Live.Spliced(live, x, extra).nodes)
  {
    hide StepCommit, Fresh, Plans.Stage, Plans.NonEmpty, EdgeLeft, Drawn, StoredEdge, Stored, Left, StagedAs, Named;
    var v, n := StepCommit(g, t), |live.nodes|;
    var s := Plans.Stage(extra, n);
    CommitLeaves(g, t);
    OldNames(g, t, live, x, extra, all);
    AllNamed(g, t, live.nodes, s, all, n, v);
    SpliceRange(live, x, extra);
    assert Live.Spliced(live, x, extra).nodes == live.nodes + s.nodes;
    hide Live.Spliced;
    forall i, j, text | 0 <= i < |all| && 0 <= j < |all|
      ensures StoredEdge(v, all[i], all[j], text) <==> Drawn(Live.Spliced(live, x, extra).edges, i, j, text)
    {
      EdgeStored(g, t, live, x, extra, all, i, j, text);
      LeftEdge(g, t, v, all[i], all[j], text);
    }
    Closed(g, t, s, all, live.edges, n, v);
    IsStored(t, s, all, n, v, live.nodes + s.nodes, Live.Spliced(live, x, extra).edges);
  }

  lemma LeftEdge(g: Graph, t: Transition, v: Graph, from: Id, to: Id, text: string)
    requires Left(g, t, v)
    ensures StoredEdge(v, from, to, text) <==> EdgeLeft(g, t, from, to, text)
  {
    hide EdgeLeft, RowLeft;
  }

  lemma OldNames(g: Graph, t: Transition, live: Scheduling.Graph, x: nat, extra: Plans.Plan, all: seq<Id>)
    requires Splices(g, t, live, x, extra, all)
    ensures var n := |live.nodes|;
      && t.id in all[..n] && (forall k | 0 <= k < n :: all[k] in g.rows)
      && |all| == n + |Plans.Stage(extra, n).nodes|
  {
    hide Fresh, Plans.Stage, Plans.NonEmpty;
    assert forall k | 0 <= k < |live.nodes| :: all[..|live.nodes|][k] == all[k];
  }

  lemma AllNamed(g: Graph, t: Transition, nodes: seq<Plans.Node>, s: Plans.Staged, all: seq<Id>, n: nat, v: Graph)
    requires Fresh(g, t) && t.staged.Some? && StagedAs(t.staged.value, s, all, n) && Left(g, t, v)
    requires n <= |all| && Named(g, t.session, all[..n], nodes)
    ensures Named(v, t.session, all, nodes + s.nodes)
  {
    hide Fresh;
    assert forall k | 0 <= k < n :: all[..n][k] == all[k];
    forall i | 0 <= i < |all|
      ensures all[i] in v.rows && v.rows[all[i]].session == t.session
      ensures v.rows[all[i]].node == NodeName((nodes + s.nodes)[i])
    {
      RowStays(g, t, s, all, n, i, v);
    }
  }

  lemma Closed(g: Graph, t: Transition, s: Plans.Staged, all: seq<Id>, edges: seq<Plans.Edge>, n: nat, v: Graph)
    requires Fresh(g, t) && t.staged.Some? && StagedAs(t.staged.value, s, all, n) && n <= |all| && t.id in all[..n]
    requires Stored(g, all[..n], edges) && Left(g, t, v)
    ensures forall key | key in v.edges && (key.0 in all || key.1 in all) :: key.0 in all && key.1 in all
  {
    hide Fresh, StagedAs, Stored, EdgeLeft, Left;
    forall key | key in v.edges && (key.0 in all || key.1 in all) ensures key.0 in all && key.1 in all {
      LeftEdge(g, t, v, key.0, key.1, v.edges[key]);
      StaysAmong(g, t, s, all, edges, n, key.0, key.1, v.edges[key]);
    }
  }

  lemma IsStored(t: Transition, s: Plans.Staged, all: seq<Id>, n: nat, v: Graph, nodes: seq<Plans.Node>,
                 edges: seq<Plans.Edge>)
    requires t.staged.Some? && StagedAs(t.staged.value, s, all, n) && Named(v, t.session, all, nodes)
    requires forall e | e in edges :: e.from < |all| && e.to < |all|
    requires forall key | key in v.edges && (key.0 in all || key.1 in all) :: key.0 in all && key.1 in all
    requires forall i, j, text | 0 <= i < |all| && 0 <= j < |all| ::
      StoredEdge(v, all[i], all[j], text) <==> Drawn(edges, i, j, text)
    ensures Stored(v, all, edges)
  {
    hide StoredEdge, Drawn;
  }

  lemma SpliceRange(live: Scheduling.Graph, x: nat, extra: Plans.Plan)
    requires Live.InRange(live) && GraphEdges.Distinct(live.edges) && x < |live.nodes| && Plans.NonEmpty(extra)
    ensures forall e | e in Live.Spliced(live, x, extra).edges ::
      var count := |live.nodes| + |Plans.Stage(extra, |live.nodes|).nodes|;
      e.from < count && e.to < count
  {
    var s := Plans.Stage(extra, |live.nodes|);
    Plans.StageWithin(extra, |live.nodes|);
    hide Plans.Stage, Plans.NonEmpty, Live.Spliced;
    forall e | e in Live.Spliced(live, x, extra).edges
      ensures e.from < |live.nodes| + |s.nodes| && e.to < |live.nodes| + |s.nodes|
    {
      Live.SpliceEdges(live, x, extra, e);
    }
  }

  lemma RowStays(g: Graph, t: Transition, s: Plans.Staged, all: seq<Id>, n: nat, i: nat, v: Graph)
    requires Fresh(g, t) && t.staged.Some? && StagedAs(t.staged.value, s, all, n) && i < |all| && Left(g, t, v)
    requires forall k | 0 <= k < n :: all[k] in g.rows
    ensures all[i] in v.rows && (i < n ==> v.rows[all[i]].session == g.rows[all[i]].session
                                           && v.rows[all[i]].node == g.rows[all[i]].node)
    ensures i >= n ==> v.rows[all[i]].session == t.session && v.rows[all[i]].node == NodeName(s.nodes[i - n])
  {
    hide Fresh;
    if i < n {
      var row := if all[i] == t.id then
        Row(g.rows[all[i]].session, g.rows[all[i]].node, Completed, Some(t.result),
            if t.effects.Some? then t.effects else g.rows[all[i]].effects) else g.rows[all[i]];
      assert RowLeft(g, t, all[i], row);
    } else {
      var x := t.staged.value.executions[i - n];
      assert x in t.staged.value.executions && x.id == all[i];
      assert RowLeft(g, t, all[i], Row(t.session, x.node, Pending, None, None));
    }
  }

  /** No edge leaves the session's executions. */
  lemma StaysAmong(g: Graph, t: Transition, s: Plans.Staged, all: seq<Id>, edges: seq<Plans.Edge>, n: nat, from: Id,
                   to: Id, text: string)
    requires Fresh(g, t) && t.staged.Some? && StagedAs(t.staged.value, s, all, n) && n <= |all| && t.id in all[..n]
    requires Stored(g, all[..n], edges) && EdgeLeft(g, t, from, to, text) && (from in all || to in all)
    ensures from in all && to in all
  {
    assert forall k | 0 <= k < n :: all[..n][k] == all[k];
    NoChildEdge(g, t, s, all, n, from, to, text);
    LeftParts(g, t, from, to, text);
    hide ChildEdge;
    var p := t.staged.value;
    if NewEdge(from, to, text) in p.edges {
      var k :| 0 <= k < |p.edges| && p.edges[k] == NewEdge(from, to, text);
    } else if from == t.id && to in p.starts {
      var k :| 0 <= k < |p.starts| && p.starts[k] == to;
    } else if from == p.end && (t.id, to) in g.edges {
      assert to in all[..n];
    } else {
      OldStays(g, t, s, all, edges, n, from, to);
    }
  }

  lemma OldStays(g: Graph, t: Transition, s: Plans.Staged, all: seq<Id>, edges: seq<Plans.Edge>, n: nat,
                 from: Id, to: Id)
    requires Fresh(g, t) && t.staged.Some? && StagedAs(t.staged.value, s, all, n) && n <= |all|
    requires Stored(g, all[..n], edges) && (from, to) in g.edges && (from in all || to in all)
    ensures from in all && to in all
  {
    assert forall k | 0 <= k < n :: all[..n][k] == all[k];
    var name := if from in all then from else to;
    var k :| 0 <= k < |all| && all[k] == name;
    NewNames(g, t, s, all, n, k);
    assert all[..n][k] == name;
  }
}
