/** The plan compiler and the in-memory graph store, step by step. */
module LocalGraphModel {
  import opened Mail
  import opened Plans
  import opened PlanMeaning
  import opened GraphEdges
  import opened Scheduling
  import opened LiveGraph
  import opened SchedulingTheorems

  /** Walks a plan tree, appending executions and edges as it goes. */
  class PlanStager {
    var executions: seq<Node>
    var edges: seq<Edge>
    const base: nat

    constructor (base: nat)
      ensures executions == [] && edges == [] && this.base == base
    {
      executions, edges, this.base := [], [], base;
    }

    method AddExecution(node: Node) returns (id: nat)
      modifies this`executions
      ensures executions == old(executions) + [node] && id == base + |old(executions)|
    {
      id := base + |executions|;
      executions := executions + [node];
    }

    method Connect(from: nat, starts: seq<nat>, condition: Option<string>)
      modifies this`edges
      ensures edges == old(edges) + Wire(from, starts, condition)
    {
      ghost var wires := Wire(from, starts, condition);
      for i := 0 to |starts|
        invariant edges == old(edges) + wires[..i]
      {
        edges := edges + [Edge(from, starts[i], condition)];
        assert wires[..i + 1] == wires[..i] + [wires[i]];
      }
      assert wires[..|starts|] == wires;
    }

    /** Stages one plan after what is staged already; returns where to enter it and where it ends, or nothing when a
        sequence in it is empty, which ends the compilation. */
    method Expand(plan: Plan) returns (ports: Option<Ports>)
      modifies this
      ensures ports.Some? <==> Buildable(plan)
      ensures ports.Some? ==>
        Extends(old(executions), old(edges), executions, edges, Stage(plan, base + |old(executions)|), ports.value)
      decreases plan, 0
    {
      match plan
      case Leaf(name) =>
        var id := AddExecution(Task(name));
        ports := Some(Ports([id], id));
      case Sequence(items) =>
        ports := ExpandSequence(items);
      case Parallel(branches) =>
        var merge := AddExecution(Merge);
        var starts := ExpandParallel(branches, merge);
        ports := if starts.None? then None else Some(Ports(starts.value, merge));
      case Conditional(condition, body) =>
        var gate := AddExecution(Gate(condition));
        var inner := Expand(body);
        if inner.None? {
          return None;
        }
        Connect(gate, inner.value.starts, Some(condition));
        ports := Some(Ports([gate], inner.value.end));
    }

    method ExpandSequence(items: seq<Plan>) returns (ports: Option<Ports>)
      modifies this
      ensures ports.Some? <==> items != [] && AllBuildable(items, |items|)
      ensures ports.Some? ==>
        Extends(old(executions), old(edges), executions, edges, StageChain(items, |items|, base + |old(executions)|),
                ports.value)
      decreases items
    {
      if items == [] {
        return None;
      }
      ghost var first, was, wired := base + |executions|, executions, edges;
      FirstItem(items);
      ports := Expand(items[0]);
      if ports.None? {
        return;
      }
      ghost var p := StageChain(items, 1, first);
      hide *;
      for i := 1 to |items|
        invariant p == StageChain(items, i, first) && AllBuildable(items, i)
        invariant ports.Some? && Extends(was, wired, executions, edges, p, ports.value)
      {
        NextItem(items, i, first);
        ghost var q := Stage(items[i], first + |p.nodes|);
        ExtendsSize(was, wired, executions, edges, p, ports.value);
        ghost var before, drawn := executions, edges;
        var end := ExpandAfter(items[i], ports.value.end);
        if end.None? {
          return None;
        }
        Joins(was, wired, before, drawn, executions, edges, p, q, ports.value, end.value);
        ports := Some(Ports(ports.value.starts, end.value));
        p := Join(p, q);
      }
    }

    /** Stages an item behind the end of the one before it. */
    method ExpandAfter(item: Plan, previous: nat) returns (end: Option<nat>)
      modifies this
      ensures end.Some? <==> Buildable(item)
      ensures end.Some? ==>
        var q := Stage(item, base + |old(executions)|);
        && executions == old(executions) + q.nodes && end.value == q.end
        && edges == old(edges) + (q.edges + Wire(previous, q.starts, None))
      decreases item, 1
    {
      var ports := Expand(item);
      if ports.None? {
        return None;
      }
      Connect(previous, ports.value.starts, None);
      end := Some(ports.value.end);
    }

    /** Stages a branch in front of its merge. */
    method ExpandBefore(branch: Plan, merge: nat) returns (starts: Option<seq<nat>>)
      modifies this
      ensures starts.Some? <==> Buildable(branch)
      ensures starts.Some? ==>
        var q := Stage(branch, base + |old(executions)|);
        && executions == old(executions) + q.nodes && starts.value == q.starts
        && edges == old(edges) + (q.edges + [Edge(q.end, merge, None)])
      decreases branch, 1
    {
      var ports := Expand(branch);
      if ports.None? {
        return None;
      }
      edges := edges + [Edge(ports.value.end, merge, None)];
      starts := Some(ports.value.starts);
    }

    method ExpandParallel(branches: seq<Plan>, merge: nat) returns (starts: Option<seq<nat>>)
      modifies this
      ensures starts.Some? <==> AllBuildable(branches, |branches|)
      ensures starts.Some? ==>
        var p := StageBranches(branches, |branches|, base + |old(executions)|, merge);
        executions == old(executions) + p.nodes && edges == old(edges) + p.edges && starts.value == p.starts
      decreases branches
    {
      ghost var first, was, wired := base + |executions|, executions, edges;
      starts := Some([]);
      ghost var p := StageBranches(branches, 0, first, merge);
      assert AllBuildable(branches, 0);
      hide *;
      for i := 0 to |branches|
        invariant p == StageBranches(branches, i, first, merge) && p.end == merge && AllBuildable(branches, i)
        invariant executions == was + p.nodes && edges == wired + p.edges && starts == Some(p.starts)
      {
        NextBranch(branches, i, first, merge);
        ghost var q := Stage(branches[i], first + |p.nodes|);
        var more := ExpandBefore(branches[i], merge);
        if more.None? {
          return None;
        }
        starts := Some(starts.value + more.value);
        AddBranchIs(p, q);
        Assoc(was, p.nodes, q.nodes);
        Assoc(wired, p.edges, q.edges + [Edge(q.end, merge, None)]);
        p := AddBranch(p, q);
      }
    }
  }

  /** Where a staged plan is entered and left. */
  datatype Ports = Ports(starts: seq<nat>, end: nat)

  /** A staged plan was put behind what there was. */
  predicate Extends(was: seq<Node>, wired: seq<Edge>, executions: seq<Node>, edges: seq<Edge>, p: Staged, ports: Ports)
  {
    executions == was + p.nodes && edges == wired + p.edges && ports == Ports(p.starts, p.end)
  }

  lemma ExtendsSize(was: seq<Node>, wired: seq<Edge>, executions: seq<Node>, edges: seq<Edge>, p: Staged, ports: Ports)
    requires Extends(was, wired, executions, edges, p, ports)
    ensures |executions| == |was| + |p.nodes| && ports.end == p.end && ports.starts == p.starts
  {
  }

  lemma Joins(was: seq<Node>, wired: seq<Edge>, before: seq<Node>, drawn: seq<Edge>, executions: seq<Node>,
              edges: seq<Edge>, p: Staged, q: Staged, ports: Ports, end: nat)
    requires Extends(was, wired, before, drawn, p, ports) && end == q.end
    requires executions == before + q.nodes && edges == drawn + (q.edges + Wire(ports.end, q.starts, None))
    ensures Extends(was, wired, executions, edges, Join(p, q), Ports(ports.starts, end))
  {
    JoinIs(p, q);
    Assoc(was, p.nodes, q.nodes);
    Assoc(wired, p.edges, q.edges + Wire(p.end, q.starts, None));
    hide Join, Wire;
  }

  lemma FirstItem(items: seq<Plan>)
    requires items != []
    ensures AllBuildable(items, 1) <==> Buildable(items[0])
    ensures AllBuildable(items, |items|) ==> Buildable(items[0])
  {
    var n := 1;
    assert AllBuildable(items, 0)
      && (AllBuildable(items, n) <==> AllBuildable(items, n - 1) && Buildable(items[n - 1]));
    if AllBuildable(items, |items|) {
      AllBuildableAt(items, |items|, 0);
    }
  }

  /** Stages a plan without touching any store. */
  method StagePlan(plan: Plan, base: nat) returns (p: Option<Staged>)
    ensures p == if Buildable(plan) then Some(Stage(plan, base)) else None
  {
    var stager := new PlanStager(base);
    var ports := stager.Expand(plan);
    if ports.None? {
      return None;
    }
    assert [] + Stage(plan, base).nodes == Stage(plan, base).nodes
      && [] + Stage(plan, base).edges == Stage(plan, base).edges;
    p := Some(Staged(stager.executions, stager.edges, ports.value.starts, ports.value.end));
  }

  function Blank(n: nat): seq<Status> { seq(n, i => Pending) }

  /** The edges once a plan is spliced in behind an execution. */
  function Rewired(edges: seq<Edge>, id: nat, p: Staged): seq<Edge> {
    var children := Children(edges, id);
    PutAll(PutAll(DropAll(PutAll(edges, p.edges), id, children), Wire(id, p.starts, None)), Resourced(children, p.end))
  }

  /** One session's graph and the state of its executions; edges are keyed by their endpoints. */
  class LocalGraph {
    var nodes: seq<Node>
    var edges: seq<Edge>
    var initial: State
    var status: seq<Status>
    var sent: set<nat>
    var final: Option<State>
    var closed: bool

    function View(): Graph
      reads this
    {
      Graph(nodes, edges)
    }

    function Now(): Session
      reads this
    {
      Session(initial, status, sent, final, closed)
    }

    ghost predicate Valid()
      reads this
    {
      Fits(View(), Now()) && Distinct(edges)
    }

    constructor ()
      ensures nodes == [] && edges == [] && status == [] && sent == {} && final == None && !closed && Valid()
    {
      nodes, edges, initial, status, sent, final, closed := [], [], map[], [], {}, None, false;
    }

    // ---- Primitives ----------------------------------------------------------

    method AddExecutions(more: seq<Node>)
      modifies this`nodes, this`status
      ensures nodes == old(nodes) + more
      ensures status == old(status) + Blank(|more|)
    {
      ghost var blank := Blank(|more|);
      for k := 0 to |more|
        invariant nodes == old(nodes) + more[..k] && status == old(status) + blank[..k]
      {
        nodes, status := nodes + [more[k]], status + [Pending];
        assert more[..k + 1] == more[..k] + [more[k]] && blank[..k + 1] == blank[..k] + [Pending];
      }
      assert more[..|more|] == more && blank[..|more|] == blank;
    }

    method AddEdge(e: Edge)
      requires Distinct(edges)
      modifies this`edges
      ensures edges == Put(old(edges), e) && Distinct(edges)
    {
      PutDistinct(edges, e);
      var k := 0;
      while k < |edges|
        invariant k <= |edges| && edges == old(edges)
        invariant forall j | 0 <= j < k :: !SameKey(edges[j], e)
      {
        if SameKey(edges[k], e) {
          assert Put(edges, e) == edges[k := e];
          edges := edges[k := e];
          return;
        }
        k := k + 1;
      }
      edges := edges + [e];
    }

    method AddEdges(more: seq<Edge>)
      requires Distinct(edges)
      modifies this`edges
      ensures edges == PutAll(old(edges), more) && Distinct(edges)
    {
      for k := 0 to |more|
        invariant edges == PutAll(old(edges), more[..k]) && Distinct(edges)
      {
        assert more[..k + 1][..k] == more[..k];
        AddEdge(more[k]);
      }
      assert more[..|more|] == more;
    }

    method RemoveEdge(from: nat, to: nat)
      modifies this`edges
      ensures edges == Drop(old(edges), from, to)
    {
      var kept: seq<Edge> := [];
      for k := 0 to |edges|
        invariant edges == old(edges) && kept == Drop(edges[..k], from, to)
      {
        assert edges[..k + 1][..k] == edges[..k];
        if edges[k].from != from || edges[k].to != to {
          kept := kept + [edges[k]];
        }
      }
      assert edges[..|edges|] == edges;
      edges := kept;
    }

    method GetParents(id: nat) returns (parents: seq<Edge>)
      ensures parents == Parents(edges, id)
    {
      parents := [];
      for k := 0 to |edges|
        invariant parents == Parents(edges[..k], id)
      {
        assert edges[..k + 1][..k] == edges[..k];
        if edges[k].to == id {
          parents := parents + [edges[k]];
        }
      }
      assert edges[..|edges|] == edges;
    }

    method GetChildren(id: nat) returns (children: seq<Edge>)
      ensures children == Children(edges, id)
    {
      children := [];
      for k := 0 to |edges|
        invariant children == Children(edges[..k], id)
      {
        assert edges[..k + 1][..k] == edges[..k];
        if edges[k].from == id {
          children := children + [edges[k]];
        }
      }
      assert edges[..|edges|] == edges;
    }

    // ---- Graph algebra -------------------------------------------------------

    /** Pending, every parent completed, and every edge condition met by its parent's result. */
    method IsReady(id: nat) returns (ready: bool)
      requires Valid() && id < |nodes| && status[id].Pending?
      ensures ready == Ready(View(), Now(), id)
    {
      var parents := GetParents(id);
      ParentsAreEdges(edges, id);
      for k := 0 to |parents|
        invariant forall j | 0 <= j < k :: ParentDone(View(), Now(), parents[j])
      {
        if !status[parents[k].from].Completed? {
          assert !ParentDone(View(), Now(), parents[k]);
          return false;
        }
        var result := status[parents[k].from].result;
        if parents[k].condition.Some? && parents[k].condition.value != "" && result != map[] {
          var key := parents[k].condition.value;
          if key !in result || Falsy(result[key]) {
            assert !ParentDone(View(), Now(), parents[k]);
            return false;
          }
        }
      }
      forall e | e in edges && e.to == id ensures ParentDone(View(), Now(), e) {
        ParentsIn(edges, id, e);
      }
      ready := true;
    }

    method GetReadyExecutions() returns (ready: seq<nat>)
      requires Valid()
      ensures forall i: nat :: i in ready <==> i < |nodes| && Ready(View(), Now(), i)
      ensures forall j, k | 0 <= j < k < |ready| :: ready[j] < ready[k]
    {
      ready := [];
      for i := 0 to |nodes|
        invariant forall k: nat :: k in ready <==> k < i && Ready(View(), Now(), k)
        invariant forall j, k | 0 <= j < k < |ready| :: ready[j] < ready[k]
      {
        if status[i].Pending? {
          var yes := IsReady(i);
          if yes {
            assert forall j | 0 <= j < |ready| :: ready[j] in ready;
            ready := ready + [i];
          }
        }
      }
    }

    /** The results of the parents, empty ones left out, later ones winning key by key. */
    method CollectInputState(id: nat) returns (input: State)
      requires Valid() && id < |nodes|
      ensures input == Collect(View(), Now(), id)
    {
      var parents := GetParents(id);
      ParentsAreEdges(edges, id);
      if parents == [] {
        return initial;
      }
      var states := NonEmptyResults(parents, status);
      input := MergeStates(states);
    }

    static method NonEmptyResults(parents: seq<Edge>, now: seq<Status>) returns (states: seq<State>)
      requires forall k | 0 <= k < |parents| :: parents[k].from < |now|
      ensures MergeAll(states) ==
        MergeAll(seq(|parents|, k requires 0 <= k < |parents| => ResultOf(now[parents[k].from])))
    {
      ghost var all := seq(|parents|, k requires 0 <= k < |parents| => ResultOf(now[parents[k].from]));
      states := [];
      for k := 0 to |parents|
        invariant MergeAll(states) == MergeAll(all[..k])
      {
        var result := ResultOf(now[parents[k].from]);
        MergeAllPush(all, k);
        if result != map[] {
          assert (states + [result])[..|states|] == states;
          states := states + [result];
        }
      }
      assert all[..|parents|] == all;
    }

    // ---- Running -------------------------------------------------------------

    method StartSession(plan: Plan, s: State)
      requires NonEmpty(plan) && nodes == [] && edges == [] && status == [] && sent == {} && final == None && !closed
      modifies this
      ensures View() == SessionGraph(plan) && Now() == Started(View(), s) && Valid()
    {
      initial := s;
      AddExecutions([Node.Head, Node.End]);
      NonEmptyBuilds(plan);
      var staged := StagePlan(plan, FIRST);
      var p := staged.value;
      AddExecutions(p.nodes);
      status := status[HEAD := Completed(s)];
      assert nodes == SessionGraph(plan).nodes && status == Started(SessionGraph(plan), s).status;
      WireSession(plan, p);
      StartFits(plan, s);
    }

    method WireSession(ghost plan: Plan, p: Staged)
      requires NonEmpty(plan) && p == Stage(plan, FIRST) && edges == []
      modifies this`edges
      ensures edges == SessionGraph(plan).edges && Distinct(edges)
    {
      StartEdges(plan);
      hide Stage, NonEmpty, PutAll, Distinct, Wire, SessionGraph;
      AddEdges(p.edges);
      AddWires(HEAD, p.starts);
      AddEdge(Edge(p.end, END, None));
    }

    method AddWires(from: nat, starts: seq<nat>)
      requires Distinct(edges)
      modifies this`edges
      ensures edges == PutAll(old(edges), Wire(from, starts, None)) && Distinct(edges)
    {
      ghost var wires := Wire(from, starts, None);
      for k := 0 to |starts|
        invariant edges == PutAll(old(edges), wires[..k]) && Distinct(edges)
      {
        assert wires[..k + 1][..k] == wires[..k];
        AddEdge(Edge(from, starts[k], None));
      }
      assert wires[..|starts|] == wires;
    }

    method EnqueueReady() returns (ready: seq<nat>)
      requires Valid()
      modifies this`sent
      ensures Now() == old(Enqueued(View(), Now())) && Valid()
      ensures forall i: nat :: i in ready <==> i < |nodes| && Ready(View(), Now(), i)
    {
      ready := GetReadyExecutions();
      assert (set i: nat | i in ready) == set i: nat | i < |nodes| && Ready(View(), Now(), i);
      sent := sent + set i | i in ready;
    }

    /** One delivered message, up to calling the node. */
    method Deliver(id: nat)
      requires Valid()
      modifies this
      ensures View() == old(View()) && Now() == old(Handled(View(), Now(), id)) && Valid()
    {
      if id !in sent || !status[id].Pending? {
        return;
      }
      var input := CollectInputState(id);
      match nodes[id]
      case Task(_) => status := status[id := Running(input)];
      case Merge => status := status[id := Completed(input)];
      case Gate(condition) =>
        if condition !in input || Falsy(input[condition]) {
          closed := true;
        }
        status := status[id := Completed(input)];
      case End =>
        final, closed := Some(input), true;
        status := status[id := Completed(map[])];
      case Head =>
    }

    method MarkCompleted(id: nat, result: State)
      requires Valid() && id < |nodes|
      modifies this`status
      ensures status == old(status)[id := Completed(result)] && Valid()
    {
      status := status[id := Completed(result)];
    }

    /** Crash recovery: whatever a dead worker left running is pending again, and all ready work is queued. */
    method Recover() returns (ready: seq<nat>)
      requires Valid()
      modifies this`status, this`sent
      ensures Now() == old(Recovered(View(), Now())) && Valid()
      ensures forall i: nat :: i in ready <==> !closed && i < |nodes| && Ready(View(), Now(), i)
      ensures closed || forall i | 0 <= i < |status| :: !status[i].Running?
      ensures old(sent) <= sent && forall i | i in ready :: i in sent
    {
      if closed {
        return [];
      }
      ghost var was := status;
      for k := 0 to |status|
        invariant |status| == |was| && sent == old(sent)
        invariant forall j | 0 <= j < k :: status[j] == Reset(was)[j]
        invariant forall j | k <= j < |status| :: status[j] == was[j]
      {
        if status[k].Running? {
          status := status[k := Pending];
        }
      }
      assert status == Reset(was);
      ready := EnqueueReady();
    }

    /** The commit of a node that returned a plan: executions and edges are added, the node's outgoing edges
        are moved behind the plan, and only then is the node complete. */
    method CommitSplice(id: nat, result: State, extra: Plan)
      requires Valid() && NonEmpty(extra) && id < |nodes|
      modifies this
      ensures View() == old(Spliced(View(), id, extra)) && Valid()
      ensures status == (old(status) + Blank(|nodes| - |old(nodes)|))[id := Completed(result)]
      ensures sent == old(sent) && final == old(final) && closed == old(closed) && initial == old(initial)
    {
      SpliceRange(View(), id, extra);
      NonEmptyBuilds(extra);
      hide Stage, NonEmpty, Buildable, PutAll, DropAll, Distinct, Wire, Ready;
      var p := StagePlan(extra, |nodes|);
      Grow(id, p.value);
      MarkCompleted(id, result);
    }

    /** Adds a staged plan's executions and edges behind an execution. */
    method Grow(id: nat, p: Staged)
      requires Valid() && id < |nodes|
      requires forall e | e in Rewired(edges, id, p) :: e.from < |nodes| + |p.nodes| && e.to < |nodes| + |p.nodes|
      requires Distinct(Rewired(edges, id, p))
      modifies this`nodes, this`status, this`edges
      ensures nodes == old(nodes) + p.nodes && edges == Rewired(old(edges), id, p)
      ensures status == old(status) + Blank(|p.nodes|) && Valid()
    {
      hide Distinct, PutAll, DropAll, Wire, Rewired, Resourced, Children;
      AddExecutions(p.nodes);
      SpliceEdges(id, p);
    }

    method SpliceEdges(id: nat, p: Staged)
      requires Distinct(edges)
      modifies this`edges
      ensures edges == Rewired(old(edges), id, p)
    {
      var children := GetChildren(id);
      hide PutAll, Distinct, Wire, DropAll;
      AddEdges(p.edges);
      RemoveEdges(id, children);
      AddWires(id, p.starts);
      AddEdges(Resourced(children, p.end));
    }

    method RemoveEdges(from: nat, children: seq<Edge>)
      requires Distinct(edges)
      modifies this`edges
      ensures edges == DropAll(old(edges), from, children) && Distinct(edges)
    {
      for k := 0 to |children|
        invariant edges == DropAll(old(edges), from, children[..k]) && Distinct(edges)
      {
        assert children[..k + 1][..k] == children[..k];
        DropDistinct(edges, from, children[k].to);
        RemoveEdge(from, children[k].to);
      }
      assert children[..|children|] == children;
    }

    static method MergeStates(states: seq<State>) returns (merged: State)
      ensures merged == MergeAll(states)
    {
      if |states| == 0 {
        return map[];
      }
      merged := states[0];
      MergeAllPush(states, 0);
      for k := 1 to |states|
        invariant merged == MergeAll(states[..k])
      {
        MergeAllPush(states, k);
        merged := merged + states[k];
      }
      assert states[..|states|] == states;
    }
  }

  /** The edges of a new session have distinct endpoints, so putting them one by one leaves them all, in order. */
  lemma StartEdges(plan: Plan)
    requires NonEmpty(plan)
    ensures var p := Stage(plan, FIRST);
      && Distinct(SessionGraph(plan).edges)
      && Put(PutAll(PutAll([], p.edges), Wire(HEAD, p.starts, None)), Edge(p.end, END, None)) ==
        SessionGraph(plan).edges
  {
    var p := Stage(plan, FIRST);
    StartIsStatic(plan);
    var wires, last := Wire(HEAD, p.starts, None), Edge(p.end, END, None);
    assert [] + p.edges == p.edges;
    assert SessionGraph(plan).edges == p.edges + wires + [last];
    hide Stage, Wire, SessionGraph, NonEmpty;
    DistinctPrefix(p.edges + wires, [last]);
    DistinctPrefix(p.edges, wires);
    PutAllFresh([], p.edges);
    PutAllFresh(p.edges, wires);
    assert [last][..0] == [];
    PutAllFresh(p.edges + wires, [last]);
    assert PutAll(p.edges + wires, [last]) == Put(PutAll(p.edges + wires, []), last);
  }

  lemma DistinctPrefix(a: seq<Edge>, b: seq<Edge>)
    requires Distinct(a + b)
    ensures Distinct(a)
  {
    forall i, j | 0 <= i < j < |a| ensures !SameKey(a[i], a[j]) {
      assert (a + b)[i] == a[i] && (a + b)[j] == a[j];
    }
  }

  lemma SpliceRange(g: Graph, x: nat, extra: Plan)
    requires InRange(g) && Distinct(g.edges) && x < |g.nodes| && NonEmpty(extra)
    ensures InRange(Spliced(g, x, extra)) && Distinct(Spliced(g, x, extra).edges)
  {
    SpliceLeaves(g, x, extra);
    StageWithin(extra, |g.nodes|);
    hide Stage, Spliced, SplicedEdge, NonEmpty, Within;
    forall e | e in Spliced(g, x, extra).edges ensures EdgeIn(e, |Spliced(g, x, extra).nodes|) {
      SplicedInRange(g, x, Stage(extra, |g.nodes|), e);
    }
  }

  lemma MergeAllPush(states: seq<State>, k: nat)
    requires k < |states|
    ensures MergeAll(states[..k + 1]) == MergeAll(states[..k]) + states[k]
    ensures k == 0 ==> MergeAll(states[..k + 1]) == states[0]
  {
    assert states[..k + 1][..k] == states[..k];
  }

  lemma Assoc<T>(a: seq<T>, b: seq<T>, c: seq<T>)
    ensures (a + b) + c == a + (b + c)
  {
  }

  lemma NextItem(items: seq<Plan>, i: nat, first: nat)
    requires 0 < i < |items| && AllBuildable(items, i)
    ensures AllBuildable(items, i + 1) <==> Buildable(items[i])
    ensures AllBuildable(items, |items|) ==> Buildable(items[i])
    ensures var a := StageChain(items, i, first);
      StageChain(items, i + 1, first) == Join(a, Stage(items[i], first + |a.nodes|))
  {
    if AllBuildable(items, |items|) {
      AllBuildableAt(items, |items|, i);
    }
  }

  lemma NextBranch(branches: seq<Plan>, i: nat, first: nat, merge: nat)
    requires i < |branches| && AllBuildable(branches, i)
    ensures AllBuildable(branches, i + 1) <==> Buildable(branches[i])
    ensures AllBuildable(branches, |branches|) ==> Buildable(branches[i])
    ensures var a := StageBranches(branches, i, first, merge);
      StageBranches(branches, i + 1, first, merge) == AddBranch(a, Stage(branches[i], first + |a.nodes|))
  {
    if AllBuildable(branches, |branches|) {
      AllBuildableAt(branches, |branches|, i);
    }
  }

  lemma JoinIs(a: Staged, b: Staged)
    ensures var j := Join(a, b);
      && j.nodes == a.nodes + b.nodes && j.edges == a.edges + (b.edges + Wire(a.end, b.starts, None))
      && j.starts == a.starts && j.end == b.end
  {
  }

  lemma AddBranchIs(a: Staged, b: Staged)
    ensures var j := AddBranch(a, b);
      && j.nodes == a.nodes + b.nodes && j.edges == a.edges + (b.edges + [Edge(b.end, a.end, None)])
      && j.starts == a.starts + b.starts && j.end == a.end
  {
  }
}
