/** What every run of a staged plan keeps, computes and reaches. */
module SchedulingTheorems {
  import opened Mail
  import opened Plans
  import opened PlanMeaning
  import opened Scheduling

  // ---- The session graph has the plan's meaning as its solution --------------

  /** Gates find their condition in what they pass on, and a staged plan holds no sentinel. */
  predicate Inner(node: Node, v: State) {
    !node.Head? && !node.End? && (node.Gate? ==> Truthy(v, node.condition))
  }

  lemma {:induction false} StageInner(plan: Plan, base: nat, s: State, f: Program, val: Valuation, i: nat)
    requires NonEmpty(plan) && Open(plan, s, f) && Agrees(val, base, Values(plan, s, f))
    requires i < |Stage(plan, base).nodes|
    ensures Inner(Stage(plan, base).nodes[i], val(base + i))
    decreases plan, 0
  {
    hide MergeAll, StageBranches, StageChain, ValuesEach, ValuesChain, DenoteEach, DenoteChain, OpenEach, OpenChain,
      AllNonEmpty, Denote;
    match plan
    case Leaf(name) =>
    case Sequence(items) => ChainInner(items, |items|, base, s, f, val, i);
    case Parallel(branches) =>
      if i > 0 {
        var n := |branches|;
        AgreesSplit(val, base, [MergeAll(DenoteEach(branches, n, s, f))], ValuesEach(branches, n, s, f));
        BranchesInner(branches, n, base + 1, base, s, f, val, i - 1);
      }
    case Conditional(c, body) =>
      AgreesSplit(val, base, [s], Values(body, s, f));
      if i > 0 {
        StageInner(body, base + 1, s, f, val, i - 1);
      } else {
        assert val(base) == Values(plan, s, f)[0];
      }
  }

  lemma {:induction false} ChainInner(items: seq<Plan>, n: nat, base: nat, s: State, f: Program, val: Valuation, i: nat)
    requires 0 < n <= |items| && AllNonEmpty(items, n) && OpenChain(items, n, s, f)
    requires Agrees(val, base, ValuesChain(items, n, s, f))
    requires i < |StageChain(items, n, base).nodes|
    ensures Inner(StageChain(items, n, base).nodes[i], val(base + i))
    decreases items, n
  {
    if n == 1 {
      assert DenoteChain(items, 0, s, f) == s && ValuesChain(items, 0, s, f) == [];
      assert ValuesChain(items, 1, s, f) == Values(items[0], s, f);
      StageInner(items[0], base, s, f, val, i);
    } else {
      var t := DenoteChain(items, n - 1, s, f);
      AgreesSplit(val, base, ValuesChain(items, n - 1, s, f), Values(items[n - 1], t, f));
      ChainStep(items, n, base);
      hide Agrees, Stage, StageChain, Values, ValuesChain, Denote, DenoteChain;
      ChainMeans(items, n - 1, base, s, f, val);
      var a := StageChain(items, n - 1, base);
      if i < |a.nodes| {
        ChainInner(items, n - 1, base, s, f, val, i);
      } else {
        StageInner(items[n - 1], base + |a.nodes|, t, f, val, i - |a.nodes|);
      }
    }
  }

  lemma {:induction false} BranchesInner(branches: seq<Plan>, n: nat, base: nat, merge: nat, s: State, f: Program,
                                         val: Valuation, i: nat)
    requires n <= |branches| && AllNonEmpty(branches, n) && OpenEach(branches, n, s, f) && merge < base
    requires Agrees(val, base, ValuesEach(branches, n, s, f))
    requires i < |StageBranches(branches, n, base, merge).nodes|
    ensures Inner(StageBranches(branches, n, base, merge).nodes[i], val(base + i))
    decreases branches, n
  {
    if n == 0 {
    } else {
      AgreesSplit(val, base, ValuesEach(branches, n - 1, s, f), Values(branches[n - 1], s, f));
      BranchesStep(branches, n, base, merge);
      hide Agrees, Stage, StageBranches, Values, ValuesEach, Denote;
      BranchesMean(branches, n - 1, base, merge, s, f, val);
      var a := StageBranches(branches, n - 1, base, merge);
      if i < |a.nodes| {
        BranchesInner(branches, n - 1, base, merge, s, f, val, i);
      } else {
        StageInner(branches[n - 1], base + |a.nodes|, s, f, val, i - |a.nodes|);
      }
    }
  }

  /** The values a session of this plan must compute: HEAD its initial state, END the plan's meaning. */
  function Meaning(plan: Plan, s: State, f: Program): Valuation {
    (i: nat) =>
      if i == HEAD then s
      else if FIRST <= i < FIRST + |Values(plan, s, f)| then Values(plan, s, f)[i - FIRST]
      else Denote(plan, s, f)
  }

  lemma SessionParents(plan: Plan, i: nat)
    requires NonEmpty(plan)
    ensures var p := Stage(plan, FIRST);
      Parents(SessionGraph(plan).edges, i) ==
        if i == HEAD then []
        else if i == END then [Edge(p.end, END, None)]
        else Parents(p.edges, i) + if i in p.starts then [Edge(HEAD, i, None)] else []
  {
    StageWithin(plan, FIRST);
    var p := Stage(plan, FIRST);
    ParentsWire(HEAD, p.starts, None, i);
    if i < FIRST {
      Outside(p, FIRST, i);
    }
    ParentsConcat(p.edges + Wire(HEAD, p.starts, None), [Edge(p.end, END, None)], i);
    ParentsConcat(p.edges, Wire(HEAD, p.starts, None), i);
  }

  lemma StagedFed(plan: Plan, s: State, f: Program, val: Valuation, i: nat)
    requires NonEmpty(plan) && val(HEAD) == s && Sound(Stage(plan, FIRST), FIRST, s, val, f)
    requires FIRST <= i < |SessionGraph(plan).nodes|
    ensures FedBy(Parents(SessionGraph(plan).edges, i), SessionGraph(plan).nodes[i], i, val, f)
  {
    hide FedBy, Parents, Stage, Sound;
    var p := Stage(plan, FIRST);
    SessionParents(plan, i);
    SoundAt(p, s, val, f, i);
    var node := p.nodes[i - FIRST];
    assert SessionGraph(plan).nodes[i] == node;
    hide SessionGraph;
    if i in p.starts {
      FedByOne(Edge(HEAD, i, None), node, i, val, f);
      assert [] + [Edge(HEAD, i, None)] == [Edge(HEAD, i, None)];
    } else {
      assert Parents(p.edges, i) + [] == Parents(p.edges, i);
    }
  }

  lemma SoundAt(p: Staged, s: State, val: Valuation, f: Program, i: nat)
    requires Sound(p, FIRST, s, val, f) && FIRST <= i < FIRST + |p.nodes|
    ensures NodeSound(p, FIRST, s, val, f, i)
  {
  }

  lemma SessionMeans(plan: Plan, s: State, f: Program)
    requires NonEmpty(plan) && Open(plan, s, f)
    ensures var val := Meaning(plan, s, f);
      && Sound(Stage(plan, FIRST), FIRST, s, val, f)
      && val(HEAD) == s
      && val(Stage(plan, FIRST).end) == val(END) == Denote(plan, s, f)
  {
    hide Sound, Denote, Stage, Values;
    StageMeans(plan, FIRST, s, f, Meaning(plan, s, f));
  }

  lemma SessionFed(plan: Plan, s: State, f: Program, i: nat)
    requires NonEmpty(plan) && Open(plan, s, f) && 1 <= i < |SessionGraph(plan).nodes|
    ensures FedBy(Parents(SessionGraph(plan).edges, i), SessionGraph(plan).nodes[i], i, Meaning(plan, s, f), f)
  {
    var val := Meaning(plan, s, f);
    SessionMeans(plan, s, f);
    hide FedBy, Parents, Stage, Values, Denote, Sound, Meaning, Open;
    if i == END {
      SessionParents(plan, i);
      FedByOne(Edge(Stage(plan, FIRST).end, END, None), Node.End, END, val, f);
    } else {
      StagedFed(plan, s, f, val, i);
    }
  }

  lemma SessionEdges(plan: Plan, e: Edge)
    requires NonEmpty(plan) && e in SessionGraph(plan).edges
    ensures e.from < |SessionGraph(plan).nodes| && e.to < |SessionGraph(plan).nodes| && e.from != END && e.to != HEAD
  {
    StageWithin(plan, FIRST);
  }

  lemma SessionSolves(plan: Plan, s: State, f: Program)
    requires NonEmpty(plan) && Open(plan, s, f)
    ensures Solves(SessionGraph(plan), s, Meaning(plan, s, f), f)
  {
    var g, val := SessionGraph(plan), Meaning(plan, s, f);
    forall i | 1 <= i < |g.nodes| ensures FedBy(Parents(g.edges, i), g.nodes[i], i, val, f) {
      SessionFed(plan, s, f, i);
    }
    forall e | e in g.edges ensures e.from != END && e.to != HEAD {
      SessionEdges(plan, e);
    }
    hide Stage, Values, Denote, Parents, FedBy;
    forall i | FIRST <= i < |g.nodes| ensures Inner(g.nodes[i], val(i)) {
      StageInner(plan, FIRST, s, f, val, i - FIRST);
    }
  }

  lemma StartFits(plan: Plan, s: State)
    requires NonEmpty(plan)
    ensures |SessionGraph(plan).nodes| >= FIRST && Fits(SessionGraph(plan), Started(SessionGraph(plan), s))
  {
    forall e | e in SessionGraph(plan).edges
      ensures e.from < |SessionGraph(plan).nodes| && e.to < |SessionGraph(plan).nodes|
    {
      SessionEdges(plan, e);
    }
  }

  // ---- Every step keeps the invariant ----------------------------------------

  /** An execution whose parents are complete collects exactly what its equation says. */
  lemma CollectsItsInputs(g: Graph, w: Session, s: State, val: Valuation, f: Program, i: nat)
    requires Solves(g, s, val, f) && Inv(g, w, s, val, f) && 1 <= i < |g.nodes| && ParentsDone(g, w, i)
    ensures val(i) == Output(g.nodes[i], Collect(g, w, i), f)
  {
    ParentsAreEdges(g.edges, i);
    var parents := Parents(g.edges, i);
    assert FedBy(parents, g.nodes[i], i, val, f);
    forall k | 0 <= k < |parents| ensures ResultOf(w.status[parents[k].from]) == val(parents[k].from) {
      assert StatusOk(g, w, val, f, parents[k].from);
    }
    assert Inputs(parents, val) ==
      seq(|parents|, k requires 0 <= k < |parents| => ResultOf(w.status[parents[k].from]));
  }

  lemma DoneStaysDone(g: Graph, w: Session, w': Session, i: nat)
    requires Fits(g, w) && Fits(g, w') && ParentsDone(g, w, i)
    requires forall k | 0 <= k < |g.nodes| && w.status[k].Completed? :: w'.status[k].Completed?
    ensures ParentsDone(g, w', i)
  {
  }

  /** Completing or starting one execution, correctly, keeps the invariant. */
  lemma OneChangeKeeps(g: Graph, w: Session, w': Session, s: State, val: Valuation, f: Program, i: nat)
    requires Solves(g, s, val, f) && Inv(g, w, s, val, f) && Fits(g, w')
    requires HEAD < i < |g.nodes| && !w.status[i].Completed? && ParentsDone(g, w, i)
    requires w'.status == w.status[i := w'.status[i]] && StatusOk(g, w', val, f, i)
    requires w'.initial == w.initial && w.sent <= w'.sent <= w.sent + {i}
    requires w'.closed == w'.status[END].Completed? && w'.final == (if w'.closed then Some(val(END)) else None)
    ensures Inv(g, w', s, val, f)
  {
    forall k | 0 <= k < |g.nodes| ensures StatusOk(g, w', val, f, k) {
      assert StatusOk(g, w, val, f, k);
    }
    forall k | 0 <= k < |g.nodes| && (k in w'.sent || !w'.status[k].Pending?) ensures ParentsDone(g, w', k) {
      assert ParentsDone(g, w, k);
      DoneStaysDone(g, w, w', k);
    }
  }

  lemma DeliverKeeps(g: Graph, w: Session, s: State, val: Valuation, f: Program, i: nat)
    requires Solves(g, s, val, f) && Inv(g, w, s, val, f)
    ensures Inv(g, Handled(g, w, i), s, val, f)
  {
    if i in w.sent && w.status[i].Pending? {
      assert ParentsDone(g, w, i);
      CollectsItsInputs(g, w, s, val, f, i);
      var w' := Handled(g, w, i);
      if !g.nodes[i].Head? {
        assert HEAD !in w.sent && StatusOk(g, w', val, f, i);
        hide Solves, Collect, ParentsDone, StatusOk;
        OneChangeKeeps(g, w, w', s, val, f, i);
      }
    }
  }

  lemma FinishKeeps(g: Graph, w: Session, s: State, val: Valuation, f: Program, i: nat)
    requires Solves(g, s, val, f) && Inv(g, w, s, val, f)
    ensures Inv(g, Finished(g, w, i, f), s, val, f)
  {
    if i < |g.nodes| && w.status[i].Running? && g.nodes[i].Task? {
      assert ParentsDone(g, w, i) && StatusOk(g, w, val, f, i);
      OneChangeKeeps(g, w, Finished(g, w, i, f), s, val, f, i);
    }
  }

  lemma RetryKeeps(g: Graph, w: Session, s: State, val: Valuation, f: Program, i: nat)
    requires Solves(g, s, val, f) && Inv(g, w, s, val, f)
    ensures Inv(g, Retried(g, w, i), s, val, f)
  {
    if i < |g.nodes| && w.status[i].Running? {
      assert ParentsDone(g, w, i) && StatusOk(g, w, val, f, i);
      OneChangeKeeps(g, w, Retried(g, w, i), s, val, f, i);
    }
  }

  lemma EnqueueKeeps(g: Graph, w: Session, s: State, val: Valuation, f: Program)
    requires Solves(g, s, val, f) && Inv(g, w, s, val, f)
    ensures Inv(g, Enqueued(g, w), s, val, f)
  {
    var w' := Enqueued(g, w);
    forall k | 0 <= k < |g.nodes| ensures StatusOk(g, w', val, f, k) {
      assert StatusOk(g, w, val, f, k);
    }
    forall k | 0 <= k < |g.nodes| && (k in w'.sent || !w'.status[k].Pending?) ensures ParentsDone(g, w', k) {
      if Ready(g, w, k) {
        forall e | e in g.edges && e.to == k ensures w'.status[e.from].Completed? {
          assert ParentDone(g, w, e);
        }
      } else {
        assert ParentsDone(g, w, k);
      }
    }
  }

  lemma ResetKeeps(g: Graph, w: Session, s: State, val: Valuation, f: Program)
    requires Solves(g, s, val, f) && Inv(g, w, s, val, f)
    ensures Inv(g, w.(status := Reset(w.status)), s, val, f)
  {
    var w' := w.(status := Reset(w.status));
    assert StatusOk(g, w, val, f, END);
    forall k | 0 <= k < |g.nodes| ensures StatusOk(g, w', val, f, k) {
      assert StatusOk(g, w, val, f, k);
    }
    forall k | 0 <= k < |g.nodes| && (k in w'.sent || !w'.status[k].Pending?) ensures ParentsDone(g, w', k) {
      assert ParentsDone(g, w, k);
      DoneStaysDone(g, w, w', k);
    }
  }

  lemma TakeKeeps(g: Graph, w: Session, step: Step, s: State, val: Valuation, f: Program)
    requires Solves(g, s, val, f) && Inv(g, w, s, val, f)
    ensures Inv(g, Take(g, w, step, f), s, val, f)
  {
    hide Inv, Solves, Enqueued;
    match step
    case Deliver(i) => DeliverKeeps(g, w, s, val, f, i);
    case Finish(i) => FinishKeeps(g, w, s, val, f, i);
    case Retry(i) => RetryKeeps(g, w, s, val, f, i);
    case Enqueue => EnqueueKeeps(g, w, s, val, f);
    case Recover =>
      if !w.closed {
        ResetKeeps(g, w, s, val, f);
        EnqueueKeeps(g, w.(status := Reset(w.status)), s, val, f);
      }
  }

  lemma {:induction false} RunKeeps(g: Graph, w: Session, run: seq<Step>, s: State, val: Valuation, f: Program)
    requires Solves(g, s, val, f) && Inv(g, w, s, val, f)
    ensures Inv(g, After(g, w, run, f), s, val, f)
    decreases |run|
  {
    if run == [] {
    } else {
      var n := |run| - 1;
      RunKeeps(g, w, run[..n], s, val, f);
      TakeKeeps(g, After(g, w, run[..n], f), run[n], s, val, f);
    }
  }

  lemma StartKeeps(plan: Plan, s: State, f: Program)
    requires NonEmpty(plan) && Open(plan, s, f)
    ensures Inv(SessionGraph(plan), Started(SessionGraph(plan), s), s, Meaning(plan, s, f), f)
  {
    StartFits(plan, s);
    SessionSolves(plan, s, f);
    hide Stage, Values, Denote, SessionGraph, Meaning, FedBy;
    var g := SessionGraph(plan);
    forall e | e in g.edges ensures e.to != HEAD {
      assert Solves(g, s, Meaning(plan, s, f), f);
    }
  }

  /** The state of a session of `plan` after `run`. */
  function Reached(plan: Plan, s: State, run: seq<Step>, f: Program): Session
    requires NonEmpty(plan)
  {
    StartFits(plan, s);
    After(SessionGraph(plan), Started(SessionGraph(plan), s), run, f)
  }

  lemma Reachable(plan: Plan, s: State, run: seq<Step>, f: Program)
    requires NonEmpty(plan) && Open(plan, s, f)
    ensures Solves(SessionGraph(plan), s, Meaning(plan, s, f), f)
    ensures Inv(SessionGraph(plan), Reached(plan, s, run, f), s, Meaning(plan, s, f), f)
  {
    StartKeeps(plan, s, f);
    SessionSolves(plan, s, f);
    hide Solves, Inv, SessionGraph, Meaning;
    RunKeeps(SessionGraph(plan), Started(SessionGraph(plan), s), run, s, Meaning(plan, s, f), f);
  }

  // ---- Main results ----------------------------------------------------------

  /** Compiled plans keep their meaning: whatever the order, the duplicate deliveries, the retries and the
      crashes, a session that completes has collected the plan's meaning at END, and it is completed by END
      alone. */
  lemma PlanKeepsItsMeaning(plan: Plan, s: State, run: seq<Step>, f: Program)
    requires NonEmpty(plan) && Open(plan, s, f)
    ensures var w := Reached(plan, s, run, f);
      && |w.status| > END
      && (w.closed <==> w.status[END].Completed?)
      && w.final == if w.closed then Some(Denote(plan, s, f)) else None
  {
    Reachable(plan, s, run, f);
    hide Solves, Stage, Values, Denote;
  }

  /** Confluence: any two runs agree on the result of every execution both have completed. */
  lemma RunsAgree(plan: Plan, s: State, one: seq<Step>, two: seq<Step>, f: Program, i: nat)
    requires NonEmpty(plan) && Open(plan, s, f)
    ensures var a, b := Reached(plan, s, one, f), Reached(plan, s, two, f);
      && |a.status| == |b.status|
      && (i < |a.status| && a.status[i].Completed? && b.status[i].Completed? ==> a.status[i] == b.status[i] || i == END)
      && (a.closed && b.closed ==> a.final == b.final)
  {
    Reachable(plan, s, one, f);
    Reachable(plan, s, two, f);
    hide Solves, Stage, Values, Denote, Meaning;
    var g, a, b := SessionGraph(plan), Reached(plan, s, one, f), Reached(plan, s, two, f);
    if i < |g.nodes| {
      assert StatusOk(g, a, Meaning(plan, s, f), f, i) && StatusOk(g, b, Meaning(plan, s, f), f, i);
    }
  }

  // ---- The graph flows to END ------------------------------------------------

  lemma {:induction false} StageFlows(plan: Plan, base: nat, i: nat) returns (e: Edge)
    requires NonEmpty(plan) && base <= i < base + |Stage(plan, base).nodes| && i != Stage(plan, base).end
    ensures e in Stage(plan, base).edges && e.from == i
    decreases plan, 0
  {
    match plan
    case Leaf(_) =>
    case Sequence(items) => e := ChainFlows(items, |items|, base, i);
    case Parallel(branches) => e := BranchesFlow(branches, |branches|, base + 1, base, i);
    case Conditional(c, body) =>
      var b := Stage(body, base + 1);
      StageWithin(body, base + 1);
      if i == base {
        e := Wire(base, b.starts, Some(c))[0];
      } else {
        e := StageFlows(body, base + 1, i);
      }
  }

  lemma {:induction false} ChainFlows(items: seq<Plan>, n: nat, base: nat, i: nat) returns (e: Edge)
    requires 0 < n <= |items| && AllNonEmpty(items, n)
    requires base <= i < base + |StageChain(items, n, base).nodes| && i != StageChain(items, n, base).end
    ensures e in StageChain(items, n, base).edges && e.from == i
    decreases items, n
  {
    if n == 1 {
      e := StageFlows(items[0], base, i);
    } else {
      ChainStep(items, n, base);
      var a := StageChain(items, n - 1, base);
      var mid := base + |a.nodes|;
      var b := Stage(items[n - 1], mid);
      StageWithin(items[n - 1], mid);
      hide Stage, StageChain, NonEmpty, AllNonEmpty;
      if i == a.end {
        e := Wire(a.end, b.starts, None)[0];
      } else if i < mid {
        e := ChainFlows(items, n - 1, base, i);
      } else {
        e := StageFlows(items[n - 1], mid, i);
      }
    }
  }

  lemma {:induction false} BranchesFlow(branches: seq<Plan>, n: nat, base: nat, merge: nat, i: nat) returns (e: Edge)
    requires n <= |branches| && AllNonEmpty(branches, n)
    requires base <= i < base + |StageBranches(branches, n, base, merge).nodes|
    ensures e in StageBranches(branches, n, base, merge).edges && e.from == i
    decreases branches, n
  {
    BranchesStep(branches, n, base, merge);
    var a := StageBranches(branches, n - 1, base, merge);
    var mid := base + |a.nodes|;
    var b := Stage(branches[n - 1], mid);
    hide Stage, StageBranches, NonEmpty, AllNonEmpty;
    if i < mid {
      e := BranchesFlow(branches, n - 1, base, merge, i);
    } else if i == b.end {
      e := Edge(b.end, a.end, None);
    } else {
      e := StageFlows(branches[n - 1], mid, i);
    }
  }

  /** A topological order of the session graph. */
  function SessionRank(plan: Plan, i: nat): nat {
    if i == HEAD then 0
    else if FIRST <= i < FIRST + Size(plan) then 1 + Rank(plan, i - FIRST)
    else 1 + Size(plan)
  }

  /** Every edge of a session graph goes up in rank: the graph has no cycle. */
  lemma SessionClimbs(plan: Plan, e: Edge)
    requires NonEmpty(plan) && e in SessionGraph(plan).edges
    ensures SessionRank(plan, e.from) < SessionRank(plan, e.to)
  {
    var p := Stage(plan, FIRST);
    StageWithin(plan, FIRST);
    StageSize(plan, FIRST);
    if e in p.edges {
      StageClimbs(plan, FIRST, e);
    } else if e.from == p.end {
      RankBound(plan, p.end - FIRST);
    }
  }

  lemma SessionFlows(plan: Plan, i: nat) returns (e: Edge)
    requires NonEmpty(plan) && i < |SessionGraph(plan).nodes| && i != END
    ensures e in SessionGraph(plan).edges && e.from == i
  {
    var p := Stage(plan, FIRST);
    StageWithin(plan, FIRST);
    if i == HEAD {
      e := Wire(HEAD, p.starts, None)[0];
    } else if i == p.end {
      e := Edge(p.end, END, None);
    } else {
      e := StageFlows(plan, FIRST, i);
    }
  }

  lemma SessionRankBound(plan: Plan, i: nat)
    ensures SessionRank(plan, i) <= 1 + Size(plan)
  {
    if FIRST <= i < FIRST + Size(plan) {
      RankBound(plan, i - FIRST);
    }
  }

  lemma {:induction false} DoneBelowEnd(plan: Plan, w: Session, s: State, val: Valuation, f: Program, i: nat)
    requires NonEmpty(plan) && Inv(SessionGraph(plan), w, s, val, f) && w.closed && i < |SessionGraph(plan).nodes|
    ensures w.status[i].Completed?
    decreases 1 + Size(plan) - SessionRank(plan, i)
  {
    hide SessionGraph, SessionRank;
    if i != END {
      var e := SessionFlows(plan, i);
      SessionClimbs(plan, e);
      SessionRankBound(plan, e.to);
      DoneBelowEnd(plan, w, s, val, f, e.to);
      assert ParentsDone(SessionGraph(plan), w, e.to);
    }
  }

  lemma DoneWithValue(plan: Plan, w: Session, s: State, val: Valuation, f: Program, i: nat)
    requires NonEmpty(plan) && Inv(SessionGraph(plan), w, s, val, f) && w.closed
    requires FIRST <= i < |SessionGraph(plan).nodes|
    ensures w.status[i] == Completed(val(i))
  {
    DoneBelowEnd(plan, w, s, val, f, i);
    assert StatusOk(SessionGraph(plan), w, val, f, i);
  }

  lemma ClosedDone(plan: Plan, s: State, run: seq<Step>, f: Program, i: nat)
    requires NonEmpty(plan) && Open(plan, s, f)
    requires Reached(plan, s, run, f).closed && FIRST <= i < |SessionGraph(plan).nodes|
    ensures i < |Reached(plan, s, run, f).status|
    ensures Reached(plan, s, run, f).status[i] == Completed(Meaning(plan, s, f)(i))
  {
    Reachable(plan, s, run, f);
    hide Solves, Open, Stage, Values, Denote, Reached, SessionGraph, Meaning;
    DoneWithValue(plan, Reached(plan, s, run, f), s, Meaning(plan, s, f), f, i);
  }

  /** When END completes, every execution has completed, with the result the plan's meaning gives it. */
  lemma EverythingRan(plan: Plan, s: State, run: seq<Step>, f: Program, i: nat)
    requires NonEmpty(plan) && Open(plan, s, f)
    requires Reached(plan, s, run, f).closed && FIRST <= i < |SessionGraph(plan).nodes|
    ensures i < |Reached(plan, s, run, f).status| && i - FIRST < |Values(plan, s, f)|
    ensures Reached(plan, s, run, f).status[i] == Completed(Values(plan, s, f)[i - FIRST])
  {
    hide Open, Stage, Values, Denote, Reached, SessionGraph;
    ValuesCount(plan, s, f);
    ClosedDone(plan, s, run, f, i);
  }

  lemma ValuesCount(plan: Plan, s: State, f: Program)
    requires NonEmpty(plan) && Open(plan, s, f)
    ensures |SessionGraph(plan).nodes| == FIRST + |Values(plan, s, f)|
  {
    StageMeans(plan, FIRST, s, f, Meaning(plan, s, f));
  }

  lemma {:induction false} FirstUndone(plan: Plan, w: Session, i: nat) returns (k: nat)
    requires NonEmpty(plan) && Fits(SessionGraph(plan), w) && i < |SessionGraph(plan).nodes| && !w.status[i].Completed?
    ensures k < |SessionGraph(plan).nodes| && !w.status[k].Completed? && ParentsDone(SessionGraph(plan), w, k)
    decreases SessionRank(plan, i)
  {
    hide SessionGraph, SessionRank;
    if ParentsDone(SessionGraph(plan), w, i) {
      k := i;
    } else {
      var e :| e in SessionGraph(plan).edges && e.to == i && !w.status[e.from].Completed?;
      SessionClimbs(plan, e);
      k := FirstUndone(plan, w, e.from);
    }
  }

  /** A session that is not complete is never stuck: something runs, or is ready and its delivery makes
      progress. */
  lemma NeverStuck(plan: Plan, s: State, run: seq<Step>, f: Program) returns (k: nat)
    requires NonEmpty(plan) && Open(plan, s, f) && !Reached(plan, s, run, f).closed
    ensures var g, w := SessionGraph(plan), Reached(plan, s, run, f);
      Fits(g, w) && k < |g.nodes| && (w.status[k].Running? || Ready(g, w, k))
  {
    Reachable(plan, s, run, f);
    hide SessionGraph, Reached, Meaning, Open, Stage, Values, Denote, NonEmpty, Solves, SessionRank;
    var g, w := SessionGraph(plan), Reached(plan, s, run, f);
    k := FirstUndone(plan, w, END);
    ReadyWhenFed(g, w, s, Meaning(plan, s, f), f, k);
  }

  /** An unfinished execution whose parents are all done runs or is ready. */
  lemma ReadyWhenFed(g: Graph, w: Session, s: State, val: Valuation, f: Program, k: nat)
    requires Solves(g, s, val, f) && Inv(g, w, s, val, f)
    requires k < |g.nodes| && ParentsDone(g, w, k) && !w.status[k].Completed?
    ensures w.status[k].Running? || Ready(g, w, k)
  {
    if w.status[k].Pending? {
      assert FedBy(Parents(g.edges, k), g.nodes[k], k, val, f);
      forall e | e in g.edges && e.to == k ensures ParentDone(g, w, e) {
        ParentsIn(g.edges, k, e);
        assert StatusOk(g, w, val, f, e.from);
      }
    }
  }

  // ---- Once each, and only so much work --------------------------------------

  /** How often the run takes execution `i` from unfinished to completed. */
  function Completions(g: Graph, w: Session, run: seq<Step>, f: Program, i: nat): nat
    requires Fits(g, w) && i < |g.nodes|
    decreases |run|
  {
    if run == [] then 0
    else
      var n := |run| - 1;
      var before, after := After(g, w, run[..n], f), After(g, w, run, f);
      Completions(g, w, run[..n], f, i)
      + if !before.status[i].Completed? && after.status[i].Completed? then 1 else 0
  }

  /** How often the run starts an attempt at execution `i`. */
  function Attempts(g: Graph, w: Session, run: seq<Step>, f: Program, i: nat): nat
    requires Fits(g, w) && i < |g.nodes|
    decreases |run|
  {
    if run == [] then 0
    else
      var n := |run| - 1;
      var before, after := After(g, w, run[..n], f), After(g, w, run, f);
      Attempts(g, w, run[..n], f, i)
      + if before.status[i].Pending? && !after.status[i].Pending? then 1 else 0
  }

  /** How often an attempt at execution `i` failed or died with its worker. */
  function Losses(g: Graph, w: Session, run: seq<Step>, f: Program, i: nat): nat
    requires Fits(g, w) && i < |g.nodes|
    decreases |run|
  {
    if run == [] then 0
    else
      var n := |run| - 1;
      var before := After(g, w, run[..n], f);
      Losses(g, w, run[..n], f, i)
      + if before.status[i].Running? && (run[n] == Retry(i) || (run[n].Recover? && !before.closed)) then 1 else 0
  }

  /** What one step can do to one execution. */
  lemma OneStep(g: Graph, w: Session, step: Step, f: Program, i: nat)
    requires Fits(g, w) && i < |g.nodes|
    ensures var w' := Take(g, w, step, f);
      && |w'.status| == |w.status|
      && (w.status[i].Completed? ==> w'.status[i] == w.status[i])
      && (w.status[i].Running? ==> (w'.status[i].Pending? <==> step == Retry(i) || (step.Recover? && !w.closed)))
  {
  }

  /** Exactly once: a completed execution never changes again, each completes at most once, and its node is
      attempted once more than it was interrupted, whatever is delivered twice. */
  lemma {:induction false} ExactlyOnce(g: Graph, w: Session, run: seq<Step>, f: Program, i: nat)
    requires Fits(g, w) && i < |g.nodes| && w.status[i].Pending?
    ensures i < |After(g, w, run, f).status|
    ensures Completions(g, w, run, f, i) == if After(g, w, run, f).status[i].Completed? then 1 else 0
    ensures Attempts(g, w, run, f, i) ==
      Losses(g, w, run, f, i) + if After(g, w, run, f).status[i].Pending? then 0 else 1
    decreases |run|
  {
    if run == [] {
    } else {
      var n := |run| - 1;
      ExactlyOnce(g, w, run[..n], f, i);
      OneStep(g, After(g, w, run[..n], f), run[n], f, i);
      hide Take;
    }
  }

  lemma {:induction false} ResultsStay(g: Graph, w: Session, run: seq<Step>, f: Program, i: nat)
    requires Fits(g, w) && i < |g.nodes| && w.status[i].Completed?
    ensures |After(g, w, run, f).status| == |w.status| && After(g, w, run, f).status[i] == w.status[i]
    decreases |run|
  {
    if run == [] {
    } else {
      ResultsStay(g, w, run[..|run| - 1], f, i);
      OneStep(g, After(g, w, run[..|run| - 1], f), run[|run| - 1], f, i);
    }
  }

  function Left(status: Status): nat {
    match status
    case Pending => 2
    case Running(_) => 1
    case Completed(_) => 0
  }

  /** Starts and completions still to come if nothing is interrupted. */
  function Work(status: seq<Status>): nat {
    if status == [] then 0 else Work(status[..|status| - 1]) + Left(status[|status| - 1])
  }

  lemma {:induction false} WorkUpdate(status: seq<Status>, i: nat, x: Status)
    requires i < |status|
    ensures Work(status[i := x]) + Left(status[i]) == Work(status) + Left(x)
    decreases |status|
  {
    var n := |status| - 1;
    if i == n {
      assert status[i := x][..n] == status[..n];
    } else {
      WorkUpdate(status[..n], i, x);
      assert status[i := x][..n] == status[..n][i := x];
    }
  }

  lemma {:induction false} WorkReset(status: seq<Status>)
    ensures Work(Reset(status)) <= Work(status) + |status|
    decreases |status|
  {
    if status == [] {
    } else {
      var n := |status| - 1;
      WorkReset(status[..n]);
      assert Reset(status)[..n] == Reset(status[..n]);
    }
  }

  lemma {:induction false} WorkBound(status: seq<Status>)
    ensures Work(status) <= 2 * |status|
    decreases |status|
  {
    if status == [] {
    } else {
      WorkBound(status[..|status| - 1]);
    }
  }

  /** Steps that start or complete an execution. */
  function Progress(g: Graph, w: Session, run: seq<Step>, f: Program): nat
    requires Fits(g, w)
    decreases |run|
  {
    if run == [] then 0
    else
      var n := |run| - 1;
      Progress(g, w, run[..n], f)
      + if (run[n].Deliver? || run[n].Finish?) && After(g, w, run, f) != After(g, w, run[..n], f) then 1 else 0
  }

  /** The most work a run's interruptions can undo. */
  function Setbacks(g: Graph, run: seq<Step>): nat {
    if run == [] then 0
    else
      var last := run[|run| - 1];
      Setbacks(g, run[..|run| - 1]) + if last.Retry? then 1 else if last.Recover? then |g.nodes| else 0
  }

  lemma StepWork(g: Graph, w: Session, step: Step, f: Program)
    requires Fits(g, w)
    ensures var w' := Take(g, w, step, f);
      Work(w'.status) + (if (step.Deliver? || step.Finish?) && w' != w then 1 else 0)
      <= Work(w.status) + if step.Retry? then 1 else if step.Recover? then |g.nodes| else 0
  {
    var w' := Take(g, w, step, f);
    match step
    case Deliver(i) =>
      if i in w.sent {
        WorkUpdate(w.status, i, w'.status[i]);
        assert w'.status == w.status[i := w'.status[i]];
      }
    case Finish(i) =>
      if i < |g.nodes| {
        WorkUpdate(w.status, i, w'.status[i]);
        assert w'.status == w.status[i := w'.status[i]];
      }
    case Retry(i) =>
      if i < |g.nodes| {
        WorkUpdate(w.status, i, w'.status[i]);
        assert w'.status == w.status[i := w'.status[i]];
      }
    case Enqueue =>
    case Recover => WorkReset(w.status);
  }

  /** Termination: without interruptions a run makes progress at most twice per execution; each retry
      adds one step and each restart at most one per execution. */
  lemma {:induction false} WorkEnds(g: Graph, w: Session, run: seq<Step>, f: Program)
    requires Fits(g, w)
    ensures Progress(g, w, run, f) + Work(After(g, w, run, f).status) <= Work(w.status) + Setbacks(g, run)
    ensures Progress(g, w, run, f) <= 2 * |g.nodes| + Setbacks(g, run)
    decreases |run|
  {
    WorkBound(w.status);
    if run == [] {
    } else {
      var n := |run| - 1;
      WorkEnds(g, w, run[..n], f);
      StepWork(g, After(g, w, run[..n], f), run[n], f);
      hide Take, Work;
    }
  }

  lemma Extend(plan: Plan, s: State, run: seq<Step>, step: Step, f: Program)
    requires NonEmpty(plan)
    ensures Fits(SessionGraph(plan), Reached(plan, s, run, f))
    ensures Reached(plan, s, run + [step], f) == Take(SessionGraph(plan), Reached(plan, s, run, f), step, f)
  {
    StartFits(plan, s);
    assert (run + [step])[..|run + [step]| - 1] == run;
  }

  lemma FinishWorks(g: Graph, w: Session, k: nat, f: Program)
    requires Fits(g, w) && k < |g.nodes| && w.status[k].Running? && g.nodes[k].Task?
    ensures Work(Finished(g, w, k, f).status) < Work(w.status)
  {
    WorkUpdate(w.status, k, Finished(g, w, k, f).status[k]);
  }

  lemma DeliveryWorks(g: Graph, w: Session, k: nat)
    requires Fits(g, w) && k < |g.nodes| && Ready(g, w, k) && !g.nodes[k].Head?
    ensures Fits(g, Enqueued(g, w)) && Work(Handled(g, Enqueued(g, w), k).status) < Work(w.status)
  {
    var w' := Handled(g, Enqueued(g, w), k);
    assert k in Enqueued(g, w).sent;
    hide Collect, Ready;
    WorkUpdate(w.status, k, w'.status[k]);
    assert w'.status == w.status[k := w'.status[k]];
  }

  function WorkLeft(plan: Plan, s: State, run: seq<Step>, f: Program): nat
    requires NonEmpty(plan)
  {
    Work(Reached(plan, s, run, f).status)
  }

  lemma FinishAdvances(plan: Plan, s: State, run: seq<Step>, f: Program, k: nat)
    requires NonEmpty(plan) && k < |SessionGraph(plan).nodes| && SessionGraph(plan).nodes[k].Task?
    requires k < |Reached(plan, s, run, f).status| && Reached(plan, s, run, f).status[k].Running?
    ensures WorkLeft(plan, s, run + [Finish(k)], f) < WorkLeft(plan, s, run, f)
  {
    hide SessionGraph, Reached, Work;
    Extend(plan, s, run, Finish(k), f);
    FinishWorks(SessionGraph(plan), Reached(plan, s, run, f), k, f);
  }

  lemma DeliveryAdvances(plan: Plan, s: State, run: seq<Step>, f: Program, k: nat)
    requires NonEmpty(plan) && k < |SessionGraph(plan).nodes| && !SessionGraph(plan).nodes[k].Head?
    requires Fits(SessionGraph(plan), Reached(plan, s, run, f))
    requires Ready(SessionGraph(plan), Reached(plan, s, run, f), k)
    ensures WorkLeft(plan, s, run + [Enqueue] + [Deliver(k)], f) < WorkLeft(plan, s, run, f)
  {
    hide SessionGraph, Reached, Work, Ready;
    Extend(plan, s, run, Enqueue, f);
    Extend(plan, s, run + [Enqueue], Deliver(k), f);
    DeliveryWorks(SessionGraph(plan), Reached(plan, s, run, f), k);
  }

  lemma Advance(plan: Plan, s: State, run: seq<Step>, f: Program) returns (more: seq<Step>)
    requires NonEmpty(plan) && Open(plan, s, f) && !Reached(plan, s, run, f).closed
    ensures WorkLeft(plan, s, run + more, f) < WorkLeft(plan, s, run, f)
  {
    var g, w := SessionGraph(plan), Reached(plan, s, run, f);
    var k := NeverStuck(plan, s, run, f);
    Reachable(plan, s, run, f);
    assert StatusOk(g, w, Meaning(plan, s, f), f, k) && w.status[HEAD].Completed?;
    hide SessionGraph, Reached, Meaning, WorkLeft, Inv, Stage;
    if w.status[k].Running? {
      more := [Finish(k)];
      FinishAdvances(plan, s, run, f, k);
    } else {
      more := [Enqueue] + [Deliver(k)];
      DeliveryAdvances(plan, s, run, f, k);
      assert run + more == run + [Enqueue] + [Deliver(k)];
    }
  }

  /** Wherever a session stands, after any crashes, it can still be driven to completion. */
  lemma {:induction false} CanAlwaysFinish(plan: Plan, s: State, run: seq<Step>, f: Program) returns (rest: seq<Step>)
    requires NonEmpty(plan) && Open(plan, s, f)
    ensures Reached(plan, s, run + rest, f).closed
    decreases WorkLeft(plan, s, run, f)
  {
    hide Reached, WorkLeft;
    if Reached(plan, s, run, f).closed {
      rest := [];
      assert run + rest == run;
    } else {
      var more := Advance(plan, s, run, f);
      var last := CanAlwaysFinish(plan, s, run + more, f);
      rest := more + last;
      assert run + rest == run + more + last;
    }
  }
}
