/** Running a staged plan: executions become ready, are delivered at least once, run and complete. */
module Scheduling {
  import opened Mail
  import opened Plans
  import opened PlanMeaning

  const HEAD: nat := 0
  const END: nat := 1
  const FIRST: nat := 2

  datatype Graph = Graph(nodes: seq<Node>, edges: seq<Edge>)

  datatype Status = Pending | Running(input: State) | Completed(result: State)

  /** One session. `sent` holds every execution that was ever queued: delivery is at least once, so any of
      them may be delivered again. `final` is what END collected, `closed` says the session was completed. */
  datatype Session = Session(initial: State, status: seq<Status>, sent: set<nat>, final: Option<State>, closed: bool)

  /** HEAD and END come first; HEAD feeds the plan's entry points and its exit point feeds END. */
  function SessionGraph(plan: Plan): Graph {
    var p := Stage(plan, FIRST);
    Graph([Node.Head, Node.End] + p.nodes, p.edges + Wire(HEAD, p.starts, None) + [Edge(p.end, END, None)])
  }

  // ---- Readiness and inputs --------------------------------------------------

  predicate Fits(g: Graph, w: Session) {
    && |w.status| == |g.nodes|
    && (forall e | e in g.edges :: e.from < |g.nodes| && e.to < |g.nodes|)
    && (forall i | i in w.sent :: i < |g.nodes|)
  }

  /** The recorded result of an execution, empty until there is one. */
  function ResultOf(status: Status): State {
    if status.Completed? then status.result else map[]
  }

  predicate ParentDone(g: Graph, w: Session, e: Edge)
    requires Fits(g, w) && e in g.edges
  {
    w.status[e.from].Completed? && EdgeMet(e, w.status[e.from].result)
  }

  predicate Ready(g: Graph, w: Session, i: nat)
    requires Fits(g, w) && i < |g.nodes|
  {
    w.status[i].Pending? && forall e | e in g.edges && e.to == i :: ParentDone(g, w, e)
  }

  function Collect(g: Graph, w: Session, i: nat): State
    requires Fits(g, w) && i < |g.nodes|
  {
    ParentsAreEdges(g.edges, i);
    var parents := Parents(g.edges, i);
    if parents == [] then w.initial
    else MergeAll(seq(|parents|, k requires 0 <= k < |parents| => ResultOf(w.status[parents[k].from])))
  }

  lemma ParentsAreEdges(edges: seq<Edge>, i: nat)
    ensures forall k | 0 <= k < |Parents(edges, i)| :: Parents(edges, i)[k] in edges && Parents(edges, i)[k].to == i
  {
    forall k | 0 <= k < |Parents(edges, i)| ensures Parents(edges, i)[k] in edges && Parents(edges, i)[k].to == i {
      ParentsIn(edges, i, Parents(edges, i)[k]);
    }
  }

  // ---- Steps -----------------------------------------------------------------

  datatype Step = Deliver(id: nat) | Finish(id: nat) | Retry(id: nat) | Enqueue | Recover

  function Enqueued(g: Graph, w: Session): Session
    requires Fits(g, w)
  {
    w.(sent := w.sent + set i: nat | i < |g.nodes| && Ready(g, w, i))
  }

  /** One delivered message: only pending work runs. */
  function Handled(g: Graph, w: Session, i: nat): Session
    requires Fits(g, w)
  {
    if i !in w.sent || !w.status[i].Pending? then w
    else
      var input := Collect(g, w, i);
      match g.nodes[i]
      case Task(_) => w.(status := w.status[i := Running(input)])
      case Merge => w.(status := w.status[i := Completed(input)])
      case Gate(c) =>
        w.(status := w.status[i := Completed(input)], closed := w.closed || !Truthy(input, c))
      case End => w.(status := w.status[i := Completed(map[])], final := Some(input), closed := true)
      case Head => w
  }

  function Finished(g: Graph, w: Session, i: nat, f: Program): Session
    requires Fits(g, w)
  {
    if i < |g.nodes| && w.status[i].Running? && g.nodes[i].Task? then
      w.(status := w.status[i := Completed(f(g.nodes[i].name, w.status[i].input))])
    else w
  }

  /** A failed attempt that is retried: pending again and queued again. */
  function Retried(g: Graph, w: Session, i: nat): Session
    requires Fits(g, w)
  {
    if i < |g.nodes| && w.status[i].Running? then
      w.(status := w.status[i := Pending], sent := w.sent + {i})
    else w
  }

  /** Startup of a worker: executions left running by a dead one become pending, ready ones are queued. */
  function Recovered(g: Graph, w: Session): Session
    requires Fits(g, w)
  {
    if w.closed then w
    else Enqueued(g, w.(status := Reset(w.status)))
  }

  function Reset(status: seq<Status>): (r: seq<Status>)
    ensures |r| == |status|
  {
    seq(|status|, i requires 0 <= i < |status| => if status[i].Running? then Pending else status[i])
  }

  function Take(g: Graph, w: Session, step: Step, f: Program): Session
    requires Fits(g, w)
  {
    match step
    case Deliver(i) => Handled(g, w, i)
    case Finish(i) => Finished(g, w, i, f)
    case Retry(i) => Retried(g, w, i)
    case Enqueue => Enqueued(g, w)
    case Recover => Recovered(g, w)
  }

  lemma TakeFits(g: Graph, w: Session, step: Step, f: Program)
    requires Fits(g, w)
    ensures Fits(g, Take(g, w, step, f))
  {
  }

  /** A session just started: HEAD is complete, and the first ready executions may or may not be queued yet. */
  function Started(g: Graph, s: State): Session
    requires |g.nodes| >= FIRST
  {
    Session(s, seq(|g.nodes|, i => if i == HEAD then Completed(s) else Pending), {}, None, false)
  }

  /** The session after a whole run of steps. */
  function After(g: Graph, w: Session, run: seq<Step>, f: Program): (r: Session)
    requires Fits(g, w)
    ensures Fits(g, r)
    decreases |run|
  {
    if run == [] then w
    else
      var before := After(g, w, run[..|run| - 1], f);
      TakeFits(g, before, run[|run| - 1], f);
      Take(g, before, run[|run| - 1], f)
  }

  // ---- Invariant -------------------------------------------------------------

  /** Every execution but HEAD is fed by its parents: the graph's equations under `val`. */
  predicate Solves(g: Graph, s: State, val: Valuation, f: Program) {
    && |g.nodes| >= FIRST && g.nodes[HEAD].Head? && g.nodes[END].End? && val(HEAD) == s
    && (forall i | 1 <= i < |g.nodes| :: FedBy(Parents(g.edges, i), g.nodes[i], i, val, f))
    && (forall i | FIRST <= i < |g.nodes| :: !g.nodes[i].Head? && !g.nodes[i].End?)
    && (forall e | e in g.edges :: e.from != END && e.to != HEAD)
    && (forall i | 0 <= i < |g.nodes| && g.nodes[i].Gate? :: Truthy(val(i), g.nodes[i].condition))
  }

  predicate ParentsDone(g: Graph, w: Session, i: nat)
    requires Fits(g, w)
  {
    forall e | e in g.edges && e.to == i :: w.status[e.from].Completed?
  }

  /** What an execution's status says under `val`. */
  predicate StatusOk(g: Graph, w: Session, val: Valuation, f: Program, i: nat)
    requires Fits(g, w) && i < |g.nodes|
  {
    match w.status[i]
    case Pending => true
    case Running(input) => g.nodes[i].Task? && f(g.nodes[i].name, input) == val(i)
    case Completed(result) => i == END || result == val(i)
  }

  predicate Inv(g: Graph, w: Session, s: State, val: Valuation, f: Program) {
    && Fits(g, w)
    && |g.nodes| >= FIRST
    && w.status[HEAD] == Completed(s)
    && w.initial == s
    && HEAD !in w.sent
    && (forall i | 0 <= i < |g.nodes| :: StatusOk(g, w, val, f, i))
    && (forall i | 0 <= i < |g.nodes| && (i in w.sent || !w.status[i].Pending?) :: ParentsDone(g, w, i))
    && (w.closed <==> w.status[END].Completed?)
    && w.final == (if w.closed then Some(val(END)) else None)
  }
}
