/** The engine over one store: it queues ready work, handles delivered messages and drains a session to its end. */
module LocalEngineModel {
  import opened Mail
  import opened Plans
  import opened PlanMeaning
  import opened Scheduling
  import opened SchedulingTheorems
  import opened LocalGraphModel

  class QueueRuntime {
    const graph: LocalGraph
    /** Messages not handled yet, oldest first. */
    var queue: seq<nat>

    ghost predicate Valid()
      reads this, graph
    {
      graph.Valid() && forall i | i in queue :: i in graph.sent
    }

    /** Every ready execution has a message. */
    ghost predicate AllQueued()
      requires Valid()
      reads this, graph
    {
      forall i: nat | i < |graph.nodes| && Ready(graph.View(), graph.Now(), i) :: i in queue
    }

    constructor (graph: LocalGraph)
      requires graph.Valid()
      ensures this.graph == graph && queue == [] && Valid()
    {
      this.graph, queue := graph, [];
    }

    method EnqueueReady()
      requires Valid()
      modifies this`queue, graph`sent
      ensures Valid() && AllQueued() && graph.Now() == old(Enqueued(graph.View(), graph.Now()))
    {
      var ready := graph.EnqueueReady();
      queue := queue + ready;
    }

    /** A new session: its graph is built, HEAD is completed and the first ready work is queued. */
    method StartSession(plan: Plan, s: State)
      requires Valid() && NonEmpty(plan) && queue == []
      requires graph.nodes == [] && graph.edges == [] && graph.status == [] && graph.sent == {} && graph.final == None
      requires !graph.closed
      modifies this`queue, graph
      ensures Valid() && AllQueued() && graph.View() == SessionGraph(plan)
      ensures graph.Now() == Enqueued(graph.View(), Started(graph.View(), s))
    {
      graph.StartSession(plan, s);
      EnqueueReady();
    }

    /** Delivers a pending execution, calls its node if it has one, and completes it. */
    method RunNode(id: nat, f: Program)
      requires graph.Valid() && id in graph.sent && graph.status[id].Pending? && !graph.nodes[id].Head?
      modifies graph
      ensures graph.Valid() && graph.View() == old(graph.View())
      ensures graph.Now() == Worked(old(graph.View()), old(graph.Now()), id, f)
    {
      graph.Deliver(id);
      if graph.nodes[id].Task? {
        graph.MarkCompleted(id, f(graph.nodes[id].name, graph.status[id].input));
      }
    }

    /** Handles one delivered message: pending work runs, is completed and queues what became ready; anything else is
        a duplicate and changes nothing. */
    method ExecuteNode(id: nat, f: Program) returns (ghost steps: seq<Step>)
      requires Valid() && id in graph.sent && !graph.nodes[id].Head?
      modifies this`queue, graph
      ensures Valid() && graph.View() == old(graph.View())
      ensures graph.Now() == After(old(graph.View()), old(graph.Now()), steps, f)
      ensures old(graph.closed) ==> graph.closed
      ensures !old(graph.status)[id].Pending? ==> queue == old(queue) && graph.Now() == old(graph.Now())
      ensures old(graph.status)[id].Pending? ==>
        && (graph.closed || AllQueued()) && Work(graph.status) < Work(old(graph.status))
        && (NoneRunning(old(graph.status)) ==> NoneRunning(graph.status))
    {
      if !graph.status[id].Pending? {
        steps := [];
        return;
      }
      ghost var g, w := graph.View(), graph.Now();
      WorkedFacts(g, w, id, f);
      hide Worked, Work, Fits, Ready, NoneRunning;
      RunNode(id, f);
      steps := [Deliver(id)] + [Finish(id)];
      var node := graph.nodes[id];
      if !node.End? && (node.Gate? ==> Truthy(graph.status[id].result, node.condition)) {
        EnqueueReady();
        OneStepOn(g, w, steps, Enqueue, f);
        steps := steps + [Enqueue];
      }
    }

    /** The main loop until the queue is empty. A session whose work is queued drains to its end: it completes, and
        what END collected is the plan's meaning. */
    method Drain(f: Program, ghost plan: Plan, ghost s: State, ghost history: seq<Step>) returns (ghost run: seq<Step>)
      requires Valid() && NonEmpty(plan) && Open(plan, s, f)
      requires graph.closed || (AllQueued() && NoneRunning(graph.status))
      requires graph.View() == SessionGraph(plan) && graph.Now() == Reached(plan, s, history, f)
      modifies this`queue, graph
      ensures Valid() && queue == [] && graph.View() == SessionGraph(plan) && graph.Now() == Reached(plan, s, run, f)
      ensures graph.closed && graph.final == Some(Denote(plan, s, f))
    {
      run := history;
      hide NonEmpty, Open, SessionGraph, Reached, Denote;
      while queue != []
        invariant Valid() && graph.View() == SessionGraph(plan) && graph.Now() == Reached(plan, s, run, f)
        invariant graph.closed || (AllQueued() && NoneRunning(graph.status))
        decreases Work(graph.status), |queue|
      {
        var id := queue[0];
        NeverHead(plan, s, run, f, id);
        queue := queue[1..];
        var steps := ExecuteNode(id, f);
        RunsJoin(plan, s, run, steps, f);
        run := run + steps;
      }
      if !graph.closed {
        var _ := NeverStuck(plan, s, run, f);
      }
      PlanKeepsItsMeaning(plan, s, run, f);
    }

    /** A fresh session, run to its end. */
    method RunPlan(plan: Plan, s: State, f: Program)
      requires Valid() && NonEmpty(plan) && Open(plan, s, f) && queue == []
      requires graph.nodes == [] && graph.edges == [] && graph.status == [] && graph.sent == {} && graph.final == None
      requires !graph.closed
      modifies this`queue, graph
      ensures graph.closed && graph.final == Some(Denote(plan, s, f))
    {
      hide NonEmpty, Open, SessionGraph, Reached, Denote, Enqueued, Started, NoneRunning;
      StartQueued(plan, s, f);
      StartSession(plan, s);
      var _ := Drain(f, plan, s, [Enqueue]);
    }

    /** The main loop of a worker that starts after another died: what was running is pending again, ready work is
        queued, and the session is driven to its end whatever the dead worker had done and whatever it left queued. */
    method Run(f: Program, ghost plan: Plan, ghost s: State, ghost history: seq<Step>)
      requires Valid() && NonEmpty(plan) && Open(plan, s, f)
      requires graph.View() == SessionGraph(plan) && graph.Now() == Reached(plan, s, history, f)
      modifies this`queue, graph
      ensures graph.closed && graph.final == Some(Denote(plan, s, f))
    {
      hide NonEmpty, Open, SessionGraph, Reached, Denote, Enqueued;
      var ready := graph.Recover();
      queue := queue + ready;
      Restarted(plan, s, history, f);
      var _ := Drain(f, plan, s, history + [Recover]);
    }
  }

  /** A pending execution taken and completed. */
  function Worked(g: Graph, w: Session, id: nat, f: Program): Session
    requires Fits(g, w)
  {
    Finished(g, Handled(g, w, id), id, f)
  }

  lemma WorkedFacts(g: Graph, w: Session, id: nat, f: Program)
    requires Fits(g, w) && id in w.sent && w.status[id].Pending? && !g.nodes[id].Head?
    ensures var v := Worked(g, w, id, f);
      && Fits(g, v) && v == After(g, w, [Deliver(id)] + [Finish(id)], f)
      && v.sent == w.sent && v.status[id].Completed? && (w.closed ==> v.closed)
      && (g.nodes[id].End? || (g.nodes[id].Gate? && !Truthy(v.status[id].result, g.nodes[id].condition)) ==> v.closed)
      && Work(v.status) < Work(w.status) && (NoneRunning(w.status) ==> NoneRunning(v.status))
  {
    var v := Worked(g, w, id, f);
    OneStepOn(g, w, [], Deliver(id), f);
    OneStepOn(g, w, [Deliver(id)], Finish(id), f);
    assert [] + [Deliver(id)] == [Deliver(id)];
    assert v.status == w.status[id := v.status[id]];
    hide Collect, Work;
    WorkUpdate(w.status, id, v.status[id]);
  }

  lemma Restarted(plan: Plan, s: State, history: seq<Step>, f: Program)
    requires NonEmpty(plan) && Fits(SessionGraph(plan), Reached(plan, s, history, f))
    ensures Reached(plan, s, history + [Recover], f) == Recovered(SessionGraph(plan), Reached(plan, s, history, f))
  {
    RunsJoin(plan, s, history, [Recover], f);
    OneStepOn(SessionGraph(plan), Reached(plan, s, history, f), [], Recover, f);
    assert [] + [Recover] == [Recover];
    hide SessionGraph, Reached, NonEmpty, Recovered;
  }

  predicate NoneRunning(status: seq<Status>) {
    forall i | 0 <= i < |status| :: !status[i].Running?
  }

  lemma OneStepOn(g: Graph, w: Session, run: seq<Step>, step: Step, f: Program)
    requires Fits(g, w)
    ensures After(g, w, run + [step], f) == Take(g, After(g, w, run, f), step, f)
  {
    assert (run + [step])[..|run|] == run;
  }

  lemma StartQueued(plan: Plan, s: State, f: Program)
    requires NonEmpty(plan)
    ensures |SessionGraph(plan).nodes| >= FIRST && Fits(SessionGraph(plan), Started(SessionGraph(plan), s))
    ensures Enqueued(SessionGraph(plan), Started(SessionGraph(plan), s)) == Reached(plan, s, [Enqueue], f)
    ensures NoneRunning(Reached(plan, s, [Enqueue], f).status)
  {
    StartFits(plan, s);
    OneStepOn(SessionGraph(plan), Started(SessionGraph(plan), s), [], Enqueue, f);
    assert [] + [Enqueue] == [Enqueue];
    hide SessionGraph, NonEmpty, Ready;
  }

  lemma NeverHead(plan: Plan, s: State, run: seq<Step>, f: Program, id: nat)
    requires NonEmpty(plan) && Open(plan, s, f) && id in Reached(plan, s, run, f).sent
    ensures id < |SessionGraph(plan).nodes| && !SessionGraph(plan).nodes[id].Head?
  {
    Reachable(plan, s, run, f);
    hide SessionGraph, Reached, Open, NonEmpty, Meaning;
  }

  lemma RunsJoin(plan: Plan, s: State, run: seq<Step>, more: seq<Step>, f: Program)
    requires NonEmpty(plan) && Fits(SessionGraph(plan), Reached(plan, s, run, f))
    ensures Reached(plan, s, run + more, f) == After(SessionGraph(plan), Reached(plan, s, run, f), more, f)
  {
    StartFits(plan, s);
    AfterJoin(SessionGraph(plan), Started(SessionGraph(plan), s), run, more, f);
  }

  lemma {:induction false} AfterJoin(g: Graph, w: Session, run: seq<Step>, more: seq<Step>, f: Program)
    requires Fits(g, w)
    ensures After(g, w, run + more, f) == After(g, After(g, w, run, f), more, f)
    decreases |more|
  {
    if more == [] {
      assert run + more == run;
    } else {
      var n := |more| - 1;
      AfterJoin(g, w, run, more[..n], f);
      OneStepOn(g, w, run + more[..n], more[n], f);
      assert run + more[..n] + [more[n]] == run + more;
    }
  }
}
