/** The Redis graph store: hashes for rows and edges, and index sets that must agree with them. */
module RedisGraphModel {
  import opened Mail
  import opened GraphCommit
  import opened CommitEffects
  import opened IdOrder

  function SetAt(sets: map<Id, set<Id>>, key: Id): set<Id> { if key in sets then sets[key] else {} }

  function HashAt(hashes: map<Id, map<Id, string>>, key: Id): map<Id, string> {
    if key in hashes then hashes[key] else map[]
  }

  /** The session's index sets hold exactly its executions, and exactly its pending ones. */
  predicate Indexed(rows: map<Id, Row>, executions: map<Id, set<Id>>, pending: map<Id, set<Id>>, s: Id, id: Id) {
    && (id in SetAt(executions, s) <==> id in rows && rows[id].session == s)
    && (id in SetAt(pending, s) <==> id in rows && rows[id].session == s && rows[id].status.Pending?)
  }

  /** The outbox holds exactly the executions with effects; every waiting one is in the waiting set. */
  predicate Queued(rows: map<Id, Row>, outbox: set<Id>, waiting: set<Id>, id: Id) {
    && (id in outbox <==> id in rows && rows[id].effects.Some?)
    && (id in rows && rows[id].status.Waiting? ==> id in waiting)
  }

  /** Both directions of an edge say what the plain graph says. */
  predicate Mirrored(children: map<Id, map<Id, string>>, parents: map<Id, map<Id, string>>, edges: map<EdgeKey, string>,
                     a: Id, b: Id)
  {
    if (a, b) in edges then
      && b in HashAt(children, a) && HashAt(children, a)[b] == edges[(a, b)]
      && a in HashAt(parents, b) && HashAt(parents, b)[a] == edges[(a, b)]
    else b !in HashAt(children, a) && a !in HashAt(parents, b)
  }

  class RedisGraph {
    var sessions: map<Id, Json>
    var rows: map<Id, Row>
    var executions: map<Id, set<Id>>
    var pending: map<Id, set<Id>>
    var outbox: set<Id>
    var waiting: set<Id>
    var children: map<Id, map<Id, string>>
    var parents: map<Id, map<Id, string>>

    /** The plain graph the hashes and sets stand for. */
    ghost var graph: Graph

    ghost predicate RowsValid()
      reads this
    {
      && rows == graph.rows
      && (forall s, id :: Indexed(rows, executions, pending, s, id))
      && (forall id :: Queued(rows, outbox, waiting, id))
    }

    ghost predicate EdgesValid()
      reads this
    {
      forall a, b :: Mirrored(children, parents, graph.edges, a, b)
    }

    ghost predicate Valid()
      reads this
    {
      sessions == graph.sessions && RowsValid() && EdgesValid()
    }

    constructor ()
      ensures Valid() && graph == Graph(map[], map[], map[])
    {
      sessions, rows, executions, pending, outbox, waiting := map[], map[], map[], map[], {}, {};
      children, parents := map[], map[];
      graph := Graph(map[], map[], map[]);
    }

    /** Creates a session unless one exists under its identity. */
    method CreateSession(session: Id, initial: Json) returns (created: bool)
      requires Valid()
      modifies this`sessions, this`graph
      ensures Valid() && created == (session !in old(sessions))
      ensures graph == if created then Apply(old(graph), Write.CreateSession(session, initial)) else old(graph)
    {
      created := session !in sessions;
      if created {
        PutSession(session, initial);
      }
    }

    method PutSession(session: Id, initial: Json)
      requires Valid()
      modifies this`sessions, this`graph
      ensures Valid() && graph == Apply(old(graph), Write.CreateSession(session, initial))
    {
      sessions := sessions[session := initial];
      graph := Apply(graph, Write.CreateSession(session, initial));
    }

    /** Writes an execution's row under a fresh identity, and its indexes. */
    method PutRow(id: Id, session: Id, node: string, completed: Option<Json>)
      requires Valid() && id !in rows
      modifies this`rows, this`executions, this`pending, this`graph
      ensures Valid() && rows.Keys == old(rows.Keys) + {id}
      ensures graph == Apply(old(graph), if completed.None? then AddExecution(id, session, node)
                                         else AddCompleted(id, session, node, completed.value))
    {
      ghost var w := if completed.None? then AddExecution(id, session, node)
                     else AddCompleted(id, session, node, completed.value);
      ghost var before := rows;
      rows := rows[id := Row(session, node, if completed.None? then Pending else Completed, completed, None)];
      executions := executions[session := SetAt(executions, session) + {id}];
      if completed.None? {
        pending := pending[session := SetAt(pending, session) + {id}];
      }
      graph := Apply(graph, w);
      forall s, x ensures Indexed(rows, executions, pending, s, x) {
        assert Indexed(before, old(executions), old(pending), s, x);
      }
      forall x ensures Queued(rows, outbox, waiting, x) {
        assert Queued(before, outbox, waiting, x);
      }
      assert EdgesValid() by {
        assert graph.edges == old(graph).edges;
      }
    }

    method PutEdge(from: Id, to: Id, condition: string)
      requires Valid()
      modifies this`children, this`parents, this`graph
      ensures Valid() && graph == Apply(old(graph), AddEdge(from, to, condition))
    {
      ghost var before := graph.edges;
      children := children[from := HashAt(children, from)[to := condition]];
      parents := parents[to := HashAt(parents, to)[from := condition]];
      graph := Apply(graph, AddEdge(from, to, condition));
      forall a, b ensures Mirrored(children, parents, graph.edges, a, b) {
        assert Mirrored(old(children), old(parents), before, a, b);
      }
    }

    method DropEdge(from: Id, to: Id)
      requires Valid()
      modifies this`children, this`parents, this`graph
      ensures Valid() && graph == Apply(old(graph), RemoveEdge(from, to))
    {
      ghost var before := graph.edges;
      children := children[from := HashAt(children, from) - {to}];
      parents := parents[to := HashAt(parents, to) - {from}];
      graph := Apply(graph, RemoveEdge(from, to));
      forall a, b ensures Mirrored(children, parents, graph.edges, a, b) {
        assert Mirrored(old(children), old(parents), before, a, b);
      }
    }

    /** Any change of status: pending executions are indexed, the others are not. */
    method SetStatus(id: Id, status: RunStatus, result: Option<Json>)
      requires Valid() && id in rows
      modifies this`rows, this`pending, this`waiting, this`graph
      ensures Valid() && graph == Marked(old(graph), id, status, result)
    {
      ghost var before, was := rows, pending;
      var session := rows[id].session;
      rows := rows[id := rows[id].(status := status, result := result)];
      if status.Pending? {
        pending := pending[session := SetAt(pending, session) + {id}];
      } else {
        pending := pending[session := SetAt(pending, session) - {id}];
      }
      if status.Waiting? {
        waiting := waiting + {id};
      }
      graph := graph.(rows := rows);
      forall s, x ensures Indexed(rows, executions, pending, s, x) {
        assert Indexed(before, executions, was, s, x);
      }
      forall x ensures Queued(rows, outbox, waiting, x) {
        assert Queued(before, outbox, old(waiting), x);
      }
    }

    method MarkRunning(id: Id)
      requires Valid() && id in rows
      modifies this`rows, this`pending, this`waiting, this`graph
      ensures Valid() && graph == Marked(old(graph), id, Running, old(rows)[id].result)
    {
      SetStatus(id, Running, rows[id].result);
    }

    method MarkCompleted(id: Id, result: Json)
      requires Valid() && id in rows
      modifies this`rows, this`pending, this`waiting, this`graph
      ensures Valid() && graph == Marked(old(graph), id, Completed, Some(result))
    {
      SetStatus(id, Completed, Some(result));
    }

    method MarkRetrying(id: Id)
      requires Valid() && id in rows
      modifies this`rows, this`pending, this`waiting, this`graph
      ensures Valid() && graph == Marked(old(graph), id, Pending, old(rows)[id].result)
    {
      SetStatus(id, Pending, rows[id].result);
    }

    method MarkFailed(id: Id, error: Json)
      requires Valid() && id in rows
      modifies this`rows, this`pending, this`waiting, this`graph
      ensures Valid() && graph == Marked(old(graph), id, Failed, Some(error))
    {
      SetStatus(id, Failed, Some(error));
    }

    method MarkWaiting(id: Id)
      requires Valid() && id in rows
      modifies this`rows, this`pending, this`waiting, this`graph
      ensures Valid() && graph == Marked(old(graph), id, Waiting, old(rows)[id].result)
    {
      SetStatus(id, Waiting, rows[id].result);
    }

    /** One script checks and flips the status, so of two wakers only one wakes. */
    method WakeExecution(id: Id) returns (woken: bool)
      requires Valid()
      modifies this`rows, this`pending, this`waiting, this`graph
      ensures Valid() && woken == (id in old(rows) && old(rows)[id].status == Waiting)
      ensures graph == if woken then Marked(old(graph), id, Pending, old(rows)[id].result) else old(graph)
      ensures woken ==> id in rows && rows[id].status != Waiting
    {
      if id !in rows || rows[id].status != Waiting {
        return false;
      }
      SetStatus(id, Pending, rows[id].result);
      ghost var was := waiting;
      waiting := waiting - {id};
      forall x ensures Queued(rows, outbox, waiting, x) {
        assert Queued(rows, outbox, was, x);
      }
      woken := true;
    }

    method StoreEffects(id: Id, effects: Option<Json>)
      requires Valid() && id in rows
      modifies this`rows, this`outbox, this`graph
      ensures Valid() && graph == Apply(old(graph), SetEffects(id, effects))
    {
      ghost var before := rows;
      rows := rows[id := rows[id].(effects := effects)];
      outbox := if effects.Some? then outbox + {id} else outbox - {id};
      graph := Apply(graph, SetEffects(id, effects));
      forall s, x ensures Indexed(rows, executions, pending, s, x) {
        assert Indexed(before, executions, pending, s, x);
      }
      forall x ensures Queued(rows, outbox, waiting, x) {
        assert Queued(before, old(outbox), waiting, x);
      }
    }

    /** The committing node's own row, written once: result, status and effects. */
    method Finish(id: Id, result: Json, effects: Option<Json>)
      requires Valid() && id in rows
      modifies this`rows, this`pending, this`outbox, this`graph
      ensures Valid() && graph == Apply(old(graph), CompleteWith(id, result, effects))
    {
      ghost var before, was := rows, pending;
      var session := rows[id].session;
      rows := rows[id := Finished(rows[id], result, effects)];
      if effects.Some? {
        outbox := outbox + {id};
      }
      pending := pending[session := SetAt(pending, session) - {id}];
      graph := Apply(graph, CompleteWith(id, result, effects));
      forall s, x ensures Indexed(rows, executions, pending, s, x) {
        assert Indexed(before, executions, was, s, x);
      }
      forall x ensures Queued(rows, outbox, waiting, x) {
        assert Queued(before, old(outbox), waiting, x);
      }
    }

    // ---- The pipelined commit ------------------------------------------------

    /** Executes a whole pipeline; it is one transaction, so nothing else comes between its writes. */
    method Execute(pipe: seq<Write>)
      requires Valid() && NewRows(pipe, rows.Keys)
      modifies this
      ensures Valid() && graph == ApplyAll(old(graph), pipe)
    {
      ghost var keys := rows.Keys;
      for i := 0 to |pipe|
        invariant Valid() && graph == ApplyAll(old(graph), pipe[..i])
        invariant keys <= rows.Keys && rows.Keys <= keys + Added(pipe[..i])
      {
        TakeNext(old(graph), pipe, i);
        assert NewRowAt(pipe, keys, i);
        match pipe[i]
        case CreateSession(s, initial) => PutSession(s, initial);
        case AddExecution(id, s, node) => PutRow(id, s, node, None);
        case AddCompleted(id, s, node, result) => PutRow(id, s, node, Some(result));
        case Complete(id, result) => SetStatus(id, Completed, Some(result));
        case CompleteWith(id, result, effects) => Finish(id, result, effects);
        case SetEffects(id, effects) => StoreEffects(id, effects);
        case AddEdge(from, to, c) => PutEdge(from, to, c);
        case RemoveEdge(from, to) => DropEdge(from, to);
      }
      assert pipe[..|pipe|] == pipe;
    }

    /** Commits a transition: the children that do not exist yet, the splice, and the node's own row, as one
        pipeline; the result is what the primitives would reach one by one. */
    method CommitTransition(t: Transition)
      requires Valid() && Generated(t)
      requires NewRows(Pipeline(graph, t), rows.Keys)
      modifies this
      ensures Valid() && graph == StepCommit(old(graph), t)
      ensures Fresh(old(graph), t) ==> Left(old(graph), t, graph)
    {
      var pipe: seq<Write> := [];
      for i := 0 to |t.spawns|
        invariant pipe == SpawnWrites(graph, t.spawns, i) && graph == old(graph) && rows == old(rows) && Valid()
      {
        if t.spawns[i].session !in sessions {
          pipe := pipe + SpawnPipe(t.spawns[i]);
        }
      }
      pipe := pipe + StagedWrites(t) + [CompleteWith(t.id, t.result, t.effects)];
      Execute(pipe);
      CommitsAgree(old(graph), t);
      hide Fresh, Left, StepCommit, PipeCommit, Generated;
      if Fresh(old(graph), t) {
        CommitLeaves(old(graph), t);
      }
    }

    // ---- Reads ---------------------------------------------------------------

    /** The pending executions of a session, read from their set alone. */
    method PendingOf(session: Id) returns (ids: seq<Id>)
      requires Valid()
      ensures forall id :: id in ids <==>
        id in graph.rows && graph.rows[id].session == session && graph.rows[id].status.Pending?
      ensures Ascending(ids)
    {
      ids := Sorted(SetAt(pending, session));
      forall id ensures id in ids <==>
        id in graph.rows && graph.rows[id].session == session && graph.rows[id].status.Pending?
      {
        assert Indexed(rows, executions, pending, session, id);
      }
    }

    /** The waiting executions: those of the waiting set that still wait. */
    method WaitingNow() returns (ids: seq<Id>)
      requires Valid()
      ensures forall id :: id in ids <==> id in graph.rows && graph.rows[id].status.Waiting?
      ensures Ascending(ids)
    {
      ids := Sorted(set id | id in waiting && id in rows && rows[id].status.Waiting?);
      forall id ensures id in ids <==> id in graph.rows && graph.rows[id].status.Waiting? {
        assert Queued(rows, outbox, waiting, id);
      }
    }

    method OutboxNow() returns (ids: seq<Id>)
      requires Valid()
      ensures forall id :: id in ids <==> id in graph.rows && graph.rows[id].effects.Some?
      ensures Ascending(ids)
    {
      ids := Sorted(outbox);
      forall id ensures id in ids <==> id in graph.rows && graph.rows[id].effects.Some? {
        assert Queued(rows, outbox, waiting, id);
      }
    }

    /** The stored parents in order of identity, each with the condition of its edge. */
    method ParentsOf(id: Id) returns (found: seq<Id>, conditions: seq<string>)
      requires Valid()
      ensures Ascending(found) && |conditions| == |found|
      ensures forall a :: a in found <==> (a, id) in graph.edges && a in graph.rows
      ensures forall k | 0 <= k < |found| :: conditions[k] == graph.edges[(found[k], id)]
    {
      var hash := HashAt(parents, id);
      forall a ensures (a in hash <==> (a, id) in graph.edges) && (a in hash ==> hash[a] == graph.edges[(a, id)]) {
        assert Mirrored(children, parents, graph.edges, a, id);
      }
      found := Sorted(set a | a in hash && a in rows);
      assert forall k | 0 <= k < |found| :: found[k] in found;
      conditions := Values(hash, found);
    }

    method ChildrenOf(id: Id) returns (found: seq<Id>, conditions: seq<string>)
      requires Valid()
      ensures Ascending(found) && |conditions| == |found|
      ensures forall b :: b in found <==> (id, b) in graph.edges
      ensures forall k | 0 <= k < |found| :: conditions[k] == graph.edges[(id, found[k])]
    {
      var hash := HashAt(children, id);
      forall b ensures (b in hash <==> (id, b) in graph.edges) && (b in hash ==> hash[b] == graph.edges[(id, b)]) {
        assert Mirrored(children, parents, graph.edges, id, b);
      }
      found := Sorted(hash.Keys);
      assert forall k | 0 <= k < |found| :: found[k] in found;
      conditions := Values(hash, found);
    }

    static method Values(hash: map<Id, string>, keys: seq<Id>) returns (values: seq<string>)
      requires forall k | 0 <= k < |keys| :: keys[k] in hash
      ensures |values| == |keys| && forall k | 0 <= k < |keys| :: values[k] == hash[keys[k]]
    {
      values := [];
      for i := 0 to |keys|
        invariant |values| == i && forall k | 0 <= k < i :: values[k] == hash[keys[k]]
      {
        values := values + [hash[keys[i]]];
      }
    }
  }

  /** The graph with one execution's status and result changed. */
  function Marked(g: Graph, id: Id, status: RunStatus, result: Option<Json>): Graph
    requires id in g.rows
  {
    g.(rows := g.rows[id := g.rows[id].(status := status, result := result)])
  }

  predicate Adds(w: Write) { w.AddExecution? || w.AddCompleted? }

  /** The rows a pipeline adds. */
  function Added(pipe: seq<Write>): set<Id> {
    if pipe == [] then {}
    else
      var last := pipe[|pipe| - 1];
      Added(pipe[..|pipe| - 1]) + if Adds(last) then {last.id} else {}
  }

  /** A write adds a row under a fresh identity, or writes a row that exists. */
  predicate NewRowAt(pipe: seq<Write>, keys: set<Id>, i: nat)
    requires i < |pipe|
  {
    match pipe[i]
    case AddExecution(id, _, _) => id !in keys + Added(pipe[..i])
    case AddCompleted(id, _, _, _) => id !in keys + Added(pipe[..i])
    case Complete(id, _) => id in keys
    case CompleteWith(id, _, _) => id in keys
    case SetEffects(id, _) => id in keys
    case _ => true
  }

  predicate NewRows(pipe: seq<Write>, keys: set<Id>) { forall i | 0 <= i < |pipe| :: NewRowAt(pipe, keys, i) }

  lemma TakeNext(g: Graph, pipe: seq<Write>, i: nat)
    requires i < |pipe|
    ensures ApplyAll(g, pipe[..i + 1]) == Apply(ApplyAll(g, pipe[..i]), pipe[i])
    ensures Added(pipe[..i + 1]) == Added(pipe[..i]) + if Adds(pipe[i]) then {pipe[i].id} else {}
  {
    assert pipe[..i + 1][..i] == pipe[..i];
  }
}
