/** What a committed transition leaves in the store: which edges, executions and sessions there are afterwards. */
module CommitEffects {
  import opened Mail
  import opened GraphCommit

  // ---- The last write wins ---------------------------------------------------

  function EdgeAt(g: Graph, key: EdgeKey): Option<string> { if key in g.edges then Some(g.edges[key]) else None }

  predicate WritesEdge(w: Write, key: EdgeKey) { (w.AddEdge? || w.RemoveEdge?) && (w.from, w.to) == key }

  function EdgeWritten(w: Write): Option<string>
    requires w.AddEdge? || w.RemoveEdge?
  {
    if w.AddEdge? then Some(w.condition) else None
  }

  lemma {:induction false} EdgeKept(g: Graph, writes: seq<Write>, key: EdgeKey)
    requires forall w | w in writes :: !WritesEdge(w, key)
    ensures EdgeAt(ApplyAll(g, writes), key) == EdgeAt(g, key)
    decreases |writes|
  {
    if writes == [] {
    } else {
      var n := |writes| - 1;
      assert writes[n] in writes;
      EdgeKept(g, writes[..n], key);
    }
  }

  /** When all writes of an edge say the same, that is what is there. */
  lemma {:induction false} EdgeSet(g: Graph, writes: seq<Write>, key: EdgeKey, value: Option<string>)
    requires exists w | w in writes :: WritesEdge(w, key)
    requires forall w | w in writes && WritesEdge(w, key) :: EdgeWritten(w) == value
    ensures EdgeAt(ApplyAll(g, writes), key) == value
    decreases |writes|
  {
    var n := |writes| - 1;
    assert writes == writes[..n] + [writes[n]];
    if !WritesEdge(writes[n], key) {
      EdgeSet(g, writes[..n], key, value);
    }
  }

  predicate WritesRow(w: Write, id: Id) { Changes(w) && w.id == id }

  /** The row a write adds. */
  function RowWritten(w: Write): Option<Row> {
    match w
    case AddExecution(_, session, node) => Some(Row(session, node, Pending, None, None))
    case AddCompleted(_, session, node, result) => Some(Row(session, node, Completed, Some(result), None))
    case _ => None
  }

  lemma {:induction false} RowKept(g: Graph, writes: seq<Write>, id: Id)
    requires forall w | w in writes :: !WritesRow(w, id)
    ensures Get(ApplyAll(g, writes).rows, id) == Get(g.rows, id)
    decreases |writes|
  {
    if writes == [] {
    } else {
      var n := |writes| - 1;
      assert writes[n] in writes;
      RowKept(g, writes[..n], id);
    }
  }

  lemma {:induction false} RowSet(g: Graph, writes: seq<Write>, id: Id, row: Row)
    requires exists w | w in writes :: WritesRow(w, id)
    requires forall w | w in writes && WritesRow(w, id) :: RowWritten(w) == Some(row)
    ensures Get(ApplyAll(g, writes).rows, id) == Some(row)
    decreases |writes|
  {
    var n := |writes| - 1;
    assert writes == writes[..n] + [writes[n]];
    if !WritesRow(writes[n], id) {
      RowSet(g, writes[..n], id, row);
    }
  }

  // ---- Freshly generated identities ------------------------------------------

  /** The children as read before the commit: exactly the node's outgoing edges. */
  predicate ReadBefore(g: Graph, t: Transition) {
    && (forall c | c in t.children :: (t.id, c.to) in g.edges && g.edges[(t.id, c.to)] == c.condition)
    && (forall key | key in g.edges && key.0 == t.id :: exists c | c in t.children :: c.to == key.1)
  }

  predicate OneCondition(edges: seq<NewEdge>) {
    forall d, e | d in edges && e in edges && d.from == e.from && d.to == e.to :: d.condition == e.condition
  }

  predicate OneNode(rows: seq<NewRow>) { forall x, y | x in rows && y in rows && x.id == y.id :: x == y }

  /** No execution or edge of the store has any of these identities. */
  predicate Unused(g: Graph, ids: set<Id>) {
    ids !! g.rows.Keys && forall key | key in g.edges :: key.0 !in ids && key.1 !in ids
  }

  predicate FreshPlan(g: Graph, t: Transition) {
    t.staged.Some? ==>
      var s := t.staged.value;
      var ids := RowIds(s.executions);
      && Unused(g, ids) && OneNode(s.executions) && OneCondition(s.edges)
      && s.end in ids
      && (forall i | i in s.starts :: i in ids)
      && (forall e | e in s.edges :: e.from in ids && e.to in ids)
  }

  /** A child session that is new is so with all its executions. */
  predicate FreshChild(g: Graph, c: StagedSession) {
    && OwnNames(c) && Unused(g, Names(c)) && c.end !in RowIds(c.executions)
    && OneNode(c.executions) && OneCondition(c.edges) && forall e | e in c.edges :: e.to in Names(c)
  }

  predicate FreshChildren(g: Graph, t: Transition) {
    && (forall c | c in t.spawns && c.session !in g.sessions :: FreshChild(g, c))
    && (forall c, d | c in t.spawns && d in t.spawns && c != d :: Names(c) !! Names(d))
  }

  /** Identities as a committing worker generates them. */
  predicate Fresh(g: Graph, t: Transition) {
    && t.id in g.rows && ReadBefore(g, t) && Generated(t) && FreshPlan(g, t) && FreshChildren(g, t)
  }

  // ---- Edges -----------------------------------------------------------------

  /** The edges after a commit. The node keeps its outgoing edges unless it returned a plan; then it leads to the plan's
      entry points, and the plan's exit to what the node led to, under the same conditions. */
  predicate EdgeLeft(g: Graph, t: Transition, from: Id, to: Id, condition: string) {
    || ((from, to) in g.edges && g.edges[(from, to)] == condition && (t.staged.Some? ==> from != t.id))
    || (t.staged.Some? && NewEdge(from, to, condition) in t.staged.value.edges)
    || (t.staged.Some? && from == t.id && to in t.staged.value.starts && condition == "")
    || (t.staged.Some? && from == t.staged.value.end && (t.id, to) in g.edges && g.edges[(t.id, to)] == condition)
    || (exists c | c in t.spawns && c.session !in g.sessions :: NewEdge(from, to, condition) in c.edges)
  }

  lemma {:induction false} InSpawnWrites(g: Graph, spawns: seq<StagedSession>, n: nat, w: Write)
    requires n <= |spawns|
    ensures w in SpawnWrites(g, spawns, n) <==>
      exists i | 0 <= i < n :: spawns[i].session !in g.sessions && w in SpawnPipe(spawns[i])
    decreases n
  {
    hide SpawnPipe;
    if n == 0 {
    } else {
      InSpawnWrites(g, spawns, n - 1, w);
    }
  }

  /** A write of the new children is a write of one of them. */
  lemma SpawnedBy(g: Graph, t: Transition, w: Write)
    ensures w in SpawnWrites(g, t.spawns, |t.spawns|) <==>
      exists c | c in t.spawns :: c.session !in g.sessions && w in SpawnPipe(c)
  {
    hide SpawnPipe;
    InSpawnWrites(g, t.spawns, |t.spawns|, w);
    if c :| c in t.spawns && c.session !in g.sessions && w in SpawnPipe(c) {
      var i :| 0 <= i < |t.spawns| && t.spawns[i] == c;
    }
  }

  lemma EdgeOfChild(c: StagedSession, w: Write)
    requires w.AddEdge? || w.RemoveEdge?
    ensures w in SpawnPipe(c) <==> w.AddEdge? && NewEdge(w.from, w.to, w.condition) in c.edges
  {
    var writes := EdgeWrites(c.edges);
    if w.AddEdge? && NewEdge(w.from, w.to, w.condition) in c.edges {
      var i :| 0 <= i < |c.edges| && c.edges[i] == NewEdge(w.from, w.to, w.condition);
      assert writes[i] == w;
    }
  }

  lemma RowOfChild(c: StagedSession, w: Write)
    requires Changes(w)
    ensures w in SpawnPipe(c) <==>
      || w == AddCompleted(c.head, c.session, HEAD, c.initial)
      || w == AddExecution(c.end, c.session, END)
      || (w.AddExecution? && w.session == c.session && NewRow(w.id, w.node) in c.executions)
  {
    var writes := RowWrites(c.session, c.executions);
    if w.AddExecution? && w.session == c.session && NewRow(w.id, w.node) in c.executions {
      var i :| 0 <= i < |c.executions| && c.executions[i] == NewRow(w.id, w.node);
      assert writes[i] == w;
    }
  }

  /** The edge one of the new children brings. */
  predicate ChildEdge(g: Graph, t: Transition, key: EdgeKey, condition: string) {
    exists c | c in t.spawns && c.session !in g.sessions :: NewEdge(key.0, key.1, condition) in c.edges
  }

  lemma ChildEdges(g: Graph, t: Transition, key: EdgeKey)
    requires FreshChildren(g, t)
    ensures var v := ApplyAll(g, SpawnWrites(g, t.spawns, |t.spawns|));
      && (forall condition | ChildEdge(g, t, key, condition) :: EdgeAt(v, key) == Some(condition))
      && ((forall condition :: !ChildEdge(g, t, key, condition)) ==> EdgeAt(v, key) == EdgeAt(g, key))
  {
    var writes := SpawnWrites(g, t.spawns, |t.spawns|);
    forall w | w in writes && WritesEdge(w, key) ensures w.AddEdge? && ChildEdge(g, t, key, w.condition) {
      SpawnedBy(g, t, w);
      var c :| c in t.spawns && c.session !in g.sessions && w in SpawnPipe(c);
      EdgeOfChild(c, w);
    }
    hide SpawnWrites, ApplyAll, SpawnPipe;
    forall condition | ChildEdge(g, t, key, condition)
      ensures EdgeAt(ApplyAll(g, writes), key) == Some(condition)
    {
      var c :| c in t.spawns && c.session !in g.sessions && NewEdge(key.0, key.1, condition) in c.edges;
      var w := AddEdge(key.0, key.1, condition);
      EdgeOfChild(c, w);
      SpawnedBy(g, t, w);
      forall other | other in writes && WritesEdge(other, key) ensures EdgeWritten(other) == Some(condition) {
        OneChild(g, t, key, condition, other.condition);
      }
      EdgeSet(g, writes, key, Some(condition));
    }
    if forall condition :: !ChildEdge(g, t, key, condition) {
      EdgeKept(g, writes, key);
    }
  }

  lemma OneChild(g: Graph, t: Transition, key: EdgeKey, one: string, two: string)
    requires FreshChildren(g, t) && ChildEdge(g, t, key, one) && ChildEdge(g, t, key, two)
    ensures one == two && key.0 !in g.rows && (forall k | k in g.edges :: k != key)
    ensures exists c | c in t.spawns && c.session !in g.sessions :: key.0 in Names(c)
  {
    var c :| c in t.spawns && c.session !in g.sessions && NewEdge(key.0, key.1, one) in c.edges;
    var d :| d in t.spawns && d.session !in g.sessions && NewEdge(key.0, key.1, two) in d.edges;
    ChildFrom(g, t, c, NewEdge(key.0, key.1, one));
    ChildFrom(g, t, d, NewEdge(key.0, key.1, two));
    assert c == d;
  }

  lemma ChildFrom(g: Graph, t: Transition, c: StagedSession, e: NewEdge)
    requires FreshChildren(g, t) && c in t.spawns && c.session !in g.sessions && e in c.edges
    ensures e.from in Names(c) && Unused(g, Names(c)) && OneCondition(c.edges)
  {
    assert FreshChild(g, c);
    var i :| 0 <= i < |c.edges| && c.edges[i] == e;
  }

  /** What the splice makes of an edge. */
  ghost function SplicedAt(before: Option<string>, t: Transition, s: StagedPlan, key: EdgeKey): Option<string> {
    if key.0 == s.end && exists c :: c in t.children && c.to == key.1 then
      var c :| c in t.children && c.to == key.1;
      Some(c.condition)
    else if key.0 == t.id && key.1 in s.starts then Some("")
    else if key.0 == t.id && exists c :: c in t.children && c.to == key.1 then None
    else if exists e :: e in s.edges && (e.from, e.to) == key then
      var e :| e in s.edges && (e.from, e.to) == key;
      Some(e.condition)
    else before
  }

  lemma RowsSkip(g: Graph, session: Id, rows: seq<NewRow>, key: EdgeKey)
    ensures EdgeAt(ApplyAll(g, RowWrites(session, rows)), key) == EdgeAt(g, key)
  {
    EdgeKept(g, RowWrites(session, rows), key);
  }

  lemma EdgesPut(g: Graph, edges: seq<NewEdge>, key: EdgeKey)
    requires OneCondition(edges)
    ensures forall e | e in edges && (e.from, e.to) == key ::
      EdgeAt(ApplyAll(g, EdgeWrites(edges)), key) == Some(e.condition)
    ensures (forall e | e in edges :: (e.from, e.to) != key) ==>
      EdgeAt(ApplyAll(g, EdgeWrites(edges)), key) == EdgeAt(g, key)
  {
    var writes := EdgeWrites(edges);
    forall e | e in edges && (e.from, e.to) == key ensures EdgeAt(ApplyAll(g, writes), key) == Some(e.condition) {
      var i :| 0 <= i < |edges| && edges[i] == e;
      assert writes[i] in writes && WritesEdge(writes[i], key);
      forall w | w in writes && WritesEdge(w, key) ensures EdgeWritten(w) == Some(e.condition) {
        var j :| 0 <= j < |writes| && writes[j] == w;
        assert edges[j] in edges;
      }
      EdgeSet(g, writes, key, Some(e.condition));
    }
    if forall e | e in edges :: (e.from, e.to) != key {
      forall w | w in writes ensures !WritesEdge(w, key) {
        var j :| 0 <= j < |writes| && writes[j] == w;
        assert edges[j] in edges;
      }
      EdgeKept(g, writes, key);
    }
  }

  lemma EdgesDropped(g: Graph, from: Id, children: seq<NewEdge>, key: EdgeKey)
    ensures EdgeAt(ApplyAll(g, Drops(from, children)), key) ==
      if key.0 == from && exists c :: c in children && c.to == key.1 then None else EdgeAt(g, key)
  {
    var writes := Drops(from, children);
    if key.0 == from && exists c :: c in children && c.to == key.1 {
      var c :| c in children && c.to == key.1;
      var i :| 0 <= i < |children| && children[i] == c;
      assert writes[i] in writes && WritesEdge(writes[i], key);
      EdgeSet(g, writes, key, None);
    } else {
      forall w | w in writes ensures !WritesEdge(w, key) {
        var j :| 0 <= j < |writes| && writes[j] == w;
        assert children[j] in children;
      }
      EdgeKept(g, writes, key);
    }
  }

  lemma StartsPut(g: Graph, from: Id, starts: seq<Id>, key: EdgeKey)
    ensures EdgeAt(ApplyAll(g, Starts(from, starts)), key) ==
      if key.0 == from && key.1 in starts then Some("") else EdgeAt(g, key)
  {
    var writes := Starts(from, starts);
    if key.0 == from && key.1 in starts {
      var i :| 0 <= i < |starts| && starts[i] == key.1;
      assert writes[i] in writes && WritesEdge(writes[i], key);
      EdgeSet(g, writes, key, Some(""));
    } else {
      EdgeKept(g, writes, key);
    }
  }

  lemma OutsPut(g: Graph, end: Id, children: seq<NewEdge>, key: EdgeKey)
    requires forall c, d | c in children && d in children && c.to == d.to :: c.condition == d.condition
    ensures forall c | c in children && (end, c.to) == key ::
      EdgeAt(ApplyAll(g, Outs(end, children)), key) == Some(c.condition)
    ensures (key.0 == end ==> forall c | c in children :: c.to != key.1) ==>
      EdgeAt(ApplyAll(g, Outs(end, children)), key) == EdgeAt(g, key)
  {
    var writes := Outs(end, children);
    forall c | c in children && (end, c.to) == key ensures EdgeAt(ApplyAll(g, writes), key) == Some(c.condition) {
      var i :| 0 <= i < |children| && children[i] == c;
      assert writes[i] in writes && WritesEdge(writes[i], key);
      forall w | w in writes && WritesEdge(w, key) ensures EdgeWritten(w) == Some(c.condition) {
        var j :| 0 <= j < |writes| && writes[j] == w;
        assert children[j] in children;
      }
      EdgeSet(g, writes, key, Some(c.condition));
    }
    if key.0 == end ==> forall c | c in children :: c.to != key.1 {
      forall w | w in writes ensures !WritesEdge(w, key) {
        var j :| 0 <= j < |writes| && writes[j] == w;
        assert children[j] in children;
      }
      EdgeKept(g, writes, key);
    }
  }

  lemma SpliceWrites(h: Graph, t: Transition, s: StagedPlan, key: EdgeKey)
    requires t.staged == Some(s) && OneCondition(s.edges)
    requires forall c, d | c in t.children && d in t.children && c.to == d.to :: c.condition == d.condition
    ensures EdgeAt(ApplyAll(h, StagedWrites(t)), key) == SplicedAt(EdgeAt(h, key), t, s, key)
  {
    var rows, edges := RowWrites(t.session, s.executions), EdgeWrites(s.edges);
    var drops, starts, outs := Drops(t.id, t.children), Starts(t.id, s.starts), Outs(s.end, t.children);
    hide RowWrites, EdgeWrites, Drops, Starts, Outs, ApplyAll;
    ApplyConcat(h, rows, edges);
    ApplyConcat(h, rows + edges, drops);
    ApplyConcat(h, rows + edges + drops, starts);
    ApplyConcat(h, rows + edges + drops + starts, outs);
    RowsSkip(h, t.session, s.executions, key);
    EdgesPut(ApplyAll(h, rows), s.edges, key);
    EdgesDropped(ApplyAll(h, rows + edges), t.id, t.children, key);
    StartsPut(ApplyAll(h, rows + edges + drops), t.id, s.starts, key);
    OutsPut(ApplyAll(h, rows + edges + drops + starts), s.end, t.children, key);
  }

  lemma PipeParts(g: Graph, t: Transition)
    ensures var v := ApplyAll(ApplyAll(g, SpawnWrites(g, t.spawns, |t.spawns|)), StagedWrites(t));
      PipeCommit(g, t) == Apply(v, CompleteWith(t.id, t.result, t.effects))
  {
    var spawned, staged := SpawnWrites(g, t.spawns, |t.spawns|), StagedWrites(t);
    hide SpawnWrites, StagedWrites, ApplyAll, Apply;
    ApplyPush(g, spawned + staged, CompleteWith(t.id, t.result, t.effects));
    ApplyConcat(g, spawned, staged);
  }

  /** A new child's edge starts at a new execution of the child, so no other clause speaks of it. */
  lemma ChildEdgeAlone(g: Graph, t: Transition, key: EdgeKey, condition: string)
    requires Fresh(g, t) && ChildEdge(g, t, key, condition)
    ensures key !in g.edges && (t.staged.Some? ==> key.0 != t.id && key.0 != t.staged.value.end)
    ensures t.staged.Some? ==> forall e | e in t.staged.value.edges :: (e.from, e.to) != key
  {
    OneChild(g, t, key, condition, condition);
    var c :| c in t.spawns && c.session !in g.sessions && key.0 in Names(c);
    var i :| 0 <= i < |t.spawns| && t.spawns[i] == c;
    assert Names(t.spawns[i]) !! Used(t);
    if t.staged.Some? {
      forall e | e in t.staged.value.edges ensures e.from in Used(t) {
        var j :| 0 <= j < |t.staged.value.edges| && t.staged.value.edges[j] == e;
      }
    }
  }

  /** Exactly which edges a commit leaves, with their conditions. */
  lemma EdgesLeft(g: Graph, t: Transition, from: Id, to: Id, condition: string)
    requires Fresh(g, t)
    ensures var v := PipeCommit(g, t);
      (from, to) in v.edges && v.edges[(from, to)] == condition <==> EdgeLeft(g, t, from, to, condition)
  {
    hide SpawnWrites, StagedWrites, ApplyAll, PipeCommit, Fresh, PlanEdge, ChildEdge;
    var key := (from, to);
    assert EdgeLeft(g, t, from, to, condition) <==>
      (PlanEdge(g, t, key, condition) || ChildEdge(g, t, key, condition)) by {
      LeftParts(g, t, from, to, condition);
    }
    hide EdgeLeft;
    EdgeAtCommit(g, t, key);
    FreshParts(g, t);
    ChildEdges(g, t, key);
    var spawned := ApplyAll(g, SpawnWrites(g, t.spawns, |t.spawns|));
    if t.staged.None? {
      StagedNothing(spawned, t);
      ChildOrOld(g, t, key, condition, EdgeAt(spawned, key));
    } else {
      SpliceWrites(spawned, t, t.staged.value, key);
      ChildOrSpliced(g, t, t.staged.value, key, condition, EdgeAt(spawned, key));
    }
  }

  lemma LeftParts(g: Graph, t: Transition, from: Id, to: Id, condition: string)
    ensures EdgeLeft(g, t, from, to, condition) <==>
      PlanEdge(g, t, (from, to), condition) || ChildEdge(g, t, (from, to), condition)
  {
  }

  lemma EdgeAtCommit(g: Graph, t: Transition, key: EdgeKey)
    ensures EdgeAt(PipeCommit(g, t), key)
      == EdgeAt(ApplyAll(ApplyAll(g, SpawnWrites(g, t.spawns, |t.spawns|)), StagedWrites(t)), key)
  {
    PipeParts(g, t);
    hide SpawnWrites, StagedWrites, ApplyAll;
  }

  lemma FreshParts(g: Graph, t: Transition)
    requires Fresh(g, t)
    ensures FreshChildren(g, t) && FreshPlan(g, t) && (t.staged.Some? ==> OneCondition(t.staged.value.edges))
    ensures forall c, d | c in t.children && d in t.children && c.to == d.to :: c.condition == d.condition
  {
  }

  /** The edges of the parent session. */
  predicate PlanEdge(g: Graph, t: Transition, key: EdgeKey, condition: string) {
    || (key in g.edges && g.edges[key] == condition && (t.staged.Some? ==> key.0 != t.id))
    || (t.staged.Some? && NewEdge(key.0, key.1, condition) in t.staged.value.edges)
    || (t.staged.Some? && key.0 == t.id && key.1 in t.staged.value.starts && condition == "")
    || (t.staged.Some? && key.0 == t.staged.value.end && (t.id, key.1) in g.edges
        && g.edges[(t.id, key.1)] == condition)
  }

  lemma StagedNothing(h: Graph, t: Transition)
    requires t.staged.None?
    ensures ApplyAll(h, StagedWrites(t)) == h
  {
  }

  lemma ChildOrOld(g: Graph, t: Transition, key: EdgeKey, condition: string, at: Option<string>)
    requires Fresh(g, t) && t.staged.None?
    requires forall c | ChildEdge(g, t, key, c) :: at == Some(c)
    requires (forall c :: !ChildEdge(g, t, key, c)) ==> at == EdgeAt(g, key)
    ensures at == Some(condition) <==> PlanEdge(g, t, key, condition) || ChildEdge(g, t, key, condition)
  {
    if c :| ChildEdge(g, t, key, c) {
      ChildEdgeAlone(g, t, key, c);
    }
  }

  lemma ChildOrSpliced(g: Graph, t: Transition, s: StagedPlan, key: EdgeKey, condition: string, at: Option<string>)
    requires Fresh(g, t) && t.staged == Some(s)
    requires forall c | ChildEdge(g, t, key, c) :: at == Some(c)
    requires (forall c :: !ChildEdge(g, t, key, c)) ==> at == EdgeAt(g, key)
    ensures SplicedAt(at, t, s, key) == Some(condition) <==>
      PlanEdge(g, t, key, condition) || ChildEdge(g, t, key, condition)
  {
    if c :| ChildEdge(g, t, key, c) {
      ChildEdgeAlone(g, t, key, c);
      PlanEdgeKnown(g, t, s, key, condition);
      hide Fresh, ChildEdge;
      assert SplicedAt(at, t, s, key) == at;
    } else {
      SplicedPlan(g, t, s, key, condition);
    }
  }

  lemma PlanEdgeKnown(g: Graph, t: Transition, s: StagedPlan, key: EdgeKey, condition: string)
    requires t.staged == Some(s)
    ensures PlanEdge(g, t, key, condition) ==>
      key in g.edges || key.0 == t.id || key.0 == s.end || exists e :: e in s.edges && (e.from, e.to) == key
  {
  }

  /** Without the children: the splice over the old edges. */
  lemma SplicedPlan(g: Graph, t: Transition, s: StagedPlan, key: EdgeKey, condition: string)
    requires t.id in g.rows && ReadBefore(g, t) && FreshPlan(g, t) && t.staged == Some(s)
    ensures SplicedAt(EdgeAt(g, key), t, s, key) == Some(condition) <==> PlanEdge(g, t, key, condition)
  {
    var ids := RowIds(s.executions);
    if key.0 == s.end && exists c :: c in t.children && c.to == key.1 {
      var c :| c in t.children && c.to == key.1;
      assert key.1 !in ids;
    } else if key.0 == t.id {
      assert forall e | e in s.edges :: e.from != t.id;
    } else {
      assert key.0 == s.end ==> key !in g.edges && (t.id, key.1) !in g.edges;
      if exists e :: e in s.edges && (e.from, e.to) == key {
        var e :| e in s.edges && (e.from, e.to) == key;
        assert e.from in ids && key !in g.edges;
      }
    }
  }

  // ---- Executions ------------------------------------------------------------

  /** The executions after a commit: the node completed with its result and its effects, the plan's and the new
      children's pending, a child's HEAD completed with its initial state, and every other one as it was. */
  predicate RowLeft(g: Graph, t: Transition, id: Id, row: Row) {
    || (id == t.id && id in g.rows && row == Row(g.rows[id].session, g.rows[id].node, Completed, Some(t.result),
                                                 if t.effects.Some? then t.effects else g.rows[id].effects))
    || (id != t.id && id in g.rows && row == g.rows[id])
    || (t.staged.Some? && exists x | x in t.staged.value.executions ::
          x.id == id && row == Row(t.session, x.node, Pending, None, None))
    || (exists c | c in t.spawns && c.session !in g.sessions :: ChildRow(c, id, row))
  }

  predicate ChildRow(c: StagedSession, id: Id, row: Row) {
    || (id == c.head && row == Row(c.session, HEAD, Completed, Some(c.initial), None))
    || (id == c.end && row == Row(c.session, END, Pending, None, None))
    || (exists x | x in c.executions :: x.id == id && row == Row(c.session, x.node, Pending, None, None))
  }

  lemma ChildRowName(g: Graph, t: Transition, c: StagedSession, id: Id, row: Row)
    requires Fresh(g, t) && c in t.spawns && c.session !in g.sessions && ChildRow(c, id, row)
    ensures id in Names(c) && id !in g.rows && id !in Used(t) && id != t.id
    ensures t.staged.Some? ==> id !in RowIds(t.staged.value.executions)
    ensures forall other | ChildRow(c, id, other) :: other == row
  {
    assert FreshChild(g, c);
    var i :| 0 <= i < |t.spawns| && t.spawns[i] == c;
    assert Names(t.spawns[i]) !! Used(t);
    if x :| x in c.executions && x.id == id {
      var j :| 0 <= j < |c.executions| && c.executions[j] == x;
    }
    OneChildRow(g, c, id, row);
  }

  lemma OneChildRow(g: Graph, c: StagedSession, id: Id, row: Row)
    requires FreshChild(g, c) && ChildRow(c, id, row)
    ensures forall other | ChildRow(c, id, other) :: other == row
  {
    forall x | x in c.executions ensures x.id in RowIds(c.executions) {
      var j :| 0 <= j < |c.executions| && c.executions[j] == x;
    }
  }

  lemma ChildRowWritten(c: StagedSession, w: Write)
    requires Changes(w) && w in SpawnPipe(c)
    ensures RowWritten(w).Some? && ChildRow(c, w.id, RowWritten(w).value)
  {
    RowOfChild(c, w);
    if w.AddExecution? && NewRow(w.id, w.node) in c.executions {
      assert NewRow(w.id, w.node).id == w.id;
    }
  }

  lemma ChildRows(g: Graph, t: Transition, id: Id)
    requires Fresh(g, t)
    ensures var v := ApplyAll(g, SpawnWrites(g, t.spawns, |t.spawns|));
      && (forall c, row | c in t.spawns && c.session !in g.sessions && ChildRow(c, id, row) ::
            Get(v.rows, id) == Some(row))
      && ((forall c, row | c in t.spawns && c.session !in g.sessions :: !ChildRow(c, id, row)) ==>
            Get(v.rows, id) == Get(g.rows, id))
  {
    var writes := SpawnWrites(g, t.spawns, |t.spawns|);
    forall w | w in writes && WritesRow(w, id)
      ensures RowWritten(w).Some?
      ensures exists c | c in t.spawns && c.session !in g.sessions :: ChildRow(c, id, RowWritten(w).value)
    {
      SpawnedBy(g, t, w);
      var c :| c in t.spawns && c.session !in g.sessions && w in SpawnPipe(c);
      ChildRowWritten(c, w);
    }
    hide SpawnWrites, ApplyAll, SpawnPipe, Fresh, ChildRow;
    forall c, row | c in t.spawns && c.session !in g.sessions && ChildRow(c, id, row)
      ensures Get(ApplyAll(g, writes).rows, id) == Some(row)
    {
      ChildRowSet(g, t, c, id, row);
    }
    if forall c, row | c in t.spawns && c.session !in g.sessions :: !ChildRow(c, id, row) {
      RowKept(g, writes, id);
    }
  }

  lemma ChildRowSet(g: Graph, t: Transition, c: StagedSession, id: Id, row: Row)
    requires Fresh(g, t) && c in t.spawns && c.session !in g.sessions && ChildRow(c, id, row)
    ensures Get(ApplyAll(g, SpawnWrites(g, t.spawns, |t.spawns|)).rows, id) == Some(row)
  {
    var writes := SpawnWrites(g, t.spawns, |t.spawns|);
    var w := ChildWrite(c, id, row);
    SpawnedBy(g, t, w);
    forall other | other in writes && WritesRow(other, id) ensures RowWritten(other) == Some(row) {
      SpawnedBy(g, t, other);
      var d :| d in t.spawns && d.session !in g.sessions && other in SpawnPipe(d);
      ChildRowWritten(d, other);
      ChildRowName(g, t, c, id, row);
      ChildRowName(g, t, d, id, RowWritten(other).value);
      assert c == d;
    }
    hide SpawnWrites, ApplyAll;
    RowSet(g, writes, id, row);
  }

  lemma ChildWrite(c: StagedSession, id: Id, row: Row) returns (w: Write)
    requires ChildRow(c, id, row)
    ensures WritesRow(w, id) && RowWritten(w) == Some(row) && w in SpawnPipe(c)
  {
    if id == c.head && row == Row(c.session, HEAD, Completed, Some(c.initial), None) {
      w := AddCompleted(id, c.session, HEAD, c.initial);
    } else {
      w := AddExecution(id, c.session, row.node);
    }
    RowOfChild(c, w);
    if w.AddExecution? && !(id == c.end && row == Row(c.session, END, Pending, None, None)) {
      var x :| x in c.executions && x.id == id && row == Row(c.session, x.node, Pending, None, None);
      assert x == NewRow(id, row.node);
    }
  }

  /** What the splice makes of an execution's row. */
  lemma SpliceRows(h: Graph, t: Transition, s: StagedPlan, id: Id)
    requires t.staged == Some(s) && OneNode(s.executions)
    ensures forall x | x in s.executions && x.id == id ::
      Get(ApplyAll(h, StagedWrites(t)).rows, id) == Some(Row(t.session, x.node, Pending, None, None))
    ensures (forall x | x in s.executions :: x.id != id) ==>
      Get(ApplyAll(h, StagedWrites(t)).rows, id) == Get(h.rows, id)
  {
    var writes, rows := StagedWrites(t), RowWrites(t.session, s.executions);
    forall w | w in writes && WritesRow(w, id)
      ensures w.AddExecution? && w.session == t.session && NewRow(id, w.node) in s.executions
    {
      assert w in rows;
      var i :| 0 <= i < |rows| && rows[i] == w;
      assert s.executions[i] == NewRow(id, w.node);
    }
    forall x | x in s.executions && x.id == id
      ensures Get(ApplyAll(h, writes).rows, id) == Some(Row(t.session, x.node, Pending, None, None))
    {
      var i :| 0 <= i < |s.executions| && s.executions[i] == x;
      assert rows[i] in writes && WritesRow(rows[i], id);
      RowSet(h, writes, id, Row(t.session, x.node, Pending, None, None));
    }
    if forall x | x in s.executions :: x.id != id {
      RowKept(h, writes, id);
    }
  }

  lemma PlanRowName(g: Graph, t: Transition, s: StagedPlan, x: NewRow)
    requires FreshPlan(g, t) && t.staged == Some(s) && x in s.executions
    ensures x.id in RowIds(s.executions) && x.id !in g.rows
  {
    var i :| 0 <= i < |s.executions| && s.executions[i] == x;
  }

  /** The same before the node's own row is written. */
  predicate RowBefore(g: Graph, t: Transition, id: Id, row: Row) {
    || (id in g.rows && row == g.rows[id])
    || (t.staged.Some? && exists x | x in t.staged.value.executions ::
          x.id == id && row == Row(t.session, x.node, Pending, None, None))
    || (exists c | c in t.spawns && c.session !in g.sessions :: ChildRow(c, id, row))
  }

  lemma RowsBefore(g: Graph, t: Transition, id: Id, row: Row)
    requires Fresh(g, t)
    ensures var v := ApplyAll(ApplyAll(g, SpawnWrites(g, t.spawns, |t.spawns|)), StagedWrites(t));
      Get(v.rows, id) == Some(row) <==> RowBefore(g, t, id, row)
  {
    hide SpawnWrites, StagedWrites, ApplyAll, ChildRow, RowBefore;
    var spawned := ApplyAll(g, SpawnWrites(g, t.spawns, |t.spawns|));
    ChildRows(g, t, id);
    if t.staged.None? {
      StagedNothing(spawned, t);
    } else {
      SpliceRows(spawned, t, t.staged.value, id);
    }
    RowsJoin(g, t, id, row, Get(spawned.rows, id), Get(ApplyAll(spawned, StagedWrites(t)).rows, id));
  }

  lemma RowsJoin(g: Graph, t: Transition, id: Id, row: Row, at: Option<Row>, after: Option<Row>)
    requires Fresh(g, t)
    requires forall c, r | c in t.spawns && c.session !in g.sessions && ChildRow(c, id, r) :: at == Some(r)
    requires (forall c, r | c in t.spawns && c.session !in g.sessions :: !ChildRow(c, id, r)) ==> at == Get(g.rows, id)
    requires t.staged.Some? ==> forall x | x in t.staged.value.executions && x.id == id ::
      after == Some(Row(t.session, x.node, Pending, None, None))
    requires (t.staged.Some? ==> forall x | x in t.staged.value.executions :: x.id != id) ==> after == at
    ensures after == Some(row) <==> RowBefore(g, t, id, row)
  {
    hide ChildRow;
    if t.staged.Some? {
      forall x | x in t.staged.value.executions ensures x.id in RowIds(t.staged.value.executions) && x.id !in g.rows {
        PlanRowName(g, t, t.staged.value, x);
      }
    }
    forall c, r | c in t.spawns && c.session !in g.sessions && ChildRow(c, id, r)
      ensures id !in g.rows && (t.staged.Some? ==> id !in RowIds(t.staged.value.executions))
    {
      ChildRowName(g, t, c, id, r);
    }
    hide Fresh;
  }

  /** Exactly which executions a commit leaves, and how. */
  lemma RowsLeft(g: Graph, t: Transition, id: Id, row: Row)
    requires Fresh(g, t)
    ensures var v := PipeCommit(g, t);
      id in v.rows && v.rows[id] == row <==> RowLeft(g, t, id, row)
  {
    PipeParts(g, t);
    RowsBefore(g, t, id, row);
    RowsBefore(g, t, t.id, g.rows[t.id]);
    NodeAlone(g, t, row);
    hide SpawnWrites, StagedWrites, ApplyAll, ChildRow, Fresh;
  }

  /** The committing node is neither of its plan nor of its children. */
  lemma NodeAlone(g: Graph, t: Transition, row: Row)
    requires Fresh(g, t)
    ensures forall c | c in t.spawns && c.session !in g.sessions :: !ChildRow(c, t.id, row)
    ensures t.staged.Some? ==> forall x | x in t.staged.value.executions :: x.id != t.id
  {
    forall c | c in t.spawns && c.session !in g.sessions ensures !ChildRow(c, t.id, row) {
      ChildElsewhere(g, t, c, t.id, row);
    }
    if t.staged.Some? {
      forall x | x in t.staged.value.executions ensures x.id != t.id {
        PlanRowName(g, t, t.staged.value, x);
      }
    }
  }

  lemma ChildElsewhere(g: Graph, t: Transition, c: StagedSession, id: Id, row: Row)
    requires Fresh(g, t) && c in t.spawns && c.session !in g.sessions
    ensures ChildRow(c, id, row) ==> id !in g.rows
  {
    if ChildRow(c, id, row) {
      ChildRowName(g, t, c, id, row);
    }
  }

  // ---- Sessions --------------------------------------------------------------

  /** A child session that is not there is created with its initial state; no other session changes. */
  lemma SessionsLeft(g: Graph, t: Transition)
    requires Generated(t)
    ensures var v := PipeCommit(g, t);
      && (forall id :: id in v.sessions <==> id in g.sessions || exists c | c in t.spawns :: c.session == id)
      && (forall id | id in g.sessions :: v.sessions[id] == g.sessions[id])
      && (forall c | c in t.spawns && c.session !in g.sessions :: v.sessions[c.session] == c.initial)
  {
    hide ApplyAll, SpawnWrites, StagedWrites, PipeCommit, SessionsAre, Generated;
    OnlyChildren(g, t);
    SessionsSpawned(g, t, |t.spawns|);
    SessionsMean(g.sessions, PipeCommit(g, t).sessions, t.spawns);
  }

  /** Neither the splice nor the completion touches a session. */
  lemma OnlyChildren(g: Graph, t: Transition)
    ensures PipeCommit(g, t).sessions == ApplyAll(g, SpawnWrites(g, t.spawns, |t.spawns|)).sessions
  {
    PipeParts(g, t);
    StagedUnder(t);
    SessionsKept(ApplyAll(g, SpawnWrites(g, t.spawns, |t.spawns|)), StagedWrites(t));
    hide StagedWrites, SpawnWrites, ApplyAll, Used, Under;
  }

  lemma SessionsMean(was: map<Id, Json>, now: map<Id, Json>, spawns: seq<StagedSession>)
    requires SessionsAre(was, now, spawns, |spawns|)
    ensures forall id :: id in now <==> id in was || exists c | c in spawns :: c.session == id
    ensures forall id | id in was :: now[id] == was[id]
    ensures forall c | c in spawns && c.session !in was :: now[c.session] == c.initial
  {
    forall c | c in spawns ensures c.session in now && (c.session !in was ==> now[c.session] == c.initial) {
      var i :| 0 <= i < |spawns| && spawns[i] == c;
    }
    forall i | 0 <= i < |spawns| ensures exists c | c in spawns :: c.session == spawns[i].session {
      assert spawns[i] in spawns;
    }
  }

  lemma {:induction false} SessionsSpawned(g: Graph, t: Transition, n: nat)
    requires Generated(t) && n <= |t.spawns|
    ensures SessionsAre(g.sessions, ApplyAll(g, SpawnWrites(g, t.spawns, n)).sessions, t.spawns, n)
    decreases n
  {
    hide ApplyAll, SpawnPipe, Generated, OwnNames, SessionsAre;
    if n == 0 {
      NoSessionsYet(g, t.spawns);
    } else {
      SessionsSpawned(g, t, n - 1);
      var c, writes := t.spawns[n - 1], SpawnWrites(g, t.spawns, n - 1);
      SpawnNamed(t, n - 1);
      SpawnSessions(ApplyAll(g, writes), c);
      ApplyConcat(g, writes, SpawnPipe(c));
      assert writes + [] == writes;
      SessionsNext(g.sessions, ApplyAll(g, writes).sessions, t.spawns, n - 1);
    }
  }

  predicate SessionsAre(was: map<Id, Json>, now: map<Id, Json>, spawns: seq<StagedSession>, n: nat)
    requires n <= |spawns|
  {
    && (forall id | id in now :: id in was || exists i | 0 <= i < n :: spawns[i].session == id)
    && (forall id | id in was :: id in now && now[id] == was[id])
    && (forall i | 0 <= i < n :: spawns[i].session in now)
    && (forall i | 0 <= i < n && spawns[i].session !in was :: now[spawns[i].session] == spawns[i].initial)
  }

  lemma NoSessionsYet(g: Graph, spawns: seq<StagedSession>)
    ensures SessionsAre(g.sessions, ApplyAll(g, SpawnWrites(g, spawns, 0)).sessions, spawns, 0)
  {
  }

  lemma SpawnNamed(t: Transition, i: nat)
    requires Generated(t) && i < |t.spawns|
    ensures OwnNames(t.spawns[i]) && forall j | 0 <= j < i :: t.spawns[j].session != t.spawns[i].session
  {
  }

  lemma SessionsNext(was: map<Id, Json>, now: map<Id, Json>, spawns: seq<StagedSession>, n: nat)
    requires n < |spawns| && SessionsAre(was, now, spawns, n)
    requires forall j | 0 <= j < n :: spawns[j].session != spawns[n].session
    ensures spawns[n].session !in was ==>
      SessionsAre(was, now[spawns[n].session := spawns[n].initial], spawns, n + 1)
    ensures spawns[n].session in was ==> SessionsAre(was, now, spawns, n + 1)
  {
  }

  // ---- All of it -------------------------------------------------------------

  /** The graph a commit leaves. */
  ghost predicate Left(g: Graph, t: Transition, v: Graph) {
    && (forall from, to, condition ::
          (from, to) in v.edges && v.edges[(from, to)] == condition <==> EdgeLeft(g, t, from, to, condition))
    && (forall id, row :: id in v.rows && v.rows[id] == row <==> RowLeft(g, t, id, row))
    && (forall id :: id in v.sessions <==> id in g.sessions || exists c | c in t.spawns :: c.session == id)
    && (forall id | id in g.sessions :: v.sessions[id] == g.sessions[id])
    && (forall c | c in t.spawns && c.session !in g.sessions :: v.sessions[c.session] == c.initial)
  }

  lemma CommitLeaves(g: Graph, t: Transition)
    requires Fresh(g, t)
    ensures Left(g, t, StepCommit(g, t))
  {
    hide PipeCommit, StepCommit, EdgeLeft, RowLeft;
    CommitsAgree(g, t);
    SessionsLeft(g, t);
    var v := PipeCommit(g, t);
    forall from, to, condition
      ensures (from, to) in v.edges && v.edges[(from, to)] == condition <==> EdgeLeft(g, t, from, to, condition)
    {
      EdgesLeft(g, t, from, to, condition);
    }
    forall id, row ensures id in v.rows && v.rows[id] == row <==> RowLeft(g, t, id, row) {
      RowsLeft(g, t, id, row);
    }
  }
}
