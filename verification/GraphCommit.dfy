/** A transition's commit as writes to a plain graph: step by step, and as one pipeline. */
module GraphCommit {
  import opened Mail

  datatype RunStatus = Pending | Running | Completed | Failed | Waiting

  datatype Row = Row(session: Id, node: string, status: RunStatus, result: Option<Json>, effects: Option<Json>)

  type EdgeKey = (Id, Id)

  /** Sessions with their initial state, executions, and edges with their condition. */
  datatype Graph = Graph(sessions: map<Id, Json>, rows: map<Id, Row>, edges: map<EdgeKey, string>)

  datatype NewEdge = NewEdge(from: Id, to: Id, condition: string)

  datatype NewRow = NewRow(id: Id, node: string)

  datatype StagedPlan = StagedPlan(executions: seq<NewRow>, edges: seq<NewEdge>, starts: seq<Id>, end: Id)

  datatype StagedSession = StagedSession(
    session: Id,
    initial: Json,
    head: Id,
    end: Id,
    executions: seq<NewRow>,
    edges: seq<NewEdge>)

  /** What a node's return commits: its result, a plan to splice in before its children, effects, and spawns. */
  datatype Transition = Transition(
    id: Id,
    session: Id,
    result: Json,
    staged: Option<StagedPlan>,
    children: seq<NewEdge>,
    effects: Option<Json>,
    spawns: seq<StagedSession>)

  // ---- Writes ----------------------------------------------------------------

  /** One write of the store: a primitive, or what a pipeline writes of one row at once. */
  datatype Write =
    | CreateSession(session: Id, initial: Json)
    | AddExecution(id: Id, session: Id, node: string)
    | AddCompleted(id: Id, session: Id, node: string, result: Json)
    | Complete(id: Id, result: Json)
    | CompleteWith(id: Id, result: Json, effects: Option<Json>)
    | SetEffects(id: Id, effects: Option<Json>)
    | AddEdge(from: Id, to: Id, condition: string)
    | RemoveEdge(from: Id, to: Id)

  function SessionsAfter(sessions: map<Id, Json>, w: Write): map<Id, Json> {
    if w.CreateSession? then sessions[w.session := w.initial] else sessions
  }

  function Finished(row: Row, result: Json, effects: Option<Json>): Row {
    var done := row.(status := Completed, result := Some(result));
    if effects.Some? then done.(effects := effects) else done
  }

  function RowsAfter(rows: map<Id, Row>, w: Write): map<Id, Row> {
    match w
    case AddExecution(id, s, node) => rows[id := Row(s, node, Pending, None, None)]
    case AddCompleted(id, s, node, result) => rows[id := Row(s, node, Completed, Some(result), None)]
    case Complete(id, result) =>
      if id in rows then rows[id := rows[id].(status := Completed, result := Some(result))] else rows
    case CompleteWith(id, result, effects) =>
      if id in rows then rows[id := Finished(rows[id], result, effects)] else rows
    case SetEffects(id, effects) => if id in rows then rows[id := rows[id].(effects := effects)] else rows
    case _ => rows
  }

  function EdgesAfter(edges: map<EdgeKey, string>, w: Write): map<EdgeKey, string> {
    match w
    case AddEdge(from, to, c) => edges[(from, to) := c]
    case RemoveEdge(from, to) => edges - {(from, to)}
    case _ => edges
  }

  function Apply(g: Graph, w: Write): Graph {
    Graph(SessionsAfter(g.sessions, w), RowsAfter(g.rows, w), EdgesAfter(g.edges, w))
  }

  function ApplyAll(g: Graph, writes: seq<Write>): Graph {
    if writes == [] then g else Apply(ApplyAll(g, writes[..|writes| - 1]), writes[|writes| - 1])
  }

  /** What a write touches. */
  datatype Place = ASession(session: Id) | ARow(id: Id) | AnEdge(from: Id, to: Id)

  function Touches(w: Write): Place {
    match w
    case CreateSession(s, _) => ASession(s)
    case AddExecution(id, _, _) => ARow(id)
    case AddCompleted(id, _, _, _) => ARow(id)
    case Complete(id, _) => ARow(id)
    case CompleteWith(id, _, _) => ARow(id)
    case SetEffects(id, _) => ARow(id)
    case AddEdge(from, to, _) => AnEdge(from, to)
    case RemoveEdge(from, to) => AnEdge(from, to)
  }

  predicate Apart(a: seq<Write>, b: seq<Write>) {
    forall i, j | 0 <= i < |a| && 0 <= j < |b| :: Touches(a[i]) != Touches(b[j])
  }

  lemma SwapTwo(g: Graph, a: Write, b: Write)
    requires Touches(a) != Touches(b)
    ensures Apply(Apply(g, a), b) == Apply(Apply(g, b), a)
  {
    SwapRows(g.rows, a, b);
    SwapEdges(g.edges, a, b);
    SwapSessions(g.sessions, a, b);
    hide SessionsAfter, RowsAfter, EdgesAfter;
  }

  lemma SwapSessions(sessions: map<Id, Json>, a: Write, b: Write)
    requires Touches(a) != Touches(b)
    ensures SessionsAfter(SessionsAfter(sessions, a), b) == SessionsAfter(SessionsAfter(sessions, b), a)
  {
  }

  lemma SwapEdges(edges: map<EdgeKey, string>, a: Write, b: Write)
    requires Touches(a) != Touches(b)
    ensures EdgesAfter(EdgesAfter(edges, a), b) == EdgesAfter(EdgesAfter(edges, b), a)
  {
  }

  lemma SwapRows(rows: map<Id, Row>, a: Write, b: Write)
    requires Touches(a) != Touches(b)
    ensures RowsAfter(RowsAfter(rows, a), b) == RowsAfter(RowsAfter(rows, b), a)
  {
    if Changes(a) && Changes(b) {
      assert RowIdOf(a) != RowIdOf(b);
      OnlyOne(rows, a);
      OnlyOne(rows, b);
      OnlyOne(RowsAfter(rows, a), b);
      OnlyOne(RowsAfter(rows, b), a);
      hide RowsAfter, RowAfter;
      SameRows(RowsAfter(RowsAfter(rows, a), b), RowsAfter(RowsAfter(rows, b), a));
    }
  }

  lemma SameRows(one: map<Id, Row>, two: map<Id, Row>)
    requires forall id :: Get(one, id) == Get(two, id)
    ensures one == two
  {
    assert forall id :: id in one <==> Get(one, id).Some?;
    assert forall id :: id in two <==> Get(two, id).Some?;
  }

  predicate Changes(w: Write) { Touches(w).ARow? }

  function RowIdOf(w: Write): Id
    requires Changes(w)
  {
    w.id
  }

  /** What a write makes of the row it touches. */
  function RowAfter(row: Option<Row>, w: Write): Option<Row>
    requires Changes(w)
  {
    match w
    case AddExecution(_, s, node) => Some(Row(s, node, Pending, None, None))
    case AddCompleted(_, s, node, result) => Some(Row(s, node, Completed, Some(result), None))
    case CompleteWith(_, result, effects) => if row.Some? then Some(Finished(row.value, result, effects)) else None
    case Complete(_, result) =>
      if row.Some? then Some(row.value.(status := Completed, result := Some(result))) else None
    case SetEffects(_, effects) => if row.Some? then Some(row.value.(effects := effects)) else None
  }

  function Get(rows: map<Id, Row>, id: Id): Option<Row> { if id in rows then Some(rows[id]) else None }

  lemma OnlyOne(rows: map<Id, Row>, w: Write)
    requires Changes(w)
    ensures forall id ::
      Get(RowsAfter(rows, w), id) == if id == RowIdOf(w) then RowAfter(Get(rows, id), w) else Get(rows, id)
  {
  }

  lemma ApplyPush(g: Graph, writes: seq<Write>, w: Write)
    ensures ApplyAll(g, writes + [w]) == Apply(ApplyAll(g, writes), w)
  {
    assert (writes + [w])[..|writes + [w]| - 1] == writes;
  }

  lemma {:induction false} ApplyConcat(g: Graph, a: seq<Write>, b: seq<Write>)
    ensures ApplyAll(g, a + b) == ApplyAll(ApplyAll(g, a), b)
    decreases |b|
  {
    if b == [] {
      assert a + b == a;
    } else {
      var n := |b| - 1;
      hide ApplyAll, Apply;
      ApplyConcat(g, a, b[..n]);
      LastOf(a, b);
      ApplyPush(g, a + b[..n], b[n]);
      ApplyPush(ApplyAll(g, a), b[..n], b[n]);
    }
  }

  lemma LastOf(a: seq<Write>, b: seq<Write>)
    requires b != []
    ensures a + b == (a + b[..|b| - 1]) + [b[|b| - 1]]
    ensures b == b[..|b| - 1] + [b[|b| - 1]]
  {
  }

  /** One write can be moved over a list of writes elsewhere. */
  lemma {:induction false} SwapOne(g: Graph, a: Write, b: seq<Write>)
    requires Apart([a], b)
    ensures ApplyAll(Apply(g, a), b) == Apply(ApplyAll(g, b), a)
    decreases |b|
  {
    if b == [] {
    } else {
      var n := |b| - 1;
      hide Apply, Touches;
      ApartTake([a], b);
      SwapOne(g, a, b[..n]);
      assert Touches(a) != Touches(b[n]) by { ApartAt([a], b, 0, n); }
      SwapTwo(ApplyAll(g, b[..n]), a, b[n]);
    }
  }

  lemma ApartAt(a: seq<Write>, b: seq<Write>, i: nat, j: nat)
    requires Apart(a, b) && i < |a| && j < |b|
    ensures Touches(a[i]) != Touches(b[j])
  {
  }

  lemma ApartTake(a: seq<Write>, b: seq<Write>)
    requires Apart(a, b) && b != []
    ensures Apart(a, b[..|b| - 1])
  {
  }

  /** Lists of writes to different places commute. */
  lemma {:induction false} Commute(g: Graph, a: seq<Write>, b: seq<Write>)
    requires Apart(a, b)
    ensures ApplyAll(ApplyAll(g, a), b) == ApplyAll(ApplyAll(g, b), a)
    decreases |a|
  {
    if a == [] {
    } else {
      var n := |a| - 1;
      hide Apply, Touches;
      forall i, j | 0 <= i < n && 0 <= j < |b| ensures Touches(a[..n][i]) != Touches(b[j]) {
        ApartAt(a, b, i, j);
      }
      Commute(g, a[..n], b);
      forall j | 0 <= j < |b| ensures Touches([a[n]][0]) != Touches(b[j]) {
        ApartAt(a, b, n, j);
      }
      SwapOne(ApplyAll(g, a[..n]), a[n], b);
    }
  }

  // ---- The two commits -------------------------------------------------------

  function RowWrites(session: Id, rows: seq<NewRow>): (r: seq<Write>)
    ensures |r| == |rows|
  {
    seq(|rows|, i requires 0 <= i < |rows| => AddExecution(rows[i].id, session, rows[i].node))
  }

  function EdgeWrites(edges: seq<NewEdge>): (r: seq<Write>)
    ensures |r| == |edges|
  {
    seq(|edges|, i requires 0 <= i < |edges| => AddEdge(edges[i].from, edges[i].to, edges[i].condition))
  }

  function Drops(from: Id, children: seq<NewEdge>): (r: seq<Write>)
    ensures |r| == |children|
  {
    seq(|children|, i requires 0 <= i < |children| => RemoveEdge(from, children[i].to))
  }

  function Starts(from: Id, starts: seq<Id>): (r: seq<Write>)
    ensures |r| == |starts|
  {
    seq(|starts|, i requires 0 <= i < |starts| => AddEdge(from, starts[i], ""))
  }

  function Outs(end: Id, children: seq<NewEdge>): (r: seq<Write>)
    ensures |r| == |children|
  {
    seq(|children|, i requires 0 <= i < |children| => AddEdge(end, children[i].to, children[i].condition))
  }

  /** The spliced plan and the rewiring: node, then its starts, and from its end to the old children. */
  function StagedWrites(t: Transition): seq<Write> {
    if t.staged.None? then []
    else
      var s := t.staged.value;
      RowWrites(t.session, s.executions) + EdgeWrites(s.edges)
      + Drops(t.id, t.children) + Starts(t.id, s.starts) + Outs(s.end, t.children)
  }

  const HEAD := "__HEAD__"
  const END := "__END__"

  /** A spawned session, primitive by primitive: HEAD is marked completed last. */
  function SpawnSteps(c: StagedSession): seq<Write> {
    [CreateSession(c.session, c.initial), AddExecution(c.head, c.session, HEAD)] + SpawnRest(c) +
      [Complete(c.head, c.initial)]
  }

  /** The same in the pipeline: HEAD is born completed. */
  function SpawnPipe(c: StagedSession): seq<Write> {
    [CreateSession(c.session, c.initial), AddCompleted(c.head, c.session, HEAD, c.initial)] + SpawnRest(c)
  }

  function SpawnRest(c: StagedSession): seq<Write> {
    [AddExecution(c.end, c.session, END)] + RowWrites(c.session, c.executions) + EdgeWrites(c.edges)
  }

  /** Children whose session exists already are skipped, one after the other. */
  function SpawnAll(g: Graph, spawns: seq<StagedSession>, n: nat): Graph
    requires n <= |spawns|
  {
    if n == 0 then g
    else
      var before, c := SpawnAll(g, spawns, n - 1), spawns[n - 1];
      if c.session in before.sessions then before else ApplyAll(before, SpawnSteps(c))
  }

  /** The base commit: primitive by primitive, the completion last. */
  function StepCommit(g: Graph, t: Transition): Graph {
    var spawned := SpawnAll(ApplyAll(g, StagedWrites(t)), t.spawns, |t.spawns|);
    var effected := if t.effects.Some? then Apply(spawned, SetEffects(t.id, t.effects)) else spawned;
    Apply(effected, Complete(t.id, t.result))
  }

  /** The writes of the children that do not exist when the pipeline is built. */
  function SpawnWrites(g: Graph, spawns: seq<StagedSession>, n: nat): seq<Write>
    requires n <= |spawns|
  {
    if n == 0 then []
    else SpawnWrites(g, spawns, n - 1) + if spawns[n - 1].session in g.sessions then [] else SpawnPipe(spawns[n - 1])
  }

  /** The buffered writes: children first, then the splice, then the node's own row in one write. */
  function Pipeline(g: Graph, t: Transition): seq<Write> {
    SpawnWrites(g, t.spawns, |t.spawns|) + StagedWrites(t) + [CompleteWith(t.id, t.result, t.effects)]
  }

  /** The pipelined commit. */
  function PipeCommit(g: Graph, t: Transition): Graph {
    ApplyAll(g, Pipeline(g, t))
  }

  // ---- Fresh, distinct identities --------------------------------------------

  function RowIds(rows: seq<NewRow>): set<Id> { set i | 0 <= i < |rows| :: rows[i].id }

  function Names(c: StagedSession): set<Id> { {c.head, c.end} + RowIds(c.executions) }

  /** The identities that the splice and the completion write under. */
  function Used(t: Transition): set<Id> {
    {t.id} + if t.staged.None? then {} else
      RowIds(t.staged.value.executions) + {t.staged.value.end}
      + set i | 0 <= i < |t.staged.value.edges| :: t.staged.value.edges[i].from
  }

  /** Generated identities: every spawned session is new to the others, has rows of its own, and wires only those. */
  predicate Generated(t: Transition) {
    && (forall i, j | 0 <= i < j < |t.spawns| :: t.spawns[i].session != t.spawns[j].session)
    && (forall i | 0 <= i < |t.spawns| :: OwnNames(t.spawns[i]) && Names(t.spawns[i]) !! Used(t))
  }

  predicate OwnNames(c: StagedSession) {
    && c.head != c.end && c.head !in RowIds(c.executions)
    && (forall i | 0 <= i < |c.edges| :: c.edges[i].from in Names(c))
  }

  /** Every write is to a row of `ids`, an edge out of one, or a session. */
  predicate Under(writes: seq<Write>, ids: set<Id>) {
    forall i | 0 <= i < |writes| :: match Touches(writes[i])
      case ASession(_) => true
      case ARow(id) => id in ids
      case AnEdge(from, _) => from in ids
  }

  predicate NoSessions(writes: seq<Write>) { forall i | 0 <= i < |writes| :: !writes[i].CreateSession? }

  lemma UnderConcat(a: seq<Write>, b: seq<Write>, ids: set<Id>)
    requires Under(a, ids) && Under(b, ids)
    ensures Under(a + b, ids)
  {
  }

  lemma UnderApart(a: seq<Write>, b: seq<Write>, one: set<Id>, two: set<Id>)
    requires Under(a, one) && Under(b, two) && one !! two && NoSessions(b)
    ensures Apart(a, b)
  {
  }

  lemma RestUnder(c: StagedSession)
    requires OwnNames(c)
    ensures Under(SpawnRest(c), Names(c)) && NoSessions(SpawnRest(c))
    ensures Apart([Complete(c.head, c.initial)], SpawnRest(c))
  {
  }

  lemma SpawnUnder(c: StagedSession)
    requires OwnNames(c)
    ensures Under(SpawnPipe(c), Names(c))
  {
    RestUnder(c);
    hide SpawnRest;
    UnderConcat([CreateSession(c.session, c.initial), AddCompleted(c.head, c.session, HEAD, c.initial)], SpawnRest(c),
                Names(c));
  }

  lemma StagedUnder(t: Transition)
    ensures Under(StagedWrites(t), Used(t)) && NoSessions(StagedWrites(t))
  {
    if t.staged.Some? {
      var s := t.staged.value;
      RowsUnder(t, s);
      UnderConcat(RowWrites(t.session, s.executions), EdgeWrites(s.edges), Used(t));
      UnderConcat(RowWrites(t.session, s.executions) + EdgeWrites(s.edges), Drops(t.id, t.children), Used(t));
      UnderConcat(RowWrites(t.session, s.executions) + EdgeWrites(s.edges) + Drops(t.id, t.children),
                  Starts(t.id, s.starts), Used(t));
      UnderConcat(RowWrites(t.session, s.executions) + EdgeWrites(s.edges) + Drops(t.id, t.children) +
                  Starts(t.id, s.starts),
                  Outs(s.end, t.children), Used(t));
    }
  }

  lemma RowsUnder(t: Transition, s: StagedPlan)
    requires t.staged == Some(s)
    ensures Under(RowWrites(t.session, s.executions), Used(t)) && Under(EdgeWrites(s.edges), Used(t))
    ensures Under(Drops(t.id, t.children), Used(t)) && Under(Starts(t.id, s.starts), Used(t))
    ensures Under(Outs(s.end, t.children), Used(t))
  {
    assert t.id in Used(t) && s.end in Used(t);
    forall i | 0 <= i < |s.executions| ensures s.executions[i].id in Used(t) {
      assert s.executions[i].id in RowIds(s.executions);
    }
    forall i | 0 <= i < |s.edges| ensures s.edges[i].from in Used(t) {
    }
  }

  // ---- They agree ------------------------------------------------------------

  /** A child whose HEAD is completed last is the child whose HEAD is born completed. */
  lemma SpawnsSame(g: Graph, c: StagedSession)
    requires OwnNames(c)
    ensures ApplyAll(g, SpawnSteps(c)) == ApplyAll(g, SpawnPipe(c))
  {
    var create, add := CreateSession(c.session, c.initial), AddExecution(c.head, c.session, HEAD);
    var done, born := Complete(c.head, c.initial), AddCompleted(c.head, c.session, HEAD, c.initial);
    var rest := SpawnRest(c);
    RestUnder(c);
    hide ApplyAll, Apply, SpawnRest, Under, NoSessions, Apart, OwnNames, Names;
    ApplyPush(g, [create, add] + rest, done);
    ApplyConcat(g, [create, add], rest);
    ApplyConcat(g, [create, born], rest);
    TwoWrites(g, create, add);
    TwoWrites(g, create, born);
    SwapOne(ApplyAll(g, [create, add]), done, rest);
    BornCompleted(Apply(g, create), c);
  }

  lemma BornCompleted(g: Graph, c: StagedSession)
    ensures Apply(Apply(g, AddExecution(c.head, c.session, HEAD)), Complete(c.head, c.initial)) ==
      Apply(g, AddCompleted(c.head, c.session, HEAD, c.initial))
  {
  }

  lemma TwoWrites(g: Graph, a: Write, b: Write)
    ensures ApplyAll(g, [a, b]) == Apply(Apply(g, a), b)
  {
    assert [a, b] == [a] + [b] && [a] == [] + [a];
    ApplyPush(g, [a], b);
    ApplyPush(g, [], a);
  }

  lemma {:induction false} SessionsKept(g: Graph, writes: seq<Write>)
    requires NoSessions(writes)
    ensures ApplyAll(g, writes).sessions == g.sessions
    decreases |writes|
  {
    if writes == [] {
    } else {
      SessionsKept(g, writes[..|writes| - 1]);
    }
  }

  lemma SpawnSessions(g: Graph, c: StagedSession)
    requires OwnNames(c)
    ensures ApplyAll(g, SpawnPipe(c)).sessions == g.sessions[c.session := c.initial]
  {
    var create, born := CreateSession(c.session, c.initial), AddCompleted(c.head, c.session, HEAD, c.initial);
    RestUnder(c);
    ApplyConcat(g, [create, born], SpawnRest(c));
    TwoWrites(g, create, born);
    SessionsKept(ApplyAll(g, [create, born]), SpawnRest(c));
  }

  ghost predicate SpawnedBefore(t: Transition, n: nat, s: Id)
    requires n <= |t.spawns|
  {
    exists i | 0 <= i < n :: t.spawns[i].session == s
  }

  lemma {:induction false} SpawnedSessions(h: Graph, t: Transition, n: nat, s: Id)
    requires Generated(t) && n <= |t.spawns|
    ensures s in SpawnAll(h, t.spawns, n).sessions <==> s in h.sessions || SpawnedBefore(t, n, s)
    decreases n
  {
    hide Generated, ApplyAll, SpawnSteps;
    if n == 0 {
    } else {
      SpawnedSessions(h, t, n - 1, s);
      FirstOfItsName(t, n);
      SpawnAdds(SpawnAll(h, t.spawns, n - 1), t.spawns[n - 1], s);
      SpawnedNext(t, n, s);
      hide SpawnedBefore;
    }
  }

  lemma SpawnedNext(t: Transition, n: nat, s: Id)
    requires 0 < n <= |t.spawns|
    ensures SpawnedBefore(t, n, s) <==> SpawnedBefore(t, n - 1, s) || t.spawns[n - 1].session == s
  {
  }

  lemma SpawnAdds(g: Graph, c: StagedSession, s: Id)
    requires OwnNames(c)
    ensures s in ApplyAll(g, SpawnSteps(c)).sessions <==> s in g.sessions || s == c.session
  {
    SpawnsSame(g, c);
    SpawnSessions(g, c);
    hide ApplyAll, SpawnSteps, SpawnPipe, OwnNames;
  }

  lemma FirstOfItsName(t: Transition, n: nat)
    requires Generated(t) && 0 < n <= |t.spawns|
    ensures !SpawnedBefore(t, n - 1, t.spawns[n - 1].session) && OwnNames(t.spawns[n - 1])
  {
  }

  /** With distinct session identities, skipping one child at a time skips the ones that existed before. */
  lemma {:induction false} SpawnAllSame(g: Graph, h: Graph, t: Transition, n: nat)
    requires Generated(t) && h.sessions == g.sessions && n <= |t.spawns|
    ensures SpawnAll(h, t.spawns, n) == ApplyAll(h, SpawnWrites(g, t.spawns, n))
    decreases n
  {
    hide *;
    if n == 0 {
      SpawnNone(g, h, t.spawns);
    } else {
      SpawnAllSame(g, h, t, n - 1);
      NewHere(g, h, t, n);
      SpawnNext(g, h, t.spawns, n);
    }
  }

  lemma SpawnNone(g: Graph, h: Graph, spawns: seq<StagedSession>)
    ensures SpawnAll(h, spawns, 0) == ApplyAll(h, SpawnWrites(g, spawns, 0))
  {
  }

  lemma NewHere(g: Graph, h: Graph, t: Transition, n: nat)
    requires Generated(t) && h.sessions == g.sessions && 0 < n <= |t.spawns|
    ensures OwnNames(t.spawns[n - 1])
    ensures t.spawns[n - 1].session in SpawnAll(h, t.spawns, n - 1).sessions <==> t.spawns[n - 1].session in g.sessions
  {
    FirstOfItsName(t, n);
    SpawnedSessions(h, t, n - 1, t.spawns[n - 1].session);
  }

  lemma SpawnNext(g: Graph, h: Graph, spawns: seq<StagedSession>, n: nat)
    requires 0 < n <= |spawns| && OwnNames(spawns[n - 1])
    requires spawns[n - 1].session in SpawnAll(h, spawns, n - 1).sessions <==> spawns[n - 1].session in g.sessions
    requires SpawnAll(h, spawns, n - 1) == ApplyAll(h, SpawnWrites(g, spawns, n - 1))
    ensures SpawnAll(h, spawns, n) == ApplyAll(h, SpawnWrites(g, spawns, n))
  {
    var before, c, writes := SpawnAll(h, spawns, n - 1), spawns[n - 1], SpawnWrites(g, spawns, n - 1);
    SpawnsSame(before, c);
    ApplyConcat(h, writes, SpawnPipe(c));
    hide ApplyAll, SpawnSteps, SpawnPipe, OwnNames;
    assert writes + [] == writes;
  }

  lemma {:induction false} SpawnsApart(g: Graph, t: Transition, n: nat)
    requires Generated(t) && n <= |t.spawns|
    ensures Apart(SpawnWrites(g, t.spawns, n), StagedWrites(t))
    decreases n
  {
    hide StagedWrites, SpawnPipe, Apart, Generated;
    if n == 0 {
      NothingApart(StagedWrites(t));
    } else {
      SpawnsApart(g, t, n - 1);
      SpawnApart(t, n - 1);
      ApartConcat(SpawnWrites(g, t.spawns, n - 1), SpawnPipe(t.spawns[n - 1]), StagedWrites(t));
      assert SpawnWrites(g, t.spawns, n - 1) + [] == SpawnWrites(g, t.spawns, n - 1);
    }
  }

  lemma NothingApart(writes: seq<Write>)
    ensures Apart([], writes)
  {
  }

  lemma ApartConcat(a: seq<Write>, b: seq<Write>, c: seq<Write>)
    requires Apart(a, c) && Apart(b, c)
    ensures Apart(a + b, c)
  {
  }

  lemma SpawnApart(t: Transition, i: nat)
    requires Generated(t) && i < |t.spawns|
    ensures Apart(SpawnPipe(t.spawns[i]), StagedWrites(t))
  {
    StagedUnder(t);
    SpawnUnder(t.spawns[i]);
    hide StagedWrites, SpawnPipe, Under, Names, Used, OwnNames;
    UnderApart(SpawnPipe(t.spawns[i]), StagedWrites(t), Names(t.spawns[i]), Used(t));
  }

  lemma CompletionSame(g: Graph, t: Transition)
    ensures Apply(if t.effects.Some? then Apply(g, SetEffects(t.id, t.effects)) else g, Complete(t.id, t.result))
      == Apply(g, CompleteWith(t.id, t.result, t.effects))
  {
  }

  /** With freshly generated identities the pipelined commit reaches exactly the graph of the step by step
      commit. */
  lemma CommitsAgree(g: Graph, t: Transition)
    requires Generated(t)
    ensures PipeCommit(g, t) == StepCommit(g, t)
  {
    var n, staged := |t.spawns|, StagedWrites(t);
    var h, spawned := ApplyAll(g, staged), SpawnWrites(g, t.spawns, n);
    StagedUnder(t);
    SessionsKept(g, staged);
    SpawnAllSame(g, h, t, n);
    SpawnsApart(g, t, n);
    hide StagedWrites, SpawnWrites, Apply, ApplyAll, Generated, Under;
    ApartFlips(spawned, staged);
    Commute(g, staged, spawned);
    CompletionSame(ApplyAll(h, spawned), t);
    ApplyPush(g, spawned + staged, CompleteWith(t.id, t.result, t.effects));
    ApplyConcat(g, spawned, staged);
  }

  lemma ApartFlips(a: seq<Write>, b: seq<Write>)
    requires Apart(a, b)
    ensures Apart(b, a)
  {
  }
}
