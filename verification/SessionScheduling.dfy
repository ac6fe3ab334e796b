/** Who is served when: claims never idle while work is ready, nobody is bypassed without bound, attempts
    are counted, and a checkpoint touches no stranger. */
module SessionScheduling {
  import opened Mail
  import opened SessionStore
  import opened SessionHistory
  import opened SessionSafety
  import opened SessionTheorems

  // ---- Places in the claim order ---------------------------------------------

  /** Outside a claim, no transaction moves an existing session in the claim order. */
  lemma PlaceKept(w: World, step: Step, id: Id)
    requires Inv(w) && id in w.db.sessions && id in Next(w, step).db.sessions
    ensures Next(w, step).db.sessions[id].rowid == w.db.sessions[id].rowid
    ensures !step.op.ClaimOp? ==> Next(w, step).db.sessions[id].lastClaim == w.db.sessions[id].lastClaim
  {
    hide ClaimFrom, CommitTo, SessionOk, Pending;
    match step.op
    case CommitOp(token, p) =>
      if Commits(w, step) {
        PlaceKeptByCommit(w, step, id);
      }
    case ClaimOp(q0) =>
      var q := q0.(now := step.now);
      if ValidQuery(q) {
        ClaimEffects(w.db, q);
        assert ClaimEffect(id, w.db.sessions[id], Next(w, step).db.sessions[id], q, ClaimFrom(w.db, q).1,
                           w.db.nextToken);
      }
    case AppendOp(to, event) =>
      if AppendTo(w.db, to, event, false).Ok? {
        AppendGrows(w.db, to, event, id);
      }
    case _ =>
  }

  lemma PlaceKeptByCommit(w: World, step: Step, id: Id)
    requires Inv(w) && Commits(w, step) && id in w.db.sessions && id in Next(w, step).db.sessions
    ensures Next(w, step).db.sessions[id].rowid == w.db.sessions[id].rowid
    ensures Next(w, step).db.sessions[id].lastClaim == w.db.sessions[id].lastClaim
  {
    NextCommit(w, step);
    hide CommitTo, Next, SessionOk, Pending, ExtendChains;
    var act := w.issued[step.op.token].act;
    if id == act.session {
      CommitterRevision(w.db, act, step.op.p, step.now);
    } else {
      BystanderEffect(w.db, act, step.op.p, step.now, w.chains, id);
    }
  }

  lemma RowsKept(w: World, step: Step)
    requires Inv(w) && RowsOk(w.db)
    ensures RowsOk(Next(w, step).db)
  {
    hide ClaimFrom, CommitTo, SessionOk, Pending, Inv;
    if step.op.CommitOp? {
      if Commits(w, step) {
        CommitRows(w.db, w.issued[step.op.token].act, step.op.p, step.now);
      }
    } else if !step.op.CreateOp? {
      KeysKept(w, step);
      hide Next, RowsOk;
      forall id | id in Next(w, step).db.sessions
        ensures Next(w, step).db.sessions[id].rowid == w.db.sessions[id].rowid
      {
        PlaceKept(w, step, id);
      }
      SameRows(w.db, Next(w, step).db);
    }
  }

  /** Only a create and a checkpoint's children add rows. */
  lemma KeysKept(w: World, step: Step)
    requires !step.op.CommitOp? && !step.op.CreateOp?
    ensures Next(w, step).db.sessions.Keys <= w.db.sessions.Keys && Next(w, step).db.nextRow == w.db.nextRow
  {
    hide ClaimFrom, CommitTo, SessionOk, Pending;
    if step.op.ClaimOp? && ValidQuery(step.op.q.(now := step.now)) {
      ClaimEffects(w.db, step.op.q.(now := step.now));
    }
  }

  lemma {:induction false} RunRows(steps: seq<Step>)
    ensures RowsOk(Run(steps).db)
    decreases |steps|
  {
    if steps != [] {
      hide Next, Inv, RowsOk;
      RunKeeps(steps[..|steps| - 1]);
      RunRows(steps[..|steps| - 1]);
      RowsKept(Run(steps[..|steps| - 1]), steps[|steps| - 1]);
    } else {
      assert RowsOk(Init().db);
    }
  }

  // ---- Claims never idle -----------------------------------------------------

  predicate Earliest(db: Store, ids: set<Id>, id: Id)
    requires id in db.sessions && ids <= db.sessions.Keys
  {
    forall k | k in ids && k != id :: Before(db.sessions[id], db.sessions[k])
  }

  lemma {:induction false} EarliestExists(db: Store, ids: set<Id>)
    requires RowsOk(db) && ids != {} && ids <= db.sessions.Keys
    ensures exists id :: id in ids && Earliest(db, ids, id)
    decreases ids
  {
    var a :| a in ids;
    var rest := ids - {a};
    if rest == {} {
      assert ids == {a};
    } else {
      EarliestExists(db, rest);
      var b :| b in rest && Earliest(db, rest, b);
      assert a in db.sessions && b in db.sessions && a != b;
      assert db.sessions[a].rowid != db.sessions[b].rowid;
      hide RowsOk;
      if Before(db.sessions[a], db.sessions[b]) {
        forall k | k in ids && k != a ensures Before(db.sessions[a], db.sessions[k]) {
          assert k in rest;
        }
        assert Earliest(db, ids, a);
      } else {
        forall k | k in ids && k != b ensures Before(db.sessions[b], db.sessions[k]) {
          assert k == a || k in rest;
        }
        assert Earliest(db, ids, b);
      }
    }
  }

  lemma FirstExists(db: Store, q: Query, id: Id)
    requires RowsOk(db) && Matches(db, q, id)
    ensures exists k :: IsFirst(db, q, k)
  {
    assert id in ReadyIds(db, q);
    EarliestExists(db, ReadyIds(db, q));
    var k :| k in ReadyIds(db, q) && Earliest(db, ReadyIds(db, q), k);
    forall o | Matches(db, q, o) && o != k ensures Before(db.sessions[k], db.sessions[o]) {
      assert o in ReadyIds(db, q);
    }
    assert IsFirst(db, q, k);
  }

  /** A claim leases something whenever a session that matches it has attempts left. */
  lemma {:induction false} ClaimServes(db: Store, q: Query, id: Id)
    requires RowsOk(db) && ValidQuery(q) && Matches(db, q, id) && !Exhausted(db.sessions[id], q)
    ensures ClaimFrom(db, q).1.Some?
    decreases ReadyIds(db, q)
  {
    FirstExists(db, q, id);
    var first :| IsFirst(db, q, first);
    ClaimUnfolds(db, q, first);
    if Exhausted(db.sessions[first], q) {
      ClaimServes(ParkFirst(db, first), q, id);
    }
  }

  lemma ReadyWorkIsClaimed(steps: seq<Step>, q: Query, id: Id)
    requires ValidQuery(q) && Matches(Run(steps).db, q, id) && !Exhausted(Run(steps).db.sessions[id], q)
    ensures |Next(Run(steps), Step(q.now, ClaimOp(q))).issued| == |Run(steps).issued| + 1
  {
    RunRows(steps);
    RunKeeps(steps);
    hide Run, Inv;
    ClaimServes(Run(steps).db, q, id);
    ClaimEffects(Run(steps).db, q);
    assert q.(now := q.now) == q;
  }

  // ---- Bounded bypass --------------------------------------------------------

  /** The live sessions a claim would consider before this one. */
  ghost function Ahead(db: Store, id: Id): set<Id>
    requires id in db.sessions
  {
    set k | k in db.sessions && k != id && !Terminal(db.sessions[k]) && Before(db.sessions[k], db.sessions[id])
  }

  /** Sessions that a transaction created or returned to service. */
  ghost function Arrivals(w: World, step: Step): set<Id> {
    set k | k in Next(w, step).db.sessions && !Terminal(Next(w, step).db.sessions[k])
      && (k !in w.db.sessions || Terminal(w.db.sessions[k]))
  }

  /** A claim that serves another session takes it from ahead of the one that keeps waiting. */
  lemma {:induction false} ClaimPasses(db: Store, q: Query, id: Id)
    requires ValidQuery(q) && Matches(db, q, id)
    requires var (db', r) := ClaimFrom(db, q);
      r.Some? && r.value.session != id && id in db'.sessions && db'.sessions[id] == db.sessions[id]
    ensures var (db', r) := ClaimFrom(db, q);
      r.value.session in Ahead(db, id) && Ahead(db', id) <= Ahead(db, id) - {r.value.session}
    decreases ReadyIds(db, q)
  {
    if !exists k :: IsFirst(db, q, k) {
      NothingToClaim(db, q);
    }
    var first :| IsFirst(db, q, first);
    ClaimUnfolds(db, q, first);
    var (db', r) := ClaimFrom(db, q);
    if Exhausted(db.sessions[first], q) {
      var parked := ParkFirst(db, first);
      ClaimEffects(parked, q);
      assert ClaimEffect(id, parked.sessions[id], db'.sessions[id], q, r, db.nextToken);
      if first != id {
        ClaimPasses(parked, q, id);
        assert Ahead(parked, id) <= Ahead(db, id);
      }
    } else {
      LeaseMovesBack(db, q, first, id);
    }
  }

  lemma LeaseMovesBack(db: Store, q: Query, first: Id, id: Id)
    requires ValidQuery(q) && first in db.sessions && id in db.sessions && first != id
    requires !Terminal(db.sessions[first]) && Before(db.sessions[first], db.sessions[id])
    ensures first in Ahead(db, id) && id in LeaseFirst(db, q, first).0.sessions
    ensures Ahead(LeaseFirst(db, q, first).0, id) <= Ahead(db, id) - {first}
  {
    var next := LeaseFirst(db, q, first).0;
    assert next.sessions[first].lastClaim == MaxClaim(db.sessions) + 1;
    assert forall k | k in db.sessions && k != first :: next.sessions[k] == db.sessions[k];
  }

  /** One transaction of a wait: the session stays, and no claim that asks for it leases or parks it. */
  ghost predicate StillWaiting(w: World, step: Step, id: Id) {
    && id in w.db.sessions && id in Next(w, step).db.sessions
    && (step.op.ClaimOp? ==>
          && ValidQuery(step.op.q.(now := step.now))
          && Matches(w.db, step.op.q.(now := step.now), id)
          && Next(w, step).db.sessions[id] == w.db.sessions[id])
  }

  ghost predicate ServesOther(w: World, step: Step) {
    step.op.ClaimOp? && |Next(w, step).issued| > |w.issued|
  }

  lemma StepBypass(w: World, step: Step, id: Id)
    requires Inv(w) && StillWaiting(w, step, id)
    ensures |Ahead(Next(w, step).db, id)| + (if ServesOther(w, step) then 1 else 0)
         <= |Ahead(w.db, id)| + |Arrivals(w, step)|
  {
    hide Inv, SessionOk, ClaimFrom, CommitTo, Pending, Before;
    var w' := Next(w, step);
    if step.op.ClaimOp? {
      ClaimBypass(w, step, id);
    } else {
      assert !ServesOther(w, step);
      forall k | k in Ahead(w'.db, id) ensures k in Ahead(w.db, id) + Arrivals(w, step) {
        if k in w.db.sessions {
          PlaceOrder(w, step, k, id);
        }
      }
      assert Ahead(w'.db, id) <= Ahead(w.db, id) + Arrivals(w, step);
      Subset(Ahead(w'.db, id), Ahead(w.db, id) + Arrivals(w, step));
      UnionSize(Ahead(w.db, id), Arrivals(w, step));
    }
  }

  lemma PlaceOrder(w: World, step: Step, k: Id, id: Id)
    requires Inv(w) && !step.op.ClaimOp? && k in w.db.sessions && id in w.db.sessions
    requires k in Next(w, step).db.sessions && id in Next(w, step).db.sessions
    ensures Before(Next(w, step).db.sessions[k], Next(w, step).db.sessions[id])
       <==> Before(w.db.sessions[k], w.db.sessions[id])
  {
    hide Next, Inv;
    PlaceKept(w, step, k);
    PlaceKept(w, step, id);
  }

  lemma ClaimBypass(w: World, step: Step, id: Id)
    requires Inv(w) && StillWaiting(w, step, id) && step.op.ClaimOp?
    ensures |Ahead(Next(w, step).db, id)| + (if ServesOther(w, step) then 1 else 0) <= |Ahead(w.db, id)|
  {
    hide SessionOk, ClaimFrom, Pending, Before, Runnable;
    var q := step.op.q.(now := step.now);
    var (db', r) := ClaimFrom(w.db, q);
    ClaimEffects(w.db, q);
    assert ClaimEffect(id, w.db.sessions[id], db'.sessions[id], q, r, w.db.nextToken);
    if r.Some? {
      ClaimPasses(w.db, q, id);
      Subset(Ahead(db', id), Ahead(w.db, id) - {r.value.session});
    } else {
      NothingServed(w.db, q, id);
      Subset(Ahead(db', id), Ahead(w.db, id));
    }
  }

  /** Parking others moves nobody ahead. */
  lemma NothingServed(db: Store, q: Query, id: Id)
    requires ValidQuery(q) && ClaimFrom(db, q).1.None? && id in db.sessions
    requires id in ClaimFrom(db, q).0.sessions && ClaimFrom(db, q).0.sessions[id] == db.sessions[id]
    ensures Ahead(ClaimFrom(db, q).0, id) <= Ahead(db, id)
  {
    hide ClaimFrom, Pending, Runnable, WithTimer, Leased, Activate;
    ClaimEffects(db, q);
    var db' := ClaimFrom(db, q).0;
    forall k | k in Ahead(db', id) ensures k in Ahead(db, id) {
      assert ClaimEffect(k, db.sessions[k], db'.sessions[k], q, None, db.nextToken);
    }
  }

  lemma Subset<T>(a: set<T>, b: set<T>)
    requires a <= b
    ensures |a| <= |b|
  {
    assert b == a + (b - a);
  }

  lemma UnionSize<T>(a: set<T>, b: set<T>)
    ensures |a + b| <= |a| + |b|
  {
    assert a + b == a + (b - a);
    Subset(b - a, b);
  }

  ghost predicate WaitsThrough(w: World, steps: seq<Step>, id: Id)
    decreases |steps|
  {
    steps == [] || (StillWaiting(w, steps[0], id) && WaitsThrough(Next(w, steps[0]), steps[1..], id))
  }

  /** The claims of a run that leased a session. */
  ghost function Served(w: World, steps: seq<Step>): nat
    decreases |steps|
  {
    if steps == [] then 0
    else (if ServesOther(w, steps[0]) then 1 else 0) + Served(Next(w, steps[0]), steps[1..])
  }

  ghost function Arrived(w: World, steps: seq<Step>): nat
    decreases |steps|
  {
    if steps == [] then 0 else |Arrivals(w, steps[0])| + Arrived(Next(w, steps[0]), steps[1..])
  }

  /** While a session is ready and matches every claim, the claims that serve others before it are at
      most the live sessions ahead of it, plus the sessions created or retried meanwhile. */
  lemma {:induction false} BoundedBypass(w: World, steps: seq<Step>, id: Id)
    requires Inv(w) && id in w.db.sessions && WaitsThrough(w, steps, id)
    ensures id in Continue(w, steps).db.sessions
    ensures Served(w, steps) + |Ahead(Continue(w, steps).db, id)| <= |Ahead(w.db, id)| + Arrived(w, steps)
    decreases |steps|
  {
    if steps == [] {
    } else {
      hide Next, Inv, Ahead, Arrivals, ServesOther;
      StepKeeps(w, steps[0]);
      StepBypass(w, steps[0], id);
      StaysHere(w, steps[0], id);
      BoundedBypass(Next(w, steps[0]), steps[1..], id);
    }
  }

  lemma StaysHere(w: World, step: Step, id: Id)
    requires StillWaiting(w, step, id)
    ensures id in Next(w, step).db.sessions
  {
  }

  // ---- Attempts --------------------------------------------------------------

  ghost predicate LeasesNow(w: World, step: Step, id: Id) {
    step.op.ClaimOp? && |Next(w, step).issued| > |w.issued| && Next(w, step).issued[|w.issued|].act.session == id
  }

  ghost predicate RetriesNow(w: World, step: Step, id: Id) {
    step.op == RetryOp(id) && id in w.db.sessions && w.db.sessions[id].status == Failed
  }

  /** The leases of a session since it was created, last checkpointed or last retried. */
  ghost function LeasesSince(steps: seq<Step>, id: Id): nat {
    if steps == [] then 0
    else
      var w, step := Run(steps[..|steps| - 1]), steps[|steps| - 1];
      if id !in w.db.sessions || CommitsFor(w, step, id) || RetriesNow(w, step, id) then 0
      else LeasesSince(steps[..|steps| - 1], id) + if LeasesNow(w, step, id) then 1 else 0
  }

  /** Every claim of the run parks sessions at the same limit. */
  predicate UniformLimit(steps: seq<Step>, limit: nat) {
    forall i | 0 <= i < |steps| && steps[i].op.ClaimOp? :: steps[i].op.q.maxAttempts == Some(limit)
  }

  lemma AttemptsStep(w: World, step: Step, id: Id)
    requires Inv(w) && id in Next(w, step).db.sessions
    ensures Next(w, step).db.sessions[id].attempts ==
      if id !in w.db.sessions || CommitsFor(w, step, id) || RetriesNow(w, step, id) then 0
      else w.db.sessions[id].attempts + if LeasesNow(w, step, id) then 1 else 0
    ensures LeasesNow(w, step, id) ==>
      id in w.db.sessions && !Exhausted(w.db.sessions[id], step.op.q)
  {
    hide ClaimFrom, CommitTo, SessionOk, Pending;
    match step.op
    case CommitOp(token, p) =>
      if Commits(w, step) {
        AttemptsCommit(w, step, id);
      }
    case ClaimOp(q0) => AttemptsClaim(w, step, id);
    case AppendOp(to, event) =>
      if AppendTo(w.db, to, event, false).Ok? && id in w.db.sessions {
        AppendGrows(w.db, to, event, id);
      }
    case _ =>
  }

  lemma AttemptsClaim(w: World, step: Step, id: Id)
    requires Inv(w) && step.op.ClaimOp? && id in Next(w, step).db.sessions
    ensures id in w.db.sessions
    ensures Next(w, step).db.sessions[id].attempts ==
      w.db.sessions[id].attempts + if LeasesNow(w, step, id) then 1 else 0
    ensures LeasesNow(w, step, id) ==> !Exhausted(w.db.sessions[id], step.op.q)
  {
    hide ClaimFrom, SessionOk, Pending;
    var q := step.op.q.(now := step.now);
    if ValidQuery(q) {
      ClaimEffects(w.db, q);
      assert ClaimEffect(id, w.db.sessions[id], Next(w, step).db.sessions[id], q, ClaimFrom(w.db, q).1, w.db.nextToken);
    }
  }

  lemma AttemptsCommit(w: World, step: Step, id: Id)
    requires Inv(w) && Commits(w, step) && id in Next(w, step).db.sessions
    ensures Next(w, step).db.sessions[id].attempts ==
      if id !in w.db.sessions || CommitsFor(w, step, id) then 0 else w.db.sessions[id].attempts
  {
    NextCommit(w, step);
    hide CommitTo, Next, SessionOk, Pending, ExtendChains;
    var act := w.issued[step.op.token].act;
    CommitterRevision(w.db, act, step.op.p, step.now);
    BystanderEffect(w.db, act, step.op.p, step.now, w.chains, act.session);
    BystanderEffect(w.db, act, step.op.p, step.now, w.chains, id);
    if id !in w.db.sessions {
      var row: nat, executable :|
        Grew(NewSession(row, executable, ExtendChains(w.chains, step.op.p.spawn)[id].initial),
             Next(w, step).db.sessions[id]);
    }
  }

  /** The attempt counter counts exactly the leases since the last checkpoint or retry, and under a
      uniform limit there are never more of them than the limit. */
  lemma {:induction false} AttemptsBounded(steps: seq<Step>, id: Id, limit: nat)
    requires id in Run(steps).db.sessions && UniformLimit(steps, limit)
    ensures Run(steps).db.sessions[id].attempts == LeasesSince(steps, id)
    ensures LeasesSince(steps, id) <= limit
    decreases |steps|
  {
    hide Next, Inv;
    var n := |steps| - 1;
    assert steps != [];
    var w, step := Run(steps[..n]), steps[n];
    RunKeeps(steps[..n]);
    AttemptsStep(w, step, id);
    if id in w.db.sessions {
      AttemptsBounded(steps[..n], id, limit);
    }
  }

  // ---- Checkpoints touch no stranger -----------------------------------------

  predicate PublishesTo(p: Proposal, id: Id) {
    exists i :: 0 <= i < |p.publish| && p.publish[i].session == id
  }

  /** A rejected checkpoint changes no table; an accepted one changes only the committer, its new children
      and the sessions it published to, and those only by new mail. */
  lemma CheckpointFrame(w: World, step: Step, id: Id)
    requires Inv(w) && step.op.CommitOp?
    ensures !Commits(w, step) ==> Next(w, step) == w.(clock := step.now)
    ensures Commits(w, step) ==>
      var act, p, w' := w.issued[step.op.token].act, step.op.p, Next(w, step);
      && w'.db.definitions == w.db.definitions
      && (id in w'.db.sessions <==> id in w.db.sessions || id in Children(p.spawn))
      && (id in Children(p.spawn) ==> id !in w.db.sessions)
      && (id in w.db.sessions && id != act.session && !PublishesTo(p, id) ==> w'.db.sessions[id] == w.db.sessions[id])
      && (id in w.db.sessions && id != act.session ==> Grew(w.db.sessions[id], w'.db.sessions[id]))
  {
    if Commits(w, step) {
      NextCommit(w, step);
      hide Next, SessionOk, ExtendChains, Grew;
      var act, p := w.issued[step.op.token].act, step.op.p;
      CommitFrame(w.db, act, p, step.now, id);
    } else {
      hide CommitTo, SessionOk;
    }
  }

  lemma CommitFrame(db: Store, act: Activation, p: Proposal, now: real, id: Id)
    requires CommitTo(db, act, p, now).Ok?
    ensures var db' := CommitTo(db, act, p, now).value;
      && db'.definitions == db.definitions
      && (id in db'.sessions <==> id in db.sessions || id in Children(p.spawn))
      && (id in Children(p.spawn) ==> id !in db.sessions)
      && (id in db.sessions && id != act.session && !PublishesTo(p, id) ==> db'.sessions[id] == db.sessions[id])
      && (id in db.sessions && id != act.session ==> Grew(db.sessions[id], db'.sessions[id]))
  {
    hide Grew, Malformed;
    var spawned := SpawnAll(db, p.spawn).value;
    var taken := Incorporate(spawned, act.session, p.incorporated);
    SpawnOnlyAdds(db, p.spawn);
    SpawnsChildren(db, p.spawn, id);
    PublishGrows(taken, p.publish, act.session);
    if id in spawned.sessions {
      PublishGrows(taken, p.publish, id);
    }
  }

  lemma {:induction false} SpawnsChildren(db: Store, spawn: seq<Spawn>, id: Id)
    requires SpawnAll(db, spawn).Ok?
    ensures id in Children(spawn) ==> id in SpawnAll(db, spawn).value.sessions
    decreases |spawn|
  {
    if spawn == [] {
    } else {
      ChildrenTail(spawn);
      SpawnsChildren(CreateIn(db, spawn[0].session, spawn[0].executable, spawn[0].state).value, spawn[1..], id);
    }
  }

  // ---- Complete sessions -----------------------------------------------------

  predicate Purges(step: Step, id: Id) { step.op.PurgeOp? && id in step.op.ids }

  /** Only a purge touches a complete session, and it removes it. */
  lemma OnlyPurged(w: World, step: Step, id: Id)
    requires Inv(w) && id in w.db.sessions && w.db.sessions[id].status == Complete
    ensures var w' := Next(w, step);
      || (id in w'.db.sessions && w'.db.sessions[id] == w.db.sessions[id])
      || (Purges(step, id) && id !in w'.db.sessions)
  {
    hide SessionOk, CommitTo, ClaimFrom, Pending;
    var s := w.db.sessions[id];
    RowFacts(id, s, w.issued, w.chains[id]);
    match step.op
    case CommitOp(_, _) => OnlyPurgedByCommit(w, step, id);
    case ClaimOp(q0) => OnlyPurgedByClaim(w, step, id);
    case AppendOp(to, event) =>
      if AppendTo(w.db, to, event, false).Ok? {
        AppendGrows(w.db, to, event, id);
      }
    case _ =>
  }

  lemma OnlyPurgedByCommit(w: World, step: Step, id: Id)
    requires Inv(w) && step.op.CommitOp? && id in w.db.sessions && w.db.sessions[id].status == Complete
    requires w.db.sessions[id].token.None?
    ensures id in Next(w, step).db.sessions && Next(w, step).db.sessions[id] == w.db.sessions[id]
  {
    hide SessionOk, CommitTo, Next, Inv;
    CheckpointFrame(w, step, id);
    if Commits(w, step) {
      CommitterHolds(w, step);
    }
  }

  lemma OnlyPurgedByClaim(w: World, step: Step, id: Id)
    requires Inv(w) && step.op.ClaimOp? && id in w.db.sessions && w.db.sessions[id].status == Complete
    ensures id in Next(w, step).db.sessions && Next(w, step).db.sessions[id] == w.db.sessions[id]
  {
    hide SessionOk, ClaimFrom, Pending;
    var q := step.op.q.(now := step.now);
    if ValidQuery(q) {
      ClaimEffects(w.db, q);
      assert ClaimEffect(id, w.db.sessions[id], Next(w, step).db.sessions[id], q, ClaimFrom(w.db, q).1, w.db.nextToken);
    }
  }

  /** Over a whole run a complete session stays exactly as it was, until a purge names it. */
  lemma {:induction false} CompleteForGood(w: World, steps: seq<Step>, id: Id)
    requires Inv(w) && id in w.db.sessions && w.db.sessions[id].status == Complete
    requires forall i | 0 <= i < |steps| :: !Purges(steps[i], id)
    ensures id in Continue(w, steps).db.sessions && Continue(w, steps).db.sessions[id] == w.db.sessions[id]
    decreases |steps|
  {
    hide Next, Inv;
    if steps == [] {
    } else {
      StepKeeps(w, steps[0]);
      OnlyPurged(w, steps[0], id);
      CompleteForGood(Next(w, steps[0]), steps[1..], id);
    }
  }
}
