/** What every run of the session store guarantees. */
module SessionTheorems {
  import opened Mail
  import opened SessionStore
  import opened SessionHistory
  import opened SessionSafety

  // ---- One serial history ----------------------------------------------------

  /** The accepted checkpoints of a session form one chain: each was computed from exactly the state
      and revision the one before it wrote, by its own lease, and the revision counts them. */
  lemma SerialHistory(steps: seq<Step>, id: Id)
    requires id in Run(steps).db.sessions
    ensures var w := Run(steps);
      var s := w.db.sessions[id];
      && id in w.chains
      && var c := w.chains[id];
      && s.revision == |c.entries|
      && s.state == StateBefore(c, |c.entries|)
      && (forall k | 0 <= k < |c.entries| ::
            && c.entries[k].token < |w.issued|
            && w.issued[c.entries[k].token].act.session == id
            && w.issued[c.entries[k].token].act.state == StateBefore(c, k)
            && w.issued[c.entries[k].token].revision == k)
      && (forall k, l | 0 <= k < l < |c.entries| :: c.entries[k].token != c.entries[l].token)
  {
    RunKeeps(steps);
    var w := Run(steps);
    assert SessionOk(id, w.db.sessions[id], w.issued, w.chains[id]);
  }

  lemma NextCommit(w: World, step: Step)
    requires Commits(w, step)
    ensures var act, p := w.issued[step.op.token].act, step.op.p;
      Next(w, step) == World(
        CommitTo(w.db, act, p, step.now).value, step.now, w.issued, w.accepted + [step.op.token],
        ExtendChains(w.chains, p.spawn)[
          act.session := Link(w.chains[act.session], Entry(step.op.token, p.state, p.incorporated))])
  {
    hide CommitTo, ExtendChains, Link;
  }

  lemma LeaseFacts(id: Id, s: Session, issued: seq<Lease>, c: Chain)
    requires SessionOk(id, s, issued, c)
    ensures LeaseOk(id, s, issued)
  {
  }

  lemma CommitExtends(w: World, step: Step)
    requires Inv(w) && Commits(w, step)
    ensures var w' := Next(w, step);
      var lease := w.issued[step.op.token];
      var id := lease.act.session;
      && id in w.db.sessions && id in w'.db.sessions && id in w.chains && id in w'.chains
      && lease.act.state == w.db.sessions[id].state
      && lease.revision == w.db.sessions[id].revision
      && lease.act.executable == w.db.sessions[id].executable
      && w'.db.sessions[id].revision == w.db.sessions[id].revision + 1
      && w'.db.sessions[id].state == step.op.p.state
      && w'.chains[id].entries == w.chains[id].entries + [Entry(step.op.token, step.op.p.state, step.op.p.incorporated)]
  {
    NextCommit(w, step);
    hide CommitTo, SessionOk, ExtendChains, Next;
    CommitterHolds(w, step);
    var act, p := w.issued[step.op.token].act, step.op.p;
    LeaseFacts(act.session, w.db.sessions[act.session], w.issued, w.chains[act.session]);
    CommitterRevision(w.db, act, p, step.now);
  }

  lemma CommitterRevision(db: Store, act: Activation, p: Proposal, now: real)
    requires CommitTo(db, act, p, now).Ok?
    ensures act.session in db.sessions && act.session in CommitTo(db, act, p, now).value.sessions
    ensures var s' := CommitTo(db, act, p, now).value.sessions[act.session];
      s'.revision == db.sessions[act.session].revision + 1 && s'.state == p.state && s'.attempts == 0
      && s'.token.None? && s'.status != Failed
      && s'.rowid == db.sessions[act.session].rowid && s'.lastClaim == db.sessions[act.session].lastClaim
  {
    hide CommitTo, Mark, Malformed, Pending;
    var _ := CommitterEffect(db, act, p, now);
  }

  /** A checkpoint is accepted only over the state and revision its lease was given, and extends
      the history of its session by exactly one entry. */
  lemma CommitSeesStoredState(steps: seq<Step>, step: Step)
    requires Commits(Run(steps), step)
    ensures var w, w' := Run(steps), Next(Run(steps), step);
      var lease := w.issued[step.op.token];
      var id := lease.act.session;
      && id in w.db.sessions && id in w'.db.sessions && id in w.chains && id in w'.chains
      && lease.act.state == w.db.sessions[id].state
      && lease.revision == w.db.sessions[id].revision
      && lease.act.executable == w.db.sessions[id].executable
      && w'.db.sessions[id].revision == w.db.sessions[id].revision + 1
      && w'.db.sessions[id].state == step.op.p.state
      && w'.chains[id].entries == w.chains[id].entries + [Entry(step.op.token, step.op.p.state, step.op.p.incorporated)]
  {
    RunKeeps(steps);
    CommitExtends(Run(steps), step);
  }

  /** However a run goes on, no lease is accepted twice, not even by a zombie holder. */
  lemma {:induction false} AcceptedOnce(steps: seq<Step>, more: seq<Step>, step: Step)
    requires step.op.CommitOp? && step.op.token in Run(steps).accepted
    ensures !Commits(Run(steps + more), step)
    ensures Distinct(Run(steps + more).accepted)
    decreases |more|
  {
    RunKeeps(steps + more);
    AcceptedGrows(steps, more);
    var w := Run(steps + more);
    if Commits(w, step) {
      CommitterHolds(w, step);
    }
  }

  lemma {:induction false} AcceptedGrows(steps: seq<Step>, more: seq<Step>)
    ensures Run(steps).accepted <= Run(steps + more).accepted
    ensures Run(steps).issued <= Run(steps + more).issued
    decreases |more|
  {
    if more == [] {
      assert steps + more == steps;
    } else {
      var n := |more| - 1;
      AcceptedGrows(steps, more[..n]);
      assert (steps + more)[..|steps + more| - 1] == steps + more[..n];
    }
  }

  // ---- Mail ------------------------------------------------------------------

  /** An input is marked incorporated exactly when one accepted checkpoint of its session took it,
      and then that checkpoint is the only one. */
  lemma MailTakenOnce(steps: seq<Step>, id: Id, i: nat)
    requires id in Run(steps).db.sessions && i < |Run(steps).db.sessions[id].inbox|
    ensures var w := Run(steps);
      var x := w.db.sessions[id].inbox[i];
      && id in w.chains
      && (x.incorporated <==> TookBy(w.chains[id], x.event.id))
      && (forall k, l | 0 <= k < |w.chains[id].entries| && 0 <= l < |w.chains[id].entries| ::
            x.event.id in w.chains[id].entries[k].took && x.event.id in w.chains[id].entries[l].took ==> k == l)
      && (forall j | 0 <= j < |w.db.sessions[id].inbox| && j != i :: w.db.sessions[id].inbox[j].event.id != x.event.id)
  {
    RunKeeps(steps);
    var w := Run(steps);
    assert SessionOk(id, w.db.sessions[id], w.issued, w.chains[id]);
  }

  /** When every checkpoint took its whole batch, the batches in commit order followed by the
      pending mail are the acceptance order, whatever the batch limits, crashes and duplicates. */
  lemma MailInOrder(steps: seq<Step>, id: Id)
    requires var w := Run(steps);
      id in w.db.sessions && id in w.chains && AllWhole(w.chains[id], w.issued)
    ensures var w := Run(steps);
      Delivered(w.chains[id].entries, w.issued) + Pending(w.db.sessions[id].inbox) == Accepted(w.db.sessions[id].inbox)
  {
    RunKeeps(steps);
    var w := Run(steps);
    assert SessionOk(id, w.db.sessions[id], w.issued, w.chains[id]);
  }

  // ---- Timers ----------------------------------------------------------------

  /** Leasing a session whose deadline is due leaves exactly one timer input for its revision, not yet
      taken by any checkpoint; a retry of the same step finds that same input again. */
  lemma OneTimerPerRevision(steps: seq<Step>, step: Step, id: Id)
    requires var w, w' := Run(steps), Next(Run(steps), step);
      && step.op.ClaimOp? && |w'.issued| > |w.issued|
      && w'.issued[|w.issued|].act.session == id
      && id in w.db.sessions && Due(w.db.sessions[id], step.now)
    ensures var w, w' := Run(steps), Next(Run(steps), step);
      var timer := Timer(id, w.db.sessions[id].revision);
      && id in w'.db.sessions && id in w'.chains
      && (exists i :: 0 <= i < |w'.db.sessions[id].inbox|
            && w'.db.sessions[id].inbox[i].event.id == timer
            && !w'.db.sessions[id].inbox[i].incorporated
            && forall j | 0 <= j < |w'.db.sessions[id].inbox| && j != i ::
              w'.db.sessions[id].inbox[j].event.id != timer)
      && !TookBy(w'.chains[id], timer)
      && (Known(w.db.sessions[id].inbox, timer) ==> w'.db.sessions[id].inbox == w.db.sessions[id].inbox)
  {
    RunKeeps(steps);
    hide Inv, Next, Due, Known, TookBy;
    TimerLeased(Run(steps), step, id);
  }

  lemma TimerLeased(w: World, step: Step, id: Id)
    requires Inv(w) && step.op.ClaimOp? && |Next(w, step).issued| > |w.issued|
    requires Next(w, step).issued[|w.issued|].act.session == id && id in w.db.sessions
    requires Due(w.db.sessions[id], step.now)
    ensures var w' := Next(w, step);
      var timer := Timer(id, w.db.sessions[id].revision);
      && id in w'.db.sessions && id in w'.chains
      && (exists i :: 0 <= i < |w'.db.sessions[id].inbox|
            && w'.db.sessions[id].inbox[i].event.id == timer
            && !w'.db.sessions[id].inbox[i].incorporated
            && forall j | 0 <= j < |w'.db.sessions[id].inbox| && j != i ::
              w'.db.sessions[id].inbox[j].event.id != timer)
      && !TookBy(w'.chains[id], timer)
      && (Known(w.db.sessions[id].inbox, timer) ==> w'.db.sessions[id].inbox == w.db.sessions[id].inbox)
  {
    hide Inv, Next, Known, Due, TookBy;
    StepKeeps(w, step);
    var s := w.db.sessions[id];
    LeaseRow(w, step);
    TimerStored(id, s, step.now);
    OneTimer(id, s, step.now, Next(w, step), Next(w, step).db.sessions[id]);
  }

  /** The row a claim leases. */
  lemma LeaseRow(w: World, step: Step)
    requires Inv(w) && step.op.ClaimOp? && |Next(w, step).issued| > |w.issued|
    ensures var w' := Next(w, step);
      var act := w'.issued[|w.issued|].act;
      var q := step.op.q.(now := step.now);
      && ValidQuery(q) && act.session in w.db.sessions && act.session in w'.db.sessions
      && act == Activate(act.session, WithTimer(act.session, w.db.sessions[act.session], step.now), q, |w.issued|)
      && w'.issued == w.issued + [Lease(act, w.db.sessions[act.session].revision)]
      && IsReady(w.db.sessions[act.session], step.now) && !Exhausted(w.db.sessions[act.session], q)
      && exists n: nat :: n > w.db.sessions[act.session].lastClaim && w'.db.sessions[act.session]
           == Leased(WithTimer(act.session, w.db.sessions[act.session], step.now), q, |w.issued|, n)
  {
    hide SessionOk, ClaimFrom, WithTimer, IsReady, Exhausted;
    var q := step.op.q.(now := step.now);
    ClaimEffects(w.db, q);
    var id := Next(w, step).issued[|w.issued|].act.session;
    assert ClaimEffect(id, w.db.sessions[id], Next(w, step).db.sessions[id], q, ClaimFrom(w.db, q).1, w.db.nextToken);
  }

  lemma OneTimer(id: Id, s: Session, now: real, w: World, after: Session)
    requires Inv(w) && id in w.db.sessions && after == w.db.sessions[id]
    requires Due(s, now) && after.inbox == WithTimer(id, s, now).inbox && after.revision == s.revision
    ensures var timer := Timer(id, s.revision);
      && (exists i :: 0 <= i < |after.inbox| && after.inbox[i].event.id == timer && !after.inbox[i].incorporated
            && forall j | 0 <= j < |after.inbox| && j != i :: after.inbox[j].event.id != timer)
      && id in w.chains && !TookBy(w.chains[id], timer)
  {
    assert SessionOk(id, after, w.issued, w.chains[id]);
    TimerStored(id, s, now);
    var i :| 0 <= i < |after.inbox| && after.inbox[i].event.id == Timer(id, s.revision);
    assert !after.inbox[i].incorporated;
  }

  lemma TimerStored(id: Id, s: Session, now: real)
    requires Due(s, now)
    ensures Known(WithTimer(id, s, now).inbox, Timer(id, s.revision))
  {
    var t := WithTimer(id, s, now);
    if t != s {
      assert t.inbox[|s.inbox|].event.id == Timer(id, s.revision);
    }
  }

  // ---- Wakes -----------------------------------------------------------------

  predicate Parked(w: World, w': World, id: Id) {
    && id in w.db.sessions && id in w'.db.sessions
    && w.db.sessions[id].status != Failed && w'.db.sessions[id].status == Failed
  }

  /** A session that is runnable apart from its lease stays so, at every later clock reading, through
      every transaction except its own checkpoint and its parking as failed. */
  lemma WakeKept(w: World, step: Step, id: Id)
    requires Inv(w) && step.now >= w.clock
    requires id in w.db.sessions && Runnable(w.db.sessions[id], w.clock)
    ensures var w' := Next(w, step);
      id in w'.db.sessions
      && (Runnable(w'.db.sessions[id], step.now) || CommitsFor(w, step, id) || Parked(w, w', id))
  {
    hide ClaimFrom, CommitTo, Pending, SessionOk;
    var s := w.db.sessions[id];
    assert Runnable(s, step.now);
    if step.op.ClaimOp? {
      WakeKeptByClaim(w, step, id);
    } else if step.op.CommitOp? {
      if Commits(w, step) {
        BystanderEffect(w.db, w.issued[step.op.token].act, step.op.p, step.now, w.chains, id);
      }
      if Commits(w, step) && !CommitsFor(w, step, id) {
        hide Runnable;
        GrewRunnable(id, s, Next(w, step).db.sessions[id], step.now, w.issued, w.chains[id]);
      }
    } else {
      WakeKeptOtherwise(w, step, id);
    }
  }

  lemma WakeKeptByClaim(w: World, step: Step, id: Id)
    requires Inv(w) && step.op.ClaimOp?
    requires id in w.db.sessions && Runnable(w.db.sessions[id], step.now)
    ensures var w' := Next(w, step);
      id in w'.db.sessions && (Runnable(w'.db.sessions[id], step.now) || Parked(w, w', id))
  {
    hide ClaimFrom, Pending, SessionOk;
    var q := step.op.q.(now := step.now);
    if ValidQuery(q) {
      ClaimEffects(w.db, q);
      assert ClaimEffect(id, w.db.sessions[id], Next(w, step).db.sessions[id], q, ClaimFrom(w.db, q).1, w.db.nextToken);
    }
  }

  lemma WakeKeptOtherwise(w: World, step: Step, id: Id)
    requires Inv(w) && !step.op.ClaimOp? && !step.op.CommitOp?
    requires id in w.db.sessions && Runnable(w.db.sessions[id], step.now)
    ensures id in Next(w, step).db.sessions && Runnable(Next(w, step).db.sessions[id], step.now)
  {
    hide Pending, SessionOk;
    var s, w' := w.db.sessions[id], Next(w, step);
    match step.op
    case AppendOp(to, event) =>
      if AppendTo(w.db, to, event, false).Ok? {
        AppendGrows(w.db, to, event, id);
        GrewRunnable(id, s, w'.db.sessions[id], step.now, w.issued, w.chains[id]);
      }
    case ReleaseOp(token, message, after) =>
      if w'.db.sessions[id] != s {
        ReleasedRunnable(id, s, step.now, message, after, w.issued, w.chains[id]);
      }
    case _ =>
  }

  /** A worker that gives up leaves the session as runnable as it found it. */
  lemma ReleasedRunnable(id: Id, s: Session, now: real, message: Option<string>, after: Option<real>,
                         issued: seq<Lease>, c: Chain)
    requires SessionOk(id, s, issued, c) && s.token.Some?
    ensures Runnable(Released(s, now, message, after), now)
  {
  }

  lemma GrewRunnable(id: Id, a: Session, b: Session, now: real, issued: seq<Lease>, c: Chain)
    requires SessionOk(id, a, issued, c) && Grew(a, b) && Runnable(a, now)
    ensures Runnable(b, now)
  {
    GrewOk(id, a, b, issued, c);
  }

  lemma NextClock(w: World, step: Step)
    ensures Next(w, step).clock == step.now
  {
  }

  ghost function Continue(w: World, steps: seq<Step>): World
    decreases |steps|
  {
    if steps == [] then w else Continue(Next(w, steps[0]), steps[1..])
  }

  /** The clock readings of a run never go back. */
  predicate Monotone(clock: real, steps: seq<Step>)
    decreases |steps|
  {
    steps == [] || (steps[0].now >= clock && Monotone(steps[0].now, steps[1..]))
  }

  ghost predicate Undisturbed(w: World, steps: seq<Step>, id: Id)
    decreases |steps|
  {
    steps == [] ||
    (!CommitsFor(w, steps[0], id) && !Parked(w, Next(w, steps[0]), id)
     && Undisturbed(Next(w, steps[0]), steps[1..], id))
  }

  /** No wake is lost over a whole run: claims, crashed workers, expired leases, backoffs, releases, mail,
      and other sessions' checkpoints never make a runnable session wait for something else. */
  lemma {:induction false} NoLostWake(w: World, steps: seq<Step>, id: Id)
    requires Inv(w) && Monotone(w.clock, steps) && Undisturbed(w, steps, id)
    requires id in w.db.sessions && Runnable(w.db.sessions[id], w.clock)
    ensures id in Continue(w, steps).db.sessions
    ensures Runnable(Continue(w, steps).db.sessions[id], Continue(w, steps).clock)
    decreases |steps|
  {
    if steps == [] {
    } else {
      hide Next, Inv, Runnable;
      StepKeeps(w, steps[0]);
      WakeKept(w, steps[0], id);
      NextClock(w, steps[0]);
      NoLostWake(Next(w, steps[0]), steps[1..], id);
    }
  }

  /** A failed session still has the reason it was runnable. */
  predicate FailedKeepsReason(s: Session, clock: real) {
    s.status == Failed ==> s.revision == 0 || Due(s, clock) || Pending(s.inbox) != []
  }

  lemma ReasonKept(w: World, step: Step, id: Id)
    requires Inv(w) && step.now >= w.clock && id in Next(w, step).db.sessions
    requires forall k | k in w.db.sessions :: FailedKeepsReason(w.db.sessions[k], w.clock)
    ensures FailedKeepsReason(Next(w, step).db.sessions[id], step.now)
  {
    hide ClaimFrom, CommitTo, Pending, SessionOk, Next, Inv, FailedKeepsReason;
    if Commits(w, step) {
      ReasonKeptByCommit(w, step, id);
    } else if step.op.ClaimOp? {
      ReasonKeptByClaim(w, step, id);
    } else {
      ReasonKeptOtherwise(w, step, id);
    }
  }

  lemma ReasonKeptByClaim(w: World, step: Step, id: Id)
    requires Inv(w) && step.now >= w.clock && step.op.ClaimOp? && id in Next(w, step).db.sessions
    requires forall k | k in w.db.sessions :: FailedKeepsReason(w.db.sessions[k], w.clock)
    ensures FailedKeepsReason(Next(w, step).db.sessions[id], step.now)
  {
    hide ClaimFrom, Pending, SessionOk;
    var q := step.op.q.(now := step.now);
    if ValidQuery(q) {
      ClaimEffects(w.db, q);
      RowFacts(id, w.db.sessions[id], w.issued, w.chains[id]);
      assert ClaimEffect(id, w.db.sessions[id], Next(w, step).db.sessions[id], q, ClaimFrom(w.db, q).1, w.db.nextToken);
    }
  }

  lemma ReasonKeptOtherwise(w: World, step: Step, id: Id)
    requires Inv(w) && step.now >= w.clock && !step.op.ClaimOp? && !Commits(w, step) && id in Next(w, step).db.sessions
    requires forall k | k in w.db.sessions :: FailedKeepsReason(w.db.sessions[k], w.clock)
    ensures FailedKeepsReason(Next(w, step).db.sessions[id], step.now)
  {
    hide Pending, SessionOk, CommitTo, Commits;
    if id in w.db.sessions {
      var s, s' := w.db.sessions[id], Next(w, step).db.sessions[id];
      assert FailedKeepsReason(s, step.now);
      if step.op.AppendOp? && AppendTo(w.db, step.op.id, step.op.event, false).Ok? {
        AppendGrows(w.db, step.op.id, step.op.event, id);
        GrewOk(id, s, s', w.issued, w.chains[id]);
      }
    }
  }

  lemma ReasonKeptByCommit(w: World, step: Step, id: Id)
    requires Inv(w) && step.now >= w.clock && Commits(w, step) && id in Next(w, step).db.sessions
    requires forall k | k in w.db.sessions :: FailedKeepsReason(w.db.sessions[k], w.clock)
    ensures FailedKeepsReason(Next(w, step).db.sessions[id], step.now)
  {
    NextCommit(w, step);
    hide CommitTo, Pending, SessionOk, Next, ExtendChains;
    var act := w.issued[step.op.token].act;
    if id == act.session {
      CommitterRevision(w.db, act, step.op.p, step.now);
    } else if id in w.db.sessions {
      BystanderEffect(w.db, act, step.op.p, step.now, w.chains, id);
      var s, s' := w.db.sessions[id], Next(w, step).db.sessions[id];
      GrewOk(id, s, s', w.issued, w.chains[id]);
      assert s'.status == s.status && s'.deadline == s.deadline && s'.revision == s.revision;
      assert FailedKeepsReason(s, w.clock);
    } else {
      BornReady(w, step, id);
    }
  }

  lemma BornReady(w: World, step: Step, id: Id)
    requires Inv(w) && Commits(w, step) && id !in w.db.sessions && id in Next(w, step).db.sessions
    ensures Next(w, step).db.sessions[id].status == Ready && Next(w, step).db.sessions[id].lastClaim == 0
  {
    NextCommit(w, step);
    hide Next, CommitTo, SessionOk, ExtendChains;
    var act := w.issued[step.op.token].act;
    BystanderEffect(w.db, act, step.op.p, step.now, w.chains, act.session);
    BystanderEffect(w.db, act, step.op.p, step.now, w.chains, id);
    var c := ExtendChains(w.chains, step.op.p.spawn)[id];
    var row: nat, executable :| Grew(NewSession(row, executable, c.initial), Next(w, step).db.sessions[id]);
  }

  lemma RowFacts(id: Id, s: Session, issued: seq<Lease>, c: Chain)
    requires SessionOk(id, s, issued, c)
    ensures RowOk(s)
  {
  }

  lemma {:induction false} FailedReasons(steps: seq<Step>)
    requires Monotone(0.0, steps)
    ensures forall k | k in Run(steps).db.sessions :: FailedKeepsReason(Run(steps).db.sessions[k], Run(steps).clock)
    decreases |steps|
  {
    if steps == [] {
    } else {
      var n := |steps| - 1;
      hide Next, Inv, FailedKeepsReason, Monotone;
      MonotonePrefix(0.0, steps);
      FailedReasons(steps[..n]);
      RunKeeps(steps[..n]);
      ClockIsLast(steps[..n]);
      ReasonsKept(Run(steps[..n]), steps[n]);
    }
  }

  lemma ReasonsKept(w: World, step: Step)
    requires Inv(w) && step.now >= w.clock
    requires forall k | k in w.db.sessions :: FailedKeepsReason(w.db.sessions[k], w.clock)
    ensures var v := Next(w, step); forall k | k in v.db.sessions :: FailedKeepsReason(v.db.sessions[k], v.clock)
  {
    hide Next, Inv, FailedKeepsReason;
    NextClock(w, step);
    forall k | k in Next(w, step).db.sessions
      ensures FailedKeepsReason(Next(w, step).db.sessions[k], Next(w, step).clock)
    {
      ReasonKept(w, step, k);
    }
  }

  lemma {:induction false} MonotonePrefix(clock: real, steps: seq<Step>)
    requires steps != [] && Monotone(clock, steps)
    ensures Monotone(clock, steps[..|steps| - 1])
    ensures if |steps| == 1 then steps[0].now >= clock else steps[|steps| - 1].now >= steps[|steps| - 2].now
    decreases |steps|
  {
    if |steps| > 1 {
      MonotonePrefix(steps[0].now, steps[1..]);
      assert steps[1..][..|steps[1..]| - 1] == steps[..|steps| - 1][1..];
    }
  }

  lemma ClockIsLast(steps: seq<Step>)
    ensures Run(steps).clock == if steps == [] then 0.0 else steps[|steps| - 1].now
  {
    hide Next;
    if steps != [] {
      NextClock(Run(steps[..|steps| - 1]), steps[|steps| - 1]);
    }
  }

  /** Returning a failed session to service makes it claimable at once, with a fresh attempt count. */
  lemma RetryWakes(steps: seq<Step>, step: Step, id: Id)
    requires Monotone(0.0, steps + [step]) && step.op == RetryOp(id)
    requires id in Run(steps).db.sessions && Run(steps).db.sessions[id].status == Failed
    ensures id in Next(Run(steps), step).db.sessions
    ensures var s := Next(Run(steps), step).db.sessions[id];
      s.attempts == 0 && s.token.None? && Runnable(s, step.now)
      && IsReady(s, step.now)
  {
    MonotonePrefix(0.0, steps + [step]);
    assert (steps + [step])[..|steps + [step]| - 1] == steps;
    assert |steps| > 0 ==> (steps + [step])[|steps| - 1] == steps[|steps| - 1];
    hide Run, Next, Inv, FailedKeepsReason, Runnable, IsReady;
    ClockIsLast(steps);
    FailedReasons(steps);
    RunKeeps(steps);
    RetryRestores(Run(steps), step, id);
  }

  lemma RetryRestores(w: World, step: Step, id: Id)
    requires Inv(w) && step.now >= w.clock && step.op == RetryOp(id)
    requires id in w.db.sessions && w.db.sessions[id].status == Failed && FailedKeepsReason(w.db.sessions[id], w.clock)
    ensures id in Next(w, step).db.sessions
    ensures var s := Next(w, step).db.sessions[id];
      s.attempts == 0 && s.token.None? && Runnable(s, step.now)
      && IsReady(s, step.now)
  {
    hide SessionOk, Pending;
    RowFacts(id, w.db.sessions[id], w.issued, w.chains[id]);
  }
}
