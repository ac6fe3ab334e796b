/** When a session is served: leases last, backoffs last, sleepers sleep and wake on time, over whole runs. */
module SessionTimes {
  import opened Mail
  import opened SessionStore
  import opened SessionHistory
  import opened SessionSafety
  import opened SessionTheorems
  import opened SessionScheduling
  import Checkpoints = SessionCheckpoints

  // ---- What a claim leases ---------------------------------------------------

  /** Mail that no checkpoint has taken yet. */
  predicate HasMail(s: Session) { exists x | x in s.inbox :: !x.incorporated }

  /** The row may be leased at this time: it is in service, no lease or backoff runs, and it is new, abandoned by its
      last worker, at its deadline, or has mail. */
  predicate ServedAt(s: Session, now: real) {
    && s.status != Complete && s.status != Failed
    && (s.leaseUntil.Some? ==> s.leaseUntil.value <= now)
    && (s.status == Ready || s.status == Active || HasMail(s) || (s.deadline.Some? && s.deadline.value <= now))
  }

  /** A claim for this session alone, with attempts left. */
  predicate Asks(q: Query, id: Id, s: Session) {
    && q.leaseSeconds > 0.0 && (q.maxEvents.Some? ==> q.maxEvents.value > 0)
    && (q.maxAttempts.Some? ==> q.maxAttempts.value > 0 && s.attempts < q.maxAttempts.value)
    && q.session == Some(id) && (q.executable.None? || q.executable.value == s.executable)
  }

  lemma ServedReady(s: Session, now: real)
    ensures IsReady(s, now) <==> ServedAt(s, now)
  {
    Checkpoints.PendingNone(s.inbox);
  }

  /** Such a claim leases the session exactly when it may be leased. */
  lemma LeasedExactly(w: World, step: Step, id: Id)
    requires Inv(w) && RowsOk(w.db) && id in w.db.sessions && step.op.ClaimOp? && Asks(step.op.q, id, w.db.sessions[id])
    ensures LeasesNow(w, step, id) <==> ServedAt(w.db.sessions[id], step.now)
  {
    var q := step.op.q.(now := step.now);
    ServedReady(w.db.sessions[id], step.now);
    hide Inv, ClaimFrom, IsReady, ServedAt, RowsOk;
    ClaimEffects(w.db, q);
    if ServedAt(w.db.sessions[id], step.now) {
      ClaimServes(w.db, q, id);
    }
    if ClaimFrom(w.db, q).1.Some? {
      LeasedMatches(w.db, q);
    }
    ClaimIssues(w, step);
  }

  lemma ClaimIssues(w: World, step: Step)
    requires step.op.ClaimOp? && ValidQuery(step.op.q.(now := step.now))
    ensures var r := ClaimFrom(w.db, step.op.q.(now := step.now)).1;
      |Next(w, step).issued| > |w.issued| <==> r.Some? && r.value.session in w.db.sessions
    ensures var r := ClaimFrom(w.db, step.op.q.(now := step.now)).1;
      |Next(w, step).issued| > |w.issued| ==> Next(w, step).issued[|w.issued|].act == r.value
  {
    hide ClaimFrom;
  }

  /** A claim leases a row that its filters admit, and no row that they admit and has attempts left comes before. */
  lemma {:induction false} LeasedMatches(db: Store, q: Query)
    requires ValidQuery(q) && ClaimFrom(db, q).1.Some?
    ensures var id := ClaimFrom(db, q).1.value.session;
      && Matches(db, q, id) && !Exhausted(db.sessions[id], q)
      && forall k | Matches(db, q, k) && !Exhausted(db.sessions[k], q) && k != id ::
        Before(db.sessions[id], db.sessions[k])
    decreases ReadyIds(db, q)
  {
    if !exists k :: IsFirst(db, q, k) {
      NothingToClaim(db, q);
    }
    var first :| IsFirst(db, q, first);
    ClaimUnfolds(db, q, first);
    hide ClaimFrom, IsReady, Exhausted, Activate, WithTimer;
    if Exhausted(db.sessions[first], q) {
      var parked := ParkFirst(db, first);
      LeasedMatches(parked, q);
      var id := ClaimFrom(db, q).1.value.session;
      ParkedMatches(db, q, first, id);
      forall k | Matches(db, q, k) && !Exhausted(db.sessions[k], q) && k != id
        ensures Before(db.sessions[id], db.sessions[k])
      {
        ParkedMatches(db, q, first, k);
      }
    } else {
      LeaseActs(db, q, first);
    }
  }

  lemma ParkedMatches(db: Store, q: Query, first: Id, id: Id)
    requires first in db.sessions
    ensures Matches(ParkFirst(db, first), q, id) ==> id != first && Matches(db, q, id)
    ensures id != first && Matches(db, q, id) ==> Matches(ParkFirst(db, first), q, id)
    ensures id != first && id in db.sessions ==> ParkFirst(db, first).sessions[id] == db.sessions[id]
  {
  }

  lemma LeaseActs(db: Store, q: Query, id: Id)
    requires ValidQuery(q) && id in db.sessions
    ensures LeaseFirst(db, q, id).1.session == id
  {
  }

  /** The inbox a worker is shown: a deadline that has passed has become mail, once for its revision. */
  predicate TimerTold(id: Id, s: Session, told: seq<Input>, now: real) {
    if s.deadline.Some? && s.deadline.value <= now && !Checkpoints.Holding(s.inbox, Timer(id, s.revision))
    then told == s.inbox + [
      Input(Event(Timer(id, s.revision), System, "timer", None, None, DeadlineAt(s.deadline.value)), false)]
    else told == s.inbox
  }

  /** The leased row: the lease runs from now for its whole length, one more attempt is counted, the timer is told,
      and nothing else changes. */
  predicate LeasedRow(id: Id, s: Session, s': Session, q: Query, token: nat, now: real) {
    && s'.status == Active && s'.token == Some(token) && s'.leaseUntil == Some(now + q.leaseSeconds)
    && s'.worker == q.worker && s'.attempts == s.attempts + 1 && s'.lastClaim > s.lastClaim
    && TimerTold(id, s, s'.inbox, now)
    && s'.state == s.state && s'.executable == s.executable && s'.deadline == s.deadline
    && s'.revision == s.revision && s'.rowid == s.rowid && s'.lastError == s.lastError
    && s'.completedAt == s.completedAt
  }

  /** What the worker is given: the stored state, the oldest mail up to its limit, whether more waits, which attempt
      this is and why the last one failed. A session with mail never comes without any. */
  predicate Given(id: Id, s': Session, act: Activation, q: Query, token: nat) {
    && act.session == id && act.token == token && act.state == s'.state && act.executable == s'.executable
    && act.attempt == s'.attempts && act.lastError == s'.lastError
    && act.events <= Pending(s'.inbox)
    && (HasMail(s') ==> act.events != [])
    && (act.hasMore <==> act.events != Pending(s'.inbox))
    && (q.maxEvents.None? ==> !act.hasMore)
    && (q.maxEvents.Some? ==> |act.events| <= q.maxEvents.value && (act.hasMore ==> |act.events| == q.maxEvents.value))
  }

  /** A row that a claim passes over is untouched, or was ready with its attempts used up and is parked. */
  predicate PassedOver(s: Session, s': Session, q: Query, now: real) {
    || s' == s
    || (ServedAt(s, now) && q.maxAttempts.Some? && s.attempts >= q.maxAttempts.value
        && s' == s.(status := Failed, token := None, leaseUntil := None, worker := None))
  }

  /** Everything a claim that leases leaves, and what it hands out. */
  lemma ClaimWrites(w: World, step: Step)
    requires Inv(w) && step.op.ClaimOp? && |Next(w, step).issued| > |w.issued|
    ensures var v := Next(w, step);
      var act, q := v.issued[|w.issued|].act, step.op.q;
      && |v.issued| == |w.issued| + 1 && v.issued[..|w.issued|] == w.issued
      && act.session in w.db.sessions && act.session in v.db.sessions
      && q.leaseSeconds > 0.0 && (q.maxAttempts.Some? ==> q.maxAttempts.value > 0)
      && LeasedRow(act.session, w.db.sessions[act.session], v.db.sessions[act.session], q, |w.issued|, step.now)
      && Given(act.session, v.db.sessions[act.session], act, q, |w.issued|)
      && ServedAt(w.db.sessions[act.session], step.now)
      && (q.maxAttempts.Some? ==> w.db.sessions[act.session].attempts < q.maxAttempts.value)
      && v.db.sessions.Keys == w.db.sessions.Keys
      && forall k | k in w.db.sessions && k != act.session ::
        PassedOver(w.db.sessions[k], v.db.sessions[k], q, step.now)
  {
    hide Inv, Next, IsReady, ServedAt, Leased, Activate, WithTimer, LeasedRow, Given, PassedOver;
    LeaseRow(w, step);
    var v := Next(w, step);
    var act, q := v.issued[|w.issued|].act, step.op.q.(now := step.now);
    var s := w.db.sessions[act.session];
    ServedReady(s, step.now);
    var n: nat :| n > s.lastClaim
      && v.db.sessions[act.session] == Leased(WithTimer(act.session, s, step.now), q, |w.issued|, n);
    LeaseWrites(act.session, s, step.op.q, step.now, |w.issued|, n);
    ClaimKeys(w, step);
    forall k | k in w.db.sessions && k != act.session
      ensures PassedOver(w.db.sessions[k], v.db.sessions[k], step.op.q, step.now)
    {
      ClaimPassesOver(w, step, k);
    }
  }

  lemma ClaimKeys(w: World, step: Step)
    requires step.op.ClaimOp?
    ensures Next(w, step).db.sessions.Keys == w.db.sessions.Keys
  {
    hide ClaimFrom, ClaimEffect;
    if ValidQuery(step.op.q.(now := step.now)) {
      ClaimEffects(w.db, step.op.q.(now := step.now));
    }
  }

  /** The lease as written, field by field. */
  lemma LeaseWrites(id: Id, s: Session, q0: Query, now: real, token: nat, n: nat)
    requires ValidQuery(q0.(now := now)) && n > s.lastClaim
    ensures var t, q := WithTimer(id, s, now), q0.(now := now);
      && LeasedRow(id, s, Leased(t, q, token, n), q0, token, now)
      && Given(id, Leased(t, q, token, n), Activate(id, t, q, token), q0, token)
  {
    Checkpoints.HoldingKnown(s.inbox, Timer(id, s.revision));
    hide Pending, Known;
    var q := q0.(now := now);
    var t := WithTimer(id, s, now);
    Checkpoints.PendingNone(t.inbox);
    assert |Batch(t, q)| == |Pending(t.inbox)| ==> Batch(t, q) == Pending(t.inbox);
  }

  lemma ClaimPassesOver(w: World, step: Step, id: Id)
    requires step.op.ClaimOp? && id in w.db.sessions
    requires |Next(w, step).issued| > |w.issued| ==> Next(w, step).issued[|w.issued|].act.session != id
    ensures id in Next(w, step).db.sessions
    ensures PassedOver(w.db.sessions[id], Next(w, step).db.sessions[id], step.op.q, step.now)
  {
    hide ClaimFrom, IsReady, ServedAt, WithTimer, Leased, Batch, HasMore;
    ServedReady(w.db.sessions[id], step.now);
    var q := step.op.q.(now := step.now);
    if ValidQuery(q) {
      ClaimEffects(w.db, q);
      ClaimIssues(w, step);
      assert ClaimEffect(id, w.db.sessions[id], Next(w, step).db.sessions[id], q, ClaimFrom(w.db, q).1, w.db.nextToken);
    }
  }

  // ---- Leases and backoffs last ----------------------------------------------

  /** The worker that holds the token reports back. */
  predicate Reports(step: Step, token: nat) {
    (step.op.ReleaseOp? || step.op.CommitOp?) && step.op.token == token
  }

  /** The row may not be leased before `until`: a lease or a backoff runs. */
  predicate Blocked(s: Session, until: real) {
    s.status != Complete && s.status != Failed && s.leaseUntil == Some(until)
  }

  /** Until then only mail reaches the row, unless its own worker reports. */
  lemma BlockKept(w: World, step: Step, id: Id, until: real)
    requires Inv(w) && id in w.db.sessions && Blocked(w.db.sessions[id], until) && step.now < until
    requires forall t: nat | w.db.sessions[id].token == Some(t) :: !Reports(step, t)
    ensures id in Next(w, step).db.sessions && Grew(w.db.sessions[id], Next(w, step).db.sessions[id])
    ensures !LeasesNow(w, step, id)
  {
    hide ClaimFrom, CommitTo, SessionOk, Pending;
    var s := w.db.sessions[id];
    match step.op
    case ClaimOp(q) => BlockedFromClaims(w, step, id, until);
    case CommitOp(token, p) =>
      if Commits(w, step) {
        BlockedFromCommits(w, step, id);
      }
    case AppendOp(to, event) =>
      if AppendTo(w.db, to, event, false).Ok? {
        AppendGrows(w.db, to, event, id);
      }
    case _ =>
  }

  lemma BlockedFromClaims(w: World, step: Step, id: Id, until: real)
    requires Inv(w) && step.op.ClaimOp?
    requires id in w.db.sessions && Blocked(w.db.sessions[id], until) && step.now < until
    ensures id in Next(w, step).db.sessions && Grew(w.db.sessions[id], Next(w, step).db.sessions[id])
    ensures !LeasesNow(w, step, id)
  {
    hide Inv, Next, LeasedRow, Given;
    if LeasesNow(w, step, id) {
      ClaimWrites(w, step);
    }
    ClaimPassesOver(w, step, id);
  }

  lemma BlockedFromCommits(w: World, step: Step, id: Id)
    requires Inv(w) && Commits(w, step) && id in w.db.sessions
    requires forall t: nat | w.db.sessions[id].token == Some(t) :: !Reports(step, t)
    ensures id in Next(w, step).db.sessions && Grew(w.db.sessions[id], Next(w, step).db.sessions[id])
  {
    NextCommit(w, step);
    CommitterHolds(w, step);
    hide Next, CommitTo, SessionOk, ExtendChains, Inv;
    BystanderEffect(w.db, w.issued[step.op.token].act, step.op.p, step.now, w.chains, id);
  }

  /** Everything happens before `until`, and the token's holder stays silent. */
  predicate Silent(steps: seq<Step>, until: real, token: Option<nat>) {
    forall i | 0 <= i < |steps| :: steps[i].now < until && (token.Some? ==> !Reports(steps[i], token.value))
  }

  lemma SilentParts(steps: seq<Step>, until: real, token: Option<nat>, k: nat)
    requires Silent(steps, until, token) && k < |steps|
    ensures Silent(steps[..k], until, token) && Silent(steps[1..], until, token)
    ensures steps[k].now < until && (token.Some? ==> !Reports(steps[k], token.value))
  {
  }

  /** Over any run that stays before `until`, whatever other workers, zombies and writers do. */
  lemma {:induction false} BlockLasts(w: World, steps: seq<Step>, id: Id, until: real)
    requires Inv(w) && id in w.db.sessions && Blocked(w.db.sessions[id], until)
    requires Silent(steps, until, w.db.sessions[id].token)
    ensures Inv(Continue(w, steps)) && id in Continue(w, steps).db.sessions
    ensures Grew(w.db.sessions[id], Continue(w, steps).db.sessions[id])
    decreases |steps|
  {
    hide Next, Inv, LeasesNow, Grew, Silent, Reports;
    if steps == [] {
      GrewSame(w.db.sessions[id]);
    } else {
      var v, rest := Next(w, steps[0]), steps[1..];
      SilentParts(steps, until, w.db.sessions[id].token, 0);
      StepKeeps(w, steps[0]);
      BlockKept(w, steps[0], id, until);
      GrewFields(w.db.sessions[id], v.db.sessions[id]);
      BlockLasts(v, rest, id, until);
      GrewTransitive(w.db.sessions[id], v.db.sessions[id], Continue(v, rest).db.sessions[id]);
    }
  }

  lemma GrewSame(s: Session)
    ensures Grew(s, s)
  {
  }

  /** And no claim of such a run leases the session. */
  lemma BlockedThrough(w: World, steps: seq<Step>, id: Id, until: real, k: nat)
    requires Inv(w) && id in w.db.sessions && Blocked(w.db.sessions[id], until) && k < |steps|
    requires Silent(steps, until, w.db.sessions[id].token)
    ensures !LeasesNow(Continue(w, steps[..k]), steps[k], id)
  {
    hide Continue, Inv, LeasesNow, Grew, Reports, Silent;
    SilentParts(steps, until, w.db.sessions[id].token, k);
    BlockLasts(w, steps[..k], id, until);
    GrewFields(w.db.sessions[id], Continue(w, steps[..k]).db.sessions[id]);
    BlockKept(Continue(w, steps[..k]), steps[k], id, until);
  }

  lemma GrewFields(a: Session, b: Session)
    requires Grew(a, b)
    ensures b == a.(inbox := b.inbox) && a.inbox <= b.inbox
  {
  }

  lemma {:induction false} ContinueKeeps(w: World, steps: seq<Step>)
    requires Inv(w) && RowsOk(w.db)
    ensures Inv(Continue(w, steps)) && RowsOk(Continue(w, steps).db)
    decreases |steps|
  {
    hide Next, Inv, RowsOk;
    if steps == [] {
    } else {
      StepKeeps(w, steps[0]);
      RowsKept(w, steps[0]);
      ContinueKeeps(Next(w, steps[0]), steps[1..]);
    }
  }

  lemma ClaimedBlocked(w: World, claim: Step)
    requires Inv(w) && claim.op.ClaimOp? && |Next(w, claim).issued| > |w.issued|
    ensures var v := Next(w, claim);
      var id := v.issued[|w.issued|].act.session;
      && Inv(v) && id in v.db.sessions && Blocked(v.db.sessions[id], claim.now + claim.op.q.leaseSeconds)
      && v.db.sessions[id].status == Active && v.db.sessions[id].token == Some(|w.issued|)
      && v.issued[|w.issued|].act.token == |w.issued|
  {
    hide Next, Inv, Given, PassedOver, ServedAt, TimerTold;
    ClaimWrites(w, claim);
    StepKeeps(w, claim);
    ClaimToken(w, claim);
  }

  lemma ClaimToken(w: World, claim: Step)
    requires Inv(w) && claim.op.ClaimOp? && |Next(w, claim).issued| > |w.issued|
    ensures Next(w, claim).issued[|w.issued|].act.token == |w.issued|
  {
    hide Inv, Next, LeasedRow, ServedAt, PassedOver;
    ClaimWrites(w, claim);
  }

  /** A lease lasts as long as it was asked for: until then no claim of any run leases the session again, unless its
      worker reports, and from then on the next claim for it does, unless its worker has. */
  lemma LeaseLasts(w: World, claim: Step, steps: seq<Step>, ask: Step)
    requires Inv(w) && RowsOk(w.db) && claim.op.ClaimOp? && |Next(w, claim).issued| > |w.issued|
    requires Silent(steps, claim.now + claim.op.q.leaseSeconds, Some(|w.issued|))
    ensures var v := Next(w, claim);
      var id, u := v.issued[|w.issued|].act.session, Continue(v, steps);
      && (forall k | 0 <= k < |steps| :: !LeasesNow(Continue(v, steps[..k]), steps[k], id))
      && id in u.db.sessions
      && (ask.op.ClaimOp? && Asks(ask.op.q, id, u.db.sessions[id]) ==>
            (LeasesNow(u, ask, id) <==> claim.now + claim.op.q.leaseSeconds <= ask.now))
  {
    hide Next, Inv, RowsOk, Continue, LeasesNow, Silent, Grew, Asks;
    var v, until := Next(w, claim), claim.now + claim.op.q.leaseSeconds;
    var id, u := v.issued[|w.issued|].act.session, Continue(v, steps);
    ClaimedBlocked(w, claim);
    RowsKept(w, claim);
    forall k | 0 <= k < |steps| ensures !LeasesNow(Continue(v, steps[..k]), steps[k], id) {
      BlockedThrough(v, steps, id, until, k);
    }
    BlockLasts(v, steps, id, until);
    ContinueKeeps(v, steps);
    GrewFields(v.db.sessions[id], u.db.sessions[id]);
    if ask.op.ClaimOp? && Asks(ask.op.q, id, u.db.sessions[id]) {
      LeasedExactly(u, ask, id);
    }
  }

  /** All that time the worker's report is in time: its release is accepted, and its checkpoint is not stale. */
  lemma ReportsInTime(w: World, claim: Step, steps: seq<Step>, now: real, p: Proposal)
    requires Inv(w) && claim.op.ClaimOp? && |Next(w, claim).issued| > |w.issued|
    requires Silent(steps, claim.now + claim.op.q.leaseSeconds, Some(|w.issued|))
    ensures var v := Next(w, claim);
      var act, u := v.issued[|w.issued|].act, Continue(v, steps);
      && (now < claim.now + claim.op.q.leaseSeconds ==>
            && CommitTo(u.db, act, p, now) != Err(StaleActivation)
            && ReleaseFrom(u.db, act, now, None, None).Ok?)
      && (now >= claim.now + claim.op.q.leaseSeconds ==>
            && (CommitTo(u.db, act, p, now) == Err(StaleActivation) <==> Checkpoints.WellFormed(act, p))
            && ReleaseFrom(u.db, act, now, None, None) == Err(StaleActivation))
  {
    hide Next, Inv, Continue, LeasesNow, Silent, Grew, CommitTo, Checkpoints.WellFormed;
    var v := Next(w, claim);
    var act := v.issued[|w.issued|].act;
    var id, u := act.session, Continue(v, steps);
    ClaimedBlocked(w, claim);
    BlockLasts(v, steps, id, claim.now + claim.op.q.leaseSeconds);
    GrewFields(v.db.sessions[id], u.db.sessions[id]);
    Checkpoints.AcceptedExactly(u.db, act, p, now);
  }

  // ---- Giving back -----------------------------------------------------------

  /** A worker's release in time: the attempt stays counted, the reason is kept, and the row is served again after the
      backoff, or at once without one. */
  lemma ReleaseWrites(w: World, step: Step, id: Id)
    requires Inv(w) && step.op.ReleaseOp? && step.op.token < |w.issued| && w.issued[step.op.token].act.session == id
    ensures ReleaseFrom(w.db, w.issued[step.op.token].act, step.now, step.op.message, step.op.retryAfter).Ok? <==>
      && (step.op.retryAfter.Some? ==> step.op.retryAfter.value >= 0.0)
      && Checkpoints.InForce(w.db, w.issued[step.op.token].act, step.now)
    ensures ReleaseFrom(w.db, w.issued[step.op.token].act, step.now, step.op.message, step.op.retryAfter).Ok? ==>
      && id in w.db.sessions && Next(w, step).db.sessions.Keys == w.db.sessions.Keys
      && (forall k | k in w.db.sessions && k != id :: Next(w, step).db.sessions[k] == w.db.sessions[k])
      && var s, s' := w.db.sessions[id], Next(w, step).db.sessions[id];
      && s'.token.None? && s'.worker.None? && s'.lastError == step.op.message
      && s'.leaseUntil == (if step.op.retryAfter.Some? && step.op.retryAfter.value > 0.0
                           then Some(step.now + step.op.retryAfter.value) else None)
      && s'.state == s.state && s'.revision == s.revision && s'.attempts == s.attempts && s'.inbox == s.inbox
      && s'.executable == s.executable && s'.deadline == s.deadline && s'.lastClaim == s.lastClaim
      && s'.rowid == s.rowid && s'.completedAt == s.completedAt
      && (s'.status == Ready || (s'.status == Status.Waiting && HasMail(s')))
  {
    hide Pending, SessionOk;
    if Holds(w.db, w.issued[step.op.token].act, step.now) {
      var s := w.db.sessions[id];
      RowFacts(id, s, w.issued, w.chains[id]);
      Checkpoints.PendingNone(s.inbox);
    }
  }

  /** A backoff lasts: nobody is leased the session before it ends, and the first claim for it from then on is. */
  lemma BackoffLasts(w: World, give: Step, steps: seq<Step>, ask: Step, id: Id)
    requires Inv(w) && RowsOk(w.db) && give.op.ReleaseOp? && give.op.token < |w.issued|
    requires w.issued[give.op.token].act.session == id && give.op.retryAfter.Some? && give.op.retryAfter.value > 0.0
    requires Checkpoints.InForce(w.db, w.issued[give.op.token].act, give.now)
    requires Silent(steps, give.now + give.op.retryAfter.value, None)
    ensures var v := Next(w, give);
      var u := Continue(v, steps);
      && (forall k | 0 <= k < |steps| :: !LeasesNow(Continue(v, steps[..k]), steps[k], id))
      && id in u.db.sessions && u.db.sessions[id].lastError == give.op.message
      && (ask.op.ClaimOp? && Asks(ask.op.q, id, u.db.sessions[id]) ==>
            (LeasesNow(u, ask, id) <==> give.now + give.op.retryAfter.value <= ask.now))
  {
    hide Next, Inv, RowsOk, Continue, LeasesNow, Silent, Grew, Asks, ReleaseFrom, Checkpoints.InForce;
    var v, until := Next(w, give), give.now + give.op.retryAfter.value;
    var u := Continue(v, steps);
    ReleaseWrites(w, give, id);
    StepKeeps(w, give);
    RowsKept(w, give);
    forall k | 0 <= k < |steps| ensures !LeasesNow(Continue(v, steps[..k]), steps[k], id) {
      BlockedThrough(v, steps, id, until, k);
    }
    BlockLasts(v, steps, id, until);
    ContinueKeeps(v, steps);
    GrewFields(v.db.sessions[id], u.db.sessions[id]);
    MailStays(v.db.sessions[id].inbox, u.db.sessions[id].inbox);
    if ask.op.ClaimOp? && Asks(ask.op.q, id, u.db.sessions[id]) {
      LeasedExactly(u, ask, id);
    }
  }

  lemma MailStays(a: seq<Input>, b: seq<Input>)
    requires a <= b
    ensures (exists x | x in a :: !x.incorporated) ==> exists x | x in b :: !x.incorporated
  {
  }

  // ---- Sleep -----------------------------------------------------------------

  /** Parked by a checkpoint with nothing to do. */
  predicate Asleep(s: Session) {
    s.status == Status.Waiting && s.token.None? && s.leaseUntil.None? && !HasMail(s)
  }

  predicate Delivers(step: Step, id: Id) {
    (step.op.AppendOp? && step.op.id == id) || (step.op.CommitOp? && PublishesTo(step.op.p, id))
  }

  /** No mail for the session, and not yet its deadline. */
  predicate Quiet(steps: seq<Step>, id: Id, deadline: Option<real>) {
    forall i | 0 <= i < |steps| :: !Delivers(steps[i], id) && (deadline.Some? ==> steps[i].now < deadline.value)
  }

  lemma SleepStep(w: World, step: Step, id: Id)
    requires Inv(w) && id in w.db.sessions && Asleep(w.db.sessions[id]) && !Delivers(step, id)
    requires w.db.sessions[id].deadline.Some? ==> step.now < w.db.sessions[id].deadline.value
    ensures id in Next(w, step).db.sessions && Next(w, step).db.sessions[id] == w.db.sessions[id]
    ensures !LeasesNow(w, step, id)
  {
    hide ClaimFrom, CommitTo, SessionOk, Pending, LeasedRow, Given, HasMail;
    match step.op
    case ClaimOp(q) => SleepThroughClaim(w, step, id);
    case CommitOp(token, p) =>
      if Commits(w, step) {
        CommitterHolds(w, step);
        CheckpointFrame(w, step, id);
      }
    case _ =>
  }

  lemma SleepThroughClaim(w: World, step: Step, id: Id)
    requires Inv(w) && id in w.db.sessions && Asleep(w.db.sessions[id]) && step.op.ClaimOp?
    requires w.db.sessions[id].deadline.Some? ==> step.now < w.db.sessions[id].deadline.value
    ensures id in Next(w, step).db.sessions && Next(w, step).db.sessions[id] == w.db.sessions[id]
    ensures !LeasesNow(w, step, id)
  {
    hide Inv, Next, LeasedRow, Given, HasMail;
    if LeasesNow(w, step, id) {
      ClaimWrites(w, step);
    }
    ClaimPassesOver(w, step, id);
  }

  lemma QuietParts(steps: seq<Step>, id: Id, deadline: Option<real>, k: nat)
    requires Quiet(steps, id, deadline) && k < |steps|
    ensures Quiet(steps[..k], id, deadline) && Quiet(steps[1..], id, deadline)
    ensures !Delivers(steps[k], id) && (deadline.Some? ==> steps[k].now < deadline.value)
  {
  }

  lemma {:induction false} SleepLasts(w: World, steps: seq<Step>, id: Id)
    requires Inv(w) && id in w.db.sessions && Asleep(w.db.sessions[id])
    requires Quiet(steps, id, w.db.sessions[id].deadline)
    ensures Inv(Continue(w, steps)) && id in Continue(w, steps).db.sessions
    ensures Continue(w, steps).db.sessions[id] == w.db.sessions[id]
    decreases |steps|
  {
    hide Next, Inv, LeasesNow, Quiet, Delivers, Asleep;
    if steps == [] {
    } else {
      QuietParts(steps, id, w.db.sessions[id].deadline, 0);
      StepKeeps(w, steps[0]);
      SleepStep(w, steps[0], id);
      SleepLasts(Next(w, steps[0]), steps[1..], id);
    }
  }

  /** Right after its checkpoint a session is served exactly when it continues and mail is left or its deadline has
      come. */
  lemma ServedAfterCommit(w: World, commit: Step, now: real)
    requires Inv(w) && Commits(w, commit)
    ensures var id, p, v := w.issued[commit.op.token].act.session, commit.op.p, Next(w, commit);
      && id in w.db.sessions && id in v.db.sessions
      && (HasMail(v.db.sessions[id]) <==> !Checkpoints.AllTaken(w.db.sessions[id], id, p))
      && v.db.sessions[id].deadline == p.deadline
      && (!p.complete && Checkpoints.AllTaken(w.db.sessions[id], id, p) ==> Asleep(v.db.sessions[id]))
      && (ServedAt(v.db.sessions[id], now) <==>
            !p.complete && (!Checkpoints.AllTaken(w.db.sessions[id], id, p)
                            || (p.deadline.Some? && p.deadline.value <= now)))
  {
    hide Next, Inv, CommitTo, ExtendChains, Link, HasMail, Checkpoints.AllTaken;
    NextCommit(w, commit);
    CommitterMail(w.db, w.issued[commit.op.token].act, commit.op.p, commit.now);
  }

  lemma CommitterMail(db: Store, act: Activation, p: Proposal, now: real)
    requires CommitTo(db, act, p, now).Ok?
    ensures act.session in db.sessions && act.session in CommitTo(db, act, p, now).value.sessions
    ensures var s, s' := db.sessions[act.session], CommitTo(db, act, p, now).value.sessions[act.session];
      && (HasMail(s') <==> !Checkpoints.AllTaken(s, act.session, p))
      && s'.deadline == p.deadline && s'.token.None? && s'.leaseUntil.None?
      && s'.status == if p.complete then Complete else Status.Waiting
  {
    hide CommitTo, Mark, Checkpoints.AllTaken, Checkpoints.Received, Checkpoints.MailTo;
    var taken, sent := Checkpoints.CommitParts(db, act, p, now);
    Checkpoints.TakenExactly(db.sessions[act.session], act.session, p);
    Checkpoints.PendingNone(sent.sessions[act.session].inbox);
  }

  /** A session that checkpoints with a deadline and no mail left sleeps until then, through every run that brings it no
      mail: it is not touched, no claim leases it before, and the first claim for it from then on does. Without a
      deadline it sleeps until mail comes. */
  lemma SleepsUntil(w: World, commit: Step, steps: seq<Step>, ask: Step)
    requires Inv(w) && RowsOk(w.db) && Commits(w, commit) && !commit.op.p.complete
    requires var id := w.issued[commit.op.token].act.session;
      && (id in w.db.sessions ==> Checkpoints.AllTaken(w.db.sessions[id], id, commit.op.p))
      && Quiet(steps, id, commit.op.p.deadline)
    ensures var id, deadline, v := w.issued[commit.op.token].act.session, commit.op.p.deadline, Next(w, commit);
      var u := Continue(v, steps);
      && (forall k | 0 <= k < |steps| :: !LeasesNow(Continue(v, steps[..k]), steps[k], id))
      && id in v.db.sessions && id in u.db.sessions && u.db.sessions[id] == v.db.sessions[id]
      && (ask.op.ClaimOp? && Asks(ask.op.q, id, u.db.sessions[id]) ==>
            (LeasesNow(u, ask, id) <==> deadline.Some? && deadline.value <= ask.now))
  {
    hide Next, Inv, RowsOk, Continue, LeasesNow, Quiet, Asks, ServedAt, Asleep, Checkpoints.AllTaken;
    var id, deadline, v := w.issued[commit.op.token].act.session, commit.op.p.deadline, Next(w, commit);
    var u := Continue(v, steps);
    ServedAfterCommit(w, commit, ask.now);
    StepKeeps(w, commit);
    RowsKept(w, commit);
    forall k | 0 <= k < |steps| ensures !LeasesNow(Continue(v, steps[..k]), steps[k], id) {
      QuietParts(steps, id, deadline, k);
      SleepLasts(v, steps[..k], id);
      SleepStep(Continue(v, steps[..k]), steps[k], id);
    }
    SleepLasts(v, steps, id);
    ContinueKeeps(v, steps);
    if ask.op.ClaimOp? && Asks(ask.op.q, id, u.db.sessions[id]) {
      LeasedExactly(u, ask, id);
    }
  }

  /** Mail is accepted exactly from outside, by a session that is not complete or has it already; it is added last, and
      once. */
  lemma AppendWrites(w: World, step: Step, id: Id)
    requires step.op.AppendOp? && step.op.id == id
    ensures AppendTo(w.db, id, step.op.event, false).Ok? <==>
      Checkpoints.Deliverable(w.db, Publication(id, step.op.event))
    ensures Checkpoints.Deliverable(w.db, Publication(id, step.op.event)) ==>
      var s, v := w.db.sessions[id], Next(w, step);
      && id in v.db.sessions && v.db == w.db.(sessions := w.db.sessions[id := v.db.sessions[id]])
      && v.db.sessions[id] == s.(inbox := if Checkpoints.Holding(s.inbox, step.op.event.id) then s.inbox
                                          else s.inbox + [Input(step.op.event, false)])
      && (AppendTo(w.db, id, step.op.event, false).value.1 <==> !Checkpoints.Holding(s.inbox, step.op.event.id))
  {
    Checkpoints.DeliverableExactly(w.db, Publication(id, step.op.event));
    if id in w.db.sessions {
      var s := w.db.sessions[id];
      Checkpoints.HoldingKnown(s.inbox, step.op.event.id);
      assert w.db.sessions[id := s] == w.db.sessions && s.(inbox := s.inbox) == s;
      hide Known, Checkpoints.Holding;
    }
  }

  /** New mail has a session served at once, if no lease or backoff blocks it and it is in service. */
  lemma MailWakes(w: World, step: Step, id: Id, now: real)
    requires step.op.AppendOp? && step.op.id == id && Checkpoints.Deliverable(w.db, Publication(id, step.op.event))
    requires !Checkpoints.Holding(w.db.sessions[id].inbox, step.op.event.id) && w.db.sessions[id].status != Failed
    requires w.db.sessions[id].leaseUntil.Some? ==> w.db.sessions[id].leaseUntil.value <= now
    ensures id in Next(w, step).db.sessions && ServedAt(Next(w, step).db.sessions[id], now)
  {
    AppendWrites(w, step, id);
    hide Next;
    var s := w.db.sessions[id];
    var more := s.inbox + [Input(step.op.event, false)];
    assert more[|s.inbox|] in more;
  }

  /** A failed session returned to service is served from then on, with its attempts and its last error forgotten and
      all else as it was. */
  lemma RetryServes(steps: seq<Step>, step: Step, id: Id)
    requires Monotone(0.0, steps + [step]) && step.op == RetryOp(id)
    requires id in Run(steps).db.sessions && Run(steps).db.sessions[id].status == Failed
    ensures var s, v := Run(steps).db.sessions[id], Next(Run(steps), step);
      && id in v.db.sessions && ServedAt(v.db.sessions[id], step.now)
      && v.db.sessions[id] == s.(status := v.db.sessions[id].status, attempts := 0, lastError := None)
      && (v.db.sessions[id].status == if s.revision > 0 then Status.Waiting else Ready)
  {
    RetryWakes(steps, step, id);
    ServedReady(Next(Run(steps), step).db.sessions[id], step.now);
    hide Run, Inv, Pending, ServedAt, IsReady;
  }

  /** A session is created exactly under a new name, and is served from then on. */
  lemma CreateServes(w: World, step: Step, now: real)
    requires step.op.CreateOp?
    ensures CreateIn(w.db, step.op.id, step.op.executable, step.op.state).Ok? <==>
      step.op.id != "" && step.op.executable != "" && step.op.id !in w.db.sessions
    ensures CreateIn(w.db, step.op.id, step.op.executable, step.op.state).Ok? ==>
      var v := Next(w, step);
      && step.op.id in v.db.sessions
      && Checkpoints.IsNew(v.db.sessions[step.op.id], w.db.nextRow, step.op.executable, step.op.state)
      && v.db == Store(w.db.sessions[step.op.id := v.db.sessions[step.op.id]], w.db.definitions, w.db.nextRow + 1,
                       w.db.nextToken)
      && ServedAt(v.db.sessions[step.op.id], now)
  {
  }
  /** Only a failed session is returned to service, and the answer says whether it was. */
  lemma RetryWrites(db: Store, id: Id)
    ensures RetryIn(db, id).Ok? <==> id in db.sessions
    ensures RetryIn(db, id).Ok? ==> var (v, done) := RetryIn(db, id).value;
      && (done <==> db.sessions[id].status == Failed)
      && (!done ==> v == db)
  {
  }

  /** A purge takes only sessions that completed before the time given; all others stay as they are. */
  lemma PurgeWrites(w: World, step: Step, id: Id)
    requires step.op.PurgeOp? && id in w.db.sessions
    ensures var s, v := w.db.sessions[id], Next(w, step);
      && (id in v.db.sessions ==> v.db.sessions[id] == s)
      && (id !in v.db.sessions ==> id in step.op.ids && s.status == Complete && s.completedAt.Some?
                                   && s.completedAt.value < step.op.before)
      && (id in step.op.ids && id in v.db.sessions ==>
            exists k | k in step.op.ids :: k !in w.db.sessions || w.db.sessions[k].status != Complete
              || w.db.sessions[k].completedAt.None? || w.db.sessions[k].completedAt.value >= step.op.before)
  {
  }

  /** A definition once bound keeps its contract, and a binding is accepted exactly when it does not change one. */
  lemma {:induction false} BoundForGood(w: World, steps: seq<Step>, executable: string)
    requires executable in w.db.definitions
    ensures executable in Continue(w, steps).db.definitions
    ensures Continue(w, steps).db.definitions[executable] == w.db.definitions[executable]
    ensures forall contract ::
      BindIn(Continue(w, steps).db, executable, contract).Ok? <==> contract == w.db.definitions[executable]
    decreases |steps|
  {
    hide Next;
    if steps != [] {
      BoundStep(w, steps[0], executable);
      BoundForGood(Next(w, steps[0]), steps[1..], executable);
    }
  }

  lemma BoundStep(w: World, step: Step, executable: string)
    requires executable in w.db.definitions
    ensures executable in Next(w, step).db.definitions
    ensures Next(w, step).db.definitions[executable] == w.db.definitions[executable]
  {
    hide ClaimFrom, CommitTo, ClaimEffect, AppendTo, ReleaseFrom;
    match step.op
    case ClaimOp(q) =>
      if ValidQuery(q.(now := step.now)) {
        ClaimEffects(w.db, q.(now := step.now));
      }
    case CommitOp(token, p) =>
      if Commits(w, step) {
        hide Checkpoints.Wrote, Checkpoints.OnlyMail, Checkpoints.Child, Checkpoints.MailTo;
        Checkpoints.CheckpointWrites(w.db, w.issued[token].act, p, step.now);
      }
    case AppendOp(id, event) => DefinitionsKept(w.db, id, event);
    case ReleaseOp(token, message, retryAfter) =>
      if token < |w.issued| {
        ReleaseKeepsDefinitions(w.db, w.issued[token].act, step.now, message, retryAfter);
      }
    case _ =>
  }

  lemma DefinitionsKept(db: Store, id: Id, event: Event)
    ensures AppendTo(db, id, event, false).Ok? ==>
      AppendTo(db, id, event, false).value.0.definitions == db.definitions
  {
    hide Known;
  }

  lemma ReleaseKeepsDefinitions(db: Store, act: Activation, now: real, message: Option<string>,
                                retryAfter: Option<real>)
    ensures ReleaseFrom(db, act, now, message, retryAfter).Ok? ==>
      ReleaseFrom(db, act, now, message, retryAfter).value.definitions == db.definitions
  {
    hide Holds, Released;
  }
}
