/** What a dispatcher pass does for the session it serves: whose work it takes, for how long, and how it ends. */
module DispatchedWork {
  import opened Mail
  import opened SessionStore
  import opened SessionHistory
  import opened SessionSafety
  import opened SessionTheorems
  import opened Dispatching
  import Times = SessionTimes
  import Checkpoints = SessionCheckpoints

  /** The session served is of the definition whose turn it is, and of the dispatcher's session if it serves only one.
      Its lease runs for the definition's length under the dispatcher's name, with no more mail than the dispatcher
      takes and attempts to spare. */
  lemma TakesItsOwn(settings: Settings, b: Binding, k: nat, w: World, steps: seq<Step>, clock: nat -> real,
                    handle: (string, Activation) -> Result<Proposal>, outcome: Outcome)
    requires Served(settings, b, k, w, steps, clock, handle, outcome) && Inv(Continue(w, steps[..k]))
    ensures var v := Continue(w, steps[..k]);
      var u, id := Next(v, steps[k]), outcome.session;
      && |u.issued| == |v.issued| + 1 && u.issued[|v.issued|].act.session == id
      && id in v.db.sessions && id in u.db.sessions
      && v.db.sessions[id].executable == b.name
      && (settings.session.Some? ==> id == settings.session.value)
      && (b.attempts.Some? ==> v.db.sessions[id].attempts < b.attempts.value)
      && u.db.sessions[id].token == Some(|v.issued|) && u.db.sessions[id].worker == Some(settings.worker)
      && u.db.sessions[id].leaseUntil == Some(clock(k) + b.lease)
      && |u.issued[|v.issued|].act.events| <= settings.maxEvents
  {
    hide Inv, Continue, ClaimFrom, Next, Took, Checked;
    var v, q := Continue(w, steps[..k]), QueryFor(settings, b, clock(k));
    ClaimStep(v, q, clock(k));
    ClaimEffects(v.db, q);
    Times.LeasedMatches(v.db, q);
    hide ClaimEffect;
    Times.ClaimWrites(v, steps[k]);
  }

  /** The row says what the handler answered; a session of an old definition is now one of its successor, and goes on.
      */
  predicate Answered(b: Binding, answer: Result<Proposal>, s: Session) {
    && answer.Ok? && s.state == answer.value.state && s.deadline == answer.value.deadline
    && (s.status == Complete <==> answer.value.complete)
    && (b.target.Some? ==>
          && s.executable == b.target.value && !answer.value.complete
          && (answer.value.rebind.None? || answer.value.rebind == b.target))
    && (b.target.None? ==> s.executable == Or(answer.value.rebind, b.name))
  }

  /** A committed step wrote what the handler answered to what it was given. */
  lemma CommitsTheAnswer(settings: Settings, b: Binding, k: nat, w: World, steps: seq<Step>, clock: nat -> real,
                         handle: (string, Activation) -> Result<Proposal>, outcome: Outcome)
    requires Served(settings, b, k, w, steps, clock, handle, outcome) && outcome.committed
    requires Inv(Continue(w, steps[..k]))
    ensures var v := Continue(w, steps[..k]);
      var u, id := Continue(w, steps), outcome.session;
      && |Next(v, steps[k]).issued| > |v.issued| && id in u.db.sessions
      && Answered(b, handle(b.name, Next(v, steps[k]).issued[|v.issued|].act), u.db.sessions[id])
  {
    hide Inv, Continue, ClaimFrom, Next, CommitTo, Commits, Took, Checked, Answered;
    StillItsOwn(settings, b, k, w, steps, clock, handle, outcome);
    LastStep(settings, b, k, w, steps, clock, handle, outcome);
    var v := Continue(w, steps[..k]);
    var u := Next(v, steps[k]);
    AnswerWritten(u, steps[k + 1], b, handle(b.name, u.issued[|v.issued|].act));
  }

  lemma AnswerWritten(u: World, commit: Step, b: Binding, answer: Result<Proposal>)
    requires Commits(u, commit) && Checked(b, answer).Ok? && commit.op.p == Checked(b, answer).value
    requires var id := u.issued[commit.op.token].act.session;
      id in u.db.sessions && u.db.sessions[id].executable == b.name
    ensures var id := u.issued[commit.op.token].act.session;
      id in Next(u, commit).db.sessions && Answered(b, answer, Next(u, commit).db.sessions[id])
  {
    hide Next, CommitTo, Checked;
    CommitWrites(u, commit);
    CheckedAnswer(b, answer);
  }

  function Or(given: Option<string>, default: string): string { if given.Some? then given.value else default }

  /** Leasing a session leaves its definition. */
  lemma StillItsOwn(settings: Settings, b: Binding, k: nat, w: World, steps: seq<Step>, clock: nat -> real,
                    handle: (string, Activation) -> Result<Proposal>, outcome: Outcome)
    requires Served(settings, b, k, w, steps, clock, handle, outcome) && Inv(Continue(w, steps[..k]))
    ensures var u := Next(Continue(w, steps[..k]), steps[k]);
      && outcome.session in u.db.sessions && u.db.sessions[outcome.session].executable == b.name
      && |u.issued| > |Continue(w, steps[..k]).issued|
      && u.issued[|Continue(w, steps[..k]).issued|].act.session == outcome.session
  {
    hide Inv, Continue, ClaimFrom, Next, Took, Checked;
    TakesItsOwn(settings, b, k, w, steps, clock, handle, outcome);
    hide Served;
    Times.ClaimWrites(Continue(w, steps[..k]), steps[k]);
  }

  lemma LastStep(settings: Settings, b: Binding, k: nat, w: World, steps: seq<Step>, clock: nat -> real,
                 handle: (string, Activation) -> Result<Proposal>, outcome: Outcome)
    requires Served(settings, b, k, w, steps, clock, handle, outcome) && outcome.committed
    requires Inv(Continue(w, steps[..k]))
    ensures var v := Continue(w, steps[..k]);
      var u := Next(v, steps[k]);
      && |u.issued| > |v.issued| && |steps| == k + 2 && Continue(w, steps) == Next(u, steps[k + 1])
      && var p := Checked(b, handle(b.name, u.issued[|v.issued|].act));
      && p.Ok? && steps[k + 1] == Step(clock(k + 1), CommitOp(|v.issued|, p.value)) && Commits(u, steps[k + 1])
  {
    hide Inv, Continue, ClaimFrom, Next, CommitTo, Commits, Checked;
    var v, q := Continue(w, steps[..k]), QueryFor(settings, b, clock(k));
    ClaimStep(v, q, clock(k));
    assert steps[..k + 1] == steps[..k] + [steps[k]];
    ContinueMore(w, steps[..k], [steps[k]]);
    OneStep(v, steps[k]);
    assert steps == steps[..k + 1] + [steps[k + 1]];
    ContinueMore(w, steps[..k + 1], [steps[k + 1]]);
    OneStep(Next(v, steps[k]), steps[k + 1]);
  }

  lemma CheckedAnswer(b: Binding, answer: Result<Proposal>)
    requires Checked(b, answer).Ok?
    ensures answer.Ok? && Checked(b, answer).value == answer.value.(rebind := Checked(b, answer).value.rebind)
    ensures b.target.None? ==> Checked(b, answer).value.rebind == answer.value.rebind
    ensures b.target.Some? ==>
      && Checked(b, answer).value.rebind == b.target && !answer.value.complete
      && (answer.value.rebind.None? || answer.value.rebind == b.target)
  {
  }

  lemma CommitWrites(w: World, commit: Step)
    requires Commits(w, commit)
    ensures var id := w.issued[commit.op.token].act.session;
      && id in w.db.sessions && id in Next(w, commit).db.sessions
      && Checkpoints.Wrote(w.db.sessions[id], Next(w, commit).db.sessions[id], commit.op.p,
                           Checkpoints.MailTo(commit.op.p.publish, id), commit.now)
  {
    NextCommit(w, commit);
    hide Next, CommitTo, Checkpoints.Wrote, ExtendChains;
    Checkpoints.CheckpointWrites(w.db, w.issued[commit.op.token].act, commit.op.p, commit.now);
  }
}
