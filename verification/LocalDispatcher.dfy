/** A worker's loop body: claim, hand to the handler, validate, and commit or give back. */
module LocalDispatcherModel {
  import opened Mail
  import opened SessionStore
  import opened SessionHistory
  import opened SessionSafety
  import opened SessionTheorems
  import opened LocalSessionsModel
  import opened Dispatching

  class Dispatcher {
    const store: LocalSessions
    const settings: Settings
    var bindings: seq<Binding>
    var cursor: nat

    predicate Valid()
      reads this
    {
      && settings.maxEvents > 0
      && (forall b | b in bindings :: ValidBinding(b))
      && (bindings != [] ==> cursor < |bindings|)
    }

    constructor (store: LocalSessions, settings: Settings, bindings: seq<Binding>)
      requires settings.maxEvents > 0 && forall b | b in bindings :: ValidBinding(b)
      ensures Valid() && this.store == store && this.bindings == bindings
    {
      this.store, this.settings, this.bindings := store, settings, bindings;
      cursor := 0;
    }

    /** The tables are those of the world. */
    ghost predicate Now(w: World)
      reads store
    {
      Inv(w) && store.Tables() == w.db && store.Valid()
    }

    /** Checks the handler's answer and commits it. */
    method TryCommit(b: Binding, act: Activation, answer: Result<Proposal>, now: real, ghost w: World)
      returns (failed: Option<Error>, ghost steps: seq<Step>)
      requires Now(w) && act.token < |w.issued| && w.issued[act.token].act == act
      modifies store
      ensures Now(Continue(w, steps))
      ensures var p := Checked(b, answer);
        && (failed.None? <==> p.Ok? && Commits(w, Step(now, CommitOp(act.token, p.value))))
        && (failed.None? ==> steps == [Step(now, CommitOp(act.token, p.value))])
        && Continue(w, steps).issued == w.issued
    {
      var p := Checked(b, answer);
      steps := [];
      if p.Err? {
        return Some(p.error), steps;
      }
      failed := store.Commit(act, p.value, now);
      ghost var step := Step(now, CommitOp(act.token, p.value));
      CommitStep(w, act.token, p.value, now);
      OneStep(w, step);
      StepKeeps(w, step);
      hide CommitTo, Inv, Next, Commits, Checked, Continue;
      steps := [step];
    }

    /** Gives a step back. */
    method GiveBack(b: Binding, act: Activation, message: string, now: real, ghost w: World, ghost steps: seq<Step>)
      returns (ghost release: Step)
      requires ValidBinding(b) && act.attempt > 0 && Now(Continue(w, steps)) && act.token < |w.issued|
      requires w.issued[act.token].act == act
      requires Continue(w, steps).issued == w.issued
      modifies store
      ensures Now(Continue(w, steps + [release])) && GivesBack(release, act, b)
      ensures release.now == now && release.op.message == Some(message)
    {
      var wait := Wait(act.attempt, b.lease);
      release := Step(now, ReleaseOp(act.token, Some(message), Some(wait)));
      var _ := store.Release(act, now, Some(message), Some(wait));
      Claimed(w, steps, release);
      ghost var v := Continue(w, steps);
      StepKeeps(v, release);
      hide Inv, Continue, ReleaseFrom;
    }

    /** One step of a leased session: the handler's answer is checked and committed; a step that fails is released at
        once with a backoff that doubles with each attempt. */
    method Take(b: Binding, act: Activation, answer: Result<Proposal>, describe: Error -> string, now: real,
                later: real, ghost w: World)
      returns (committed: bool, ghost steps: seq<Step>)
      requires ValidBinding(b) && act.attempt > 0
      requires Now(w) && act.token < |w.issued| && w.issued[act.token].act == act
      modifies store
      ensures Now(Continue(w, steps)) && Took(w, steps, b, act, answer, now, committed)
      ensures !committed ==>
        var release := steps[|steps| - 1];
        && release.now == later && exists e :: release.op.message == Some(describe(e))
    {
      var failed;
      failed, steps := TryCommit(b, act, answer, now, w);
      if failed.None? {
        return true, steps;
      }
      ghost var release := GiveBack(b, act, describe(failed.value), later, w, steps);
      steps := steps + [release];
      committed := false;
      hide Now, Commits, GivesBack;
    }

    /** Claims work for one definition. */
    method TryClaim(b: Binding, clock: nat -> real, k: nat, ghost w: World) returns (act: Option<Activation>)
      requires Valid() && ValidBinding(b) && Now(w)
      modifies store
      ensures var step := ClaimOf(settings, b, clock, k);
        && Now(Next(w, step)) && act == ClaimFrom(w.db, QueryFor(settings, b, clock(k))).1
        && (act.None? ==> Next(w, step).issued == w.issued)
        && (act.Some? ==>
              && act.value.attempt > 0 && act.value.token == |w.issued| < |Next(w, step).issued|
              && Next(w, step).issued[|w.issued|].act == act.value)
    {
      var q := QueryFor(settings, b, clock(k));
      ClaimStep(w, q, clock(k));
      StepKeeps(w, ClaimOf(settings, b, clock, k));
      AttemptCounts(w.db, q);
      var r := store.Claim(q);
      act := r.value;
    }

    /** One pass over the definitions from the cursor: the first with work is served, and the cursor moves past it.
        Each transaction reads the clock once. */
    method RunOnce(handle: (string, Activation) -> Result<Proposal>, describe: Error -> string, clock: nat -> real,
                   ghost w: World)
      returns (r: Option<Outcome>, ghost steps: seq<Step>, ghost offset: nat)
      requires Valid() && Now(w)
      modifies store, this`cursor
      ensures Valid() && Now(Continue(w, steps)) && bindings == old(bindings)
      ensures IsPass(settings, bindings, handle, Pass(w, clock, old(cursor), steps, offset, r))
      ensures cursor == NextCursor(|bindings|, Pass(w, clock, old(cursor), steps, offset, r))
    {
      hide Inv, Continue, ClaimFrom, Next, Took, Idle, Served, ClaimOf, QueryFor, Place, Turn, Now, AllIdle, Nth,
        IsPass, StepsOf;
      var n := |bindings|;
      steps := [];
      offset := 0;
      var i := 0;
      NoPass(settings, bindings, handle, cursor, w, clock);
      while i < n
        invariant i == offset <= n == |bindings| && |steps| == i && cursor == old(cursor) && Valid()
        invariant Now(Continue(w, steps))
        invariant AllIdle(settings, bindings, cursor, i, w, steps, clock)
      {
        var index := Turn(n, cursor, i);
        Moves(bindings, cursor, i);
        assert bindings[index] in bindings;
        var act := TryClaim(bindings[index], clock, i, Continue(w, steps));
        ghost var before := steps;
        steps := steps + [ClaimOf(settings, bindings[index], clock, i)];
        PassIdle(settings, bindings, cursor, i, w, before, clock);
        if act.Some? {
          var answer := handle(bindings[index].name, act.value);
          var committed, more :=
            Take(bindings[index], act.value, answer, describe, clock(i + 1), clock(i + 2), Continue(w, steps));
          PassServed(settings, bindings, cursor, i, w, before, more, clock, handle, act.value, committed);
          steps := steps + more;
          cursor := Turn(n, index, 1);
          return Some(Outcome(act.value.session, committed)), steps, offset;
        }
        i, offset := i + 1, offset + 1;
      }
      NoneServed(settings, bindings, handle, cursor, w, steps, clock);
      r := None;
    }

    /** Drains ready work within a budget of activations; stopping early means a whole pass found nothing. The results
        are the outcomes of the passes, one after the other. */
    method RunUntilIdle(budget: int, handle: (string, Activation) -> Result<Proposal>, describe: Error -> string,
                        clock: (nat, nat) -> real, ghost w: World)
      returns (r: Result<seq<Outcome>>, ghost passes: seq<Pass>)
      requires Valid() && Now(w)
      modifies store, this`cursor
      ensures Valid() && Now(Continue(w, StepsOf(passes, |passes|)))
      ensures r.Err? <==> budget < 1
      ensures r.Err? ==> passes == []
      ensures r.Ok? ==>
        && Drained(settings, bindings, handle, w, passes, r.value, cursor) && |r.value| <= budget
        && (|r.value| < budget ==> |passes| == |r.value| + 1)
    {
      hide IsPass, Inv, Continue, StepsOf, Rotation, Now, NextCursor, Drained;
      passes := [];
      NoPass(settings, bindings, handle, cursor, w, (k: nat) => clock(0, k));
      if budget < 1 {
        return Err(ValueError), passes;
      }
      var results: seq<Outcome> := [];
      for call := 0 to budget
        invariant Valid() && Now(Continue(w, StepsOf(passes, |passes|))) && |results| == call == |passes|
        invariant Drained(settings, bindings, handle, w, passes, results, cursor)
      {
        ghost var start, from := Continue(w, StepsOf(passes, |passes|)), cursor;
        var outcome, more, offset := RunOnce(handle, describe, (k: nat) => clock(call, k), start);
        ghost var pass := Pass(start, (k: nat) => clock(call, k), from, more, offset, outcome);
        OneMorePass(settings, bindings, handle, w, passes, results, pass);
        passes := passes + [pass];
        if outcome.None? {
          return Ok(results), passes;
        }
        results := results + [outcome.value];
      }
      r := Ok(results);
    }
  }

  lemma NoPass(settings: Settings, bindings: seq<Binding>, handle: (string, Activation) -> Result<Proposal>,
               cursor: nat, w: World, clock: nat -> real)
    requires bindings != [] ==> cursor < |bindings|
    ensures Continue(w, []) == w && Continue(w, StepsOf([], 0)) == w
    ensures AllIdle(settings, bindings, cursor, 0, w, [], clock)
    ensures Drained(settings, bindings, handle, w, [], [], cursor)
  {
  }

  lemma OneMorePass(settings: Settings, bindings: seq<Binding>, handle: (string, Activation) -> Result<Proposal>,
                    w: World, passes: seq<Pass>, results: seq<Outcome>, pass: Pass)
    requires Drained(settings, bindings, handle, w, passes, results, pass.cursor) && |passes| == |results|
    requires IsPass(settings, bindings, handle, pass) && pass.start == Continue(w, StepsOf(passes, |passes|))
    ensures var all, next := passes + [pass], NextCursor(|bindings|, pass);
      && Drained(settings, bindings, handle, w, all,
                 if pass.outcome.Some? then results + [pass.outcome.value] else results, next)
      && Continue(w, StepsOf(all, |all|)) == Continue(pass.start, pass.steps)
  {
    var all := passes + [pass];
    hide IsPass, Continue, NextCursor, Rotation, StepsOf;
    Rotates(settings, bindings, handle, passes, pass);
    StepsGrow(passes, pass);
    ContinueMore(w, StepsOf(passes, |passes|), pass.steps);
    forall j | 0 <= j < |all| ensures all[j].start == Continue(w, StepsOf(all, j)) {
      SameSteps(passes, all, j);
      if j < |passes| {
        assert all[j] == passes[j];
      }
    }
  }

  lemma StepsGrow(passes: seq<Pass>, pass: Pass)
    ensures StepsOf(passes + [pass], |passes| + 1) == StepsOf(passes, |passes|) + pass.steps
  {
    SameSteps(passes, passes + [pass], |passes|);
  }

  lemma Rotates(settings: Settings, bindings: seq<Binding>, handle: (string, Activation) -> Result<Proposal>,
                passes: seq<Pass>, pass: Pass)
    requires Rotation(settings, bindings, handle, passes) && IsPass(settings, bindings, handle, pass)
    requires passes != [] ==> pass.cursor == NextCursor(|bindings|, passes[|passes| - 1])
    ensures Rotation(settings, bindings, handle, passes + [pass])
  {
    hide AllIdle, Served, Nth;
  }

  lemma {:induction false} SameSteps(a: seq<Pass>, b: seq<Pass>, n: nat)
    requires n <= |a| && n <= |b| && forall j | 0 <= j < n :: a[j] == b[j]
    ensures StepsOf(a, n) == StepsOf(b, n)
  {
    if n == 0 {
    } else {
      SameSteps(a, b, n - 1);
    }
  }

  lemma Moves(bindings: seq<Binding>, cursor: nat, k: nat)
    requires cursor < |bindings| && k < |bindings|
    ensures var n := |bindings|;
      && Turn(n, cursor, k) < n && bindings[Turn(n, cursor, k)] == Nth(bindings, cursor, k)
      && Turn(n, Turn(n, cursor, k), 1) == Place(n, cursor, k + 1) < n
  {
    ModWraps(cursor + k, |bindings|);
    ModWraps(Place(|bindings|, cursor, k) + 1, |bindings|);
  }

  lemma PassIdle(settings: Settings, bindings: seq<Binding>, cursor: nat, i: nat, w: World, steps: seq<Step>,
                 clock: nat -> real)
    requires cursor < |bindings| && i < |bindings| && |steps| == i && settings.maxEvents > 0
    requires AllIdle(settings, bindings, cursor, i, w, steps, clock) && ValidBinding(Nth(bindings, cursor, i))
    ensures var b := Nth(bindings, cursor, i);
      var q, more := QueryFor(settings, b, clock(i)), steps + [ClaimOf(settings, b, clock, i)];
      && Continue(w, more) == Next(Continue(w, steps), ClaimOf(settings, b, clock, i))
      && AllIdle(settings, bindings, cursor, i, w, more, clock)
      && (ClaimFrom(Continue(w, steps).db, q).1.None? ==> AllIdle(settings, bindings, cursor, i + 1, w, more, clock))
  {
    var b := Nth(bindings, cursor, i);
    var more := steps + [ClaimOf(settings, b, clock, i)];
    Claimed(w, steps, ClaimOf(settings, b, clock, i));
    assert more[..i] == steps;
    hide ClaimFrom, Continue, Next, Place;
    forall k: nat | k < i ensures Idle(settings, Nth(bindings, cursor, k), k, w, more, clock) {
      IdleStays(settings, Nth(bindings, cursor, k), k, w, steps, [ClaimOf(settings, b, clock, i)], clock);
    }
  }

  lemma PassServed(settings: Settings, bindings: seq<Binding>, cursor: nat, i: nat, w: World, steps: seq<Step>,
                   more: seq<Step>, clock: nat -> real, handle: (string, Activation) -> Result<Proposal>,
                   act: Activation, committed: bool)
    requires cursor < |bindings| && i < |bindings| && |steps| == i && settings.maxEvents > 0
    requires var b := Nth(bindings, cursor, i);
      && ValidBinding(b)
      && AllIdle(settings, bindings, cursor, i, w, steps + [ClaimOf(settings, b, clock, i)], clock)
      && ClaimFrom(Continue(w, steps).db, QueryFor(settings, b, clock(i))).1 == Some(act)
      && Took(Continue(w, steps + [ClaimOf(settings, b, clock, i)]), more, b, act, handle(b.name, act), clock(i + 1),
              committed)
    ensures var b := Nth(bindings, cursor, i);
      var all := steps + [ClaimOf(settings, b, clock, i)] + more;
      && IsPass(settings, bindings, handle, Pass(w, clock, cursor, all, i, Some(Outcome(act.session, committed))))
      && Continue(w, all) == Continue(Continue(w, steps + [ClaimOf(settings, b, clock, i)]), more)
  {
    var b := Nth(bindings, cursor, i);
    var claimed := steps + [ClaimOf(settings, b, clock, i)];
    ContinueMore(w, claimed, more);
    assert (claimed + more)[..i] == steps && (claimed + more)[..i + 1] == claimed && (claimed + more)[i + 1..] == more;
    hide ClaimFrom, Continue, Took, Place;
    forall k: nat | k < i ensures Idle(settings, Nth(bindings, cursor, k), k, w, claimed + more, clock) {
      IdleStays(settings, Nth(bindings, cursor, k), k, w, claimed, more, clock);
    }
  }

  lemma NoneServed(settings: Settings, bindings: seq<Binding>, handle: (string, Activation) -> Result<Proposal>,
                   cursor: nat, w: World, steps: seq<Step>, clock: nat -> real)
    requires (bindings != [] ==> cursor < |bindings|) && |steps| == |bindings|
    requires AllIdle(settings, bindings, cursor, |bindings|, w, steps, clock)
    ensures IsPass(settings, bindings, handle, Pass(w, clock, cursor, steps, |bindings|, None))
  {
  }

  lemma {:induction false} AttemptCounts(db: Store, q: Query)
    requires ValidQuery(q)
    ensures ClaimFrom(db, q).1.Some? ==> ClaimFrom(db, q).1.value.attempt > 0
    decreases ReadyIds(db, q)
  {
    if exists id :: IsFirst(db, q, id) {
      var first :| IsFirst(db, q, first);
      ClaimUnfolds(db, q, first);
      if Exhausted(db.sessions[first], q) {
        AttemptCounts(ParkFirst(db, first), q);
      }
    }
  }

  lemma Claimed(w: World, steps: seq<Step>, step: Step)
    ensures Continue(w, steps + [step]) == Next(Continue(w, steps), step)
  {
    ContinueMore(w, steps, [step]);
    OneStep(Continue(w, steps), step);
  }
}
