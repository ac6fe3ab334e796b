/** How a dispatcher asks for work: definitions in turn from a cursor, one bounded batch each. */
module Dispatching {
  import opened Mail
  import opened SessionStore
  import opened SessionHistory
  import opened SessionSafety
  import opened SessionTheorems

  /** A definition served here, or an old one whose sessions are migrated to `target`. */
  datatype Binding = Binding(name: string, target: Option<string>, lease: real, attempts: Option<int>)

  datatype Settings = Settings(maxEvents: int, worker: string, session: Option<Id>)

  datatype Outcome = Outcome(session: Id, committed: bool)

  function QueryFor(s: Settings, b: Binding, now: real): Query {
    Query(now, b.lease, Some(b.name), Some(s.maxEvents), s.session, Some(s.worker), b.attempts)
  }

  predicate ValidBinding(b: Binding) { b.lease > 0.0 && (b.attempts.Some? ==> b.attempts.value > 0) }

  /** What the dispatcher commits of a handler's answer: a migration must rebind to its target and not complete. */
  function Checked(b: Binding, answer: Result<Proposal>): Result<Proposal> {
    match answer
    case Err(e) => Err(e)
    case Ok(p) =>
      if b.target.None? then Ok(p)
      else if (p.rebind.Some? && p.rebind != b.target) || p.complete then Err(ValueError)
      else Ok(p.(rebind := b.target))
  }

  function Doubling(n: nat): real { if n == 0 then 1.0 else 2.0 * Doubling(n - 1) }

  /** The wait after a failed attempt doubles with each, and never exceeds the lease. */
  function Wait(attempt: nat, lease: real): real
    requires attempt > 0
  {
    if Doubling(attempt - 1) < lease then Doubling(attempt - 1) else lease
  }

  lemma {:induction false} WaitPositive(attempt: nat, lease: real)
    requires attempt > 0 && lease > 0.0
    ensures 0.0 < Wait(attempt, lease) <= lease && Doubling(attempt - 1) >= 1.0
    decreases attempt
  {
    if attempt > 1 {
      WaitPositive(attempt - 1, lease);
    }
  }

  /** The first failure waits a second and each further one twice as long, within the lease. */
  lemma WaitDoubles(attempt: nat, lease: real)
    requires attempt > 0 && lease > 0.0
    ensures Wait(1, lease) == if lease < 1.0 then lease else 1.0
    ensures Wait(attempt + 1, lease) == if lease < 2.0 * Wait(attempt, lease) then lease else 2.0 * Wait(attempt, lease)
  {
    WaitPositive(attempt, lease);
  }

  // ---- Runs ------------------------------------------------------------------

  lemma {:induction false} ContinueMore(w: World, steps: seq<Step>, more: seq<Step>)
    ensures Continue(w, steps + more) == Continue(Continue(w, steps), more)
    decreases |steps|
  {
    if steps == [] {
      assert steps + more == more;
    } else {
      ContinueMore(Next(w, steps[0]), steps[1..], more);
      assert (steps + more)[1..] == steps[1..] + more;
    }
  }

  lemma OneStep(w: World, step: Step)
    ensures Continue(w, [step]) == Next(w, step)
  {
    assert [step][1..] == [];
    assert Continue(Next(w, step), []) == Next(w, step);
  }

  /** A claim as a step: what it leased is issued, and nothing else. */
  lemma ClaimStep(w: World, q: Query, now: real)
    requires Inv(w) && ValidQuery(q) && q.now == now
    ensures var (db, act) := ClaimFrom(w.db, q);
      var v := Next(w, Step(now, ClaimOp(q)));
      && v.db == db
      && (act.None? ==> v.issued == w.issued)
      && (act.Some? ==>
          |v.issued| == |w.issued| + 1 && act.value.token == |w.issued| && v.issued[|w.issued|].act == act.value)
  {
    ClaimEffects(w.db, q);
    hide Inv, ClaimFrom, ClaimEffect;
  }

  lemma CommitStep(w: World, token: nat, p: Proposal, now: real)
    requires Inv(w) && token < |w.issued|
    ensures var act, step := w.issued[token].act, Step(now, CommitOp(token, p));
      && (Commits(w, step) <==> CommitTo(w.db, act, p, now).Ok?)
      && Next(w, step).db == (if CommitTo(w.db, act, p, now).Ok? then CommitTo(w.db, act, p, now).value else w.db)
      && Next(w, step).issued == w.issued
  {
    hide CommitTo, SessionOk, ExtendChains;
    var act := w.issued[token].act;
    if CommitTo(w.db, act, p, now).Ok? {
      CommitHolds(w.db, act, p, now);
    }
  }

  lemma CommitHolds(db: Store, act: Activation, p: Proposal, now: real)
    requires CommitTo(db, act, p, now).Ok?
    ensures Holds(db, act, now) && act.session in db.sessions
  {
    hide SpawnAll, PublishAll, Malformed;
  }

  // ---- One pass --------------------------------------------------------------

  /** The claim of the `k`th transaction of a pass. */
  function ClaimOf(settings: Settings, b: Binding, clock: nat -> real, k: nat): Step {
    Step(clock(k), ClaimOp(QueryFor(settings, b, clock(k))))
  }

  /** The release of a failed step. */
  predicate GivesBack(step: Step, act: Activation, b: Binding) {
    act.attempt > 0 && step.op.ReleaseOp? && step.op.token == act.token
      && step.op.retryAfter == Some(Wait(act.attempt, b.lease))
  }

  /** The handler's answer is checked and committed; a step that fails is given back at once. */
  ghost predicate Took(w: World, steps: seq<Step>, b: Binding, act: Activation, answer: Result<Proposal>, now: real,
                       committed: bool)
  {
    var p := Checked(b, answer);
    && (committed <==> p.Ok? && Commits(w, Step(now, CommitOp(act.token, p.value))))
    && (committed ==> steps == [Step(now, CommitOp(act.token, p.value))])
    && (!committed ==> |steps| > 0 && GivesBack(steps[|steps| - 1], act, b))
  }

  /** At its turn the definition had nothing to claim. */
  ghost predicate Idle(settings: Settings, b: Binding, k: nat, w: World, steps: seq<Step>, clock: nat -> real) {
    && ValidBinding(b) && settings.maxEvents > 0 && k < |steps| && steps[k] == ClaimOf(settings, b, clock, k)
    && ClaimFrom(Continue(w, steps[..k]).db, QueryFor(settings, b, clock(k))).1 == None
  }

  /** At its turn the definition's session was leased, offered to the handler, and committed or given back. */
  ghost predicate Served(settings: Settings, b: Binding, k: nat, w: World, steps: seq<Step>, clock: nat -> real,
                         handle: (string, Activation) -> Result<Proposal>, outcome: Outcome) {
    && ValidBinding(b) && settings.maxEvents > 0 && k < |steps| && steps[k] == ClaimOf(settings, b, clock, k)
    && var claimed := ClaimFrom(Continue(w, steps[..k]).db, QueryFor(settings, b, clock(k))).1;
    && claimed.Some? && outcome.session == claimed.value.session
    && Took(Continue(w, steps[..k + 1]), steps[k + 1..], b, claimed.value, handle(b.name, claimed.value), clock(k + 1),
            outcome.committed)
  }

  lemma IdleStays(settings: Settings, b: Binding, k: nat, w: World, steps: seq<Step>, more: seq<Step>,
                  clock: nat -> real)
    requires Idle(settings, b, k, w, steps, clock)
    ensures Idle(settings, b, k, w, steps + more, clock)
  {
    assert (steps + more)[..k] == steps[..k];
  }

  // ---- Fair rotation ---------------------------------------------------------

  function Wrap(x: nat, n: nat): nat { if x < n then x else x - n }

  lemma ModWraps(x: nat, n: nat)
    requires 0 < n && x < 2 * n
    ensures x % n == Wrap(x, n)
  {
    if x >= n {
      assert x == n * 1 + (x - n);
    }
  }

  function Turn(n: nat, cursor: nat, k: nat): nat
    requires n > 0
  {
    (cursor + k) % n
  }

  /** The definition `k` places on from the cursor. */
  function Place(n: nat, cursor: nat, k: nat): nat { Wrap(cursor + k, n) }

  /** How far ahead of the cursor a definition is. */
  function Ahead(n: nat, cursor: nat, d: nat): nat
    requires cursor < n && d < n
  {
    if cursor <= d then d - cursor else d + n - cursor
  }

  /** The first `n` definitions from the cursor had nothing to claim at their turns. */
  ghost predicate AllIdle(settings: Settings, bindings: seq<Binding>, cursor: nat, n: nat, w: World, steps: seq<Step>,
                          clock: nat -> real)
    requires bindings != [] ==> cursor < |bindings|
  {
    forall k: nat | k < n && k < |bindings| :: Idle(settings, Nth(bindings, cursor, k), k, w, steps, clock)
  }

  /** The definition asked at the `k`th transaction of a pass. */
  function Nth(bindings: seq<Binding>, cursor: nat, k: nat): Binding
    requires cursor < |bindings| && k < |bindings|
  {
    bindings[Place(|bindings|, cursor, k)]
  }

  /** One call of the dispatcher: where it started, its clock, and what it did. */
  datatype Pass = Pass(start: World, clock: nat -> real, cursor: nat, steps: seq<Step>, offset: nat,
                       outcome: Option<Outcome>)

  /** The definitions before `offset` had nothing to claim, and the one there was served, or there was none left. */
  ghost predicate IsPass(settings: Settings, bindings: seq<Binding>, handle: (string, Activation) -> Result<Proposal>,
                         p: Pass)
  {
    && (bindings != [] ==> p.cursor < |bindings|)
    && AllIdle(settings, bindings, p.cursor, p.offset, p.start, p.steps, p.clock)
    && (p.outcome.None? ==> p.offset == |p.steps| == |bindings|)
    && (p.outcome.Some? ==>
          && p.offset < |bindings|
          && Served(settings, Nth(bindings, p.cursor, p.offset), p.offset, p.start, p.steps, p.clock, handle,
                    p.outcome.value))
  }

  function NextCursor(n: nat, p: Pass): nat
  {
    if p.outcome.Some? then Place(n, p.cursor, p.offset + 1) else p.cursor
  }

  /** Calls of one dispatcher, one after the other; other workers may change the store in between. */
  ghost predicate Rotation(settings: Settings, bindings: seq<Binding>, handle: (string, Activation) -> Result<Proposal>,
                           passes: seq<Pass>)
  {
    && (forall j | 0 <= j < |passes| :: IsPass(settings, bindings, handle, passes[j]))
    && (forall i, j | 0 <= i < |passes| && j == i + 1 < |passes| ::
        passes[j].cursor == NextCursor(|bindings|, passes[i]))
  }

  /** The steps of the first `n` passes. */
  ghost function StepsOf(passes: seq<Pass>, n: nat): seq<Step>
    requires n <= |passes|
  {
    if n == 0 then [] else StepsOf(passes, n - 1) + passes[n - 1].steps
  }

  /** The results are the outcomes of the passes, which follow one another from a world; a pass that found nothing comes
      last and gives no result. */
  ghost predicate Drained(settings: Settings, bindings: seq<Binding>, handle: (string, Activation) -> Result<Proposal>,
                          w: World, passes: seq<Pass>, results: seq<Outcome>, cursor: nat)
  {
    && Rotation(settings, bindings, handle, passes)
    && (forall j | 0 <= j < |passes| :: passes[j].start == Continue(w, StepsOf(passes, j)))
    && |results| <= |passes| <= |results| + 1
    && (forall j | 0 <= j < |results| :: passes[j].outcome == Some(results[j]))
    && (|passes| > |results| ==> passes[|results|].outcome == None)
    && (passes != [] ==> cursor == NextCursor(|bindings|, passes[|passes| - 1]))
  }

  /** If the pass comes to the definition's turn, there is something to claim. */
  ghost predicate HasWork(settings: Settings, bindings: seq<Binding>, p: Pass, d: nat)
    requires d < |bindings| && p.cursor < |bindings| && ValidBinding(bindings[d]) && settings.maxEvents > 0
  {
    var k := Ahead(|bindings|, p.cursor, d);
    k <= p.offset && k <= |p.steps| ==>
      ClaimFrom(Continue(p.start, p.steps[..k]).db, QueryFor(settings, bindings[d], p.clock(k))).1.Some?
  }

  predicate Serves(bindings: seq<Binding>, p: Pass, d: nat) {
    p.outcome.Some? && Place(|bindings|, p.cursor, p.offset) == d
  }

  /** A pass that meets a definition with work serves it, or another one nearer the cursor, which moves closer. */
  lemma Closer(settings: Settings, bindings: seq<Binding>, handle: (string, Activation) -> Result<Proposal>, p: Pass,
               d: nat)
    requires IsPass(settings, bindings, handle, p) && d < |bindings| && ValidBinding(bindings[d])
    requires settings.maxEvents > 0
    requires HasWork(settings, bindings, p, d)
    ensures p.outcome.Some? && p.offset <= Ahead(|bindings|, p.cursor, d)
    ensures Serves(bindings, p, d) <==> p.offset == Ahead(|bindings|, p.cursor, d)
    ensures !Serves(bindings, p, d) ==>
      && NextCursor(|bindings|, p) < |bindings|
      && Ahead(|bindings|, NextCursor(|bindings|, p), d) + p.offset + 1 == Ahead(|bindings|, p.cursor, d)
  {
    var k := Ahead(|bindings|, p.cursor, d);
    assert Place(|bindings|, p.cursor, k) == d && k < |bindings|;
    assert k < p.offset ==> Idle(settings, Nth(bindings, p.cursor, k), k, p.start, p.steps, p.clock);
    hide ClaimFrom, Continue, Took, Idle;
  }

  /** Fair rotation: a definition that has work at its turn in every call is served within as many calls as there are
      definitions ahead of it, whatever else becomes ready and whatever other workers do meanwhile. */
  lemma {:induction false} ServedInTurn(settings: Settings, bindings: seq<Binding>,
                                        handle: (string, Activation) -> Result<Proposal>, passes: seq<Pass>,
                                        d: nat) returns (j: nat)
    requires Rotation(settings, bindings, handle, passes) && d < |bindings| && ValidBinding(bindings[d])
    requires settings.maxEvents > 0
    requires passes != [] && Ahead(|bindings|, passes[0].cursor, d) < |passes|
    requires forall i | 0 <= i < |passes| :: HasWork(settings, bindings, passes[i], d)
    ensures j <= Ahead(|bindings|, passes[0].cursor, d) && Serves(bindings, passes[j], d)
    ensures passes[j].outcome.Some? && Served(settings, bindings[d], passes[j].offset, passes[j].start, passes[j].steps,
      passes[j].clock, handle, passes[j].outcome.value)
    decreases |passes|
  {
    assert IsPass(settings, bindings, handle, passes[0]);
    Closer(settings, bindings, handle, passes[0], d);
    if Serves(bindings, passes[0], d) {
      j := 0;
    } else {
      hide IsPass, HasWork, Served;
      var rest := passes[1..];
      assert forall i | 0 <= i < |rest| :: rest[i] == passes[i + 1];
      j := ServedInTurn(settings, bindings, handle, rest, d);
      j := j + 1;
    }
  }
}
