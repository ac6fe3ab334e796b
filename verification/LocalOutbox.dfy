/** The runtime's side of the outbox: effects are applied one by one after the commit, cleared when all are, and left
    pending for the next recovery when one fails. */
module LocalOutboxModel {
  import opened Mail
  import opened Mailboxes
  import opened Outbox

  class LocalOutbox {
    var boxes: map<Id, Box>
    var pending: map<Id, Effects>
    const home: Id

    constructor (home: Id)
      ensures this.home == home && Outside() == World(map[home := Box(map[], 0, map[])], home, map[], None)
    {
      this.home := home;
      boxes, pending := map[home := Box(map[], 0, map[])], map[];
    }

    /** The world between two passes. */
    function Outside(): World
      reads this
    {
      World(boxes, home, pending, None)
    }

    /** Applies a committed transition's effects, then clears them. A failed delivery ends the pass and leaves the
        effects pending. Either way the mailboxes went through the steps of one pass. */
    method ApplyEffects(exec: Id, now: real) returns (done: bool, ghost steps: seq<Step>)
      requires exec in pending && home in boxes
      modifies this
      ensures CanRun(old(Outside()), steps) && Outside() == Outcome(old(Outside()), steps)
      ensures pending == if done then old(pending) - {exec} else old(pending)
      ensures home in boxes && forall s | s in steps :: OwnStep(s)
      ensures Deliverable(old(Outside()), old(pending[exec])) ==> done
    {
      hide CanRun, Outcome, Deliverable;
      var e := pending[exec];
      ghost var w := Outside();
      steps := [Begin(exec)];
      PassBegins(w, exec);
      for i := 0 to |e.acks|
        invariant pending == old(pending) && InPass(w, steps, boxes, exec, i) && forall s | s in steps :: OwnStep(s)
        invariant Deliverable(w, e) ==> Deliverable(Outcome(w, steps), e)
      {
        PassGoes(w, steps, boxes, exec, i, now);
        boxes := boxes[home := ForceAcknowledge(boxes[home], e.acks[i].conversation, e.acks[i].ids, now)];
        steps := steps + [Apply(now)];
      }
      for i := 0 to |e.pubs|
        invariant pending == old(pending) && InPass(w, steps, boxes, exec, |e.acks| + i)
        invariant forall s | s in steps :: OwnStep(s)
        invariant Deliverable(w, e) ==> Deliverable(Outcome(w, steps), e)
      {
        PassGoes(w, steps, boxes, exec, |e.acks| + i, now);
        var p := e.pubs[i];
        if p.target !in boxes || Append(boxes[p.target], p.conversation, p.id, p.body, now).Err? {
          OneMore(w, steps, Stop);
          steps := steps + [Stop];
          return false, steps;
        }
        boxes := boxes[p.target := Append(boxes[p.target], p.conversation, p.id, p.body, now).value];
        steps := steps + [Apply(now)];
      }
      OneMore(w, steps, Clear);
      steps := steps + [Clear];
      pending := pending - {exec};
      done := true;
    }

    /** Startup recovery replays every pending execution's effects; one that fails again stays pending. Whatever came
        before the crash, effects that are safe to deliver are cleared, and the events they publish have been appended
        exactly once, and those they acknowledge are done with, over the history and the recovery together. */
    method Recover(now: real, ghost start: World, ghost history: seq<Step>) returns (ghost steps: seq<Step>)
      requires home in boxes && AllSound(start) && CanRun(start, history) && Outcome(start, history) == Outside()
      modifies this
      ensures CanRun(start, history + steps) && Outside() == Outcome(start, history + steps)
      ensures home in boxes && pending.Keys <= old(pending).Keys && forall s | s in steps :: OwnStep(s)
      ensures forall exec | exec in old(pending) && Safe(old(Outside()), old(pending)[exec]) :: exec !in pending
      ensures forall exec, e | exec !in pending && Owed(start, exec, e, 0) ::
        AppliedOnce(start, history, history + steps, e)
    {
      steps := ReplayAll(now);
      RunOn(start, history, steps);
      forall exec, e | exec !in pending && Owed(start, exec, e, 0)
        ensures AppliedOnce(start, history, history + steps, e)
      {
        RecoveredOnce(start, history, steps, exec, e);
      }
    }

    /** One pass over each pending execution's effects. */
    method ReplayAll(now: real) returns (ghost steps: seq<Step>)
      requires home in boxes
      modifies this
      ensures CanRun(old(Outside()), steps) && Outside() == Outcome(old(Outside()), steps)
      ensures home in boxes && pending.Keys <= old(pending).Keys && forall s | s in steps :: OwnStep(s)
      ensures Clearing(old(Outside()), Outside(), {})
    {
      ghost var w := Outside();
      steps := [];
      var rest := pending.Keys;
      hide CanRun, Outcome, Safe, Deliverable, OwnStep;
      NothingYet(w);
      while rest != {}
        invariant rest <= pending.Keys <= w.pending.Keys && home in boxes
        invariant CanRun(w, steps) && Outside() == Outcome(w, steps) && forall s | s in steps :: OwnStep(s)
        invariant forall exec | exec in rest :: pending[exec] == w.pending[exec]
        invariant Clearing(w, Outside(), rest)
        decreases rest
      {
        var exec :| exec in rest;
        ghost var before := Outside();
        var done, more := ApplyEffects(exec, now);
        RunOn(w, steps, more);
        ClearOne(w, before, more, rest, exec);
        steps := steps + more;
        rest := rest - {exec};
      }
    }
  }

  /** Effects safe to deliver at the start still are, and are cleared unless their execution's turn is to come. */
  ghost predicate Clearing(w: World, v: World, rest: set<Id>) {
    forall exec | exec in w.pending && Safe(w, w.pending[exec]) ::
      Safe(v, w.pending[exec]) && (exec in rest || exec !in v.pending)
  }

  lemma NothingYet(w: World)
    ensures CanRun(w, []) && Outcome(w, []) == w && Clearing(w, w, w.pending.Keys)
  {
  }

  lemma ClearOne(w: World, before: World, more: seq<Step>, rest: set<Id>, exec: Id)
    requires Clearing(w, before, rest) && CanRun(before, more) && forall s | s in more :: OwnStep(s)
    requires exec in rest && exec in before.pending && exec in w.pending && before.pending[exec] == w.pending[exec]
    requires Outcome(before, more).pending.Keys <= before.pending.Keys
    requires Deliverable(before, w.pending[exec]) ==> exec !in Outcome(before, more).pending
    ensures Clearing(w, Outcome(before, more), rest - {exec})
  {
    forall x | x in w.pending && Safe(w, w.pending[x])
      ensures Safe(Outcome(before, more), w.pending[x]) && (x in rest - {exec} || x !in Outcome(before, more).pending)
    {
      SafeRun(before, more, w.pending[x]);
    }
  }

  /** Over the run every event newly published is appended once, and every event acknowledged is done with, as long as
      the tombstones were kept through the history. */
  ghost predicate AppliedOnce(w: World, history: seq<Step>, run: seq<Step>, e: Effects)
    requires CanRun(w, run)
  {
    && (forall p | p in e.pubs && Known(w, p.target, p.id) == 0 && Remembers(history, p.target, p.id) ::
          Delivered(Outcome(w, run), p) && Appends(w, run, p.target, p.id) == 1)
    && (forall a, id | a in e.acks && id in a.ids && Belongs(w, a.conversation, id) && Remembers(history, w.home, id) ::
          Done(Outcome(w, run), id))
  }

  lemma RecoveredOnce(w: World, history: seq<Step>, steps: seq<Step>, exec: Id, e: Effects)
    requires AllSound(w) && Owed(w, exec, e, 0) && CanRun(w, history + steps) && forall s | s in steps :: OwnStep(s)
    requires exec !in Outcome(w, history + steps).pending
    ensures AppliedOnce(w, history, history + steps, e)
  {
    forall p | p in e.pubs && Known(w, p.target, p.id) == 0 && Remembers(history, p.target, p.id)
      ensures Delivered(Outcome(w, history + steps), p) && Appends(w, history + steps, p.target, p.id) == 1
    {
      var j :| 0 <= j < |e.pubs| && e.pubs[j] == p;
      OwnRemembers(steps, p.target, p.id);
      PublishedOnce(w, history + steps, exec, e, j);
    }
    forall a, id | a in e.acks && id in a.ids && Belongs(w, a.conversation, id) && Remembers(history, w.home, id)
      ensures Done(Outcome(w, history + steps), id)
    {
      var j :| 0 <= j < |e.acks| && e.acks[j] == a;
      OwnRemembers(steps, w.home, id);
      AckRun(w, history + steps, exec, e, j, id);
    }
  }

  /** `steps` began a pass over the execution's effects and applied the first `k` items. */
  predicate InPass(w: World, steps: seq<Step>, boxes: map<Id, Box>, exec: Id, k: nat) {
    && CanRun(w, steps) && w.home in boxes && exec in w.pending
    && Outcome(w, steps) == w.(boxes := boxes, at := Some(Pass(exec, k)))
  }

  lemma PassBegins(w: World, exec: Id)
    requires w.at.None? && exec in w.pending && w.home in w.boxes
    ensures InPass(w, [Begin(exec)], w.boxes, exec, 0)
    ensures Deliverable(w, w.pending[exec]) ==> Deliverable(Outcome(w, [Begin(exec)]), w.pending[exec])
  {
    OneMore(w, [], Begin(exec));
    assert [] + [Begin(exec)] == [Begin(exec)];
  }

  lemma PassGoes(w: World, steps: seq<Step>, boxes: map<Id, Box>, exec: Id, k: nat, now: real)
    requires InPass(w, steps, boxes, exec, k) && k < Total(w.pending[exec])
    ensures CanApply(boxes, w.home, w.pending[exec], k, now) ==>
      InPass(w, steps + [Apply(now)], Applied(boxes, w.home, w.pending[exec], k, now), exec, k + 1)
    ensures Deliverable(Outcome(w, steps), w.pending[exec]) ==>
      && CanApply(boxes, w.home, w.pending[exec], k, now)
      && Deliverable(Outcome(w, steps + [Apply(now)]), w.pending[exec])
  {
    var v, e := Outcome(w, steps), w.pending[exec];
    if Deliverable(v, e) {
      DeliverableKept(v, e, k, now);
    }
    if CanApply(boxes, w.home, e, k, now) {
      OneMore(w, steps, Apply(now));
    }
  }

  /** Runs compose. */
  lemma {:induction false} RunOn(w: World, run: seq<Step>, more: seq<Step>)
    requires CanRun(w, run) && CanRun(Outcome(w, run), more)
    ensures CanRun(w, run + more) && Outcome(w, run + more) == Outcome(Outcome(w, run), more)
    decreases |more|
  {
    if more == [] {
      assert run + more == run;
    } else {
      var n := |more| - 1;
      assert CanRun(Outcome(w, run), more[..n]) && Allows(Outcome(Outcome(w, run), more[..n]), more[n]);
      assert Outcome(Outcome(w, run), more) == Next(Outcome(Outcome(w, run), more[..n]), more[n]);
      hide CanRun, Outcome, Allows, Next;
      RunOn(w, run, more[..n]);
      OneMore(w, run + more[..n], more[n]);
      assert run + more[..n] + [more[n]] == run + more;
    }
  }
}
