/** The transactional outbox: a committed transition's acknowledgements and publications, applied after the commit and
    replayed from the start after a crash or a failed delivery, while consumers keep using the mailboxes. */
module Outbox {
  import opened Mail
  import opened Mailboxes

  datatype Ack = Ack(conversation: Id, ids: set<Id>)

  datatype Publication = Publication(target: Id, conversation: Id, id: Id, body: Json)

  datatype Effects = Effects(acks: seq<Ack>, pubs: seq<Publication>)

  /** How far the current pass over an execution's effects has come; a crash forgets it. */
  datatype Pass = Pass(exec: Id, done: nat)

  /** `home` is the runtime's own mailbox, where acknowledgements go. */
  datatype World = World(boxes: map<Id, Box>, home: Id, pending: map<Id, Effects>, at: Option<Pass>)

  datatype Step =
    | Committed(exec: Id, effects: Effects)
    | Begin(exec: Id)
    | Apply(now: real)
    | Clear
    | Stop
    | Elsewhere(target: Id, call: Call)
    | Forget(target: Id, ids: set<Id>)

  function Total(e: Effects): nat { |e.acks| + |e.pubs| }

  /** The next item of the pass can be applied: a publication's target resolves and takes the event. */
  predicate CanApply(boxes: map<Id, Box>, home: Id, e: Effects, k: nat, now: real)
    requires k < Total(e) && home in boxes
  {
    k < |e.acks| ||
    var p := e.pubs[k - |e.acks|];
    p.target in boxes && Append(boxes[p.target], p.conversation, p.id, p.body, now).Ok?
  }

  /** Acknowledgements are forced, publications carry their fixed identities. */
  function Applied(boxes: map<Id, Box>, home: Id, e: Effects, k: nat, now: real): map<Id, Box>
    requires k < Total(e) && home in boxes && CanApply(boxes, home, e, k, now)
  {
    if k < |e.acks| then boxes[home := ForceAcknowledge(boxes[home], e.acks[k].conversation, e.acks[k].ids, now)]
    else
      var p := e.pubs[k - |e.acks|];
      boxes[p.target := Append(boxes[p.target], p.conversation, p.id, p.body, now).value]
  }

  predicate Allows(w: World, s: Step) {
    match s
    case Committed(exec, _) => exec !in w.pending
    case Begin(exec) => w.at.None? && exec in w.pending
    case Apply(now) =>
      && w.home in w.boxes && w.at.Some? && w.at.value.exec in w.pending
      && w.at.value.done < Total(w.pending[w.at.value.exec])
      && CanApply(w.boxes, w.home, w.pending[w.at.value.exec], w.at.value.done, now)
    case Clear => w.at.Some? && w.at.value.exec in w.pending && w.at.value.done == Total(w.pending[w.at.value.exec])
    case Stop => true
    case Elsewhere(target, call) => target in w.boxes && Allowed(w.boxes[target], call)
    case Forget(target, ids) => target in w.boxes && ids !! w.boxes[target].events.Keys
  }

  function Next(w: World, s: Step): World
    requires Allows(w, s)
  {
    match s
    case Committed(exec, effects) => w.(pending := w.pending[exec := effects])
    case Begin(exec) => w.(at := Some(Pass(exec, 0)))
    case Apply(now) =>
      var pass := w.at.value;
      w.(boxes := Applied(w.boxes, w.home, w.pending[pass.exec], pass.done, now),
         at := Some(pass.(done := pass.done + 1)))
    case Clear => w.(pending := w.pending - {w.at.value.exec}, at := None)
    case Stop => w.(at := None)
    case Elsewhere(target, call) => w.(boxes := w.boxes[target := Do(w.boxes[target], call)])
    case Forget(target, ids) => w.(boxes := w.boxes[target := w.boxes[target].(seen := w.boxes[target].seen - ids)])
  }

  predicate CanRun(w: World, run: seq<Step>)
    decreases |run|, 0
  {
    run == [] || (CanRun(w, run[..|run| - 1]) && Allows(Outcome(w, run[..|run| - 1]), run[|run| - 1]))
  }

  function Outcome(w: World, run: seq<Step>): World
    requires CanRun(w, run)
    decreases |run|, 1
  {
    if run == [] then w else Next(Outcome(w, run[..|run| - 1]), run[|run| - 1])
  }

  predicate AllSound(w: World) {
    w.home in w.boxes && forall t | t in w.boxes :: Sound(w.boxes[t])
  }

  // ---- Every step is a call on one mailbox -----------------------------------

  /** The mailbox call a step makes on a target, if any. */
  function CallOn(w: World, s: Step, target: Id): Option<Call>
    requires Allows(w, s)
  {
    match s
    case Elsewhere(t, call) => if t == target then Some(call) else None
    case Apply(now) =>
      var e, k := w.pending[w.at.value.exec], w.at.value.done;
      if k < |e.acks| then
        if target == w.home then Some(Forced(e.acks[k].conversation, e.acks[k].ids, now)) else None
      else
        var p := e.pubs[k - |e.acks|];
        if target == p.target then Some(Appended(p.conversation, p.id, p.body, now)) else None
    case _ => None
  }

  predicate Forgets(s: Step, target: Id, id: Id) {
    s.Forget? && s.target == target && id in s.ids
  }

  lemma StepCalls(w: World, s: Step, target: Id)
    requires Allows(w, s) && target in w.boxes
    ensures target in Next(w, s).boxes
    ensures CallOn(w, s, target).Some? ==>
      && Allowed(w.boxes[target], CallOn(w, s, target).value)
      && Next(w, s).boxes[target] == Do(w.boxes[target], CallOn(w, s, target).value)
    ensures CallOn(w, s, target).None? ==>
      && Next(w, s).boxes[target].events == w.boxes[target].events
      && Next(w, s).boxes[target].next == w.boxes[target].next
      && forall id :: (id in Next(w, s).boxes[target].seen <==> id in w.boxes[target].seen && !Forgets(s, target, id))
  {
  }

  lemma ForgetKeepsSound(b: Box, ids: set<Id>)
    requires Sound(b) && ids !! b.events.Keys
    ensures Sound(b.(seen := b.seen - ids))
  {
    var r := b.(seen := b.seen - ids);
    forall id | id in r.events ensures SoundEvent(r, id) {
      assert SoundEvent(b, id);
    }
  }

  lemma StepSound(w: World, s: Step)
    requires AllSound(w) && Allows(w, s)
    ensures AllSound(Next(w, s))
  {
    forall t | t in Next(w, s).boxes ensures Sound(Next(w, s).boxes[t]) {
      assert t in w.boxes;
      if s.Forget? && s.target == t {
        ForgetKeepsSound(w.boxes[t], s.ids);
      } else {
        StepCalls(w, s, t);
        if CallOn(w, s, t).Some? {
          SoundKept(w.boxes[t], CallOn(w, s, t).value);
        } else {
          assert Next(w, s).boxes[t] == w.boxes[t];
        }
      }
    }
  }

  lemma {:induction false} RunSound(w: World, run: seq<Step>)
    requires AllSound(w) && CanRun(w, run)
    ensures AllSound(Outcome(w, run)) && Outcome(w, run).boxes.Keys == w.boxes.Keys && Outcome(w, run).home == w.home
    decreases |run|
  {
    if run == [] {
    } else {
      var n := |run| - 1;
      RunSound(w, run[..n]);
      StepSound(Outcome(w, run[..n]), run[n]);
    }
  }

  // ---- Appends and tombstones balance ----------------------------------------

  function Known(w: World, target: Id, id: Id): nat
  {
    if target in w.boxes && id in w.boxes[target].seen then 1 else 0
  }

  /** How often the run really appended the identity: calls that found it unknown. */
  function Appends(w: World, run: seq<Step>, target: Id, id: Id): nat
    requires CanRun(w, run)
    decreases |run|
  {
    if run == [] then 0
    else
      var before := run[..|run| - 1];
      Appends(w, before, target, id)
        + if Known(Outcome(w, before), target, id) == 0 && Known(Outcome(w, run), target, id) == 1 then 1 else 0
  }

  /** How often the run dropped the identity's tombstone. */
  function Drops(w: World, run: seq<Step>, target: Id, id: Id): nat
    requires CanRun(w, run)
    decreases |run|
  {
    if run == [] then 0
    else
      var before := run[..|run| - 1];
      Drops(w, before, target, id)
        + if Known(Outcome(w, before), target, id) == 1 && Forgets(run[|run| - 1], target, id) then 1 else 0
  }

  lemma StepBalance(w: World, s: Step, target: Id, id: Id)
    requires Allows(w, s)
    ensures Known(w, target, id) == 1 ==> (Known(Next(w, s), target, id) == 0 <==> Forgets(s, target, id))
    ensures target !in w.boxes ==> target !in Next(w, s).boxes
  {
    if target in w.boxes {
      StepCalls(w, s, target);
      if CallOn(w, s, target).Some? {
        var c := CallOn(w, s, target).value;
        assert id in w.boxes[target].seen ==> id in Do(w.boxes[target], c).seen;
      }
    }
  }

  /** Whatever crashes, replays and consumers do, every append of an identity after the first is paid for by a
      dropped tombstone. */
  lemma {:induction false} AppendsBalance(w: World, run: seq<Step>, target: Id, id: Id)
    requires CanRun(w, run)
    ensures Appends(w, run, target, id) + Known(w, target, id) ==
      Drops(w, run, target, id) + Known(Outcome(w, run), target, id)
    decreases |run|
  {
    if run == [] {
    } else {
      var n := |run| - 1;
      AppendsBalance(w, run[..n], target, id);
      StepBalance(Outcome(w, run[..n]), run[n], target, id);
    }
  }

  predicate Remembers(run: seq<Step>, target: Id, id: Id) {
    forall i | 0 <= i < |run| :: !Forgets(run[i], target, id)
  }

  lemma {:induction false} NoDrops(w: World, run: seq<Step>, target: Id, id: Id)
    requires CanRun(w, run) && Remembers(run, target, id)
    ensures Drops(w, run, target, id) == 0
    decreases |run|
  {
    if run == [] {
    } else {
      NoDrops(w, run[..|run| - 1], target, id);
    }
  }

  // ---- Publications ----------------------------------------------------------

  /** The publication's event is in its conversation, or its tombstone is. */
  predicate Delivered(w: World, p: Publication) {
    p.target in w.boxes && p.id in w.boxes[p.target].seen && w.boxes[p.target].seen[p.id].conversation == p.conversation
  }

  /** Still to be applied by this pass or a later one. */
  predicate Owed(w: World, exec: Id, e: Effects, item: nat) {
    exec in w.pending && w.pending[exec] == e && (w.at.Some? && w.at.value.exec == exec ==> w.at.value.done <= item)
  }

  lemma DeliveredStays(w: World, s: Step, p: Publication)
    requires Allows(w, s) && Delivered(w, p) && !Forgets(s, p.target, p.id)
    ensures Delivered(Next(w, s), p)
  {
    StepCalls(w, s, p.target);
  }

  lemma PublicationStep(w: World, s: Step, exec: Id, e: Effects, j: nat)
    requires AllSound(w) && Allows(w, s) && j < |e.pubs| && !Forgets(s, e.pubs[j].target, e.pubs[j].id)
    requires Delivered(w, e.pubs[j]) || Owed(w, exec, e, |e.acks| + j)
    ensures Delivered(Next(w, s), e.pubs[j]) || Owed(Next(w, s), exec, e, |e.acks| + j)
  {
    var p := e.pubs[j];
    if Delivered(w, p) {
      DeliveredStays(w, s, p);
    } else if s.Apply? && w.at.value == Pass(exec, |e.acks| + j) {
      assert Next(w, s).boxes[p.target] == Append(w.boxes[p.target], p.conversation, p.id, p.body, s.now).value;
      assert Delivered(Next(w, s), p);
    }
  }

  lemma {:induction false} PublicationRun(w: World, run: seq<Step>, exec: Id, e: Effects, j: nat)
    requires AllSound(w) && CanRun(w, run) && j < |e.pubs| && Remembers(run, e.pubs[j].target, e.pubs[j].id)
    requires Delivered(w, e.pubs[j]) || Owed(w, exec, e, |e.acks| + j)
    ensures Delivered(Outcome(w, run), e.pubs[j]) || Owed(Outcome(w, run), exec, e, |e.acks| + j)
    decreases |run|
  {
    if run == [] {
    } else {
      var n := |run| - 1;
      RunSound(w, run[..n]);
      PublicationRun(w, run[..n], exec, e, j);
      PublicationStep(Outcome(w, run[..n]), run[n], exec, e, j);
    }
  }

  /** Once an execution's effects are cleared, however often they were cut short and replayed, each publication has
      been appended exactly once, as long as its tombstone is kept. */
  lemma PublishedOnce(w: World, run: seq<Step>, exec: Id, e: Effects, j: nat)
    requires AllSound(w) && CanRun(w, run) && j < |e.pubs| && Owed(w, exec, e, 0)
    requires Known(w, e.pubs[j].target, e.pubs[j].id) == 0 && Remembers(run, e.pubs[j].target, e.pubs[j].id)
    ensures Appends(w, run, e.pubs[j].target, e.pubs[j].id) <= 1
    ensures exec !in Outcome(w, run).pending ==>
      Delivered(Outcome(w, run), e.pubs[j]) && Appends(w, run, e.pubs[j].target, e.pubs[j].id) == 1
  {
    PublicationRun(w, run, exec, e, j);
    AppendsBalance(w, run, e.pubs[j].target, e.pubs[j].id);
    NoDrops(w, run, e.pubs[j].target, e.pubs[j].id);
  }

  // ---- Acknowledgements ------------------------------------------------------

  /** The identity is settled for good in the runtime's mailbox. */
  predicate Done(w: World, id: Id) { w.home in w.boxes && Spent(w.boxes[w.home], id) }

  /** The identity is known to belong to the conversation. */
  predicate Belongs(w: World, conversation: Id, id: Id) {
    w.home in w.boxes && id in w.boxes[w.home].seen && w.boxes[w.home].seen[id].conversation == conversation
  }

  lemma AckStep(w: World, s: Step, exec: Id, e: Effects, j: nat, id: Id)
    requires AllSound(w) && Allows(w, s) && j < |e.acks| && id in e.acks[j].ids && !Forgets(s, w.home, id)
    requires Belongs(w, e.acks[j].conversation, id) && (Done(w, id) || Owed(w, exec, e, j))
    ensures Belongs(Next(w, s), e.acks[j].conversation, id) && (Done(Next(w, s), id) || Owed(Next(w, s), exec, e, j))
  {
    StepCalls(w, s, w.home);
    if CallOn(w, s, w.home).Some? {
      var b, c := w.boxes[w.home], CallOn(w, s, w.home).value;
      if Done(w, id) {
        SpentKept(b, c, id);
      } else if s.Apply? && w.at.value == Pass(exec, j) {
        assert id in b.events && SoundEvent(b, id);
        assert Spent(Do(b, c), id);
      }
    }
  }

  lemma {:induction false} AckRun(w: World, run: seq<Step>, exec: Id, e: Effects, j: nat, id: Id)
    requires AllSound(w) && CanRun(w, run) && j < |e.acks| && id in e.acks[j].ids && Remembers(run, w.home, id)
    requires Belongs(w, e.acks[j].conversation, id) && (Done(w, id) || Owed(w, exec, e, j))
    ensures Belongs(Outcome(w, run), e.acks[j].conversation, id)
    ensures Done(Outcome(w, run), id) || Owed(Outcome(w, run), exec, e, j)
    decreases |run|
  {
    if run == [] {
    } else {
      var n := |run| - 1;
      RunSound(w, run[..n]);
      AckRun(w, run[..n], exec, e, j, id);
      AckStep(Outcome(w, run[..n]), run[n], exec, e, j, id);
    }
  }

  lemma {:induction false} Prefixes(w: World, run: seq<Step>, k: nat)
    requires CanRun(w, run) && k <= |run|
    ensures CanRun(w, run[..k])
    ensures k < |run| ==>
      CanRun(w, run[..k + 1]) && Allows(Outcome(w, run[..k]), run[k])
        && Outcome(w, run[..k + 1]) == Next(Outcome(w, run[..k]), run[k])
    decreases |run|
  {
    var n := |run| - 1;
    if k == |run| {
      assert run[..k] == run;
    } else if k < n {
      Prefixes(w, run[..n], k);
      assert run[..n][..k] == run[..k] && run[..n][..k + 1] == run[..k + 1];
    } else {
      assert run[..k + 1] == run;
    }
  }

  lemma DoneStep(w: World, s: Step, id: Id)
    requires AllSound(w) && Allows(w, s) && Done(w, id) && !Forgets(s, w.home, id)
    ensures Done(Next(w, s), id)
    ensures s.Elsewhere? && s.target == w.home && s.call.Claimed? ==> id !in s.call.ids
  {
    StepCalls(w, s, w.home);
    if CallOn(w, s, w.home).Some? {
      SpentKept(w.boxes[w.home], CallOn(w, s, w.home).value, id);
    }
  }

  lemma {:induction false} DoneStays(w: World, run: seq<Step>, id: Id, k: nat, i: nat)
    requires AllSound(w) && CanRun(w, run) && Remembers(run, w.home, id) && k <= i <= |run|
    requires CanRun(w, run[..k]) && Done(Outcome(w, run[..k]), id)
    ensures CanRun(w, run[..i]) && Done(Outcome(w, run[..i]), id)
    decreases i
  {
    if k < i {
      DoneStays(w, run, id, k, i - 1);
      Prefixes(w, run, i - 1);
      RunSound(w, run[..i - 1]);
      hide AllSound, Done, Allows, Next;
      DoneStep(Outcome(w, run[..i - 1]), run[i - 1], id);
    }
  }

  /** Once an execution's effects are cleared, every event they acknowledge is acknowledged for good: nobody ever
      claims it again. */
  lemma AcknowledgedForever(w: World, run: seq<Step>, exec: Id, e: Effects, j: nat, id: Id, k: nat, i: nat)
    requires AllSound(w) && CanRun(w, run) && j < |e.acks| && id in e.acks[j].ids && Remembers(run, w.home, id)
    requires Belongs(w, e.acks[j].conversation, id) && Owed(w, exec, e, 0) && k <= i < |run|
    requires CanRun(w, run[..k]) && exec !in Outcome(w, run[..k]).pending
    ensures run[i].Elsewhere? && run[i].target == w.home && run[i].call.Claimed? ==> id !in run[i].call.ids
  {
    AckRun(w, run[..k], exec, e, j, id);
    DoneStays(w, run, id, k, i);
    Prefixes(w, run, i);
    RunSound(w, run[..i]);
    hide AllSound, Done, Allows, Next;
    DoneStep(Outcome(w, run[..i]), run[i], id);
  }

  // ---- What is published is what was committed -------------------------------

  /** Nothing known or pending gives the publication's identity another body. */
  predicate Carries(w: World, p: Publication) {
    && (p.target in w.boxes && p.id in w.boxes[p.target].events ==> w.boxes[p.target].events[p.id].body == p.body)
    && forall x | x in w.pending :: SameBody(w.pending[x], p)
  }

  predicate SameBody(e: Effects, p: Publication) {
    forall q | q in e.pubs && q.target == p.target && q.id == p.id :: q.body == p.body
  }

  /** Nobody else appends the identity with another body. */
  predicate Exclusive(s: Step, p: Publication) {
    && (s.Committed? ==> SameBody(s.effects, p))
    && (s.Elsewhere? && s.target == p.target && s.call.Appended? && s.call.id == p.id ==> s.call.body == p.body)
  }

  lemma CarryStep(w: World, s: Step, p: Publication)
    requires Allows(w, s) && Carries(w, p) && Exclusive(s, p)
    ensures Carries(Next(w, s), p)
  {
    if p.target in w.boxes {
      StepCalls(w, s, p.target);
      var b := w.boxes[p.target];
      if CallOn(w, s, p.target).Some? {
        var c := CallOn(w, s, p.target).value;
        assert c.Appended? && c.id == p.id ==> c.body == p.body;
        assert p.id in Do(b, c).events ==>
          if p.id in b.events then Do(b, c).events[p.id].body == b.events[p.id].body
          else c.Appended? && c.id == p.id && Do(b, c).events[p.id].body == c.body;
      }
    }
  }

  /** The event a publication's identity names carries the committed body, through every replay. */
  lemma {:induction false} BodyKept(w: World, run: seq<Step>, p: Publication)
    requires CanRun(w, run) && Carries(w, p) && forall s | s in run :: Exclusive(s, p)
    ensures Carries(Outcome(w, run), p)
    decreases |run|
  {
    if run == [] {
    } else {
      var n := |run| - 1;
      BodyKept(w, run[..n], p);
      CarryStep(Outcome(w, run[..n]), run[n], p);
    }
  }

  // ---- Replay can always finish ----------------------------------------------

  /** Every publication's target resolves and would take the event, alone or after the others. */
  predicate Deliverable(w: World, e: Effects) {
    && w.home in w.boxes
    && (forall p | p in e.pubs :: p.target in w.boxes && p.conversation != ""
          && (p.id in w.boxes[p.target].seen ==> w.boxes[p.target].seen[p.id].conversation == p.conversation))
    && (forall p, q | p in e.pubs && q in e.pubs && p.target == q.target && p.id == q.id ::
        p.conversation == q.conversation)
  }

  function Applies(now: real, n: nat): seq<Step> { seq(n, _ => Apply(now)) }

  /** From any state, however far an earlier pass came, stopping and replaying clears the effects. */
  lemma ReplayClears(w: World, exec: Id, now: real)
    requires exec in w.pending && Deliverable(w, w.pending[exec])
    ensures var run := [Stop, Begin(exec)] + Applies(now, Total(w.pending[exec])) + [Clear];
      CanRun(w, run) && exec !in Outcome(w, run).pending
  {
    var n := Total(w.pending[exec]);
    ReplayPass(w, exec, now, n);
    OneMore(w, [Stop, Begin(exec)] + Applies(now, n), Clear);
  }

  lemma OneMore(w: World, run: seq<Step>, s: Step)
    requires CanRun(w, run) && Allows(Outcome(w, run), s)
    ensures CanRun(w, run + [s]) && Outcome(w, run + [s]) == Next(Outcome(w, run), s)
    ensures forall t, id :: (Appends(w, run + [s], t, id) == Appends(w, run, t, id)
      + if Known(Outcome(w, run), t, id) == 0 && Known(Next(Outcome(w, run), s), t, id) == 1 then 1 else 0)
  {
    assert (run + [s])[..|run|] == run;
  }

  lemma {:induction false} ReplayPass(w: World, exec: Id, now: real, n: nat)
    requires exec in w.pending && Deliverable(w, w.pending[exec]) && n <= Total(w.pending[exec])
    ensures var run := [Stop, Begin(exec)] + Applies(now, n);
      && CanRun(w, run)
      && Outcome(w, run).pending == w.pending && Outcome(w, run).at == Some(Pass(exec, n))
      && Outcome(w, run).home == w.home
      && Deliverable(Outcome(w, run), w.pending[exec])
    decreases n, 1
  {
    if n == 0 {
      ReplayBegins(w, exec);
      assert [Stop, Begin(exec)] + Applies(now, 0) == [Stop, Begin(exec)];
    } else {
      ReplayPassOn(w, exec, now, n);
    }
  }

  lemma {:induction false} ReplayPassOn(w: World, exec: Id, now: real, n: nat)
    requires exec in w.pending && Deliverable(w, w.pending[exec]) && 0 < n <= Total(w.pending[exec])
    ensures var run := [Stop, Begin(exec)] + Applies(now, n);
      && CanRun(w, run)
      && Outcome(w, run).pending == w.pending && Outcome(w, run).at == Some(Pass(exec, n))
      && Outcome(w, run).home == w.home
      && Deliverable(Outcome(w, run), w.pending[exec])
    decreases n, 0
  {
    hide CanRun, Outcome, CanApply, Applied;
    ReplayPass(w, exec, now, n - 1);
    var before := [Stop, Begin(exec)] + Applies(now, n - 1);
    assert [Stop, Begin(exec)] + Applies(now, n) == before + [Apply(now)];
    DeliverableKept(Outcome(w, before), w.pending[exec], n - 1, now);
    assert Allows(Outcome(w, before), Apply(now));
    hide Deliverable;
    OneMore(w, before, Apply(now));
  }

  lemma ReplayBegins(w: World, exec: Id)
    requires exec in w.pending
    ensures CanRun(w, [Stop, Begin(exec)]) && Outcome(w, [Stop, Begin(exec)]) == w.(at := Some(Pass(exec, 0)))
  {
    OneMore(w, [], Stop);
    OneMore(w, [Stop], Begin(exec));
    assert [] + [Stop] == [Stop] && [Stop] + [Begin(exec)] == [Stop, Begin(exec)];
  }

  lemma DeliverableKept(w: World, e: Effects, k: nat, now: real)
    requires Deliverable(w, e) && k < Total(e)
    ensures CanApply(w.boxes, w.home, e, k, now)
    ensures Deliverable(w.(boxes := Applied(w.boxes, w.home, e, k, now)), e)
  {
    if k >= |e.acks| {
      assert e.pubs[k - |e.acks|] in e.pubs;
    }
  }

  /** The target knows the identity, as one of the publication's conversation. */
  predicate Landed(boxes: map<Id, Box>, p: Publication) {
    && p.target in boxes && p.conversation != ""
    && p.id in boxes[p.target].seen && boxes[p.target].seen[p.id].conversation == p.conversation
  }

  /** Every identity known before is known after, for the same conversation. */
  predicate SameTold(before: map<Id, Box>, after: map<Id, Box>) {
    && before.Keys == after.Keys
    && forall t, id | t in before && id in before[t].seen ::
      id in after[t].seen && after[t].seen[id].conversation == before[t].seen[id].conversation
  }

  lemma AppliedLands(boxes: map<Id, Box>, home: Id, e: Effects, k: nat, now: real)
    requires k < Total(e) && home in boxes && CanApply(boxes, home, e, k, now)
    ensures SameTold(boxes, Applied(boxes, home, e, k, now))
    ensures k >= |e.acks| ==> Landed(Applied(boxes, home, e, k, now), e.pubs[k - |e.acks|])
  {
  }

  lemma LandedStays(before: map<Id, Box>, after: map<Id, Box>, p: Publication)
    requires Landed(before, p) && SameTold(before, after)
    ensures Landed(after, p)
  {
  }

  lemma RememberedOn(one: map<Id, Box>, two: map<Id, Box>, three: map<Id, Box>)
    requires SameTold(one, two) && SameTold(two, three)
    ensures SameTold(one, three)
  {
  }

  /** A replay of `n` items: the publications among them have landed. */
  predicate CameTo(w: World, v: World, exec: Id, n: nat) {
    && exec in w.pending && n <= Total(w.pending[exec])
    && v.pending == w.pending && v.at == Some(Pass(exec, n)) && v.home == w.home && SameTold(w.boxes, v.boxes)
    && forall i | 0 <= i < n - |w.pending[exec].acks| :: Landed(v.boxes, w.pending[exec].pubs[i])
  }

  lemma LandsStep(w: World, v: World, exec: Id, n: nat, now: real)
    requires CameTo(w, v, exec, n) && Allows(v, Apply(now))
    ensures CameTo(w, Next(v, Apply(now)), exec, n + 1)
  {
    hide Landed, SameTold, CanApply, Applied;
    var e := w.pending[exec];
    var after := Applied(v.boxes, v.home, e, n, now);
    AppliedLands(v.boxes, v.home, e, n, now);
    RememberedOn(w.boxes, v.boxes, after);
    forall i | 0 <= i < n - |e.acks| ensures Landed(after, e.pubs[i]) {
      LandedStays(v.boxes, after, e.pubs[i]);
    }
  }

  lemma LastStep(w: World, run: seq<Step>, s: Step)
    requires CanRun(w, run + [s])
    ensures CanRun(w, run) && Allows(Outcome(w, run), s) && Outcome(w, run + [s]) == Next(Outcome(w, run), s)
  {
    assert (run + [s])[..|run|] == run;
  }

  lemma {:induction false} ReplayLands(w: World, exec: Id, now: real, n: nat)
    requires exec in w.pending && n <= Total(w.pending[exec])
    requires CanRun(w, [Stop, Begin(exec)] + Applies(now, n))
    ensures CameTo(w, Outcome(w, [Stop, Begin(exec)] + Applies(now, n)), exec, n)
    decreases n, 1
  {
    if n == 0 {
      ReplayBegins(w, exec);
      assert [Stop, Begin(exec)] + Applies(now, 0) == [Stop, Begin(exec)];
    } else {
      ReplayOn(w, exec, now, n);
    }
  }

  lemma {:induction false} ReplayOn(w: World, exec: Id, now: real, n: nat)
    requires exec in w.pending && 0 < n <= Total(w.pending[exec])
    requires CanRun(w, [Stop, Begin(exec)] + Applies(now, n))
    ensures CameTo(w, Outcome(w, [Stop, Begin(exec)] + Applies(now, n)), exec, n)
    decreases n, 0
  {
    hide CameTo, Next, Allows, CanRun, Outcome;
    var before := [Stop, Begin(exec)] + Applies(now, n - 1);
    assert [Stop, Begin(exec)] + Applies(now, n) == before + [Apply(now)];
    LastStep(w, before, Apply(now));
    ReplayLands(w, exec, now, n - 1);
    LandsStep(w, Outcome(w, before), exec, n - 1, now);
  }

  /** Replaying from the start clears effects exactly when every target takes its publication. */
  lemma ClearsExactly(w: World, exec: Id, now: real)
    requires exec in w.pending && w.home in w.boxes
    ensures CanRun(w, [Stop, Begin(exec)] + Applies(now, Total(w.pending[exec])) + [Clear])
      <==> Deliverable(w, w.pending[exec])
  {
    hide Deliverable, CanRun, Outcome, Allows, Next, Landed, SameTold;
    var e := w.pending[exec];
    var before := [Stop, Begin(exec)] + Applies(now, Total(e));
    if Deliverable(w, e) {
      ReplayClears(w, exec, now);
    }
    if CanRun(w, before + [Clear]) {
      LastStep(w, before, Clear);
      ReplayLands(w, exec, now, Total(e));
      LandedDeliver(w, e, Outcome(w, before).boxes);
    }
  }

  lemma LandedDeliver(w: World, e: Effects, after: map<Id, Box>)
    requires w.home in w.boxes && SameTold(w.boxes, after)
    requires forall i | 0 <= i < |e.pubs| :: Landed(after, e.pubs[i])
    ensures Deliverable(w, e)
  {
  }

  // ---- Recovery of several executions ----------------------------------------

  /** A step of applying effects, by nobody else. */
  predicate OwnStep(s: Step) { s.Begin? || s.Apply? || s.Clear? || s.Stop? }

  /** Deliverable whatever the other pending effects do: they publish no identity of these elsewhere. */
  predicate Safe(w: World, e: Effects) {
    Deliverable(w, e) && forall x | x in w.pending :: Agree(w.pending[x], e)
  }

  predicate Agree(other: Effects, e: Effects) {
    forall p, q | p in e.pubs && q in other.pubs && p.target == q.target && p.id == q.id ::
      p.conversation == q.conversation
  }

  lemma SafeStep(w: World, s: Step, e: Effects)
    requires Safe(w, e) && Allows(w, s) && OwnStep(s)
    ensures Safe(Next(w, s), e)
  {
    if s.Apply? {
      var d, k := w.pending[w.at.value.exec], w.at.value.done;
      if k >= |d.acks| {
        var q := d.pubs[k - |d.acks|];
        assert q in d.pubs && Agree(d, e);
      }
    }
  }

  lemma {:induction false} SafeRun(w: World, run: seq<Step>, e: Effects)
    requires Safe(w, e) && CanRun(w, run) && forall s | s in run :: OwnStep(s)
    ensures Safe(Outcome(w, run), e)
    decreases |run|
  {
    if run == [] {
    } else {
      var n := |run| - 1;
      SafeRun(w, run[..n], e);
      assert run[n] in run;
      SafeStep(Outcome(w, run[..n]), run[n], e);
    }
  }

  /** Applying effects drops no tombstone. */
  lemma OwnRemembers(run: seq<Step>, target: Id, id: Id)
    requires forall s | s in run :: OwnStep(s)
    ensures Remembers(run, target, id)
  {
    forall i | 0 <= i < |run| ensures !Forgets(run[i], target, id) {
      assert run[i] in run;
    }
  }

  // ---- Without tombstones ----------------------------------------------------

  /** One mailbox, and one execution that owes it one publication. */
  function OneOwed(exec: Id, p: Publication, b: Box, at: Option<Pass>): World {
    World(map[p.target := b], p.target, map[exec := Effects([], [p])], at)
  }

  /** Applied, acknowledged by a consumer, purged, its tombstone purged, crashed before clearing, replayed. */
  function Republished(exec: Id, p: Publication): seq<Step> {
    [] + [Begin(exec)] + [Apply(1.0)]
    + [Elsewhere(p.target, Forced(p.conversation, {p.id}, 2.0))] + [Elsewhere(p.target, Purged(None, None, 1, [p.id]))]
    + [Forget(p.target, {p.id})] + [Stop] + [Begin(exec)] + [Apply(3.0)]
  }

  function EmptyBox(next: nat): Box { Box(map[], next, map[]) }

  function Holding(p: Publication, next: nat, at: real): Box {
    Box(map[p.id := Stored(p.id, p.conversation, next, Pending, p.body)], next + 1,
        map[p.id := Seen(p.conversation, at)])
  }

  function Emptied(p: Publication): Box { Holding(p, 0, 1.0).(events := map[]) }

  /** Keeping tombstones is needed: dropping that of a publication whose effects are not cleared yet lets a replay
      deliver it twice. */
  lemma TombstoneMatters(exec: Id, p: Publication)
    requires p.conversation != ""
    ensures var w := OneOwed(exec, p, EmptyBox(0), None);
      CanRun(w, Republished(exec, p)) && Appends(w, Republished(exec, p), p.target, p.id) == 2
  {
    var w := OneOwed(exec, p, EmptyBox(0), None);
    Replayed(exec, p, 0, 1.0);
    Replayed(exec, p, 1, 3.0);
    Consumed(exec, p);
    var at0, at1 := Some(Pass(exec, 0)), Some(Pass(exec, 1));
    var ack := Holding(p, 0, 1.0).(events := map[p.id := Stored(p.id, p.conversation, 0, Acknowledged(2.0), p.body)]);
    var run: seq<Step> := [];
    assert Leads(w, run, w, p, 0);
    Extend(w, run, exec, p, EmptyBox(0), None, Begin(exec), EmptyBox(0), at0, 0);
    run := run + [Begin(exec)];
    Extend(w, run, exec, p, EmptyBox(0), at0, Apply(1.0), Holding(p, 0, 1.0), at1, 0);
    run := run + [Apply(1.0)];
    Extend(w, run, exec, p, Holding(p, 0, 1.0), at1, Elsewhere(p.target, Forced(p.conversation, {p.id}, 2.0)), ack,
           at1, 1);
    run := run + [Elsewhere(p.target, Forced(p.conversation, {p.id}, 2.0))];
    Extend(w, run, exec, p, ack, at1, Elsewhere(p.target, Purged(None, None, 1, [p.id])), Emptied(p), at1, 1);
    run := run + [Elsewhere(p.target, Purged(None, None, 1, [p.id]))];
    Extend(w, run, exec, p, Emptied(p), at1, Forget(p.target, {p.id}), EmptyBox(1), at1, 1);
    run := run + [Forget(p.target, {p.id})];
    Extend(w, run, exec, p, EmptyBox(1), at1, Stop, EmptyBox(1), None, 1);
    run := run + [Stop];
    Extend(w, run, exec, p, EmptyBox(1), None, Begin(exec), EmptyBox(1), at0, 1);
    run := run + [Begin(exec)];
    Extend(w, run, exec, p, EmptyBox(1), at0, Apply(3.0), Holding(p, 1, 3.0), at1, 1);
  }

  /** The run leads from one world to another and really appends the publication's identity so many times. */
  predicate Leads(w: World, run: seq<Step>, v: World, p: Publication, times: nat) {
    CanRun(w, run) && Outcome(w, run) == v && Appends(w, run, p.target, p.id) == times
  }

  lemma Extend(w: World, run: seq<Step>, exec: Id, p: Publication, b: Box, at: Option<Pass>, s: Step, c: Box,
               to: Option<Pass>, times: nat)
    requires Leads(w, run, OneOwed(exec, p, b, at), p, times)
    requires Allows(OneOwed(exec, p, b, at), s) && Next(OneOwed(exec, p, b, at), s) == OneOwed(exec, p, c, to)
    ensures Leads(w, run + [s], OneOwed(exec, p, c, to), p,
                  times + if p.id !in b.seen && p.id in c.seen then 1 else 0)
  {
    OneMore(w, run, s);
    assert Known(OneOwed(exec, p, b, at), p.target, p.id) == if p.id in b.seen then 1 else 0;
    assert Known(OneOwed(exec, p, c, to), p.target, p.id) == if p.id in c.seen then 1 else 0;
  }

  /** A pass over the publication from an empty mailbox, and a crash after it. */
  lemma Replayed(exec: Id, p: Publication, next: nat, now: real)
    requires p.conversation != ""
    ensures var w, v := OneOwed(exec, p, EmptyBox(next), None), OneOwed(exec, p, EmptyBox(next), Some(Pass(exec, 0)));
      Allows(w, Begin(exec)) && Next(w, Begin(exec)) == v
      && Allows(v, Apply(now)) && Next(v, Apply(now)) == OneOwed(exec, p, Holding(p, next, now), Some(Pass(exec, 1)))
  {
    assert Append(EmptyBox(next), p.conversation, p.id, p.body, now).value == Holding(p, next, now);
  }

  /** The consumer's side: acknowledged, purged, forgotten; and the crash. */
  lemma Consumed(exec: Id, p: Publication)
    ensures var b, at := Holding(p, 0, 1.0), Some(Pass(exec, 1));
      var r := b.(events := map[p.id := Stored(p.id, p.conversation, 0, Acknowledged(2.0), p.body)]);
      var ack := Elsewhere(p.target, Forced(p.conversation, {p.id}, 2.0));
      var purge := Elsewhere(p.target, Purged(None, None, 1, [p.id]));
      && Allows(OneOwed(exec, p, b, at), ack) && Next(OneOwed(exec, p, b, at), ack) == OneOwed(exec, p, r, at)
      && Allows(OneOwed(exec, p, r, at), purge)
      && Next(OneOwed(exec, p, r, at), purge) == OneOwed(exec, p, Emptied(p), at)
      && Allows(OneOwed(exec, p, Emptied(p), at), Forget(p.target, {p.id}))
      && Next(OneOwed(exec, p, Emptied(p), at), Forget(p.target, {p.id})) == OneOwed(exec, p, EmptyBox(1), at)
      && Next(OneOwed(exec, p, EmptyBox(1), at), Stop) == OneOwed(exec, p, EmptyBox(1), None)
  {
    var b := Holding(p, 0, 1.0);
    var r := b.(events := map[p.id := Stored(p.id, p.conversation, 0, Acknowledged(2.0), p.body)]);
    AckAndPurge(p, b, r);
    assert Emptied(p).(seen := Emptied(p).seen - {p.id}) == EmptyBox(1);
  }

  lemma AckAndPurge(p: Publication, b: Box, r: Box)
    requires b == Holding(p, 0, 1.0)
    requires r == b.(events := map[p.id := Stored(p.id, p.conversation, 0, Acknowledged(2.0), p.body)])
    ensures Do(b, Forced(p.conversation, {p.id}, 2.0)) == r
    ensures Allowed(r, Purged(None, None, 1, [p.id])) && Do(r, Purged(None, None, 1, [p.id])) == Emptied(p)
  {
    assert Reached(b, p.conversation, {p.id}) == {p.id};
    assert Remove(r, [p.id]).events == map[];
  }
}
