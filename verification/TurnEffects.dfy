/** What each step of a turn tells the model and does to the panel, field by field. */
module TurnEffects {
  import opened Mail
  import opened Conversation
  import opened TurnAccounting
  import opened TurnSafety

  // ---- Promotion -------------------------------------------------------------

  function Running(p: Panel, id: CallId): Message
    requires id in p.entries
  {
    Tool(id, p.entries[id].title, StillRunning(p.entries[id].to))
  }

  /** Exactly these waits go on as connected work, and the call of each is told once that the work still runs. */
  predicate Promotes(c: Chat, d: Chat, ids: set<CallId>) {
    && d == c.(panel := d.panel, deferred := d.deferred) && ids <= c.panel.entries.Keys
    && d.panel.live == c.panel.live && d.panel.entries.Keys == c.panel.entries.Keys
    && (forall id | id in c.panel.entries :: d.panel.entries[id] ==
          if id in ids then c.panel.entries[id].(mode := Connected) else c.panel.entries[id])
    && c.deferred <= d.deferred && |d.deferred| == |c.deferred| + |ids|
    && (forall id | id in ids :: Running(c.panel, id) in d.deferred[|c.deferred|..])
  }

  lemma PromotesNobody(c: Chat)
    ensures Promotes(c, c, {})
  {
  }

  lemma PromoteOne(c: Chat, b: Chat, ids: set<CallId>, id: CallId)
    requires Promotes(c, b, ids) && id in c.panel.entries && id !in ids
    ensures id in b.panel.entries && b.panel.entries[id] == c.panel.entries[id]
    ensures Promotes(c, Defer(b.(panel := Promoted(b.panel, id)), id, StillRunning(b.panel.entries[id].to)), ids + {id})
  {
    var d := Defer(b.(panel := Promoted(b.panel, id)), id, StillRunning(b.panel.entries[id].to));
    var k := |c.deferred|;
    assert d.deferred[k..] == b.deferred[k..] + [Running(c.panel, id)];
  }

  /** Of these, the ones that a message interrupts. */
  function Stopped(p: Panel, ids: seq<CallId>): set<CallId> {
    set id | id in ids && id in p.entries && p.entries[id].interruptible
  }

  lemma StoppedNone(p: Panel)
    ensures Stopped(p, []) == {}
  {
  }

  lemma StoppedNext(p: Panel, ids: seq<CallId>, n: nat)
    requires 0 < n <= |ids| && Unique(ids) && ids[n - 1] in p.entries
    ensures var before, id := Stopped(p, ids[..n - 1]), ids[n - 1];
      id !in before && Stopped(p, ids[..n]) == if p.entries[id].interruptible then before + {id} else before
  {
    assert ids[..n] == ids[..n - 1] + [ids[n - 1]] && ids[n - 1] !in ids[..n - 1];
  }

  lemma {:induction false} InterruptPromotes(c: Chat, waiting: seq<CallId>, n: nat)
    requires n <= |waiting| && Unique(waiting) && forall id | id in waiting :: id in c.panel.entries
    ensures Promotes(c, Interrupt(c, waiting, n), Stopped(c.panel, waiting[..n]))
    decreases n
  {
    hide Promotes, Defer, Stopped, Unique, Promoted;
    if n == 0 {
      PromotesNobody(c);
      StoppedNone(c.panel);
      assert waiting[..n] == [];
    } else {
      InterruptPromotes(c, waiting, n - 1);
      var id := waiting[n - 1];
      var before := Stopped(c.panel, waiting[..n - 1]);
      StoppedNext(c.panel, waiting, n);
      PromotedEntry(c, Interrupt(c, waiting, n - 1), before, id);
      if c.panel.entries[id].interruptible {
        PromoteOne(c, Interrupt(c, waiting, n - 1), before, id);
      }
    }
  }

  lemma PromotedEntry(c: Chat, b: Chat, ids: set<CallId>, id: CallId)
    requires Promotes(c, b, ids) && id in c.panel.entries && id !in ids
    ensures id in b.panel.entries && b.panel.entries[id] == c.panel.entries[id]
  {
  }

  /** The waits a message for the model interrupts. */
  function Interruptible(p: Panel): set<CallId>
    requires Proper(p)
  {
    set id | id in p.live && p.entries[id].mode.Wait? && p.entries[id].interruptible
  }

  /** Telling the model something promotes exactly the interruptible waits and adds the message last. */
  lemma Delivers(c: Chat, content: Content)
    requires Proper(c.panel)
    ensures var d := Deliver(c, content);
      && d == c.(panel := d.panel, deferred := d.deferred, buffered := c.buffered + [UserSays(content)])
      && Promotes(c, d.(buffered := c.buffered), Interruptible(c.panel))
  {
    var waiting := Waiting(c.panel);
    WaitingIsWaitSet(c.panel, |c.panel.live|);
    assert c.panel.live[..|c.panel.live|] == c.panel.live && waiting[..|waiting|] == waiting;
    InterruptPromotes(c, waiting, |waiting|);
    assert Stopped(c.panel, waiting) == Interruptible(c.panel);
    var d := Deliver(c, content);
    assert Promotes(c, Interrupt(c, waiting, |waiting|), Interruptible(c.panel));
    hide Waiting, Interrupt;
    assert d.(buffered := c.buffered) == Interrupt(c, waiting, |waiting|) by {
      BufferSame(c, waiting, |waiting|);
    }
  }

  lemma {:induction false} BufferSame(c: Chat, waiting: seq<CallId>, n: nat)
    requires n <= |waiting|
    ensures Interrupt(c, waiting, n).buffered == c.buffered
    decreases n
  {
    if n == 0 {
    } else {
      BufferSame(c, waiting, n - 1);
    }
  }

  /** The waits whose budget has passed. */
  function Overdue(p: Panel, now: int): set<CallId>
    requires Proper(p)
  {
    set id | id in p.live && p.entries[id].mode.Wait? && p.entries[id].until.Some? && p.entries[id].until.value <= now
  }

  lemma {:induction false} InDue(p: Panel, now: int, n: nat, id: CallId)
    requires Proper(p) && n <= |p.live|
    ensures id in Due(p, now, n) <==> id in p.live[..n] && id in Overdue(p, now)
    decreases n
  {
    if n == 0 {
    } else {
      InDue(p, now, n - 1, id);
      assert p.live[..n] == p.live[..n - 1] + [p.live[n - 1]];
    }
  }

  function SetOf(ids: seq<CallId>): set<CallId> { set id | id in ids }

  lemma {:induction false} AllPromoted(c: Chat, ids: seq<CallId>, n: nat)
    requires n <= |ids| && Unique(ids) && forall id | id in ids :: id in c.panel.entries
    ensures Promotes(c, PromoteAll(c, ids, n), SetOf(ids[..n]))
    decreases n
  {
    hide Promotes, Defer;
    if n == 0 {
      PromotesNobody(c);
      assert SetOf(ids[..n]) == {};
    } else {
      AllPromoted(c, ids, n - 1);
      var id := ids[n - 1];
      var before := SetOf(ids[..n - 1]);
      assert ids[..n] == ids[..n - 1] + [id] && id !in ids[..n - 1];
      PromotedEntry(c, PromoteAll(c, ids, n - 1), before, id);
      PromoteOne(c, PromoteAll(c, ids, n - 1), before, id);
      assert SetOf(ids[..n]) == before + {id};
    }
  }

  /** Budgets: exactly the waits whose time has come go on as connected work. */
  lemma BudgetsEnd(c: Chat, now: int)
    requires Proper(c.panel)
    ensures Promotes(c, PromoteDue(c, now), Overdue(c.panel, now))
  {
    var due := Due(c.panel, now, |c.panel.live|);
    DueWaits(c.panel, now, |c.panel.live|);
    assert c.panel.live[..|c.panel.live|] == c.panel.live && due[..|due|] == due;
    forall id ensures id in due <==> id in Overdue(c.panel, now) {
      InDue(c.panel, now, |c.panel.live|, id);
    }
    AllPromoted(c, due, |due|);
    assert SetOf(due) == Overdue(c.panel, now);
  }

  // ---- Outcomes --------------------------------------------------------------

  /** A call's answer is deferred, and nothing else changes but the panel. */
  predicate Answers(c: Chat, d: Chat, id: CallId, content: Wording) {
    && id in c.panel.entries
    && d == c.(panel := d.panel, deferred := c.deferred + [Tool(id, c.panel.entries[id].title, content)])
  }

  /** The model is told of connected work by a note. */
  predicate Notes(c: Chat, d: Chat, content: Wording) {
    && Proper(c.panel) && d.buffered == c.buffered + [UserSays(Note(content))]
    && Promotes(c, d.(buffered := c.buffered), Interruptible(c.panel))
  }

  /** The wording of an outcome: a question and a failure name the work; a completed wait hands over the text alone. */
  predicate Words(e: Entry, kind: Kind, text: string, content: Wording) {
    if kind.Ask? then content == Asks(e.to, text)
    else if e.mode.Wait? && e.status.Completed? then content == Verbatim(text)
    else content == Ended(e.to, e.status, text)
  }

  /** Where a reply goes: nowhere if its work is fenced or it is mere progress, to the call that is held open, or into a
      note. A question or a failure ends a wait that is still pending. */
  lemma FoldTells(c: Chat, reply: Reply)
    requires Proper(c.panel) && reply.id in c.panel.entries
    ensures var e, d := c.panel.entries[reply.id], Fold(c, reply);
      && (e.fenced || reply.kind.Progress? ==> d == c)
      && (!e.fenced && !reply.kind.Progress? ==> exists content | Words(e, reply.kind, reply.text, content) ::
            && (e.mode.Connected? ==> Notes(c, d, content))
            && (e.mode.Wait? ==>
                  && Answers(c, d, reply.id, content) && d.panel.live == c.panel.live
                  && d.panel.entries == (if reply.id in c.panel.live && !e.status.Completed?
                                         then c.panel.entries[reply.id := e.(mode := Connected)] else c.panel.entries)))
  {
    var e, d := c.panel.entries[reply.id], Fold(c, reply);
    var content := if reply.kind.Ask? then Asks(e.to, reply.text)
                   else if e.mode.Wait? && e.status.Completed? then Verbatim(reply.text)
                   else Ended(e.to, e.status, reply.text);
    assert Words(e, reply.kind, reply.text, content);
    if e.mode.Connected? {
      Delivers(c, Note(content));
    }
    hide Promotes, Deliver;
  }

  // ---- Failed work -----------------------------------------------------------

  /** The live entries of a provider that were not cancelled. */
  function Broke(p: Panel, work: Id): set<CallId>
    requires Proper(p)
  {
    set id | id in p.live && p.entries[id].to == work && p.entries[id].status != Cancelled
  }

  /** Among the messages added. */
  predicate Since(was: seq<Message>, now: seq<Message>, m: Message) { was <= now && m in now[|was|..] }

  lemma SinceThen(was: seq<Message>, mid: seq<Message>, now: seq<Message>, m: Message)
    requires was <= mid && mid <= now
    ensures was <= now && (Since(was, mid, m) || Since(mid, now, m) ==> Since(was, now, m))
  {
    assert now[|was|..] == mid[|was|..] + now[|mid|..];
  }

  /** Every wait that was interrupted on the way has been told so. */
  predicate ToldRunning(c: Chat, d: Chat) {
    && OnlyPromotes(c.panel, d.panel)
    && forall id | id in c.panel.entries && d.panel.entries[id] != c.panel.entries[id] ::
      Since(c.deferred, d.deferred, Running(c.panel, id))
  }

  /** After some failures are told: the calls in `waits` got their answer, and `notes` notes were written. */
  predicate ToldBroken(c: Chat, d: Chat, work: Id, waits: set<CallId>, notes: nat) {
    && d == c.(panel := d.panel, deferred := d.deferred, buffered := d.buffered) && c.deferred <= d.deferred
    && ToldRunning(c, d)
    && d.buffered == c.buffered + seq(notes, _ => UserSays(Note(Broken(work))))
    && (forall id | id in waits :: id in c.panel.entries
          && Since(c.deferred, d.deferred, Tool(id, c.panel.entries[id].title, Broken(work))))
  }

  lemma ToldNobody(c: Chat, work: Id)
    ensures ToldBroken(c, c, work, {}, 0)
  {
    assert c.buffered == c.buffered + seq(0, _ => UserSays(Note(Broken(work))));
  }

  lemma RunningThen(c: Chat, b: Chat, d: Chat)
    requires ToldRunning(c, b) && ToldRunning(b, d) && c.deferred <= b.deferred && b.deferred <= d.deferred
    ensures ToldRunning(c, d)
  {
    OnlyPromotesTrans(c.panel, b.panel, d.panel);
    forall id | id in c.panel.entries && d.panel.entries[id] != c.panel.entries[id]
      ensures Since(c.deferred, d.deferred, Running(c.panel, id))
    {
      SinceThen(c.deferred, b.deferred, d.deferred, Running(c.panel, id));
    }
  }

  lemma PromotesTold(c: Chat, d: Chat, ids: set<CallId>)
    requires Promotes(c, d, ids) && forall id | id in ids :: id in c.panel.live
    ensures ToldRunning(c, d)
  {
  }

  lemma BrokenThen(c: Chat, b: Chat, d: Chat, work: Id, waits: set<CallId>, notes: nat, more: set<CallId>, plus: nat)
    requires ToldBroken(c, b, work, waits, notes) && c.deferred <= d.deferred && b.deferred <= d.deferred
    requires d == b.(panel := d.panel, deferred := d.deferred, buffered := d.buffered) && ToldRunning(b, d)
    requires d.buffered == b.buffered + seq(plus, _ => UserSays(Note(Broken(work))))
    requires forall id | id in more ::
      id in c.panel.entries && Since(b.deferred, d.deferred, Tool(id, c.panel.entries[id].title, Broken(work)))
    ensures ToldBroken(c, d, work, waits + more, notes + plus)
  {
    RunningThen(c, b, d);
    assert seq(notes + plus, _ => UserSays(Note(Broken(work))))
      == seq(notes, _ => UserSays(Note(Broken(work)))) + seq(plus, _ => UserSays(Note(Broken(work))));
    hide ToldRunning;
    forall id | id in waits + more
      ensures id in c.panel.entries
      ensures Since(c.deferred, d.deferred, Tool(id, c.panel.entries[id].title, Broken(work)))
    {
      SinceThen(c.deferred, b.deferred, d.deferred, Tool(id, c.panel.entries[id].title, Broken(work)));
    }
  }

  /** One failure told. */
  lemma SettlesBroken(b: Chat, id: CallId, work: Id)
    requires Proper(b.panel) && id in b.panel.entries && id !in b.panel.live
    ensures var d, waits := Settle(b, id, Broken(work)), b.panel.entries[id].mode.Wait?;
      && d == b.(panel := d.panel, deferred := d.deferred, buffered := d.buffered) && b.deferred <= d.deferred
      && ToldRunning(b, d)
      && d.buffered == b.buffered + seq(if waits then 0 else 1, _ => UserSays(Note(Broken(work))))
      && (waits ==> Since(b.deferred, d.deferred, Tool(id, b.panel.entries[id].title, Broken(work))))
  {
    var d := Settle(b, id, Broken(work));
    if b.panel.entries[id].mode.Wait? {
      OnlyPromotesRefl(b.panel);
      assert d.deferred[|b.deferred|..] == [Tool(id, b.panel.entries[id].title, Broken(work))];
      assert d.buffered == b.buffered + seq(0, _ => UserSays(Note(Broken(work))));
    } else {
      Delivers(b, Note(Broken(work)));
      PromotesTold(b, d.(buffered := b.buffered), Interruptible(b.panel));
      assert d.buffered == b.buffered + seq(1, _ => UserSays(Note(Broken(work))));
    }
  }

  /** The failed entries of a list, those that hold a call and those that do not. */
  function HeldOf(p: Panel, ids: seq<CallId>): set<CallId> {
    set id | id in ids && id in p.entries && p.entries[id].mode.Wait?
  }

  function Loose(p: Panel, ids: seq<CallId>): nat {
    if ids == [] then 0
    else
      var id := ids[|ids| - 1];
      Loose(p, ids[..|ids| - 1]) + if id in p.entries && p.entries[id].mode.Connected? then 1 else 0
  }

  lemma {:induction false} FailuresTold(c: Chat, ids: seq<CallId>, n: nat, work: Id)
    requires Proper(c.panel) && n <= |ids|
    requires forall id | id in ids :: id in c.panel.entries && id !in c.panel.live && c.panel.entries[id].to == work
    ensures ToldBroken(c, SettleFailed(c, ids, n), work, HeldOf(c.panel, ids[..n]), Loose(c.panel, ids[..n]))
    decreases n
  {
    hide ToldBroken, Settle, ToldRunning, HeldOf, Loose;
    if n == 0 {
      ToldNobody(c, work);
      NoneHeld(c.panel, ids);
    } else {
      FailuresTold(c, ids, n - 1, work);
      var b, id := SettleFailed(c, ids, n - 1), ids[n - 1];
      HeldNext(c.panel, ids, n);
      BrokenEntry(c, b, work, HeldOf(c.panel, ids[..n - 1]), Loose(c.panel, ids[..n - 1]), id);
      SettlesBroken(b, id, work);
      var d, waits := Settle(b, id, Broken(work)), c.panel.entries[id].mode.Wait?;
      BrokenThen(c, b, d, work, HeldOf(c.panel, ids[..n - 1]), Loose(c.panel, ids[..n - 1]),
                 if waits then {id} else {}, if waits then 0 else 1);
    }
  }

  lemma NoneHeld(p: Panel, ids: seq<CallId>)
    ensures HeldOf(p, ids[..0]) == {} && Loose(p, ids[..0]) == 0
  {
  }

  lemma HeldNext(p: Panel, ids: seq<CallId>, n: nat)
    requires 0 < n <= |ids| && ids[n - 1] in p.entries
    ensures var id := ids[n - 1];
      && HeldOf(p, ids[..n]) == HeldOf(p, ids[..n - 1]) + (if p.entries[id].mode.Wait? then {id} else {})
      && Loose(p, ids[..n]) == Loose(p, ids[..n - 1]) + if p.entries[id].mode.Wait? then 0 else 1
  {
    assert ids[..n] == ids[..n - 1] + [ids[n - 1]] && ids[..n][..n - 1] == ids[..n - 1];
  }

  lemma BrokenEntry(c: Chat, b: Chat, work: Id, waits: set<CallId>, notes: nat, id: CallId)
    requires ToldBroken(c, b, work, waits, notes) && id in c.panel.entries && id !in c.panel.live
    ensures id in b.panel.entries && b.panel.entries[id] == c.panel.entries[id] && id !in b.panel.live
    ensures c.deferred <= b.deferred
  {
  }

  lemma {:induction false} InWorkOf(p: Panel, work: Id, n: nat, id: CallId)
    requires Proper(p) && n <= |p.live|
    ensures id in WorkOf(p, work, n) <==> id in p.live[..n] && p.entries[id].to == work
    decreases n
  {
    if n == 0 {
    } else {
      InWorkOf(p, work, n - 1, id);
      assert p.live[..n] == p.live[..n - 1] + [p.live[n - 1]];
    }
  }

  /** Closing takes the entries out of the table; those that were not cancelled are failed now. */
  lemma {:induction false} CloseFails(p: Panel, ids: seq<CallId>, n: nat, id: CallId)
    requires Proper(p) && Unique(ids) && n <= |ids| && id in p.entries
    ensures var q := Close(p, ids, n);
      && id in q.entries && q.entries.Keys == p.entries.Keys
      && q.entries[id] == if id in ids[..n] && p.entries[id].status != Cancelled
                          then p.entries[id].(status := Failed) else p.entries[id]
    decreases n
  {
    if n == 0 {
    } else {
      hide Without;
      CloseFails(p, ids, n - 1, id);
      assert ids[..n] == ids[..n - 1] + [ids[n - 1]] && ids[n - 1] !in ids[..n - 1];
      if ids[n - 1] in p.entries {
        CloseFails(p, ids, n - 1, ids[n - 1]);
      }
    }
  }

  lemma {:induction false} InNewlyFailed(p: Panel, ids: seq<CallId>, n: nat, id: CallId)
    requires n <= |ids| && Unique(ids)
    ensures id in NewlyFailed(p, ids, n) <==> id in ids[..n] && Breaks(p, id)
    ensures Unique(NewlyFailed(p, ids, n))
    decreases n
  {
    if n == 0 {
    } else {
      InNewlyFailed(p, ids, n - 1, id);
      InNewlyFailed(p, ids, n - 1, ids[n - 1]);
      assert ids[..n] == ids[..n - 1] + [ids[n - 1]] && ids[n - 1] !in ids[..n - 1];
    }
  }

  function LooseOf(p: Panel, ids: seq<CallId>): set<CallId> {
    set id | id in ids && id in p.entries && p.entries[id].mode.Connected?
  }

  lemma LooseNext(p: Panel, ids: seq<CallId>)
    requires ids != [] && Unique(ids)
    ensures Unique(ids[..|ids| - 1])
    ensures var n := |ids| - 1;
      |LooseOf(p, ids)|
      == |LooseOf(p, ids[..n])| + if ids[n] in p.entries && p.entries[ids[n]].mode.Connected? then 1 else 0
  {
    var n := |ids| - 1;
    assert ids == ids[..n] + [ids[n]] && ids[n] !in ids[..n];
    var before := LooseOf(p, ids[..n]);
    assert LooseOf(p, ids) ==
      if ids[n] in p.entries && p.entries[ids[n]].mode.Connected? then before + {ids[n]} else before;
  }

  lemma {:induction false} LooseCount(p: Panel, ids: seq<CallId>)
    requires Unique(ids)
    ensures Loose(p, ids) == |LooseOf(p, ids)|
    decreases |ids|
  {
    hide Unique;
    if ids == [] {
      assert LooseOf(p, ids) == {};
    } else {
      hide LooseOf;
      LooseNext(p, ids);
      LooseCount(p, ids[..|ids| - 1]);
    }
  }

  /** Failed work: all its entries leave the table and those that were not cancelled become failed. Each call held open
      for it is answered so, each other one is told by a note, and waits that the notes interrupt are told too. */
  lemma FailTells(c: Chat, work: Id)
    requires Proper(c.panel)
    ensures var d, broke := FailWork(c, work), Broke(c.panel, work);
      && d == c.(panel := d.panel, deferred := d.deferred, buffered := d.buffered) && c.deferred <= d.deferred
      && (forall id :: id in d.panel.live <==> id in c.panel.live && c.panel.entries[id].to != work)
      && (forall id | id in c.panel.entries :: id in d.panel.entries && d.panel.entries[id] ==
            c.panel.entries[id].(status := if id in broke then Failed else c.panel.entries[id].status,
                                 mode := d.panel.entries[id].mode))
      && (forall id | id in broke && c.panel.entries[id].mode.Wait? ::
            Since(c.deferred, d.deferred, Tool(id, c.panel.entries[id].title, Broken(work))))
      && d.buffered == c.buffered
        + seq(|set id | id in broke && c.panel.entries[id].mode.Connected?|, _ => UserSays(Note(Broken(work))))
      && (forall id | id in c.panel.entries && d.panel.entries[id].mode != c.panel.entries[id].mode ::
            d.panel.entries[id].mode.Connected? && id in d.panel.live
            && Since(c.deferred, d.deferred, Running(c.panel, id)))
  {
    var ids := WorkOf(c.panel, work, |c.panel.live|);
    var b := c.(panel := Close(c.panel, ids, |ids|));
    var failed := NewlyFailed(c.panel, ids, |ids|);
    FailedList(c, work, ids, b, failed);
    hide WorkOf, Close, NewlyFailed, ToldRunning, SettleFailed, Broke;
    FailuresTold(b, failed, |failed|, work);
    assert failed[..|failed|] == failed;
    var d := FailWork(c, work);
    assert ToldBroken(b, d, work, HeldOf(b.panel, failed), Loose(b.panel, failed));
    forall id | id in Broke(c.panel, work) && c.panel.entries[id].mode.Wait?
      ensures Since(c.deferred, d.deferred, Tool(id, c.panel.entries[id].title, Broken(work)))
    {
      assert id in HeldOf(b.panel, failed);
    }
    RunningOf(c, b, d);
  }

  lemma RunningOf(c: Chat, b: Chat, d: Chat)
    requires ToldRunning(b, d) && b.panel.entries.Keys == c.panel.entries.Keys && b.deferred == c.deferred
    requires forall id | id in c.panel.entries ::
      b.panel.entries[id] == c.panel.entries[id].(status := b.panel.entries[id].status)
    ensures d.panel.live == b.panel.live
    ensures d.panel.entries.Keys == c.panel.entries.Keys
    ensures forall id | id in c.panel.entries ::
      d.panel.entries[id] ==
        c.panel.entries[id].(status := b.panel.entries[id].status, mode := d.panel.entries[id].mode)
    ensures forall id | id in c.panel.entries && d.panel.entries[id].mode != c.panel.entries[id].mode ::
      d.panel.entries[id].mode.Connected? && id in d.panel.live
      && Since(c.deferred, d.deferred, Running(c.panel, id))
  {
  }

  /** The entries that a failure closes, as they are when it is told. */
  lemma FailedList(c: Chat, work: Id, ids: seq<CallId>, b: Chat, failed: seq<CallId>)
    requires Proper(c.panel) && ids == WorkOf(c.panel, work, |c.panel.live|)
    requires b == c.(panel := Close(c.panel, ids, |ids|)) && failed == NewlyFailed(c.panel, ids, |ids|)
    ensures Proper(b.panel) && b.panel.entries.Keys == c.panel.entries.Keys
    ensures forall id :: id in b.panel.live <==> id in c.panel.live && c.panel.entries[id].to != work
    ensures forall id :: id in failed <==> id in Broke(c.panel, work)
    ensures forall id | id in c.panel.entries ::
      b.panel.entries[id]
      == c.panel.entries[id].(status := if id in Broke(c.panel, work) then Failed else c.panel.entries[id].status)
    ensures forall id | id in failed ::
      id in b.panel.entries && id !in b.panel.live && b.panel.entries[id].to == work
    ensures Loose(b.panel, failed) == |set id | id in Broke(c.panel, work) && c.panel.entries[id].mode.Connected?|
  {
    var n := |c.panel.live|;
    WorkOfFacts(c.panel, work, n);
    CloseProper(c.panel, ids, |ids|);
    assert c.panel.live[..n] == c.panel.live && ids[..|ids|] == ids;
    forall id ensures id in ids <==> id in c.panel.live && c.panel.entries[id].to == work {
      InWorkOf(c.panel, work, n, id);
    }
    forall id ensures id in b.panel.live <==> id in c.panel.live && id !in ids {
      CloseLive(c.panel, ids, |ids|, id);
    }
    forall id ensures id in failed <==> id in ids && Breaks(c.panel, id) {
      InNewlyFailed(c.panel, ids, |ids|, id);
    }
    if c.panel.entries != map[] {
      var some :| some in c.panel.entries;
      CloseFails(c.panel, ids, |ids|, some);
    }
    forall id | id in c.panel.entries
      ensures id in b.panel.entries && b.panel.entries[id] ==
        if id in ids && c.panel.entries[id].status != Cancelled
        then c.panel.entries[id].(status := Failed) else c.panel.entries[id]
    {
      CloseFails(c.panel, ids, |ids|, id);
    }
    hide WorkOf, Close, NewlyFailed;
    FailedCount(c, work, b, failed);
  }

  lemma FailedCount(c: Chat, work: Id, b: Chat, failed: seq<CallId>)
    requires Proper(c.panel) && (forall id :: id in failed <==> id in Broke(c.panel, work))
    requires var ids := WorkOf(c.panel, work, |c.panel.live|); failed == NewlyFailed(c.panel, ids, |ids|)
    requires b.panel.entries.Keys == c.panel.entries.Keys
    requires forall id | id in c.panel.entries :: b.panel.entries[id].mode == c.panel.entries[id].mode
    ensures Loose(b.panel, failed) == |set id | id in Broke(c.panel, work) && c.panel.entries[id].mode.Connected?|
  {
    var ids := WorkOf(c.panel, work, |c.panel.live|);
    WorkOfFacts(c.panel, work, |c.panel.live|);
    if ids != [] {
      InNewlyFailed(c.panel, ids, |ids|, ids[0]);
    }
    LooseCount(b.panel, failed);
    assert LooseOf(b.panel, failed) == set id | id in Broke(c.panel, work) && c.panel.entries[id].mode.Connected?;
  }

  // ---- The rest of the mail --------------------------------------------------

  /** Mail the agent knows what to do with. */
  predicate Understood(c: Chat, letter: Letter) {
    || ((letter.kind.User? || letter.kind.Message? || letter.kind.Steer? || letter.kind.Answer? || letter.kind.Request?)
        && letter.text.Some?)
    || (letter.kind.Cancel? && c.job.Some? && (c.job.value.status.Working? || c.job.value.status.InputRequired?))
    || (letter.kind.System? && (letter.source == "timer" || (letter.failed.Some? && letter.failed.value != "")))
  }

  /** Anything else fails the activation. A request becomes the job, what is said is delivered, a cancel ends the job in
      hand, a timer says nothing, and news of failed work fails it. */
  lemma Hears(c: Chat, letter: Letter)
    requires Proper(c.panel)
    ensures Hear(c, letter).Ok? <==> Understood(c, letter)
    ensures Hear(c, letter).Ok? ==> var d, k := Hear(c, letter).value.chat, letter.kind;
      && (Hear(c, letter).value.cancelled <==> k.Cancel?)
      && (k.Cancel? || (k.System? && letter.source == "timer") ==> d == c)
      && (k.System? && letter.source != "timer" ==> letter.failed.Some? && d == FailWork(c, letter.failed.value))
      && (!k.Cancel? && !k.System? ==>
            && d.job == (if k.Request? then Some(Job(Working, letter.requestId, letter.replyTo)) else c.job)
            && d.buffered == c.buffered + [UserSays(Said(letter.text.value))]
            && Promotes(c, d.(buffered := c.buffered, job := c.job), Interruptible(c.panel)))
  {
    hide FailWork, Promotes, Interrupt, Waiting;
    if Speaks(letter.kind) && letter.text.Some? {
      Delivers(c, Said(letter.text.value));
    } else if letter.kind.Request? && letter.text.Some? {
      var b := c.(job := Some(Job(Working, letter.requestId, letter.replyTo)));
      Delivers(b, Said(letter.text.value));
      SameBut(c, b, Deliver(b, Said(letter.text.value)).(buffered := c.buffered));
    }
  }

  lemma SameBut(c: Chat, b: Chat, d: Chat)
    requires b == c.(job := b.job) && Proper(c.panel) && Promotes(b, d, Interruptible(b.panel))
    ensures Promotes(c, d.(job := c.job), Interruptible(c.panel)) && d.job == b.job
  {
  }

  /** Once no call is held open, the answers and then the messages join the transcript; until then everything stays. */
  lemma Flushes(c: Chat)
    requires Proper(c.panel)
    ensures WaitSet(c.panel) != {} ==> Flush(c) == c
    ensures WaitSet(c.panel) == {} ==>
      Flush(c) == Chat(c.messages + c.deferred + c.buffered, [], [], c.job, c.panel)
  {
    NoneWaiting(c.panel);
  }

  /** `d` is the earliest budget among the calls held open by these; there is none if none has a budget. */
  predicate Earliest(p: Panel, ids: seq<CallId>, d: Option<int>)
    requires forall id | id in ids :: id in p.entries
  {
    && (d.Some? ==> exists id | id in ids :: p.entries[id].mode.Wait? && p.entries[id].until == d)
    && (forall id | id in ids && p.entries[id].mode.Wait? && p.entries[id].until.Some? ::
          d.Some? && d.value <= p.entries[id].until.value)
  }

  lemma EarliestNext(p: Panel, ids: seq<CallId>, id: CallId, before: Option<int>)
    requires (forall x | x in ids :: x in p.entries) && id in p.entries && Earliest(p, ids, before)
    ensures var e := p.entries[id];
      Earliest(p, ids + [id], if e.mode.Connected? || e.until.None? then before
                              else if before.Some? && before.value <= e.until.value then before else e.until)
  {
    assert id in ids + [id] && forall x | x in ids :: x in ids + [id];
    if before.Some? {
      var x :| x in ids && p.entries[x].mode.Wait? && p.entries[x].until == before;
      assert x in ids + [id];
    }
  }

  lemma {:induction false} DeadlineIsFirst(p: Panel, n: nat)
    requires Proper(p) && n <= |p.live|
    ensures Earliest(p, p.live[..n], NextDeadline(p, n))
    decreases n
  {
    if n == 0 {
    } else {
      hide Earliest;
      DeadlineIsFirst(p, n - 1);
      EarliestNext(p, p.live[..n - 1], p.live[n - 1], NextDeadline(p, n - 1));
      assert p.live[..n] == p.live[..n - 1] + [p.live[n - 1]];
    }
  }
}
