/** The transcript is well formed at every model call, exactly when no exchange is answered twice in a batch. */
module TurnSafety {
  import opened Mail
  import opened Conversation
  import opened TurnAccounting

  // ---- Work that failed ------------------------------------------------------

  function OneWait(entries: map<CallId, Entry>, id: CallId): multiset<CallId> {
    if id in entries && entries[id].mode.Wait? then multiset{id} else multiset{}
  }

  function Waits(entries: map<CallId, Entry>, ids: seq<CallId>, n: nat): multiset<CallId>
    requires n <= |ids|
  {
    if n == 0 then multiset{} else Waits(entries, ids, n - 1) + OneWait(entries, ids[n - 1])
  }

  lemma {:induction false} WorkOfFacts(p: Panel, work: Id, n: nat)
    requires Proper(p) && n <= |p.live|
    ensures Unique(WorkOf(p, work, n))
    ensures forall id | id in WorkOf(p, work, n) :: id in p.live[..n]
    decreases n
  {
    if n == 0 {
    } else {
      WorkOfFacts(p, work, n - 1);
      assert p.live[..n] == p.live[..n - 1] + [p.live[n - 1]];
      assert p.live[n - 1] !in p.live[..n - 1];
      assert p.live[n - 1] !in WorkOf(p, work, n - 1);
    }
  }

  /** `q` is `p` with some entries closed: what the waits lose is `lost`. */
  predicate Closed(p: Panel, q: Panel, lost: multiset<CallId>) {
    && Proper(p) && Proper(q) && WaitsRun(q)
    && q.entries.Keys == p.entries.Keys
    && (forall id | id in p.entries :: q.entries[id].mode == p.entries[id].mode)
    && multiset(WaitSet(p)) == multiset(WaitSet(q)) + lost
  }

  lemma SameWaits(p: Panel, q: Panel)
    requires p.live == q.live && p.entries.Keys == q.entries.Keys && Proper(p) && Proper(q)
    requires forall id | id in p.entries :: q.entries[id].mode == p.entries[id].mode
    ensures WaitSet(p) == WaitSet(q)
  {
  }

  lemma Moved(all: multiset<CallId>, some: multiset<CallId>, less: multiset<CallId>, lost: multiset<CallId>,
              one: multiset<CallId>)
    requires all == some + lost && some == less + one
    ensures all == less + (lost + one)
  {
  }

  /** Marking the work that leaves the panel as failed touches nothing that stays live. */
  lemma FailedRuns(q: Panel, entries: map<CallId, Entry>, id: CallId)
    requires Proper(q) && WaitsRun(q) && id in q.live
    requires entries == q.entries || entries == q.entries[id := q.entries[id].(status := Failed)]
    ensures var r := Panel(entries, Without(q.live, id)); Proper(r) && WaitsRun(r)
  {
    WithoutLive(q.live, id);
  }

  lemma CloseStep(p: Panel, q: Panel, lost: multiset<CallId>, id: CallId)
    requires Closed(p, q, lost) && id in q.live
    ensures
      var entries :=
        if q.entries[id].status != Cancelled then q.entries[id := q.entries[id].(status := Failed)] else q.entries;
      Closed(p, Panel(entries, Without(q.live, id)), lost + OneWait(p.entries, id))
  {
    var entries :=
      if q.entries[id].status != Cancelled then q.entries[id := q.entries[id].(status := Failed)] else q.entries;
    hide WaitSet, Without, Proper, WaitsRun;
    var r := Panel(entries, Without(q.live, id));
    CloseOne(q, id);
    FailedRuns(q, entries, id);
    SameWaits(r, Panel(q.entries, Without(q.live, id)));
    Moved(multiset(WaitSet(p)), multiset(WaitSet(q)), multiset(WaitSet(r)), lost, OneWait(p.entries, id));
  }

  lemma {:induction false} CloseLive(p: Panel, ids: seq<CallId>, n: nat, id: CallId)
    requires n <= |ids|
    ensures id in Close(p, ids, n).live <==> id in p.live && id !in ids[..n]
    decreases n
  {
    if n == 0 {
    } else {
      CloseLive(p, ids, n - 1, id);
      InWithout(Close(p, ids, n - 1).live, ids[n - 1], id);
      InTake(ids, n, id);
      hide Without;
    }
  }

  lemma InTake(ids: seq<CallId>, n: nat, id: CallId)
    requires 0 < n <= |ids|
    ensures id in ids[..n] <==> id in ids[..n - 1] || id == ids[n - 1]
  {
    assert ids[..n] == ids[..n - 1] + [ids[n - 1]];
  }

  lemma InWithout(live: seq<CallId>, id: CallId, x: CallId)
    ensures x in Without(live, id) <==> x in live && x != id
  {
    WithoutLive(live, id);
  }

  lemma {:induction false} CloseKeeps(p: Panel, ids: seq<CallId>, n: nat)
    requires Proper(p) && WaitsRun(p) && n <= |ids| && Unique(ids) && (forall id | id in ids :: id in p.live)
    ensures Closed(p, Close(p, ids, n), Waits(p.entries, ids, n))
    decreases n
  {
    if n == 0 {
      ClosedNone(p, ids);
    } else {
      CloseKeeps(p, ids, n - 1);
      StillLive(p, ids, n);
      hide *;
      CloseNext(p, ids, n);
    }
  }

  lemma ClosedNone(p: Panel, ids: seq<CallId>)
    requires Proper(p) && WaitsRun(p)
    ensures Closed(p, Close(p, ids, 0), Waits(p.entries, ids, 0))
  {
  }

  lemma StillLive(p: Panel, ids: seq<CallId>, n: nat)
    requires 0 < n <= |ids| && Unique(ids) && (forall id | id in ids :: id in p.live)
    ensures ids[n - 1] in Close(p, ids, n - 1).live
  {
    CloseLive(p, ids, n - 1, ids[n - 1]);
    assert ids[n - 1] in ids && ids[n - 1] !in ids[..n - 1];
  }

  lemma CloseNext(p: Panel, ids: seq<CallId>, n: nat)
    requires 0 < n <= |ids| && Closed(p, Close(p, ids, n - 1), Waits(p.entries, ids, n - 1))
    requires ids[n - 1] in Close(p, ids, n - 1).live
    ensures Closed(p, Close(p, ids, n), Waits(p.entries, ids, n))
  {
    CloseShape(p, ids, n);
    hide WaitsRun, OneWait, WaitSet, Without, Waits, Close;
    CloseStep(p, Close(p, ids, n - 1), Waits(p.entries, ids, n - 1), ids[n - 1]);
  }

  lemma CloseShape(p: Panel, ids: seq<CallId>, n: nat)
    requires Proper(p) && 0 < n <= |ids| && ids[n - 1] in Close(p, ids, n - 1).live && Proper(Close(p, ids, n - 1))
    ensures var q, id := Close(p, ids, n - 1), ids[n - 1];
      Close(p, ids, n) ==
        Panel(if q.entries[id].status != Cancelled then q.entries[id := q.entries[id].(status := Failed)]
                                  else q.entries,
                                Without(q.live, id))
    ensures Waits(p.entries, ids, n) == Waits(p.entries, ids, n - 1) + OneWait(p.entries, ids[n - 1])
  {
  }

  /** Every call held open by the closed work is among the newly failed. */
  lemma {:induction false} FailedWaits(p: Panel, ids: seq<CallId>, n: nat)
    requires Proper(p) && WaitsRun(p) && n <= |ids| && (forall i | 0 <= i < |ids| :: ids[i] in p.live)
    ensures Waits(p.entries, NewlyFailed(p, ids, n), |NewlyFailed(p, ids, n)|) == Waits(p.entries, ids, n)
    decreases n
  {
    hide NewlyFailed, OneWait, WaitsRun;
    if n == 0 {
      assert NewlyFailed(p, ids, 0) == [] by { NoneFailed(p, ids); }
    } else {
      var b, id := NewlyFailed(p, ids, n - 1), ids[n - 1];
      FailedWaits(p, ids, n - 1);
      FailedNext(p, ids, n);
      WaitsNext(p.entries, ids, n);
      hide Waits;
      if p.entries[id].status == Cancelled {
        NotWaiting(p, id);
      } else {
        WaitsPush(p.entries, b, id);
      }
    }
  }

  lemma NoneFailed(p: Panel, ids: seq<CallId>)
    ensures NewlyFailed(p, ids, 0) == []
  {
  }

  lemma FailedNext(p: Panel, ids: seq<CallId>, n: nat)
    requires 0 < n <= |ids| && ids[n - 1] in p.entries
    ensures NewlyFailed(p, ids, n) ==
      if p.entries[ids[n - 1]].status == Cancelled then NewlyFailed(p, ids, n - 1)
      else NewlyFailed(p, ids, n - 1) + [ids[n - 1]]
  {
  }

  lemma NotWaiting(p: Panel, id: CallId)
    requires Proper(p) && WaitsRun(p) && id in p.live && p.entries[id].status == Cancelled
    ensures OneWait(p.entries, id) == multiset{}
  {
  }

  lemma {:induction false} FailedAmong(p: Panel, ids: seq<CallId>, n: nat)
    requires n <= |ids|
    ensures forall id | id in NewlyFailed(p, ids, n) :: id in ids
    decreases n
  {
    if n == 0 {
    } else {
      FailedAmong(p, ids, n - 1);
      assert ids[n - 1] in ids;
    }
  }

  lemma {:induction false} WaitsPrefix(entries: map<CallId, Entry>, a: seq<CallId>, b: seq<CallId>, n: nat)
    requires n <= |a| && n <= |b| && forall i | 0 <= i < n :: a[i] == b[i]
    ensures Waits(entries, a, n) == Waits(entries, b, n)
    decreases n
  {
    if n == 0 {
    } else {
      WaitsPrefix(entries, a, b, n - 1);
    }
  }

  lemma WaitsPush(entries: map<CallId, Entry>, ids: seq<CallId>, id: CallId)
    ensures Waits(entries, ids + [id], |ids| + 1) == Waits(entries, ids, |ids|) + OneWait(entries, id)
  {
    WaitsPrefix(entries, ids, ids + [id], |ids|);
  }

  /** Entries taken out of the table. */
  predicate Gone(p: Panel, ids: seq<CallId>) {
    forall i | 0 <= i < |ids| :: ids[i] in p.entries && ids[i] !in p.live
  }

  lemma {:induction false} SettleFailedKeeps(c: Chat, ids: seq<CallId>, n: nat)
    requires Steady(c) && n <= |ids| && Gone(c.panel, ids)
    ensures FoldedTo(c, SettleFailed(c, ids, n), Waits(c.panel.entries, ids, n))
    decreases n
  {
    assert Proper(c.panel);
    hide *;
    if n == 0 {
      SettledNone(c, ids);
    } else {
      SettleFailedKeeps(c, ids, n - 1);
      SettleNext(c, ids, n);
    }
  }

  lemma SettledNone(c: Chat, ids: seq<CallId>)
    requires Steady(c) && Gone(c.panel, ids)
    ensures FoldedTo(c, SettleFailed(c, ids, 0), Waits(c.panel.entries, ids, 0))
  {
  }

  lemma SettleNext(c: Chat, ids: seq<CallId>, n: nat)
    requires Proper(c.panel) && 0 < n <= |ids| && Gone(c.panel, ids)
    requires FoldedTo(c, SettleFailed(c, ids, n - 1), Waits(c.panel.entries, ids, n - 1))
    ensures FoldedTo(c, SettleFailed(c, ids, n), Waits(c.panel.entries, ids, n))
  {
    var b, id := SettleFailed(c, ids, n - 1), ids[n - 1];
    hide Settle, Steady, Held, OnlyPromotes, Waits, OneWait;
    WaitsNext(c.panel.entries, ids, n);
    SettleStep(c, b, id, Broken(b.panel.entries[id].to), Waits(c.panel.entries, ids, n - 1));
  }

  lemma WaitsNext(entries: map<CallId, Entry>, ids: seq<CallId>, n: nat)
    requires 0 < n <= |ids|
    ensures Waits(entries, ids, n) == Waits(entries, ids, n - 1) + OneWait(entries, ids[n - 1])
  {
  }

  lemma SettleStep(c: Chat, b: Chat, id: CallId, content: Wording, more: multiset<CallId>)
    requires FoldedTo(c, b, more) && id in c.panel.entries && id !in c.panel.live
    ensures id in b.panel.entries && FoldedTo(c, Settle(b, id, content), more + OneWait(c.panel.entries, id))
  {
    SettleKeeps(b, id, content);
    OnlyPromotesTrans(c.panel, b.panel, Settle(b, id, content).panel);
    assert b.panel.entries[id] == c.panel.entries[id];
    hide Steady, Held, Settle;
  }

  /** Nothing of the transcript, the job or the account changes. */
  predicate Same(c: Chat, d: Chat) {
    Steady(c) && Steady(d) && d.messages == c.messages && Held(d) == Held(c)
  }

  lemma FailWorkKeeps(c: Chat, work: Id)
    requires Steady(c)
    ensures Same(c, FailWork(c, work)) && FailWork(c, work).job == c.job
  {
    var p := c.panel;
    var ids := WorkOf(p, work, |p.live|);
    WorkOfFacts(p, work, |p.live|);
    assert p.live[..|p.live|] == p.live;
    CloseKeeps(p, ids, |ids|);
    FailedWaits(p, ids, |ids|);
    FailedAmong(p, ids, |ids|);
    forall id | id in NewlyFailed(p, ids, |ids|) ensures id in p.entries && id !in Close(p, ids, |ids|).live {
      assert id in ids && ids[..|ids|] == ids;
      CloseLive(p, ids, |ids|, id);
    }
    var q, failed := Close(p, ids, |ids|), NewlyFailed(p, ids, |ids|);
    var d := c.(panel := q);
    assert Steady(d) && Held(c) == Held(d) + Waits(p.entries, ids, |ids|);
    WaitsModes(p.entries, q.entries, failed, |failed|);
    hide Steady, Held, Close, NewlyFailed, WorkOf, Waits;
    forall i | 0 <= i < |failed| ensures failed[i] in d.panel.entries && failed[i] !in d.panel.live {
      assert failed[i] in failed;
    }
    SettleFailedKeeps(d, failed, |failed|);
  }

  lemma {:induction false} WaitsModes(one: map<CallId, Entry>, two: map<CallId, Entry>, ids: seq<CallId>, n: nat)
    requires n <= |ids| && one.Keys == two.Keys && forall id | id in one :: one[id].mode == two[id].mode
    ensures Waits(one, ids, n) == Waits(two, ids, n)
    decreases n
  {
    if n == 0 {
    } else {
      WaitsModes(one, two, ids, n - 1);
    }
  }

  // ---- The rest of the mail --------------------------------------------------

  lemma SayKeeps(c: Chat, text: string)
    requires Steady(c)
    ensures Same(c, Deliver(c, Said(text)))
  {
    DeliverKeeps(c, Said(text));
  }

  lemma HearKeeps(c: Chat, letter: Letter)
    requires Steady(c) && Hear(c, letter).Ok?
    ensures Same(c, Hear(c, letter).value.chat)
  {
    if Speaks(letter.kind) {
      SayKeeps(c, letter.text.value);
    } else if letter.kind.Request? {
      var d := c.(job := Some(Job(Working, letter.requestId, letter.replyTo)));
      SameHeld(c, d);
      SayKeeps(d, letter.text.value);
    } else if letter.failed.Some? {
      FailWorkKeeps(c, letter.failed.value);
    }
  }

  lemma {:induction false} HearAllKeeps(c: Chat, others: seq<Letter>, n: nat)
    requires Steady(c) && n <= |others| && HearAll(c, others, n).Ok?
    ensures Same(c, HearAll(c, others, n).value.chat)
    decreases n
  {
    if n == 0 {
    } else {
      HearAllKeeps(c, others, n - 1);
      var b := HearAll(c, others, n - 1).value;
      if !b.cancelled {
        HearKeeps(b.chat, others[n - 1]);
      }
      hide Hear, Steady, Held;
    }
  }

  // ---- Budgets ---------------------------------------------------------------

  lemma {:induction false} DueWaits(p: Panel, now: int, n: nat)
    requires Proper(p) && n <= |p.live|
    ensures Unique(Due(p, now, n))
    ensures forall id | id in Due(p, now, n) :: id in p.live[..n] && id in WaitSet(p)
    decreases n
  {
    if n == 0 {
    } else {
      DueWaits(p, now, n - 1);
      assert p.live[..n] == p.live[..n - 1] + [p.live[n - 1]];
      assert p.live[n - 1] !in p.live[..n - 1];
      assert p.live[n - 1] !in Due(p, now, n - 1);
    }
  }

  lemma {:induction false} PromoteAllKeeps(c: Chat, ids: seq<CallId>, n: nat)
    requires Steady(c) && n <= |ids| && Unique(ids)
    requires forall i | 0 <= i < |ids| :: ids[i] in WaitSet(c.panel)
    requires forall i | 0 <= i < |ids| :: ids[i] in c.panel.entries
    ensures Settled(c, PromoteAll(c, ids, n))
    ensures forall i | n <= i < |ids| :: ids[i] in WaitSet(PromoteAll(c, ids, n).panel)
    decreases n
  {
    hide WaitSet, Steady, Held;
    if n == 0 {
      PromotesNone(c);
    } else {
      hide Settled;
      PromoteAllKeeps(c, ids, n - 1);
      var b, id := PromoteAll(c, ids, n - 1), ids[n - 1];
      PromoteSettles(c, b, id, StillRunning(b.panel.entries[id].to));
    }
  }

  lemma PromoteDueKeeps(c: Chat, now: int)
    requires Steady(c)
    ensures Settled(c, PromoteDue(c, now))
  {
    var due := Due(c.panel, now, |c.panel.live|);
    DueWaits(c.panel, now, |c.panel.live|);
    forall i | 0 <= i < |due| ensures due[i] in WaitSet(c.panel) && due[i] in c.panel.entries {
      assert due[i] in due;
    }
    PromoteAllKeeps(c, due, |due|);
  }
}
