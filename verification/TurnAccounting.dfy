/** Every tool call the model made is held open, deferred or answered: the accounts of an activation. */
module TurnAccounting {
  import opened Mail
  import opened Conversation

  // ---- Open calls ------------------------------------------------------------

  /** The calls held open by a wait. */
  function WaitSet(p: Panel): set<CallId>
    requires Proper(p)
  {
    set id | id in p.live && p.entries[id].mode.Wait?
  }

  function ToolIds(tools: seq<Message>): multiset<CallId> {
    if tools == [] then multiset{}
    else
      var last := tools[|tools| - 1];
      ToolIds(tools[..|tools| - 1]) + if last.Tool? then multiset{last.callId} else multiset{}
  }

  /** The calls whose answer is still to be written into the transcript. */
  function Held(c: Chat): multiset<CallId>
    requires Proper(c.panel)
  {
    multiset(WaitSet(c.panel)) + ToolIds(c.deferred)
  }

  predicate AllTools(s: seq<Message>) { forall i | 0 <= i < |s| :: s[i].Tool? }

  predicate AllUsers(s: seq<Message>) { forall i | 0 <= i < |s| :: s[i].UserSays? }

  /** A wait is on work that has neither ended nor been cancelled. */
  predicate WaitsRun(p: Panel)
    requires Proper(p)
  {
    forall id | id in p.live && p.entries[id].mode.Wait? ::
      p.entries[id].status != Completed && p.entries[id].status != Cancelled && !p.entries[id].fenced
  }

  predicate Steady(c: Chat) {
    Proper(c.panel) && WaitsRun(c.panel) && AllTools(c.deferred) && AllUsers(c.buffered)
  }

  /** Every open call of the transcript is held exactly once. */
  predicate Kept(c: Chat) {
    Steady(c) && Scan(c.messages) == Some(Held(c))
  }

  predicate Unique(ids: seq<CallId>) { forall i, j | 0 <= i < j < |ids| :: ids[i] != ids[j] }

  lemma {:induction false} WaitingIsWaitSet(p: Panel, n: nat)
    requires Proper(p) && n <= |p.live|
    ensures forall id :: id in WaitingIn(p, n) <==> id in p.live[..n] && p.entries[id].mode.Wait?
    ensures Unique(WaitingIn(p, n))
    decreases n
  {
    if n == 0 {
    } else {
      WaitingIsWaitSet(p, n - 1);
      var last := p.live[n - 1];
      assert p.live[..n] == p.live[..n - 1] + [last];
      assert last !in p.live[..n - 1];
      assert last !in WaitingIn(p, n - 1);
    }
  }

  lemma NoneWaiting(p: Panel)
    requires Proper(p)
    ensures Waiting(p) == [] <==> WaitSet(p) == {}
  {
    WaitingIsWaitSet(p, |p.live|);
    assert p.live[..|p.live|] == p.live;
    if Waiting(p) != [] {
      assert Waiting(p)[0] in WaitSet(p);
    }
    if WaitSet(p) != {} {
      var id :| id in WaitSet(p);
      assert id in Waiting(p);
    }
  }

  lemma ToolIdsPush(tools: seq<Message>, m: Message)
    ensures ToolIds(tools + [m]) == ToolIds(tools) + if m.Tool? then multiset{m.callId} else multiset{}
  {
    assert (tools + [m])[..|tools + [m]| - 1] == tools;
  }

  lemma WithoutOne(s: set<CallId>, id: CallId)
    requires id in s
    ensures multiset(s - {id}) + multiset{id} == multiset(s)
  {
  }

  // ---- Steps that move calls from waiting to deferred ------------------------

  /** Promoting a wait and deferring its answer leaves the account as it was. */
  lemma PromoteDefers(c: Chat, id: CallId, content: Wording)
    requires Steady(c) && id in WaitSet(c.panel)
    ensures var d := Defer(c.(panel := Promoted(c.panel, id)), id, content);
      && Steady(d) && Held(d) == Held(c) && WaitSet(d.panel) == WaitSet(c.panel) - {id}
      && d.messages == c.messages && d.buffered == c.buffered && d.job == c.job
      && d.panel == Promoted(c.panel, id)
  {
    var d := Defer(c.(panel := Promoted(c.panel, id)), id, content);
    assert WaitSet(d.panel) == WaitSet(c.panel) - {id};
    WithoutOne(WaitSet(c.panel), id);
    ToolIdsPush(c.deferred, d.deferred[|c.deferred|]);
  }

  /** Nothing but the modes of live waits changes, and only to connected. */
  predicate OnlyPromotes(p: Panel, q: Panel) {
    && q.live == p.live && q.entries.Keys == p.entries.Keys
    && forall id | id in p.entries ::
      || q.entries[id] == p.entries[id]
      || (id in p.live && q.entries[id] == p.entries[id].(mode := Connected))
  }

  lemma PromoteIsOnly(p: Panel, q: Panel, id: CallId)
    requires Proper(p) && OnlyPromotes(p, q) && id in p.live
    ensures id in q.entries && OnlyPromotes(p, Promoted(q, id))
  {
  }

  /** What a run of promotions leaves: the account, the transcript, the job and the queue of messages. */
  predicate Settled(c: Chat, d: Chat) {
    Undisturbed(c, d) && Owes(c, d, multiset{}) && d.buffered == c.buffered
  }

  /** Waits may have been promoted; the transcript and the job are as they were. */
  predicate Undisturbed(c: Chat, d: Chat) {
    && Steady(c) && Steady(d) && OnlyPromotes(c.panel, d.panel) && d.messages == c.messages && d.job == c.job
  }

  /** `d` holds what `c` held, and `more`. */
  predicate Owes(c: Chat, d: Chat, more: multiset<CallId>) {
    Proper(c.panel) && Proper(d.panel) && Held(d) == Held(c) + more
  }

  lemma PromoteSettles(c: Chat, b: Chat, id: CallId, content: Wording)
    requires Settled(c, b) && id in WaitSet(b.panel)
    ensures var d := Defer(b.(panel := Promoted(b.panel, id)), id, content);
      Settled(c, d) && WaitSet(d.panel) == WaitSet(b.panel) - {id}
  {
    PromoteDefers(b, id, content);
    PromoteIsOnly(c.panel, b.panel, id);
  }

  lemma PromotesNone(c: Chat)
    requires Steady(c)
    ensures Settled(c, c)
  {
  }

  lemma {:induction false} InterruptKeeps(c: Chat, waiting: seq<CallId>, n: nat)
    requires Steady(c) && n <= |waiting| && Unique(waiting)
    requires forall i | 0 <= i < |waiting| :: waiting[i] in WaitSet(c.panel)
    requires forall i | 0 <= i < |waiting| :: waiting[i] in c.panel.entries
    ensures Settled(c, Interrupt(c, waiting, n))
    ensures forall i | n <= i < |waiting| :: waiting[i] in WaitSet(Interrupt(c, waiting, n).panel)
    decreases n
  {
    hide WaitSet, Steady, Held;
    if n == 0 {
      PromotesNone(c);
    } else {
      hide Settled;
      InterruptKeeps(c, waiting, n - 1);
      var b, id := Interrupt(c, waiting, n - 1), waiting[n - 1];
      if b.panel.entries[id].interruptible {
        PromoteSettles(c, b, id, StillRunning(b.panel.entries[id].to));
      }
    }
  }

  lemma DeliverKeeps(c: Chat, content: Content)
    requires Steady(c)
    ensures var d := Deliver(c, content);
      && Steady(d) && Held(d) == Held(c) && OnlyPromotes(c.panel, d.panel)
      && d.messages == c.messages && d.buffered == c.buffered + [UserSays(content)] && d.job == c.job
  {
    WaitingIsWaitSet(c.panel, |c.panel.live|);
    assert c.panel.live[..|c.panel.live|] == c.panel.live;
    forall i | 0 <= i < |Waiting(c.panel)|
      ensures Waiting(c.panel)[i] in WaitSet(c.panel) && Waiting(c.panel)[i] in c.panel.entries
    {
      assert Waiting(c.panel)[i] in Waiting(c.panel);
    }
    InterruptKeeps(c, Waiting(c.panel), |Waiting(c.panel)|);
    hide Waiting, Held;
    var r := Interrupt(c, Waiting(c.panel), |Waiting(c.panel)|);
    assert Held(Deliver(c, content)) == Held(r) by { SameHeld(r, Deliver(c, content)); }
  }

  lemma SameHeld(c: Chat, d: Chat)
    requires Proper(c.panel) && d.panel == c.panel && d.deferred == c.deferred
    ensures Held(d) == Held(c)
  {
  }

  /** An outcome answers the call exactly once: what is added to the account is a call no longer in the table. */
  lemma SettleKeeps(c: Chat, id: CallId, content: Wording)
    requires Steady(c) && id in c.panel.entries
    ensures var d, e := Settle(c, id, content), c.panel.entries[id];
      && Steady(d) && OnlyPromotes(c.panel, d.panel)
      && Held(d) == Held(c) + (if e.mode.Wait? && id !in c.panel.live then multiset{id} else multiset{})
      && d.messages == c.messages && d.job == c.job
      && (d.buffered == c.buffered || d.buffered == c.buffered + [UserSays(Note(content))])
  {
    var e := c.panel.entries[id];
    if e.mode.Connected? {
      DeliverKeeps(c, Note(content));
    } else if id in c.panel.live {
      assert id in WaitSet(c.panel);
      PromoteDefers(c, id, content);
    } else {
      DeferKeeps(c, id, content);
    }
  }

  /** A note for a call already out of the panel joins the account. */
  lemma DeferKeeps(c: Chat, id: CallId, content: Wording)
    requires Steady(c) && id in c.panel.entries
    ensures var d := Defer(c, id, content);
      && Steady(d) && d.panel == c.panel && Held(d) == Held(c) + multiset{id}
      && d.messages == c.messages && d.buffered == c.buffered && d.job == c.job
  {
    ToolIdsPush(c.deferred, Tool(id, c.panel.entries[id].title, content));
  }

  // ---- Matched replies -------------------------------------------------------

  /** The call a reply closes: a result for a call held open. */
  function Closes(entries: map<CallId, Entry>, r: Reply): multiset<CallId> {
    if r.kind.ResultMail? && r.id in entries && entries[r.id].mode.Wait? then multiset{r.id} else multiset{}
  }

  /** The call a question answers although a result in the same batch closes it too. */
  function Doubles(entries: map<CallId, Entry>, live: seq<CallId>, r: Reply): multiset<CallId> {
    if r.kind.Ask? && r.id !in live && r.id in entries && entries[r.id].mode.Wait? then multiset{r.id} else multiset{}
  }

  function Closing(entries: map<CallId, Entry>, replies: seq<Reply>, n: nat): multiset<CallId>
    requires n <= |replies|
  {
    if n == 0 then multiset{} else Closing(entries, replies, n - 1) + Closes(entries, replies[n - 1])
  }

  function Extra(entries: map<CallId, Entry>, live: seq<CallId>, replies: seq<Reply>, n: nat): multiset<CallId>
    requires n <= |replies|
  {
    if n == 0 then multiset{} else Extra(entries, live, replies, n - 1) + Doubles(entries, live, replies[n - 1])
  }

  lemma WithoutSet(p: Panel, id: CallId)
    requires Proper(p) && id in p.live
    ensures Proper(Panel(p.entries, Without(p.live, id)))
    ensures WaitSet(Panel(p.entries, Without(p.live, id))) == WaitSet(p) - {id}
    ensures id !in Without(p.live, id)
  {
    WithoutLive(p.live, id);
  }

  /** What matching a batch leaves in the table and in the replies: no reply comes after its result. */
  lemma {:induction false} SortFacts(p: Panel, mail: seq<Letter>, n: nat)
    requires Proper(p) && n <= |mail|
    ensures var s := Sort(p, mail, n);
      && (forall id | id in s.live :: id in p.live)
      && (forall i | 0 <= i < |s.replies| :: s.replies[i].id in p.live && ReplyKind(s.replies[i].kind))
      && (forall i | 0 <= i < |s.replies| && s.replies[i].kind.ResultMail? :: s.replies[i].id !in s.live)
      && (forall i, j | 0 <= i < j < |s.replies| && s.replies[i].kind.ResultMail? :: s.replies[j].id != s.replies[i].id)
    decreases n
  {
    if n == 0 {
    } else {
      SortFacts(p, mail, n - 1);
      var b, letter := Sort(p, mail, n - 1), mail[n - 1];
      if Matches(p.entries, b.live, letter) {
        WithoutLive(b.live, letter.requestId);
      }
    }
  }

  lemma SortStep(p: Panel, b: Split, letter: Letter)
    requires Proper(Panel(p.entries, b.live)) && Matches(p.entries, b.live, letter)
    ensures var live := if letter.kind.ResultMail? then Without(b.live, letter.requestId) else b.live;
      && Proper(Panel(p.entries, live))
      && multiset(WaitSet(Panel(p.entries, b.live)))
        == multiset(WaitSet(Panel(p.entries, live))) + Closes(p.entries, ReplyOf(letter))
  {
    if letter.kind.ResultMail? {
      CloseOne(Panel(p.entries, b.live), letter.requestId);
    }
  }

  lemma Regroup(a: multiset<CallId>, b: multiset<CallId>, c: multiset<CallId>, d: multiset<CallId>, e: multiset<CallId>)
    requires a == b + c && b == d + e
    ensures a == d + (c + e)
  {
  }

  /** What a panel holds is what a split of its mail still holds and has closed. */
  predicate Balanced(p: Panel, s: Split) {
    && Proper(p) && Proper(Panel(p.entries, s.live))
    && multiset(WaitSet(p)) == multiset(WaitSet(Panel(p.entries, s.live))) + Closing(p.entries, s.replies, |s.replies|)
  }

  lemma BalancedNext(p: Panel, b: Split, letter: Letter)
    requires Balanced(p, b) && Matches(p.entries, b.live, letter)
    ensures var live := if letter.kind.ResultMail? then Without(b.live, letter.requestId) else b.live;
      Balanced(p, Split(b.replies + [ReplyOf(letter)], b.others, live))
  {
    var live := if letter.kind.ResultMail? then Without(b.live, letter.requestId) else b.live;
    SortStep(p, b, letter);
    ClosingPush(p.entries, b.replies, ReplyOf(letter));
    hide WaitSet, Closes, Without, Matches, Closing;
    Regroup(multiset(WaitSet(p)), multiset(WaitSet(Panel(p.entries, b.live))),
            Closing(p.entries, b.replies, |b.replies|),
            multiset(WaitSet(Panel(p.entries, live))), Closes(p.entries, ReplyOf(letter)));
  }

  /** The calls the batch closes leave the waits. */
  lemma {:induction false} SortCloses(p: Panel, mail: seq<Letter>, n: nat)
    requires Proper(p) && n <= |mail|
    ensures Balanced(p, Sort(p, mail, n))
    decreases n
  {
    if n == 0 {
    } else {
      SortCloses(p, mail, n - 1);
      if Matches(p.entries, Sort(p, mail, n - 1).live, mail[n - 1]) {
        BalancedNext(p, Sort(p, mail, n - 1), mail[n - 1]);
      }
    }
  }

  lemma CloseOne(p: Panel, id: CallId)
    requires Proper(p) && id in p.live
    ensures Proper(Panel(p.entries, Without(p.live, id)))
    ensures multiset(WaitSet(p)) == multiset(WaitSet(Panel(p.entries, Without(p.live, id))))
      + if p.entries[id].mode.Wait? then multiset{id} else multiset{}
  {
    WithoutSet(p, id);
    if id in WaitSet(p) {
      WithoutOne(WaitSet(p), id);
    }
  }

  lemma {:induction false} ClosingPrefix(entries: map<CallId, Entry>, a: seq<Reply>, b: seq<Reply>, n: nat)
    requires n <= |a| && n <= |b| && forall i | 0 <= i < n :: a[i] == b[i]
    ensures Closing(entries, a, n) == Closing(entries, b, n)
    decreases n
  {
    if n == 0 {
    } else {
      ClosingPrefix(entries, a, b, n - 1);
    }
  }

  lemma ClosingPush(entries: map<CallId, Entry>, replies: seq<Reply>, r: Reply)
    ensures Closing(entries, replies + [r], |replies| + 1) == Closing(entries, replies, |replies|) + Closes(entries, r)
  {
    ClosingPrefix(entries, replies, replies + [r], |replies|);
  }

  /** What the replies leave in an entry that was neither cancelled nor fenced. */
  lemma {:induction false} MarkFacts(entries: map<CallId, Entry>, replies: seq<Reply>, n: nat, id: CallId)
    requires n <= |replies| && id in entries && entries[id].status != Cancelled && !entries[id].fenced
    requires forall i | 0 <= i < n :: ReplyKind(replies[i].kind)
    requires forall i, j | 0 <= i < j < n && replies[i].kind.ResultMail? :: replies[j].id != replies[i].id
    ensures var m := MarkAll(entries, replies, n);
      && id in m && !m[id].fenced
      && (m[id].status != entries[id].status && m[id].status != InputRequired ==>
            exists i | 0 <= i < n :: replies[i].id == id && replies[i].kind.ResultMail?)
    decreases n
  {
    if n == 0 {
    } else {
      MarkFacts(entries, replies, n - 1, id);
      assert replies[n - 1].kind.ResultMail? || replies[n - 1].kind.Ask? || replies[n - 1].kind.Progress?;
    }
  }

  lemma {:induction false} MarkModes(entries: map<CallId, Entry>, replies: seq<Reply>, n: nat, id: CallId)
    requires n <= |replies| && id in entries
    ensures id in MarkAll(entries, replies, n) && MarkAll(entries, replies, n)[id].mode == entries[id].mode
    decreases n
  {
    if n == 0 {
    } else {
      MarkModes(entries, replies, n - 1, id);
    }
  }

  lemma MarkedModes(entries: map<CallId, Entry>, replies: seq<Reply>, live: seq<CallId>)
    requires Proper(Panel(entries, live))
    ensures var m := MarkAll(entries, replies, |replies|);
      && m.Keys == entries.Keys && Proper(Panel(m, live))
      && (forall id | id in entries :: m[id].mode == entries[id].mode)
      && WaitSet(Panel(m, live)) == WaitSet(Panel(entries, live))
  {
    MarkAllKeys(entries, replies, |replies|);
    forall id | id in entries ensures MarkAll(entries, replies, |replies|)[id].mode == entries[id].mode {
      MarkModes(entries, replies, |replies|, id);
    }
  }

  /** After matching, the live waits still run and a closed wait is not fenced. */
  lemma IngestedSteady(c: Chat, mail: seq<Letter>)
    requires Steady(c)
    ensures Steady(Ingested(c, mail))
    ensures forall id | id in c.panel.live && c.panel.entries[id].mode.Wait? ::
      !Ingested(c, mail).panel.entries[id].fenced
  {
    var p, n := c.panel, |mail|;
    var s := Sort(p, mail, n);
    SortFacts(p, mail, n);
    SortLive(p, mail, n);
    MarkedModes(p.entries, s.replies, s.live);
    forall id | id in p.live && p.entries[id].mode.Wait?
      ensures !Ingested(c, mail).panel.entries[id].fenced
      ensures id in s.live ==> Ingested(c, mail).panel.entries[id].status in {p.entries[id].status, InputRequired}
    {
      MarkFacts(p.entries, s.replies, |s.replies|, id);
    }
  }

  // ---- Folding the replies in ------------------------------------------------

  lemma FoldKeeps(c: Chat, reply: Reply)
    requires Steady(c) && reply.id in c.panel.entries
    ensures var d, e := Fold(c, reply), c.panel.entries[reply.id];
      && Steady(d) && OnlyPromotes(c.panel, d.panel) && d.messages == c.messages && d.job == c.job
      && Held(d) == Held(c)
        + if !e.fenced && !reply.kind.Progress? && e.mode.Wait? && reply.id !in c.panel.live
          then multiset{reply.id} else multiset{}
  {
    var e := c.panel.entries[reply.id];
    hide Settle, Steady, Held, OnlyPromotes;
    if e.fenced || reply.kind.Progress? {
      OnlyPromotesRefl(c.panel);
    } else if reply.kind.Ask? {
      SettleKeeps(c, reply.id, Asks(e.to, reply.text));
    } else {
      SettleKeeps(c, reply.id, Outcome(e, reply.text));
    }
  }

  lemma OnlyPromotesRefl(p: Panel)
    ensures OnlyPromotes(p, p)
  {
  }

  lemma OnlyPromotesTrans(p: Panel, q: Panel, r: Panel)
    requires OnlyPromotes(p, q) && OnlyPromotes(q, r)
    ensures OnlyPromotes(p, r)
  {
  }

  /** A reply the table can have: a result is not live any more, and a wait is not fenced. */
  predicate Expected(p: Panel, r: Reply) {
    && r.id in p.entries && ReplyKind(r.kind)
    && (r.kind.ResultMail? ==> r.id !in p.live)
    && (p.entries[r.id].mode.Wait? ==> !p.entries[r.id].fenced)
  }

  /** A chat `d` reached from `c` by folding, which owes `more` beyond what `c` held. */
  predicate FoldedTo(c: Chat, d: Chat, more: multiset<CallId>) {
    Undisturbed(c, d) && Owes(c, d, more)
  }

  /** What folding a reply adds to the account. */
  function Gain(p: Panel, r: Reply): multiset<CallId> {
    Closes(p.entries, r) + Doubles(p.entries, p.live, r)
  }

  lemma GainIs(p: Panel, q: Panel, r: Reply)
    requires OnlyPromotes(p, q) && Expected(p, r)
    ensures r.id in q.entries
    ensures var e := q.entries[r.id];
      Gain(p, r) ==
        if !e.fenced && !r.kind.Progress? && e.mode.Wait? && r.id !in q.live then multiset{r.id} else multiset{}
  {
    assert r.id !in p.live ==> q.entries[r.id] == p.entries[r.id];
  }

  lemma FoldStep(c: Chat, b: Chat, r: Reply, more: multiset<CallId>)
    requires FoldedTo(c, b, more) && Expected(c.panel, r)
    ensures r.id in b.panel.entries
    ensures FoldedTo(c, Fold(b, r), more + Gain(c.panel, r))
  {
    GainIs(c.panel, b.panel, r);
    FoldKeeps(b, r);
    OnlyPromotesTrans(c.panel, b.panel, Fold(b, r).panel);
    hide Steady, Held, Fold, Gain, OnlyPromotes, Expected;
  }

  function Gains(p: Panel, replies: seq<Reply>, n: nat): multiset<CallId>
    requires n <= |replies|
  {
    if n == 0 then multiset{} else Gains(p, replies, n - 1) + Gain(p, replies[n - 1])
  }

  lemma {:induction false} GainsSplit(p: Panel, replies: seq<Reply>, n: nat)
    requires n <= |replies|
    ensures Gains(p, replies, n) == Closing(p.entries, replies, n) + Extra(p.entries, p.live, replies, n)
    decreases n
  {
    if n == 0 {
    } else {
      GainsSplit(p, replies, n - 1);
    }
  }

  /** Folding writes one answer for every call closed, and one more for every question that came with it. */
  lemma {:induction false} FoldAllKeeps(c: Chat, replies: seq<Reply>, n: nat)
    requires Steady(c) && n <= |replies| && forall i | 0 <= i < |replies| :: Expected(c.panel, replies[i])
    ensures FoldedTo(c, FoldAll(c, replies, n), Gains(c.panel, replies, n))
    decreases n
  {
    assert Proper(c.panel) && (n == 0 ==> FoldAll(c, replies, n) == c);
    hide Fold, Steady, Held, OnlyPromotes, Gain;
    if n == 0 {
      OnlyPromotesRefl(c.panel);
    } else {
      FoldAllKeeps(c, replies, n - 1);
      FoldStep(c, FoldAll(c, replies, n - 1), replies[n - 1], Gains(c.panel, replies, n - 1));
    }
  }

  lemma {:induction false} ClosingModes(one: map<CallId, Entry>, two: map<CallId, Entry>, replies: seq<Reply>, n: nat)
    requires n <= |replies| && one.Keys == two.Keys && forall id | id in one :: one[id].mode == two[id].mode
    ensures Closing(one, replies, n) == Closing(two, replies, n)
    decreases n
  {
    if n == 0 {
    } else {
      ClosingModes(one, two, replies, n - 1);
    }
  }

  lemma {:induction false} ExtraModes(one: map<CallId, Entry>, two: map<CallId, Entry>, live: seq<CallId>,
                                      replies: seq<Reply>, n: nat)
    requires n <= |replies| && one.Keys == two.Keys && forall id | id in one :: one[id].mode == two[id].mode
    ensures Extra(one, live, replies, n) == Extra(two, live, replies, n)
    decreases n
  {
    if n == 0 {
    } else {
      ExtraModes(one, two, live, replies, n - 1);
    }
  }

  /** The answers a batch gives twice. */
  function Doubled(p: Panel, mail: seq<Letter>): multiset<CallId> {
    var s := Sort(p, mail, |mail|);
    Extra(p.entries, s.live, s.replies, |s.replies|)
  }

  /** After matching, a closed exchange is not live and no wait is fenced. */
  lemma IngestedExpected(c: Chat, mail: seq<Letter>)
    requires Steady(c)
    ensures var s, d := Sort(c.panel, mail, |mail|), Ingested(c, mail);
      && Steady(d) && forall i | 0 <= i < |s.replies| :: Expected(d.panel, s.replies[i])
  {
    var p, s := c.panel, Sort(c.panel, mail, |mail|);
    SortFacts(p, mail, |mail|);
    SortLive(p, mail, |mail|);
    MarkedModes(p.entries, s.replies, s.live);
    IngestedSteady(c, mail);
    hide Steady, Sort, MarkAll, WaitSet;
  }

  lemma IngestedHolds(c: Chat, mail: seq<Letter>)
    requires Steady(c)
    ensures var s, d := Sort(c.panel, mail, |mail|), Ingested(c, mail);
      && Proper(d.panel) && Held(c) == Held(d) + Closing(d.panel.entries, s.replies, |s.replies|)
      && Extra(d.panel.entries, d.panel.live, s.replies, |s.replies|) == Doubled(c.panel, mail)
  {
    var p, s, d := c.panel, Sort(c.panel, mail, |mail|), Ingested(c, mail);
    SortCloses(p, mail, |mail|);
    MarkedModes(p.entries, s.replies, s.live);
    hide Sort, MarkAll, WaitSet;
    ClosingModes(p.entries, d.panel.entries, s.replies, |s.replies|);
    ExtraModes(p.entries, d.panel.entries, s.live, s.replies, |s.replies|);
  }

  lemma FoldedKeeps(c: Chat, mail: seq<Letter>)
    requires Steady(c)
    ensures var d := Folded(c, mail);
      && Steady(d) && d.messages == c.messages && d.job == c.job
      && Held(d) == Held(c) + Doubled(c.panel, mail)
  {
    var s, d := Sort(c.panel, mail, |mail|), Ingested(c, mail);
    IngestedExpected(c, mail);
    IngestedHolds(c, mail);
    GainsSplit(d.panel, s.replies, |s.replies|);
    assert d.messages == c.messages && d.job == c.job;
    hide Steady, Sort, Ingested, Held, Expected, Doubled;
    FoldAllKeeps(d, s.replies, |s.replies|);
  }
}
