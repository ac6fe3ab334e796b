/** What reaches the model over whole activations: the outcome of delegated work, in whose words and where. */
module TurnContent {
  import opened Mail
  import opened Conversation
  import opened TurnAccounting
  import opened TurnSafety
  import opened TurnTheorems
  import opened TurnClash
  import Effects = TurnEffects
  import Tools = TurnTools

  // ---- Nothing is taken back -------------------------------------------------

  /** The transcript, the answers waiting to join it, and the messages waiting behind them. */
  function Hand(c: Chat): seq<Message> { c.messages + c.deferred + c.buffered }

  /** Answers and messages are only added, last. */
  predicate Onward(c: Chat, d: Chat) {
    d.messages == c.messages && c.deferred <= d.deferred && c.buffered <= d.buffered
  }

  lemma OnwardHas(c: Chat, d: Chat, m: Message)
    requires Onward(c, d) && m in Hand(c)
    ensures m in Hand(d)
  {
    if m in c.deferred {
      var i :| 0 <= i < |c.deferred| && c.deferred[i] == m;
      assert d.deferred[i] == m;
    } else if m in c.buffered {
      var i :| 0 <= i < |c.buffered| && c.buffered[i] == m;
      assert d.buffered[i] == m;
    }
  }

  lemma OnwardTrans(c: Chat, d: Chat, e: Chat)
    requires Onward(c, d) && Onward(d, e)
    ensures Onward(c, e)
  {
  }

  lemma FoldOnward(c: Chat, reply: Reply)
    requires Proper(c.panel) && reply.id in c.panel.entries
    ensures Onward(c, Fold(c, reply))
  {
    Effects.FoldTells(c, reply);
    hide Fold;
  }

  lemma {:induction false} FoldAllOnward(c: Chat, replies: seq<Reply>, j: nat, n: nat)
    requires j <= n <= |replies| && Proper(c.panel)
    ensures Onward(FoldAll(c, replies, j), FoldAll(c, replies, n))
    decreases n
  {
    hide Fold, Onward;
    if j == n {
      OnwardSame(FoldAll(c, replies, n));
    } else {
      FoldAllOnward(c, replies, j, n - 1);
      var b, r := FoldAll(c, replies, n - 1), replies[n - 1];
      if r.id in b.panel.entries {
        FoldOnward(b, r);
        OnwardTrans(FoldAll(c, replies, j), b, FoldAll(c, replies, n));
      }
    }
  }

  lemma OnwardSame(c: Chat)
    ensures Onward(c, c)
  {
  }

  lemma HearOnward(c: Chat, letter: Letter)
    requires Proper(c.panel) && Hear(c, letter).Ok?
    ensures Onward(c, Hear(c, letter).value.chat)
  {
    Effects.Hears(c, letter);
    if letter.kind.System? && letter.failed.Some? {
      Effects.FailTells(c, letter.failed.value);
    }
    hide Hear, FailWork;
  }

  lemma {:induction false} HearAllOnward(c: Chat, others: seq<Letter>, j: nat, n: nat)
    requires j <= n <= |others| && Proper(c.panel) && HearAll(c, others, n).Ok?
    ensures HearAll(c, others, j).Ok? && Onward(HearAll(c, others, j).value.chat, HearAll(c, others, n).value.chat)
    ensures HearAll(c, others, j).value.cancelled ==> HearAll(c, others, n).value.cancelled
    decreases n
  {
    hide Hear, Onward;
    if j == n {
      OnwardSame(HearAll(c, others, n).value.chat);
    } else {
      HearAllOnward(c, others, j, n - 1);
      var b := HearAll(c, others, n - 1).value;
      if !b.cancelled {
        HearOnward(b.chat, others[n - 1]);
        OnwardTrans(HearAll(c, others, j).value.chat, b.chat, HearAll(c, others, n).value.chat);
      }
    }
  }

  // ---- The proposal ----------------------------------------------------------

  /** The model is called on a transcript that ends in something to answer, unless the caller's answer is awaited. */
  predicate WorthCalling(c: Chat) {
    && c.messages != []
    && var last := c.messages[|c.messages| - 1];
    && (last.UserSays? || last.Tool?)
    && (last.Tool? ==> c.job.None? || c.job.value.status != InputRequired)
  }

  /** Nothing is sent and the model is not called. */
  ghost predicate Parks(c: Chat, p: Proposed, deadline: Option<int>) {
    Tools.SavedAs(c, p.chat) && p.deadline == deadline && !p.complete && p.shown.None? && p.posts == []
  }

  /** What an activation does once its mail is heard. A cancel ends the job with an empty result. Otherwise the
      overdue waits go on as connected work and the transcript is flushed; while more mail waits, or a call is held
      open, or there is nothing to answer, it parks, in the second case until the first budget; else it is the model's
      turn. */
  ghost predicate Proposes(h: Heard, p: Proposed, agent: Agent, env: Env)
    requires Usable(agent) && Proper(h.chat.panel)
  {
    if h.cancelled then
      && h.chat.job.Some? && p.complete && p.shown.None? && p.deadline.None?
      && Tools.SavedAs(h.chat.(job := Some(h.chat.job.value.(status := Cancelled))), p.chat)
      && p.posts == [Post(h.chat.job.value.replyTo, ResultMail, Some(h.chat.job.value.requestId), ForResult, "")]
    else
      exists b: Chat, ready: Chat | Proper(b.panel) && Proper(ready.panel) ::
        && Effects.Promotes(h.chat, b, Effects.Overdue(h.chat.panel, env.now))
        && Flushed(b, ready) && Moves(ready, p, agent, env)
  }

  /** Once no call is held open, everything in hand is the transcript. */
  predicate Flushed(b: Chat, ready: Chat)
    requires Proper(b.panel)
  {
    ready == if WaitSet(b.panel) == {} then b.(messages := Hand(b), deferred := [], buffered := []) else b
  }

  ghost predicate Moves(ready: Chat, p: Proposed, agent: Agent, env: Env)
    requires Usable(agent) && Proper(ready.panel)
  {
    if env.more then Parks(ready, p, None)
    else if WaitSet(ready.panel) != {} then
      Parks(ready, p, p.deadline) && Effects.Earliest(ready.panel, ready.panel.live, p.deadline)
    else if !WorthCalling(ready) then Parks(ready, p, None)
    else
      && env.reply.Some? && env.reply.value.Assistant? && p.shown.Some?
      && Tools.Prompted(ready.messages, env.prompt, p.shown.value)
      && (if env.reply.value.calls == [] then Tools.FinalAnswer(ready, p, agent, env.reply.value, p.shown.value)
          else Tools.Called(ready, p, agent, env, env.reply.value, p.shown.value))
  }

  /** The mail of an activation, heard: replies first, then the rest in order. */
  function HeardMail(c: Chat, mail: seq<Letter>): Result<Heard>
    requires Proper(c.panel)
  {
    var others := Sort(c.panel, mail, |mail|).others;
    HearAll(Folded(c, mail), others, |others|)
  }

  lemma ParksSaved(c: Chat, deadline: Option<int>)
    requires Proper(c.panel)
    ensures Propose(c, deadline).Ok? && Parks(c, Propose(c, deadline).value, deadline)
  {
    Tools.SavesLive(c);
  }

  lemma Resumes(c: Chat, mail: seq<Letter>, agent: Agent, env: Env)
    requires Proper(c.panel) && Usable(agent) && Resume(c, mail, agent, env).Ok?
    ensures HeardMail(c, mail).Ok? && Proper(HeardMail(c, mail).value.chat.panel)
    ensures Proposes(HeardMail(c, mail).value, Resume(c, mail, agent, env).value, agent, env)
  {
    var h := HeardMail(c, mail).value;
    hide HearAll, Folded, Sort, PromoteDue, TakeTurn, Waiting, NextDeadline, Saved, Propose, Flush, Usable;
    if h.cancelled {
      Tools.SavesLive(h.chat.(job := Some(h.chat.job.value.(status := Cancelled))));
    } else {
      Ready(h.chat, agent, env);
    }
  }

  lemma Ready(c: Chat, agent: Agent, env: Env)
    requires Proper(c.panel) && Usable(agent)
    ensures var ready := Flush(PromoteDue(c, env.now));
      var r := if env.more then Propose(ready, None)
               else if Waiting(ready.panel) != [] then Propose(ready, NextDeadline(ready.panel, |ready.panel.live|))
               else if !Answerable(ready) then Propose(ready, None)
               else TakeTurn(ready, agent, env);
      r.Ok? ==> Proposes(Heard(c, false), r.value, agent, env)
  {
    hide PromoteDue, Waiting, NextDeadline, Propose, Flush, Usable, Effects.Promotes, Moves, Answerable, TakeTurn;
    var b := PromoteDue(c, env.now);
    var ready := Flush(b);
    Effects.BudgetsEnd(c, env.now);
    FlushedSo(b);
    MovesOn(ready, agent, env);
  }

  lemma FlushedSo(b: Chat)
    requires Proper(b.panel)
    ensures Flushed(b, Flush(b))
  {
    Effects.Flushes(b);
  }

  lemma MovesOn(ready: Chat, agent: Agent, env: Env)
    requires Proper(ready.panel) && Usable(agent)
    ensures var r := if env.more then Propose(ready, None)
                     else if Waiting(ready.panel) != []
                       then Propose(ready, NextDeadline(ready.panel, |ready.panel.live|))
                     else if !Answerable(ready) then Propose(ready, None)
                     else TakeTurn(ready, agent, env);
      r.Ok? ==> Moves(ready, r.value, agent, env)
  {
    hide Waiting, NextDeadline, Propose, Usable, Effects.Earliest, Parks, TakeTurn, Tools.Called, Tools.FinalAnswer;
    hide Tools.Prompted;
    NoneWaiting(ready.panel);
    var deadline := NextDeadline(ready.panel, |ready.panel.live|);
    Effects.DeadlineIsFirst(ready.panel, |ready.panel.live|);
    assert ready.panel.live[..|ready.panel.live|] == ready.panel.live;
    ParksSaved(ready, None);
    ParksSaved(ready, deadline);
    ParksUntil(ready, deadline);
    assert Answerable(ready) <==> WorthCalling(ready);
    if TakeTurn(ready, agent, env).Ok? {
      Tools.TakesTurn(ready, agent, env);
    }
  }

  lemma ParksUntil(c: Chat, deadline: Option<int>)
    requires Proper(c.panel)
    ensures Propose(c, deadline).value.deadline == deadline
  {
  }

  // ---- From hand to model ----------------------------------------------------

  lemma CallAdds(r: Running, t: Running, agent: Agent, env: Env, call: Call, k: nat)
    requires Proper(r.chat.panel) && Usable(agent) && call.arguments.Arguments?
    requires Tools.CallDone(r, t, agent, env, call, k)
    ensures r.chat.messages <= t.chat.messages
  {
    if call.name !in agent.pipes && Tools.IsControl(agent, call.name) {
      ControlAdds(r, t, call);
    }
    hide Tools.Controlled;
  }

  lemma ControlAdds(r: Running, t: Running, call: Call)
    requires Proper(r.chat.panel) && call.arguments.Arguments? && Tools.Controlled(r, t, call)
    ensures r.chat.messages <= t.chat.messages
  {
    if call.arguments.work.Some? {
      Tools.FindsTarget(r.chat.panel, call.arguments.work.value);
      var found := Find(r.chat.panel, call.arguments.work.value, |r.chat.panel.live|);
      if found.Some? {
        assert Tools.ControlledEntry(r, t, call, found.value, r.chat.panel.entries[found.value]);
      }
    }
  }

  lemma {:induction false} CallsAdd(states: seq<Running>, agent: Agent, env: Env, calls: seq<Call>, k: nat)
    requires Usable(agent) && Tools.AllDone(states, agent, env, calls) && k < |states|
    ensures states[0].chat.messages <= states[k].chat.messages
    decreases k
  {
    hide Usable, Tools.CallDone;
    if k == 0 {
    } else {
      CallsAdd(states, agent, env, calls, k - 1);
      CallAdds(states[k - 1], states[k], agent, env, calls[k - 1], k - 1);
    }
  }

  lemma PrefixHas(a: seq<Message>, b: seq<Message>, m: Message)
    requires a <= b && m in a
    ensures m in b
  {
    var i :| 0 <= i < |a| && a[i] == m;
    assert b[i] == m;
  }

  /** Whatever is in hand when the mail is heard is kept, and the model is shown it whenever it is called. */
  lemma StaysInHand(h: Heard, p: Proposed, agent: Agent, env: Env, m: Message)
    requires Usable(agent) && Proper(h.chat.panel) && Proposes(h, p, agent, env) && m in Hand(h.chat)
    ensures m in Hand(p.chat) && (p.shown.Some? ==> m in p.shown.value)
  {
    hide Usable, Moves, Effects.Promotes, Proper;
    if h.cancelled {
      assert Hand(p.chat) == Hand(h.chat);
    } else {
      var b: Chat, ready: Chat :| Proper(b.panel) && Proper(ready.panel)
        && Effects.Promotes(h.chat, b, Effects.Overdue(h.chat.panel, env.now))
        && Flushed(b, ready) && Moves(ready, p, agent, env);
      PromotesOnward(h.chat, b, Effects.Overdue(h.chat.panel, env.now));
      OnwardHas(h.chat, b, m);
      FlushedHas(b, ready, m);
      MovesHas(ready, p, agent, env, m);
    }
  }

  lemma PromotesOnward(c: Chat, d: Chat, ids: set<CallId>)
    requires Effects.Promotes(c, d, ids)
    ensures Onward(c, d)
  {
  }

  lemma FlushedHas(b: Chat, ready: Chat, m: Message)
    requires Proper(b.panel) && Flushed(b, ready) && m in Hand(b)
    ensures m in Hand(ready) && Proper(ready.panel)
    ensures WaitSet(ready.panel) == {} ==> m in ready.messages && ready.deferred == [] && ready.buffered == []
  {
  }

  lemma MovesHas(ready: Chat, p: Proposed, agent: Agent, env: Env, m: Message)
    requires Usable(agent) && Proper(ready.panel) && Moves(ready, p, agent, env) && m in Hand(ready)
    requires WaitSet(ready.panel) == {} ==> m in ready.messages
    ensures m in Hand(p.chat) && (p.shown.Some? ==> m in p.shown.value)
  {
    hide Usable, WorthCalling, Effects.Earliest;
    if p.shown.None? {
      assert Hand(p.chat) == Hand(ready);
    } else {
      var shown, reply := p.shown.value, env.reply.value;
      assert m in shown;
      PrefixHas(shown, shown + [reply], m);
      if reply.calls == [] {
        assert m in p.chat.messages;
      } else {
        CalledHas(ready, p, agent, env, reply, shown, m);
      }
    }
  }

  lemma CalledHas(c: Chat, p: Proposed, agent: Agent, env: Env, reply: Message, shown: seq<Message>, m: Message)
    requires reply.Assistant? && Usable(agent) && Proper(c.panel) && Tools.Called(c, p, agent, env, reply, shown)
    requires m in shown + [reply]
    ensures m in p.chat.messages
  {
    hide Usable, Tools.CallDone, Tools.AsksIn, Effects.Earliest, WaitSet;
    var states: seq<Running> :| Tools.AllDone(states, agent, env, reply.calls)
      && states[0] == Tools.TurnStart(c, shown, reply)
      && Tools.SavedAs(states[|states| - 1].chat, p.chat);
    var last := states[|states| - 1].chat;
    CallsAdd(states, agent, env, reply.calls, |states| - 1);
    assert states[0].chat.messages == shown + [reply];
    SavedHand(last, p.chat);
    PrefixHas(shown + [reply], last.messages, m);
  }

  lemma SavedHand(c: Chat, saved: Chat)
    requires Tools.SavedAs(c, saved)
    ensures saved.messages == c.messages && Hand(saved) == Hand(c)
  {
  }

  // ---- What the mail leaves in an entry --------------------------------------

  /** Item `k` is a reply on the live exchange `id`: from its provider, and before the exchange ended. */
  ghost predicate Replies(p: Panel, mail: seq<Letter>, k: nat, id: CallId)
    requires k < |mail|
  {
    ReplyKind(mail[k].kind) && About(p, mail[k], id) && !EndedBy(p, mail, k, id)
  }

  /** The entries after the first `n` items are matched. */
  function Marked(p: Panel, mail: seq<Letter>, n: nat): map<CallId, Entry>
    requires n <= |mail|
  {
    var replies := Sort(p, mail, n).replies;
    MarkAll(p.entries, replies, |replies|)
  }

  lemma {:induction false} MarkPrefix(entries: map<CallId, Entry>, a: seq<Reply>, b: seq<Reply>, n: nat)
    requires n <= |a| && n <= |b| && a[..n] == b[..n]
    ensures MarkAll(entries, a, n) == MarkAll(entries, b, n)
    decreases n
  {
    if n == 0 {
    } else {
      assert a[..n - 1] == a[..n][..n - 1] == b[..n][..n - 1] == b[..n - 1] && a[n - 1] == a[..n][n - 1] == b[n - 1];
      MarkPrefix(entries, a, b, n - 1);
    }
  }

  lemma MarkedNext(p: Panel, mail: seq<Letter>, n: nat, id: CallId)
    requires n < |mail| && id in p.live && id in p.entries && id in Marked(p, mail, n)
    ensures id in Marked(p, mail, n + 1) && Marked(p, mail, n + 1)[id] ==
      if Replies(p, mail, n, id) then Mark(Marked(p, mail, n)[id], ReplyOf(mail[n])) else Marked(p, mail, n)[id]
  {
    var s, letter := Sort(p, mail, n), mail[n];
    LiveMeans(p, mail, n, id);
    assert Matches(p.entries, s.live, letter) && letter.requestId == id <==> Replies(p, mail, n, id);
    hide EndedBy;
    if Matches(p.entries, s.live, letter) {
      var more := s.replies + [ReplyOf(letter)];
      assert Sort(p, mail, n + 1).replies == more;
      MarkPrefix(p.entries, more, s.replies, |s.replies|);
    }
  }

  /** An entry that was not cancelled: the first result gives its status, before that a question does. */
  lemma {:induction false} StatusTold(p: Panel, mail: seq<Letter>, n: nat, id: CallId)
    requires n <= |mail| && id in p.live && id in p.entries && p.entries[id].status != Cancelled
    ensures id in Marked(p, mail, n)
    ensures !EndedBy(p, mail, n, id) ==>
      Marked(p, mail, n)[id] == p.entries[id].(
        status := if exists k | 0 <= k < n :: AsksAbout(p, mail[k], id) then InputRequired else p.entries[id].status)
    ensures forall k | 0 <= k < n && EndsIt(p, mail[k], id) && !EndedBy(p, mail, k, id) ::
      Marked(p, mail, n)[id] == p.entries[id].(status := ReplyOf(mail[k]).status)
    decreases n
  {
    if n == 0 {
    } else {
      StatusTold(p, mail, n - 1, id);
      MarkedNext(p, mail, n - 1, id);
      EndedNext(p, mail, n, id);
      hide Marked;
      StatusNext(p, mail, n, id);
    }
  }

  lemma StatusNext(p: Panel, mail: seq<Letter>, n: nat, id: CallId)
    requires 0 < n <= |mail| && id in p.live && id in p.entries && p.entries[id].status != Cancelled
    requires id in Marked(p, mail, n - 1) && id in Marked(p, mail, n)
    requires !EndedBy(p, mail, n - 1, id) ==>
      Marked(p, mail, n - 1)[id] == p.entries[id].(
        status := if exists k | 0 <= k < n - 1 :: AsksAbout(p, mail[k], id) then InputRequired
                  else p.entries[id].status)
    requires forall k | 0 <= k < n - 1 && EndsIt(p, mail[k], id) && !EndedBy(p, mail, k, id) ::
      Marked(p, mail, n - 1)[id] == p.entries[id].(status := ReplyOf(mail[k]).status)
    requires Marked(p, mail, n)[id] ==
      if Replies(p, mail, n - 1, id) then Mark(Marked(p, mail, n - 1)[id], ReplyOf(mail[n - 1]))
      else Marked(p, mail, n - 1)[id]
    requires EndedBy(p, mail, n, id) <==> EndedBy(p, mail, n - 1, id) || EndsIt(p, mail[n - 1], id)
    ensures !EndedBy(p, mail, n, id) ==>
      Marked(p, mail, n)[id] == p.entries[id].(
        status := if exists k | 0 <= k < n :: AsksAbout(p, mail[k], id) then InputRequired else p.entries[id].status)
    ensures forall k | 0 <= k < n && EndsIt(p, mail[k], id) && !EndedBy(p, mail, k, id) ::
      Marked(p, mail, n)[id] == p.entries[id].(status := ReplyOf(mail[k]).status)
  {
    hide Marked;
    forall k | 0 <= k < n - 1 && EndsIt(p, mail[k], id) ensures EndedBy(p, mail, n - 1, id) {
    }
  }

  /** A cancelled entry stays cancelled whatever its provider says, and is fenced by the first reply. */
  lemma {:induction false} CancelledStays(p: Panel, mail: seq<Letter>, n: nat, id: CallId)
    requires n <= |mail| && id in p.live && id in p.entries && p.entries[id].status == Cancelled
    ensures id in Marked(p, mail, n) && Marked(p, mail, n)[id].status == Cancelled
    ensures (exists k | 0 <= k < n :: Replies(p, mail, k, id)) ==> Marked(p, mail, n)[id].fenced
    decreases n
  {
    if n == 0 {
    } else {
      CancelledStays(p, mail, n - 1, id);
      MarkedNext(p, mail, n - 1, id);
      hide Marked, Replies;
    }
  }

  // ---- Replies among the mail ------------------------------------------------

  lemma {:induction false} SortedGrow(p: Panel, mail: seq<Letter>, k: nat, n: nat)
    requires k <= n <= |mail|
    ensures Sort(p, mail, k).replies <= Sort(p, mail, n).replies
    decreases n
  {
    if k < n {
      SortedGrow(p, mail, k, n - 1);
    }
  }

  /** Each reply is folded in, at its place. */
  lemma ReplyPlaced(p: Panel, mail: seq<Letter>, k: nat, id: CallId) returns (j: nat)
    requires k < |mail| && Replies(p, mail, k, id)
    ensures var s := Sort(p, mail, |mail|); j < |s.replies| && s.replies[j] == ReplyOf(mail[k])
  {
    LiveMeans(p, mail, k, id);
    hide EndedBy;
    j := |Sort(p, mail, k).replies|;
    assert Sort(p, mail, k + 1).replies == Sort(p, mail, k).replies + [ReplyOf(mail[k])];
    SortedGrow(p, mail, k + 1, |mail|);
  }

  lemma FoldPromotes(c: Chat, reply: Reply)
    requires Proper(c.panel) && reply.id in c.panel.entries
    ensures OnlyPromotes(c.panel, Fold(c, reply).panel)
  {
    Effects.FoldTells(c, reply);
    hide Fold;
  }

  lemma {:induction false} FoldAllPromotes(c: Chat, replies: seq<Reply>, n: nat)
    requires n <= |replies| && Proper(c.panel)
    ensures OnlyPromotes(c.panel, FoldAll(c, replies, n).panel)
    decreases n
  {
    hide Fold, OnlyPromotes;
    if n == 0 {
      OnlyPromotesRefl(c.panel);
    } else {
      FoldAllPromotes(c, replies, n - 1);
      var b, r := FoldAll(c, replies, n - 1), replies[n - 1];
      if r.id in b.panel.entries {
        FoldPromotes(b, r);
        OnlyPromotesTrans(c.panel, b.panel, FoldAll(c, replies, n).panel);
      }
    }
  }

  // ---- Told ------------------------------------------------------------------

  /** The entry when the reply to item `k` is folded in, and what is said of it. */
  lemma Folds(c: Chat, mail: seq<Letter>, k: nat, id: CallId) returns (e: Entry, content: Wording)
    requires Proper(c.panel) && k < |mail| && Replies(c.panel, mail, k, id) && !mail[k].kind.Progress?
    requires c.panel.entries[id].status != Cancelled && !c.panel.entries[id].fenced
    ensures id in Marked(c.panel, mail, |mail|)
    ensures var last := Marked(c.panel, mail, |mail|)[id];
      e == last || (!EndedBy(c.panel, mail, |mail|, id) && e == last.(mode := Connected))
    ensures Effects.Words(e, mail[k].kind, Or(mail[k].text, ""), content)
    ensures (if e.mode.Wait? then Tool(id, e.title, content) else UserSays(Note(content))) in Hand(Folded(c, mail))
    ensures e.status != Completed && !EndedBy(c.panel, mail, |mail|, id) ==>
      id in Folded(c, mail).panel.entries && Folded(c, mail).panel.entries[id].mode.Connected?
  {
    hide EndedBy, Marked, Ingested, Sort, FoldAll, Effects.Words, Replies;
    var s, d := Sort(c.panel, mail, |mail|), Ingested(c, mail);
    var j := ReplyPlaced(c.panel, mail, k, id);
    RepliesFacts(c.panel, mail, k, id);
    IngestedEntry(c, mail, id);
    Unfenced(c.panel, mail, |mail|, id);
    e, content := FoldsIn(d, s.replies, j, id);
  }

  lemma RepliesFacts(p: Panel, mail: seq<Letter>, k: nat, id: CallId)
    requires k < |mail| && Replies(p, mail, k, id)
    ensures id in p.live && id in p.entries && ReplyOf(mail[k]) == Reply(id, mail[k].kind, Or(mail[k].text, ""),
      if mail[k].status.Some? then mail[k].status.value else Completed)
  {
  }

  lemma IngestedEntry(c: Chat, mail: seq<Letter>, id: CallId)
    requires Proper(c.panel) && id in c.panel.live && id in c.panel.entries
    ensures var q := Ingested(c, mail).panel;
      && id in Marked(c.panel, mail, |mail|) && id in q.entries && q.entries[id] == Marked(c.panel, mail, |mail|)[id]
      && (id in q.live <==> !EndedBy(c.panel, mail, |mail|, id))
  {
    LiveMeans(c.panel, mail, |mail|, id);
    hide EndedBy;
  }

  lemma FoldsIn(d: Chat, replies: seq<Reply>, j: nat, id: CallId) returns (e: Entry, content: Wording)
    requires Proper(d.panel) && j < |replies|
    requires replies[j].id == id && id in d.panel.entries && !d.panel.entries[id].fenced && !replies[j].kind.Progress?
    ensures e == d.panel.entries[id] || (id in d.panel.live && e == d.panel.entries[id].(mode := Connected))
    ensures Effects.Words(e, replies[j].kind, replies[j].text, content)
    ensures (if e.mode.Wait? then Tool(id, e.title, content) else UserSays(Note(content)))
      in Hand(FoldAll(d, replies, |replies|))
    ensures id in FoldAll(d, replies, |replies|).panel.entries
    ensures e.mode.Connected? || (e.status != Completed && id in d.panel.live) ==>
      FoldAll(d, replies, |replies|).panel.entries[id].mode.Connected?
  {
    hide FoldAll, Effects.Words;
    FoldAllPromotes(d, replies, j);
    FoldAllOnward(d, replies, j + 1, |replies|);
    FoldAllPromotesOn(d, replies, j + 1, |replies|);
    e, content := FoldsOne(d, FoldAll(d, replies, j), replies, j, id);
    hide Onward, Hand;
    OnwardHas(FoldAll(d, replies, j + 1), FoldAll(d, replies, |replies|),
              if e.mode.Wait? then Tool(id, e.title, content) else UserSays(Note(content)));
  }

  lemma {:induction false} FoldAllPromotesOn(c: Chat, replies: seq<Reply>, j: nat, n: nat)
    requires j <= n <= |replies| && Proper(c.panel)
    ensures OnlyPromotes(FoldAll(c, replies, j).panel, FoldAll(c, replies, n).panel)
    decreases n
  {
    hide Fold, OnlyPromotes;
    if j == n {
      OnlyPromotesRefl(FoldAll(c, replies, n).panel);
    } else {
      FoldAllPromotesOn(c, replies, j, n - 1);
      var b, r := FoldAll(c, replies, n - 1), replies[n - 1];
      if r.id in b.panel.entries {
        FoldPromotes(b, r);
        OnlyPromotesTrans(FoldAll(c, replies, j).panel, b.panel, FoldAll(c, replies, n).panel);
      }
    }
  }

  /** Matching fences only cancelled work. */
  lemma {:induction false} Unfenced(p: Panel, mail: seq<Letter>, n: nat, id: CallId)
    requires n <= |mail| && id in p.live && id in p.entries
    requires p.entries[id].status != Cancelled && !p.entries[id].fenced
    ensures id in Marked(p, mail, n) && !Marked(p, mail, n)[id].fenced
  {
    StatusTold(p, mail, n, id);
    if EndedBy(p, mail, n, id) {
      var k := FirstEnd(p, mail, n, id);
    }
    hide Marked;
  }

  lemma {:induction false} FirstEnd(p: Panel, mail: seq<Letter>, n: nat, id: CallId) returns (k: nat)
    requires n <= |mail| && EndedBy(p, mail, n, id)
    ensures k < n && EndsIt(p, mail[k], id) && !EndedBy(p, mail, k, id)
    decreases n
  {
    EndedNext(p, mail, n, id);
    if EndedBy(p, mail, n - 1, id) {
      k := FirstEnd(p, mail, n - 1, id);
    } else {
      k := n - 1;
    }
  }

  lemma FoldsOne(d: Chat, b: Chat, replies: seq<Reply>, j: nat, id: CallId) returns (e: Entry, content: Wording)
    requires Proper(d.panel) && j < |replies| && b == FoldAll(d, replies, j) && OnlyPromotes(d.panel, b.panel)
    requires replies[j].id == id && id in d.panel.entries && !d.panel.entries[id].fenced && !replies[j].kind.Progress?
    ensures e == d.panel.entries[id] || (id in d.panel.live && e == d.panel.entries[id].(mode := Connected))
    ensures Effects.Words(e, replies[j].kind, replies[j].text, content)
    ensures (if e.mode.Wait? then Tool(id, e.title, content) else UserSays(Note(content)))
      in Hand(FoldAll(d, replies, j + 1))
    ensures id in FoldAll(d, replies, j + 1).panel.entries
    ensures e.mode.Connected? || (e.status != Completed && id in d.panel.live) ==>
      FoldAll(d, replies, j + 1).panel.entries[id].mode.Connected?
  {
    e := b.panel.entries[id];
    Effects.FoldTells(b, replies[j]);
    content :| Effects.Words(e, replies[j].kind, replies[j].text, content)
      && (e.mode.Connected? ==> Effects.Notes(b, Fold(b, replies[j]), content))
      && (e.mode.Wait? ==> Effects.Answers(b, Fold(b, replies[j]), id, content));
    hide Fold, Effects.Words;
    assert FoldAll(d, replies, j + 1) == Fold(b, replies[j]);
  }

  /** Heard mail adds to what folding left in hand, and the model is shown it. */
  lemma FoldedShown(c: Chat, mail: seq<Letter>, agent: Agent, env: Env, m: Message)
    requires Proper(c.panel) && Usable(agent) && Resume(c, mail, agent, env).Ok? && m in Hand(Folded(c, mail))
    ensures var p := Resume(c, mail, agent, env).value;
      m in Hand(p.chat) && (p.shown.Some? ==> m in p.shown.value)
  {
    Resumes(c, mail, agent, env);
    var others := Sort(c.panel, mail, |mail|).others;
    HearAllOnward(Folded(c, mail), others, 0, |others|);
    hide Resume, HearAll, Folded, Sort, Usable, Proposes, Proper;
    OnwardHas(Folded(c, mail), HeardMail(c, mail).value.chat, m);
    StaysInHand(HeardMail(c, mail).value, Resume(c, mail, agent, env).value, agent, env, m);
  }

  /** The result of delegated work, in the agent's hand after the activation that got it and in the transcript the
      model is shown if it is called: the text itself, as the answer of the call held open for it, when the work
      completed; the text with the work's name and status when it ended otherwise, and in a note when no call is held.
      */
  lemma ResultTold(c: Chat, mail: seq<Letter>, agent: Agent, env: Env, k: nat, id: CallId)
    requires Proper(c.panel) && Usable(agent) && Resume(c, mail, agent, env).Ok?
    requires k < |mail| && EndsIt(c.panel, mail[k], id) && !EndedBy(c.panel, mail, k, id)
    requires c.panel.entries[id].status != Cancelled && !c.panel.entries[id].fenced
    ensures var p, e, text := Resume(c, mail, agent, env).value, c.panel.entries[id], Or(mail[k].text, "");
      var status := if mail[k].status.Some? then mail[k].status.value else Completed;
      var m := if e.mode.Connected? then UserSays(Note(Ended(e.to, status, text)))
               else if status == Completed then Tool(id, e.title, Verbatim(text))
               else Tool(id, e.title, Ended(e.to, status, text));
      m in Hand(p.chat) && (p.shown.Some? ==> m in p.shown.value)
  {
    EndedBefore(c.panel, mail, k, id);
    StatusTold(c.panel, mail, |mail|, id);
    hide EndedBy, Marked, Resume, Folded;
    var e, content := Folds(c, mail, k, id);
    FoldedShown(c, mail, agent, env, if e.mode.Wait? then Tool(id, e.title, content) else UserSays(Note(content)));
  }

  lemma EndedBefore(p: Panel, mail: seq<Letter>, k: nat, id: CallId)
    requires k < |mail| && EndsIt(p, mail[k], id)
    ensures EndedBy(p, mail, |mail|, id) && (!EndedBy(p, mail, k, id) ==> Replies(p, mail, k, id))
  {
  }

  /** A batch that ends the work a call is held open for adds exactly one answer to that call; if it asked something
      before, it adds more than one. */
  lemma AnsweredOnce(c: Chat, mail: seq<Letter>, id: CallId)
    requires Steady(c) && id in c.panel.live && id in c.panel.entries && c.panel.entries[id].mode.Wait?
    requires EndedBy(c.panel, mail, |mail|, id)
    ensures var before, after := ToolIds(c.deferred)[id], ToolIds(Folded(c, mail).deferred)[id];
      && (!AskedBy(c.panel, mail, |mail|, id) ==> after == before + 1)
      && (AskedBy(c.panel, mail, |mail|, id) ==> after > before + 1)
  {
    InDoubled(c.panel, mail, id);
    EndedCloses(c, mail, id);
    FoldedKeeps(c, mail);
    hide Doubled, Folded, EndedBy, AskedBy, ToolIds;
    var d := Folded(c, mail);
    assert Held(d)[id] == Held(c)[id] + Doubled(c.panel, mail)[id];
  }

  lemma EndedCloses(c: Chat, mail: seq<Letter>, id: CallId)
    requires Proper(c.panel) && id in c.panel.live && id in c.panel.entries && EndedBy(c.panel, mail, |mail|, id)
    ensures Proper(Folded(c, mail).panel) && id !in Folded(c, mail).panel.live
  {
    hide EndedBy;
    IngestedEntry(c, mail, id);
    var s := Sort(c.panel, mail, |mail|);
    FoldAllPromotes(Ingested(c, mail), s.replies, |s.replies|);
  }

  /** A question of delegated work reaches the model as the answer of the call held open for it, or in a note when the
      call is not held, or not any more; and it ends the wait, unless the work has ended too. */
  lemma QuestionTold(c: Chat, mail: seq<Letter>, agent: Agent, env: Env, k: nat, id: CallId)
    requires Proper(c.panel) && Usable(agent) && Resume(c, mail, agent, env).Ok?
    requires k < |mail| && AskedAt(c.panel, mail, k, id)
    requires c.panel.entries[id].status != Cancelled && !c.panel.entries[id].fenced
    ensures var p, e, text := Resume(c, mail, agent, env).value, c.panel.entries[id], Or(mail[k].text, "");
      var answer, note := Tool(id, e.title, Asks(e.to, text)), UserSays(Note(Asks(e.to, text)));
      || (e.mode.Wait? && answer in Hand(p.chat) && (p.shown.Some? ==> answer in p.shown.value))
      || (note in Hand(p.chat) && (p.shown.Some? ==> note in p.shown.value))
    ensures !EndedBy(c.panel, mail, |mail|, id) ==>
      id in Folded(c, mail).panel.entries && Folded(c, mail).panel.entries[id].mode.Connected?
  {
    assert Replies(c.panel, mail, k, id);
    StatusTold(c.panel, mail, |mail|, id);
    if EndedBy(c.panel, mail, |mail|, id) {
      var last := FirstEnd(c.panel, mail, |mail|, id);
    }
    hide EndedBy, Marked, Resume, Folded;
    var e, content := Folds(c, mail, k, id);
    FoldedShown(c, mail, agent, env, if e.mode.Wait? then Tool(id, e.title, content) else UserSays(Note(content)));
  }

  /** What comes of cancelled work is dropped: its replies are folded in without a trace. */
  lemma LateIsDropped(c: Chat, mail: seq<Letter>, j: nat)
    requires Proper(c.panel) && j < |Sort(c.panel, mail, |mail|).replies|
    requires var id := Sort(c.panel, mail, |mail|).replies[j].id;
      id in c.panel.entries && (c.panel.entries[id].status == Cancelled || c.panel.entries[id].fenced)
    ensures var replies, d := Sort(c.panel, mail, |mail|).replies, Ingested(c, mail);
      FoldAll(d, replies, j + 1) == FoldAll(d, replies, j)
  {
    var s, d := Sort(c.panel, mail, |mail|), Ingested(c, mail);
    FencedByReply(c.panel.entries, s.replies, |s.replies|, j);
    FoldAllPromotes(d, s.replies, j);
    var b := FoldAll(d, s.replies, j);
    hide Sort, Ingested;
    Effects.FoldTells(b, s.replies[j]);
    hide Fold;
  }

  lemma {:induction false} FencedByReply(entries: map<CallId, Entry>, replies: seq<Reply>, n: nat, j: nat)
    requires j < |replies| && n <= |replies| && replies[j].id in entries
    requires entries[replies[j].id].status == Cancelled || entries[replies[j].id].fenced
    ensures replies[j].id in MarkAll(entries, replies, n)
    ensures var e := MarkAll(entries, replies, n)[replies[j].id];
      (e.status == Cancelled || e.fenced) && (j < n ==> e.fenced)
    decreases n
  {
    if n == 0 {
    } else {
      FencedByReply(entries, replies, n - 1, j);
    }
  }

  // ---- Failed work -----------------------------------------------------------

  /** News that a provider failed. */
  predicate Fails(letter: Letter, work: Id) {
    letter.kind.System? && letter.source != "timer" && letter.failed == Some(work) && work != ""
  }

  /** The exchange is pending as it was, or it has been promoted. */
  predicate StillOpen(c: Chat, d: Chat, id: CallId) {
    && id in c.panel.live && id in c.panel.entries && id in d.panel.live && id in d.panel.entries
    && (d.panel.entries[id] == c.panel.entries[id] || d.panel.entries[id] == c.panel.entries[id].(mode := Connected))
  }

  lemma HearLeavesOpen(c: Chat, letter: Letter, id: CallId)
    requires Proper(c.panel) && Hear(c, letter).Ok? && id in c.panel.live && id in c.panel.entries
    requires !Fails(letter, c.panel.entries[id].to)
    ensures StillOpen(c, Hear(c, letter).value.chat, id)
  {
    Effects.Hears(c, letter);
    if letter.kind.System? && letter.failed.Some? {
      Effects.FailTells(c, letter.failed.value);
    }
    hide Hear, FailWork;
  }

  lemma {:induction false} HearAllLeavesOpen(c: Chat, others: seq<Letter>, n: nat, id: CallId)
    requires n <= |others| && Proper(c.panel) && HearAll(c, others, n).Ok?
    requires id in c.panel.live && id in c.panel.entries
    requires forall i | 0 <= i < n :: !Fails(others[i], c.panel.entries[id].to)
    ensures StillOpen(c, HearAll(c, others, n).value.chat, id)
    decreases n
  {
    hide Hear;
    if n == 0 {
    } else {
      HearAllLeavesOpen(c, others, n - 1, id);
      var b := HearAll(c, others, n - 1).value;
      if !b.cancelled {
        HearLeavesOpen(b.chat, others[n - 1], id);
      }
    }
  }

  /** Mail that is no reply is heard, behind what came before it. */
  lemma OtherPlaced(p: Panel, mail: seq<Letter>, k: nat, work: Id) returns (j: nat)
    requires k < |mail| && Fails(mail[k], work) && forall i | 0 <= i < k :: !Fails(mail[i], work)
    ensures var others := Sort(p, mail, |mail|).others;
      j < |others| && others[j] == mail[k] && forall i | 0 <= i < j :: !Fails(others[i], work)
  {
    j := |Sort(p, mail, k).others|;
    assert Sort(p, mail, k + 1).others == Sort(p, mail, k).others + [mail[k]];
    OthersGrow(p, mail, k + 1, |mail|);
    OthersAmong(p, mail, k);
    var others := Sort(p, mail, |mail|).others;
    forall i | 0 <= i < j ensures !Fails(others[i], work) {
      assert others[i] == Sort(p, mail, k).others[i] && others[i] in Sort(p, mail, k).others;
    }
  }

  lemma {:induction false} OthersGrow(p: Panel, mail: seq<Letter>, k: nat, n: nat)
    requires k <= n <= |mail|
    ensures Sort(p, mail, k).others <= Sort(p, mail, n).others
    decreases n
  {
    if k < n {
      OthersGrow(p, mail, k, n - 1);
    }
  }

  lemma {:induction false} OthersAmong(p: Panel, mail: seq<Letter>, n: nat)
    requires n <= |mail|
    ensures forall x | x in Sort(p, mail, n).others :: exists i | 0 <= i < n :: mail[i] == x
    decreases n
  {
    if n == 0 {
    } else {
      OthersAmong(p, mail, n - 1);
    }
  }

  lemma FailHeard(b: Chat, letter: Letter, work: Id, id: CallId)
    requires Proper(b.panel) && Fails(letter, work) && Hear(b, letter).Ok?
    requires id in b.panel.live && id in b.panel.entries && b.panel.entries[id].to == work
    requires b.panel.entries[id].status != Cancelled
    ensures (if b.panel.entries[id].mode.Wait? then Tool(id, b.panel.entries[id].title, Broken(work))
             else UserSays(Note(Broken(work)))) in Hand(Hear(b, letter).value.chat)
    ensures id !in Hear(b, letter).value.chat.panel.live
  {
    Effects.Hears(b, letter);
    Effects.FailTells(b, work);
    hide Hear, FailWork;
    var d := Hear(b, letter).value.chat;
    if b.panel.entries[id].mode.Connected? {
      var loose := set x | x in Effects.Broke(b.panel, work) && b.panel.entries[x].mode.Connected?;
      assert id in loose;
      assert d.buffered[|b.buffered|] == UserSays(Note(Broken(work)));
    }
  }

  /** The model is told of failed work once the runner reports it: as the answer of the call held open for it, or by a
      note. Nothing is told of work the agent itself cancelled. */
  lemma FailureTold(c: Chat, mail: seq<Letter>, agent: Agent, env: Env, k: nat, id: CallId)
    requires Proper(c.panel) && Usable(agent) && Resume(c, mail, agent, env).Ok?
    requires !HeardMail(c, mail).Ok? || !HeardMail(c, mail).value.cancelled
    requires id in c.panel.live && id in c.panel.entries && !EndedBy(c.panel, mail, |mail|, id)
    requires c.panel.entries[id].status != Cancelled
    requires k < |mail| && Fails(mail[k], c.panel.entries[id].to)
    requires forall i | 0 <= i < k :: !Fails(mail[i], c.panel.entries[id].to)
    ensures var p, e := Resume(c, mail, agent, env).value, c.panel.entries[id];
      var answer, note := Tool(id, e.title, Broken(e.to)), UserSays(Note(Broken(e.to)));
      || (e.mode.Wait? && answer in Hand(p.chat) && (p.shown.Some? ==> answer in p.shown.value))
      || (note in Hand(p.chat) && (p.shown.Some? ==> note in p.shown.value))
  {
    hide EndedBy, Resume, Folded, Fails, Hear, HearAll, Proposes, Usable, Sort, Marked;
    var work, others := c.panel.entries[id].to, Sort(c.panel, mail, |mail|).others;
    Resumes(c, mail, agent, env);
    var d, h := Folded(c, mail), HeardMail(c, mail).value;
    OpenAfterFolding(c, mail, id);
    var j := OtherPlaced(c.panel, mail, k, work);
    HeardThere(d, others, j);
    HearAllLeavesOpen(d, others, j, id);
    var b := HearAll(d, others, j).value.chat;
    FailHeard(b, others[j], work, id);
    var m := if b.panel.entries[id].mode.Wait? then Tool(id, b.panel.entries[id].title, Broken(work))
             else UserSays(Note(Broken(work)));
    OnwardHas(HearAll(d, others, j + 1).value.chat, h.chat, m);
    StaysInHand(h, Resume(c, mail, agent, env).value, agent, env, m);
  }

  lemma HeardThere(d: Chat, others: seq<Letter>, j: nat)
    requires Proper(d.panel) && j < |others| && HearAll(d, others, |others|).Ok?
    requires !HearAll(d, others, |others|).value.cancelled
    ensures HearAll(d, others, j).Ok? && HearAll(d, others, j + 1).Ok? && !HearAll(d, others, j).value.cancelled
    ensures HearAll(d, others, j + 1) == Hear(HearAll(d, others, j).value.chat, others[j])
    ensures Onward(HearAll(d, others, j + 1).value.chat, HearAll(d, others, |others|).value.chat)
  {
    HearAllOnward(d, others, j, |others|);
    HearAllOnward(d, others, j + 1, |others|);
  }

  /** Folding leaves an exchange that has not ended pending, with its provider and title. */
  lemma OpenAfterFolding(c: Chat, mail: seq<Letter>, id: CallId)
    requires Proper(c.panel) && id in c.panel.live && id in c.panel.entries && !EndedBy(c.panel, mail, |mail|, id)
    requires c.panel.entries[id].status != Cancelled
    ensures var q := Folded(c, mail).panel;
      && id in q.live && id in q.entries && q.entries[id].to == c.panel.entries[id].to
      && q.entries[id].title == c.panel.entries[id].title && q.entries[id].status != Cancelled
      && (q.entries[id].mode.Wait? ==> c.panel.entries[id].mode.Wait?)
  {
    var s := Sort(c.panel, mail, |mail|);
    IngestedEntry(c, mail, id);
    StatusTold(c.panel, mail, |mail|, id);
    FoldAllPromotes(Ingested(c, mail), s.replies, |s.replies|);
    hide EndedBy, Marked, Ingested, Sort, FoldAll;
  }

  // ---- Lives -----------------------------------------------------------------

  /** Over any life, whatever is once in the agent's hand stays there, and is in every transcript the model is shown
      from then on. */
  lemma {:induction false} HandIsKept(c: Chat, agent: Agent, wakes: seq<Wake>, j: nat, n: nat, m: Message)
    requires j <= n <= |wakes| && Usable(agent) && Proper(c.panel) && m in Hand(Lived(c, agent, wakes, j))
    ensures m in Hand(Lived(c, agent, wakes, n))
    ensures n < |wakes| ==>
      var r := Resume(Lived(c, agent, wakes, n), wakes[n].mail, agent, wakes[n].env);
      r.Ok? && r.value.shown.Some? ==> m in r.value.shown.value
    decreases n
  {
    hide Resume, Usable, Hand;
    if j < n {
      HandIsKept(c, agent, wakes, j, n - 1, m);
      var before, w := Lived(c, agent, wakes, n - 1), wakes[n - 1];
      if Resume(before, w.mail, agent, w.env).Ok? {
        HandShown(before, w.mail, agent, w.env, m);
      }
    }
    if n < |wakes| {
      var now, w := Lived(c, agent, wakes, n), wakes[n];
      if Resume(now, w.mail, agent, w.env).Ok? {
        HandShown(now, w.mail, agent, w.env, m);
      }
    }
  }

  lemma HandShown(c: Chat, mail: seq<Letter>, agent: Agent, env: Env, m: Message)
    requires Proper(c.panel) && Usable(agent) && Resume(c, mail, agent, env).Ok? && m in Hand(c)
    ensures var p := Resume(c, mail, agent, env).value;
      m in Hand(p.chat) && (p.shown.Some? ==> m in p.shown.value)
  {
    var s, d := Sort(c.panel, mail, |mail|), Ingested(c, mail);
    FoldAllOnward(d, s.replies, 0, |s.replies|);
    assert Hand(d) == Hand(c) && FoldAll(d, s.replies, 0) == d;
    hide Resume, Usable, Sort, Ingested, FoldAll;
    OnwardHas(d, Folded(c, mail), m);
    FoldedShown(c, mail, agent, env, m);
  }
}
