/** No delivered message is lost, doubled or reordered on its way to the model. */
module TurnMail {
  import opened Mail
  import opened Conversation
  import opened TurnTheorems
  import opened TurnClash

  /** What a message carries of the mail: the text of a user message. */
  function SaidBy(m: Message): seq<string> {
    if m.UserSays? && m.said.Said? then [m.said.text] else []
  }

  /** The delivered texts in a list of messages, in order. */
  function SaidIn(messages: seq<Message>): seq<string> {
    if messages == [] then [] else SaidIn(messages[..|messages| - 1]) + SaidBy(messages[|messages| - 1])
  }

  /** The delivered texts an agent has in hand: the transcript, then the deferred results, then the buffer. */
  function InHand(c: Chat): seq<string> {
    SaidIn(c.messages) + SaidIn(c.deferred) + SaidIn(c.buffered)
  }

  function TextOf(letter: Letter): seq<string> {
    if (Speaks(letter.kind) || letter.kind.Request?) && letter.text.Some? then [letter.text.value] else []
  }

  /** The texts the first `n` mail items bring, in order. */
  function Texts(mail: seq<Letter>, n: nat): seq<string>
    requires n <= |mail|
  {
    if n == 0 then [] else Texts(mail, n - 1) + TextOf(mail[n - 1])
  }

  // ---- Lists -----------------------------------------------------------------

  lemma SaidPush(messages: seq<Message>, m: Message)
    ensures SaidIn(messages + [m]) == SaidIn(messages) + SaidBy(m)
  {
    assert (messages + [m])[..|messages + [m]| - 1] == messages;
  }

  lemma {:induction false} SaidConcat(a: seq<Message>, b: seq<Message>)
    ensures SaidIn(a + b) == SaidIn(a) + SaidIn(b)
    decreases |b|
  {
    if b == [] {
      Nothing(a, b);
    } else {
      var n := |b| - 1;
      hide SaidIn;
      SaidConcat(a, b[..n]);
      SplitLast(a, b);
      SaidPush(a + b[..n], b[n]);
      SaidPush(b[..n], b[n]);
      Assoc(SaidIn(a), SaidIn(b[..n]), SaidBy(b[n]));
    }
  }

  lemma Nothing(a: seq<Message>, b: seq<Message>)
    requires b == []
    ensures SaidIn(a + b) == SaidIn(a) + SaidIn(b)
  {
    assert a + b == a;
  }

  lemma Assoc(a: seq<string>, b: seq<string>, c: seq<string>)
    ensures (a + b) + c == a + (b + c)
  {
  }

  // ---- Steps that say nothing ------------------------------------------------

  /** The step moves or adds no delivered text. */
  predicate Quiet(c: Chat, d: Chat) { InHand(d) == InHand(c) }

  lemma DeferQuiet(c: Chat, d: Chat, id: CallId, content: Wording)
    requires id in c.panel.entries && d == Defer(c, id, content)
    ensures Quiet(c, d)
  {
    SaidPush(c.deferred, Tool(id, c.panel.entries[id].title, content));
    hide SaidIn;
    assert SaidIn(c.deferred) + [] == SaidIn(c.deferred);
  }

  lemma PromoteQuiet(b: Chat, id: CallId)
    requires id in b.panel.entries
    ensures Quiet(b, Defer(b.(panel := Promoted(b.panel, id)), id, StillRunning(b.panel.entries[id].to)))
  {
    var p := b.(panel := Promoted(b.panel, id));
    DeferQuiet(p, Defer(p, id, StillRunning(b.panel.entries[id].to)), id, StillRunning(b.panel.entries[id].to));
  }

  lemma {:induction false} InterruptQuiet(c: Chat, waiting: seq<CallId>, n: nat)
    requires n <= |waiting|
    ensures Quiet(c, Interrupt(c, waiting, n))
    decreases n
  {
    hide InHand, Defer;
    if n == 0 {
    } else {
      InterruptQuiet(c, waiting, n - 1);
      var b, id := Interrupt(c, waiting, n - 1), waiting[n - 1];
      if id in b.panel.entries && b.panel.entries[id].interruptible {
        PromoteQuiet(b, id);
      }
    }
  }

  lemma DeliverAdds(c: Chat, content: Content)
    requires Proper(c.panel)
    ensures InHand(Deliver(c, content)) == InHand(c) + SaidBy(UserSays(content))
  {
    InterruptQuiet(c, Waiting(c.panel), |Waiting(c.panel)|);
    var r := Interrupt(c, Waiting(c.panel), |Waiting(c.panel)|);
    SaidPush(r.buffered, UserSays(content));
    hide SaidIn, Interrupt, Waiting;
    Assoc(SaidIn(r.messages) + SaidIn(r.deferred), SaidIn(r.buffered), SaidBy(UserSays(content)));
  }

  lemma SettleQuiet(c: Chat, id: CallId, content: Wording)
    requires Proper(c.panel) && id in c.panel.entries
    ensures Quiet(c, Settle(c, id, content))
  {
    var e := c.panel.entries[id];
    if e.mode.Wait? {
      var p := if id in c.panel.live && e.status != Completed then c.(panel := Promoted(c.panel, id)) else c;
      DeferQuiet(p, Settle(c, id, content), id, content);
    } else {
      DeliverAdds(c, Note(content));
      assert InHand(c) + [] == InHand(c);
    }
  }

  lemma {:induction false} FoldAllQuiet(c: Chat, replies: seq<Reply>, n: nat)
    requires n <= |replies| && Proper(c.panel)
    ensures Quiet(c, FoldAll(c, replies, n))
    decreases n
  {
    hide Fold, InHand;
    if n == 0 {
    } else {
      FoldAllQuiet(c, replies, n - 1);
      var b, r := FoldAll(c, replies, n - 1), replies[n - 1];
      if r.id in b.panel.entries {
        FoldQuiet(b, r);
      }
    }
  }

  lemma FoldQuiet(c: Chat, r: Reply)
    requires Proper(c.panel) && r.id in c.panel.entries
    ensures Quiet(c, Fold(c, r))
  {
    hide Settle, InHand;
    var e := c.panel.entries[r.id];
    SettleQuiet(c, r.id, if r.kind.Ask? then Asks(e.to, r.text) else Outcome(e, r.text));
  }

  lemma {:induction false} SettleFailedQuiet(c: Chat, ids: seq<CallId>, n: nat)
    requires n <= |ids| && Proper(c.panel)
    ensures Quiet(c, SettleFailed(c, ids, n))
    decreases n
  {
    hide Settle, InHand;
    if n == 0 {
    } else {
      SettleFailedQuiet(c, ids, n - 1);
      var b, id := SettleFailed(c, ids, n - 1), ids[n - 1];
      if id in b.panel.entries {
        SettleQuiet(b, id, Broken(b.panel.entries[id].to));
      }
    }
  }

  lemma {:induction false} PromoteAllQuiet(c: Chat, ids: seq<CallId>, n: nat)
    requires n <= |ids|
    ensures Quiet(c, PromoteAll(c, ids, n))
    decreases n
  {
    hide InHand, Defer;
    if n == 0 {
    } else {
      PromoteAllQuiet(c, ids, n - 1);
      var b, id := PromoteAll(c, ids, n - 1), ids[n - 1];
      if id in b.panel.entries {
        PromoteQuiet(b, id);
      }
    }
  }

  // ---- Mail ------------------------------------------------------------------

  lemma HearAdds(c: Chat, letter: Letter)
    requires Proper(c.panel) && Hear(c, letter).Ok? && !Hear(c, letter).value.cancelled
    ensures InHand(Hear(c, letter).value.chat) == InHand(c) + TextOf(letter)
  {
    hide Deliver, FailWork, InHand;
    assert InHand(c) + [] == InHand(c);
    if Speaks(letter.kind) {
      DeliverAdds(c, Said(letter.text.value));
    } else if letter.kind.Request? {
      var d := c.(job := Some(Job(Working, letter.requestId, letter.replyTo)));
      SameHand(c, d);
      DeliverAdds(d, Said(letter.text.value));
    } else if letter.failed.Some? {
      FailQuiet(c, letter.failed.value);
    }
  }

  lemma SameHand(c: Chat, d: Chat)
    requires d.messages == c.messages && d.deferred == c.deferred && d.buffered == c.buffered
    ensures Quiet(c, d)
  {
  }

  lemma FailQuiet(c: Chat, work: Id)
    requires Proper(c.panel)
    ensures Quiet(c, FailWork(c, work))
  {
    var ids := WorkOf(c.panel, work, |c.panel.live|);
    CloseProper(c.panel, ids, |ids|);
    var d, failed := c.(panel := Close(c.panel, ids, |ids|)), NewlyFailed(c.panel, ids, |ids|);
    SameHand(c, d);
    SettleFailedQuiet(d, failed, |failed|);
  }

  /** The rest of the mail is heard in order; a cancel stops it there. */
  lemma {:induction false} HearAllAdds(c: Chat, others: seq<Letter>, n: nat) returns (k: nat)
    requires Proper(c.panel) && n <= |others| && HearAll(c, others, n).Ok?
    ensures k <= n && InHand(HearAll(c, others, n).value.chat) == InHand(c) + Texts(others, k)
    ensures !HearAll(c, others, n).value.cancelled ==> k == n
    decreases n
  {
    if n == 0 {
      k := 0;
      assert InHand(c) + [] == InHand(c);
    } else {
      k := HearAllAdds(c, others, n - 1);
      var b := HearAll(c, others, n - 1).value;
      hide InHand, Hear;
      if !b.cancelled {
        if HearAll(c, others, n).value.cancelled {
          CancelHears(b.chat, others[n - 1]);
        } else {
          HearAdds(b.chat, others[n - 1]);
          Assoc(InHand(c), Texts(others, n - 1), TextOf(others[n - 1]));
          k := n;
        }
      }
    }
  }

  lemma CancelHears(c: Chat, letter: Letter)
    requires Proper(c.panel) && Hear(c, letter).Ok? && Hear(c, letter).value.cancelled
    ensures Hear(c, letter).value.chat == c
  {
  }

  /** Replies carry no text of their own: what is left of a batch brings all its texts. */
  lemma {:induction false} SortTexts(p: Panel, mail: seq<Letter>, n: nat)
    requires n <= |mail|
    ensures Texts(Sort(p, mail, n).others, |Sort(p, mail, n).others|) == Texts(mail, n)
    decreases n
  {
    if n == 0 {
    } else {
      SortTexts(p, mail, n - 1);
      SortTextNext(p, mail, n);
    }
  }

  lemma SortTextNext(p: Panel, mail: seq<Letter>, n: nat)
    requires 0 < n <= |mail|
    requires Texts(Sort(p, mail, n - 1).others, |Sort(p, mail, n - 1).others|) == Texts(mail, n - 1)
    ensures Texts(Sort(p, mail, n).others, |Sort(p, mail, n).others|) == Texts(mail, n)
  {
    var b, s, letter := Sort(p, mail, n - 1), Sort(p, mail, n), mail[n - 1];
    assert Texts(mail, n) == Texts(mail, n - 1) + TextOf(letter);
    if Matches(p.entries, b.live, letter) {
      assert TextOf(letter) == [] && s.others == b.others;
      hide Texts, TextOf, Sort;
      assert Texts(mail, n - 1) + [] == Texts(mail, n - 1);
    } else {
      assert s.others == b.others + [letter];
      TextsPush(b.others, letter);
      hide Texts, TextOf, Sort;
    }
  }

  lemma {:induction false} TextsPrefix(a: seq<Letter>, b: seq<Letter>, n: nat)
    requires n <= |a| && n <= |b| && forall i | 0 <= i < n :: a[i] == b[i]
    ensures Texts(a, n) == Texts(b, n)
    decreases n
  {
    if n == 0 {
    } else {
      TextsPrefix(a, b, n - 1);
    }
  }

  lemma TextsPush(letters: seq<Letter>, letter: Letter)
    ensures Texts(letters + [letter], |letters| + 1) == Texts(letters, |letters|) + TextOf(letter)
  {
    TextsPrefix(letters, letters + [letter], |letters|);
  }

  // ---- The activation --------------------------------------------------------

  lemma FlushQuiet(c: Chat)
    requires Proper(c.panel)
    ensures Quiet(c, Flush(c))
    ensures Waiting(c.panel) == [] ==> InHand(Flush(c)) == SaidIn(Flush(c).messages)
  {
    SaidConcat(c.messages + c.deferred, c.buffered);
    SaidConcat(c.messages, c.deferred);
    var all := SaidIn(c.messages) + SaidIn(c.deferred) + SaidIn(c.buffered);
    assert SaidIn([]) == [];
    hide SaidIn;
    assert all + [] + [] == all;
  }

  lemma {:induction false} PromptSays(prompt: Message, messages: seq<Message>)
    requires prompt.SystemPrompt?
    ensures SaidIn([prompt] + messages) == SaidIn(messages)
  {
    SaidConcat([prompt], messages);
    assert [prompt] == [] + [prompt];
    SaidPush([], prompt);
    assert SaidIn([]) == [] && SaidIn([prompt]) == [];
    hide SaidIn;
    assert [] + SaidIn(messages) == SaidIn(messages);
  }

  lemma SayQuiet(c: Chat, call: Call, content: Wording)
    ensures Quiet(c, Say(c, call, content))
  {
    SaidPush(c.messages, Tool(call.id, call.name, content));
    hide SaidIn;
    assert SaidIn(c.messages) + [] == SaidIn(c.messages);
  }

  lemma OpenQuiet(r: Running, env: Env, call: Call, entry: Entry, task: string)
    ensures Open(r, env, call, entry, task).Ok? ==> Quiet(r.chat, Open(r, env, call, entry, task).value.chat)
  {
    hide SaidIn;
  }

  lemma DelegateQuiet(r: Running, env: Env, call: Call, pipe: Pipe, k: nat)
    requires pipe.modes != [] && call.arguments.Arguments? && Delegate(r, env, call, pipe, k).Ok?
    ensures Quiet(r.chat, Delegate(r, env, call, pipe, k).value.chat)
  {
    hide InHand, Open, Say;
    var mode := ChosenMode(pipe, call.arguments.background);
    var until := if mode.Wait? && pipe.budget != 0 then Some(env.clock(k) + pipe.budget) else None;
    var to := env.session + ":" + call.id.text;
    var entry := Entry(to, call.name, mode, Working, until, pipe.interruptible, false, true);
    OpenQuiet(r, env, call, entry, call.arguments.task.value);
    if mode.Connected? {
      SayQuiet(Open(r, env, call, entry, call.arguments.task.value).value.chat, call, Started(to));
    }
  }

  lemma ControlQuiet(r: Running, call: Call)
    requires Proper(r.chat.panel) && call.arguments.Arguments? && Control(r, call).Ok?
    ensures Quiet(r.chat, Control(r, call).value.chat)
  {
    var c := r.chat;
    var found := if call.arguments.work.None? then None else Find(c.panel, call.arguments.work.value, |c.panel.live|);
    if found.None? {
      SayQuiet(c, call, NoSuchWork);
    } else {
      ControlEntryQuiet(r, call, found.value);
    }
  }

  lemma ControlEntryQuiet(r: Running, call: Call, id: CallId)
    requires Proper(r.chat.panel) && call.arguments.Arguments? && Control(r, call).Ok? && call.arguments.work.Some?
    requires Find(r.chat.panel, call.arguments.work.value, |r.chat.panel.live|) == Some(id)
    requires id in r.chat.panel.entries
    ensures Quiet(r.chat, Control(r, call).value.chat)
  {
    var c, e, d := r.chat, r.chat.panel.entries[id], Control(r, call).value.chat;
    hide InHand, Find, Say;
    if !e.controllable {
      SayQuiet(c, call, Unsupported(e.to));
    } else if call.name == STEER {
      SayQuiet(c, call, Steered(e.to));
    } else if call.name == ANSWER {
      var answered := c.(panel := c.panel.(entries := c.panel.entries[id := e.(status := Working)]));
      SameHand(c, answered);
      SayQuiet(c, call, AskedNothing(e.to));
      SayQuiet(answered, call, Answered(e.to));
    } else if e.status == Cancelled {
      SayQuiet(c, call, CancelledBefore(e.to));
    } else {
      FencedQuiet(c, id);
      SayQuiet(Fenced(c, id), call, CancelSent(e.to));
    }
  }

  lemma FencedQuiet(c: Chat, id: CallId)
    requires id in c.panel.entries
    ensures Quiet(c, Fenced(c, id))
  {
    var e := c.panel.entries[id];
    var p := c.(panel := c.panel.(entries := c.panel.entries[id := e.(status := Cancelled, mode := Connected)]));
    DeferQuiet(p, Defer(p, id, CallCancelled(e.to)), id, CallCancelled(e.to));
  }

  lemma RunCallQuiet(r: Running, agent: Agent, env: Env, call: Call, k: nat)
    requires Usable(agent) && Proper(r.chat.panel) && RunCall(r, agent, env, call, k).Ok?
    ensures Quiet(r.chat, RunCall(r, agent, env, call, k).value.chat)
  {
    var c, d := r.chat, RunCall(r, agent, env, call, k).value.chat;
    hide InHand, Say, Control, Open, Granted;
    if call.name in agent.pipes {
      DelegateQuiet(r, env, call, agent.pipes[call.name], k);
    } else if Granted(agent, call.name) {
      ControlQuiet(r, call);
    } else if call.name == ASK_CALLER && Active(c) {
      var asking := c.(job := Some(c.job.value.(status := InputRequired)));
      SameHand(c, asking);
      SayQuiet(asking, call, AskedCaller);
    } else if env.outcome(k).Returned? {
      SayQuiet(c, call, Verbatim(env.outcome(k).text));
    } else {
      OpenQuiet(r, env, call,
                Entry(env.session + ":" + call.id.text, call.name, Wait, Working, None, false, false, false), "");
    }
  }

  lemma {:induction false} RunCallsQuiet(r: Running, agent: Agent, env: Env, calls: seq<Call>, n: nat)
    requires Usable(agent) && n <= |calls| && Proper(r.chat.panel) && RunCalls(r, agent, env, calls, n).Ok?
    ensures Quiet(r.chat, RunCalls(r, agent, env, calls, n).value.chat)
    decreases n
  {
    hide InHand, RunCall, Usable;
    if n == 0 {
    } else {
      RunCallsQuiet(r, agent, env, calls, n - 1);
      RunCallQuiet(RunCalls(r, agent, env, calls, n - 1).value, agent, env, calls[n - 1], n - 1);
    }
  }

  lemma SpeakQuiet(c: Chat, prompt: Option<string>, reply: Message)
    requires reply.Assistant?
    ensures Quiet(c, c.(messages := WithPrompt(c.messages, prompt) + [reply]))
    ensures SaidIn(WithPrompt(c.messages, prompt)) == SaidIn(c.messages)
  {
    if prompt.Some? {
      PromptSays(SystemPrompt(prompt.value), c.messages);
    }
    var shown := WithPrompt(c.messages, prompt);
    SaidPush(shown, reply);
    assert SaidBy(reply) == [];
    hide SaidIn, WithPrompt;
    assert SaidIn(shown) + [] == SaidIn(shown);
  }

  lemma TurnQuiet(c: Chat, agent: Agent, env: Env)
    requires Proper(c.panel) && Usable(agent) && TakeTurn(c, agent, env).Ok?
    ensures Quiet(c, TakeTurn(c, agent, env).value.chat)
    ensures var shown := TakeTurn(c, agent, env).value.shown; shown.Some? && SaidIn(shown.value) == SaidIn(c.messages)
  {
    var shown, reply := WithPrompt(c.messages, env.prompt), env.reply.value;
    SpeakQuiet(c, env.prompt, reply);
    var spoken := c.(messages := shown + [reply]);
    hide WithPrompt, SaidIn, RunCalls, Waiting, NextDeadline;
    if reply.calls != [] {
      RunCallsQuiet(Running(spoken, false, {}, []), agent, env, reply.calls, |reply.calls|);
    }
  }

  /** Over one activation the texts in hand grow by exactly the texts of its mail, in order; a cancel cuts its
      own batch short. Whatever the model is shown holds all of them, in order, and nothing else delivered. */
  lemma MessagesKept(c: Chat, mail: seq<Letter>, agent: Agent, env: Env) returns (brought: seq<string>)
    requires Proper(c.panel) && Usable(agent) && Resume(c, mail, agent, env).Ok?
    ensures var r := Resume(c, mail, agent, env).value;
      && InHand(r.chat) == InHand(c) + brought
      && brought <= Texts(mail, |mail|)
      && (!r.complete || r.shown.Some? ==> brought == Texts(mail, |mail|))
      && (r.shown.Some? ==> SaidIn(r.shown.value) == InHand(c) + brought)
  {
    var s := Sort(c.panel, mail, |mail|);
    var others := s.others;
    FoldAllQuiet(Ingested(c, mail), s.replies, |s.replies|);
    var k := HearAllAdds(Folded(c, mail), others, |others|);
    SortTexts(c.panel, mail, |mail|);
    TextsTake(others, k, |others|);
    brought := Texts(others, k);
    var h := HearAll(Folded(c, mail), others, |others|).value;
    assert InHand(Folded(c, mail)) == InHand(c);
    hide InHand, HearAll, Sort, Folded, Texts, SaidIn, Flush, PromoteAll, TakeTurn, Waiting, NextDeadline;
    if !h.cancelled {
      var due := Due(h.chat.panel, env.now, |h.chat.panel.live|);
      PromoteAllQuiet(h.chat, due, |due|);
      var promoted := PromoteDue(h.chat, env.now);
      FlushQuiet(promoted);
      var ready := Flush(promoted);
      SameHand(ready, Saved(ready));
      if !env.more && Waiting(ready.panel) == [] && Answerable(ready) {
        FlushPanel(promoted);
        TurnQuiet(ready, agent, env);
      }
    } else {
      SameHand(h.chat, Saved(h.chat.(job := Some(h.chat.job.value.(status := Cancelled)))));
    }
  }

  lemma FlushPanel(c: Chat)
    requires Proper(c.panel)
    ensures Flush(c).panel == c.panel
  {
  }

  lemma {:induction false} TextsTake(mail: seq<Letter>, k: nat, n: nat)
    requires k <= n <= |mail|
    ensures Texts(mail, k) <= Texts(mail, n)
    decreases n
  {
    if k < n {
      TextsTake(mail, k, n - 1);
    }
  }

  /** The texts that the committed ones of the first `n` activations were given, in arrival order. */
  function Delivered(c: Chat, agent: Agent, wakes: seq<Wake>, n: nat): seq<string>
    requires n <= |wakes| && Usable(agent) && Proper(c.panel)
  {
    if n == 0 then []
    else
      var w := wakes[n - 1];
      Delivered(c, agent, wakes, n - 1)
      + if Resume(Lived(c, agent, wakes, n - 1), w.mail, agent, w.env).Ok? then Texts(w.mail, |w.mail|) else []
  }

  /** None of the first `n` activations ended because the caller cancelled. */
  predicate NotCancelled(c: Chat, agent: Agent, wakes: seq<Wake>, n: nat)
    requires n <= |wakes| && Usable(agent) && Proper(c.panel)
  {
    forall k | 0 <= k < n :: NotCancelledAt(c, agent, wakes, k)
  }

  predicate NotCancelledAt(c: Chat, agent: Agent, wakes: seq<Wake>, k: nat)
    requires k < |wakes| && Usable(agent) && Proper(c.panel)
  {
    var r := Resume(Lived(c, agent, wakes, k), wakes[k].mail, agent, wakes[k].env);
    r.Ok? && r.value.complete ==> r.value.shown.Some?
  }

  lemma {:induction false} LifeKeepsMessages(c: Chat, agent: Agent, wakes: seq<Wake>, n: nat)
    requires n <= |wakes| && Usable(agent) && Proper(c.panel) && NotCancelled(c, agent, wakes, n)
    ensures InHand(Lived(c, agent, wakes, n)) == InHand(c) + Delivered(c, agent, wakes, n)
    decreases n
  {
    hide InHand, Resume, Texts;
    if n == 0 {
      assert InHand(c) + [] == InHand(c);
    } else {
      LifeKeepsMessages(c, agent, wakes, n - 1);
      var before, w := Lived(c, agent, wakes, n - 1), wakes[n - 1];
      assert NotCancelledAt(c, agent, wakes, n - 1);
      if Resume(before, w.mail, agent, w.env).Ok? {
        var brought := MessagesKept(before, w.mail, agent, w.env);
        Assoc(InHand(c), Delivered(c, agent, wakes, n - 1), brought);
      } else {
        assert Delivered(c, agent, wakes, n - 1) + [] == Delivered(c, agent, wakes, n - 1);
      }
    }
  }

  /** Whenever the model is called, it is shown exactly the texts delivered to the session so far, each once
      and in arrival order, until a cancel ends the job. */
  lemma ModelSeesEveryMessage(agent: Agent, job: Option<Job>, wakes: seq<Wake>, n: nat)
    requires n < |wakes| && Usable(agent) && NotCancelled(Fresh(job), agent, wakes, n)
    ensures var r := Resume(Lived(Fresh(job), agent, wakes, n), wakes[n].mail, agent, wakes[n].env);
      r.Ok? && r.value.shown.Some? ==> SaidIn(r.value.shown.value) == Delivered(Fresh(job), agent, wakes, n + 1)
  {
    LifeKeepsMessages(Fresh(job), agent, wakes, n);
    var c, w := Lived(Fresh(job), agent, wakes, n), wakes[n];
    assert InHand(Fresh(job)) == [];
    hide InHand, Resume, Texts;
    assert [] + Delivered(Fresh(job), agent, wakes, n) == Delivered(Fresh(job), agent, wakes, n);
    if Resume(c, w.mail, agent, w.env).Ok? {
      var brought := MessagesKept(c, w.mail, agent, w.env);
    }
  }
}
