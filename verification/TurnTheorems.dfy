/** What an agent's transcript and its messages look like over whole runs of activations. */
module TurnTheorems {
  import opened Mail
  import opened Conversation
  import opened TurnAccounting
  import opened TurnSafety

  lemma SplitLast(a: seq<Message>, b: seq<Message>)
    requires b != []
    ensures a + b == (a + b[..|b| - 1]) + [b[|b| - 1]]
    ensures b == b[..|b| - 1] + [b[|b| - 1]]
  {
  }

  lemma Regrouped(a: seq<Message>, b: seq<Message>, c: seq<Message>)
    ensures a + (b + c) == (a + b) + c
  {
  }

  // ---- Reading on ------------------------------------------------------------

  lemma ScanPush(messages: seq<Message>, m: Message)
    ensures Scan(messages + [m]) == if Scan(messages).None? then None else Read(Scan(messages).value, m)
  {
    assert (messages + [m])[..|messages + [m]| - 1] == messages;
  }

  function Answering(open: multiset<CallId>, ids: multiset<CallId>): Option<multiset<CallId>> {
    if ids <= open then Some(open - ids) else None
  }

  /** Tool messages answer the open calls, if they answer no call that is not open. */
  lemma {:induction false} ScanTools(messages: seq<Message>, open: multiset<CallId>, tools: seq<Message>)
    requires Scan(messages) == Some(open) && AllTools(tools)
    ensures Scan(messages + tools) == Answering(open, ToolIds(tools))
    decreases |tools|
  {
    if tools == [] {
      assert messages + tools == messages;
      assert ToolIds(tools) == multiset{} && open - multiset{} == open;
    } else {
      var n := |tools| - 1;
      hide Scan, ToolIds, Answering;
      ScanTools(messages, open, tools[..n]);
      SplitLast([], tools);
      ScanToolNext(messages, open, tools[..n], tools[n]);
    }
  }

  lemma ScanToolNext(messages: seq<Message>, open: multiset<CallId>, tools: seq<Message>, t: Message)
    requires t.Tool? && Scan(messages + tools) == Answering(open, ToolIds(tools))
    ensures Scan(messages + (tools + [t])) == Answering(open, ToolIds(tools + [t]))
  {
    ToolIdsPush(tools, t);
    ScanPush(messages + tools, t);
    Regrouped(messages, tools, [t]);
    hide ToolIds, Scan;
    OneMore(open, ToolIds(tools), t.callId);
  }

  lemma OneMore(open: multiset<CallId>, answered: multiset<CallId>, id: CallId)
    ensures answered + multiset{id} <= open <==> answered <= open && id in open - answered
    ensures answered + multiset{id} <= open ==> open - answered - multiset{id} == open - (answered + multiset{id})
  {
    if answered <= open && id in open - answered {
      forall x ensures (answered + multiset{id})[x] <= open[x] {
      }
    }
    if answered + multiset{id} <= open {
      assert (answered + multiset{id})[id] <= open[id];
      forall x ensures answered[x] <= open[x] {
        assert answered[x] <= (answered + multiset{id})[x];
      }
    }
  }

  lemma {:induction false} ScanUsers(messages: seq<Message>, users: seq<Message>)
    requires AllUsers(users)
    ensures Scan(messages) == Some(multiset{}) ==> Scan(messages + users) == Some(multiset{})
    ensures Scan(messages).None? ==> Scan(messages + users).None?
    decreases |users|
  {
    if users == [] {
      assert messages + users == messages;
    } else {
      var n := |users| - 1;
      ScanUsers(messages, users[..n]);
      assert messages + users == (messages + users[..n]) + [users[n]];
      ScanPush(messages + users[..n], users[n]);
    }
  }

  /** The flush closes the transcript exactly when the deferred results are the open calls. */
  lemma FlushScan(c: Chat, open: multiset<CallId>, owed: multiset<CallId>)
    requires Steady(c) && WaitSet(c.panel) == {} && Scan(c.messages) == Some(open) && ToolIds(c.deferred) == open + owed
    ensures Scan(Flush(c).messages) == if owed == multiset{} then Some(multiset{}) else None
  {
    NoneWaiting(c.panel);
    ScanTools(c.messages, open, c.deferred);
    ScanUsers(c.messages + c.deferred, c.buffered);
    if owed == multiset{} {
      assert open + owed == open && open - open == multiset{};
    } else {
      var x :| x in owed;
      assert (open + owed)[x] > open[x];
    }
  }

  lemma {:induction false} ScanPrompt(prompt: Message, messages: seq<Message>)
    requires prompt.SystemPrompt?
    ensures Scan([prompt] + messages) == Scan(messages)
    decreases |messages|
  {
    if messages == [] {
      assert [prompt] + messages == [prompt];
      assert [prompt][..0] == [];
    } else {
      var n := |messages| - 1;
      hide Scan;
      ScanPrompt(prompt, messages[..n]);
      ScanBoth([prompt] + messages[..n], messages[..n], messages[n]);
      SplitLast([prompt], messages);
    }
  }

  lemma ScanBoth(a: seq<Message>, b: seq<Message>, m: Message)
    requires Scan(a) == Scan(b)
    ensures Scan(a + [m]) == Scan(b + [m])
  {
    ScanPush(a, m);
    ScanPush(b, m);
  }

  // ---- Tool calls ------------------------------------------------------------

  /** The calls of a reply from the `n`th on. */
  function CallsFrom(calls: seq<Call>, n: nat): multiset<CallId>
    requires n <= |calls|
    decreases |calls| - n
  {
    if n == |calls| then multiset{} else multiset{calls[n].id} + CallsFrom(calls, n + 1)
  }

  lemma {:induction false} CallsSplit(calls: seq<Call>, n: nat)
    requires n <= |calls|
    ensures CallIds(calls) == CallIds(calls[..n]) + CallsFrom(calls, n)
    decreases |calls| - n
  {
    if n == |calls| {
      assert calls[..n] == calls;
    } else {
      CallsSplit(calls, n + 1);
      assert calls[..n + 1][..n] == calls[..n];
    }
  }

  /** Between two tool calls of a turn: the transcript is open on the calls to come and on those held. */
  predicate Midway(r: Running, rest: multiset<CallId>) {
    && Steady(r.chat)
    && Scan(r.chat.messages) == Some(Held(r.chat) + rest)
    && (forall id | id in r.chat.panel.live && r.chat.panel.entries[id].mode.Wait? :: id in r.keys)
  }

  lemma SayAnswers(r: Running, call: Call, content: Wording, rest: multiset<CallId>)
    requires Midway(r, multiset{call.id} + rest)
    ensures Midway(r.(chat := Say(r.chat, call, content)), rest)
  {
    var open := Held(r.chat) + (multiset{call.id} + rest);
    ScanPush(r.chat.messages, Tool(call.id, call.name, content));
    SameHeld(r.chat, Say(r.chat, call, content));
    assert call.id in open && open - multiset{call.id} == Held(r.chat) + rest;
  }

  /** The panel with a new entry. */
  function Added(p: Panel, id: CallId, entry: Entry): Panel {
    Panel(p.entries[id := entry], if id in p.live then p.live else p.live + [id])
  }

  lemma AddedFacts(p: Panel, id: CallId, entry: Entry)
    requires Proper(p) && WaitsRun(p) && id !in WaitSet(p) && entry.status == Working && !entry.fenced
    ensures var q := Added(p, id, entry);
      && Proper(q) && WaitsRun(q)
      && WaitSet(q) == if entry.mode.Wait? then WaitSet(p) + {id} else WaitSet(p)
  {
    var q := Added(p, id, entry);
    assert forall x :: x in q.live <==> x in p.live || x == id;
  }

  lemma OpenHolds(r: Running, env: Env, call: Call, entry: Entry, task: string, rest: multiset<CallId>)
    requires Midway(r, multiset{call.id} + rest) && Open(r, env, call, entry, task).Ok?
    requires entry.status == Working && !entry.fenced
    ensures var d := Open(r, env, call, entry, task).value;
      if entry.mode.Wait? then Midway(d, rest) else Midway(d, multiset{call.id} + rest)
  {
    var p, d := r.chat.panel, Open(r, env, call, entry, task).value;
    assert call.id !in WaitSet(p);
    assert d.chat.panel == Added(p, call.id, entry);
    AddedFacts(p, call.id, entry);
    KeysGrow(r, d, call.id, entry);
    hide WaitSet, WaitsRun, Open, Added, Proper;
    if entry.mode.Wait? {
      assert multiset(WaitSet(p) + {call.id}) == multiset(WaitSet(p)) + multiset{call.id};
      assert Held(d.chat) + rest == Held(r.chat) + (multiset{call.id} + rest);
    } else {
      assert Held(d.chat) == Held(r.chat);
    }
  }

  lemma KeysGrow(r: Running, d: Running, id: CallId, entry: Entry)
    requires Proper(r.chat.panel) && d.chat.panel == Added(r.chat.panel, id, entry) && d.keys == r.keys + {id}
    requires forall x | x in r.chat.panel.live && r.chat.panel.entries[x].mode.Wait? :: x in r.keys
    ensures Proper(d.chat.panel)
    ensures forall x | x in d.chat.panel.live && d.chat.panel.entries[x].mode.Wait? :: x in d.keys
  {
    var q := d.chat.panel;
    assert forall x :: x in q.live <==> x in r.chat.panel.live || x == id;
  }

  /** Changing one entry's status, or detaching it, as answering and cancelling do. */
  lemma EntryFacts(p: Panel, id: CallId, e: Entry)
    requires Proper(p) && WaitsRun(p) && id in p.entries
    requires e.mode.Connected?
      || (e.mode == p.entries[id].mode && e.status == Working && e.fenced == p.entries[id].fenced)
    ensures var q := p.(entries := p.entries[id := e]);
      && Proper(q) && WaitsRun(q)
      && WaitSet(q) == if e.mode.Connected? then WaitSet(p) - {id} else WaitSet(p)
  {
    var q := p.(entries := p.entries[id := e]);
    assert forall x | x in p.live :: q.entries[x] == if x == id then e else p.entries[x];
    if e.mode.Connected? {
      assert WaitSet(q) == WaitSet(p) - {id};
    } else {
      assert WaitSet(q) == WaitSet(p);
    }
  }

  lemma AnswerKeeps(r: Running, id: CallId, rest: multiset<CallId>)
    requires Midway(r, rest) && id in r.chat.panel.entries
    ensures var p := r.chat.panel;
      Midway(r.(chat := r.chat.(panel := p.(entries := p.entries[id := p.entries[id].(status := Working)]))), rest)
  {
    var p, e := r.chat.panel, r.chat.panel.entries[id].(status := Working);
    EntryFacts(p, id, e);
    var q := p.(entries := p.entries[id := e]);
    assert WaitSet(q) == WaitSet(p);
    forall x | x in q.live && q.entries[x].mode.Wait? ensures x in r.keys {
      assert x in WaitSet(q);
    }
    assert Held(r.chat.(panel := q)) == Held(r.chat);
  }

  /** The chat after cancelling the entry: a call it held open is deferred its answer. */
  function Fenced(c: Chat, id: CallId): Chat
    requires id in c.panel.entries
  {
    var p, e := c.panel, c.panel.entries[id];
    var fenced := c.(panel := p.(entries := p.entries[id := e.(status := Cancelled, mode := Connected)]));
    if e.mode.Wait? then Defer(fenced, id, CallCancelled(e.to)) else fenced
  }

  lemma FencedHeld(c: Chat, id: CallId)
    requires Steady(c) && id in c.panel.live && id in c.panel.entries
    ensures Steady(Fenced(c, id)) && Held(Fenced(c, id)) == Held(c)
    ensures WaitSet(Fenced(c, id).panel) == WaitSet(c.panel) - {id}
  {
    var p, e := c.panel, c.panel.entries[id];
    EntryFacts(p, id, e.(status := Cancelled, mode := Connected));
    if e.mode.Wait? {
      assert id in WaitSet(p);
      WithoutOne(WaitSet(p), id);
      ToolIdsPush(c.deferred, Tool(id, e.title, CallCancelled(e.to)));
    } else {
      assert WaitSet(p) - {id} == WaitSet(p);
    }
  }

  lemma CancelKeeps(r: Running, id: CallId, rest: multiset<CallId>)
    requires Midway(r, rest) && id in r.chat.panel.live && id in r.chat.panel.entries
    ensures Midway(r.(chat := Fenced(r.chat, id)), rest)
  {
    FencedHeld(r.chat, id);
    var d := Fenced(r.chat, id);
    forall x | x in d.panel.live && d.panel.entries[x].mode.Wait? ensures x in r.keys {
      assert x in WaitSet(d.panel);
    }
    hide WaitSet, Steady, Held;
    assert d.messages == r.chat.messages;
  }

  lemma ControlKeeps(r: Running, call: Call, rest: multiset<CallId>)
    requires Midway(r, multiset{call.id} + rest) && call.arguments.Arguments? && Control(r, call).Ok?
    ensures Midway(Control(r, call).value, rest)
  {
    var c := r.chat;
    var found := if call.arguments.work.None? then None else Find(c.panel, call.arguments.work.value, |c.panel.live|);
    if found.None? {
      SayAnswers(r, call, NoSuchWork, rest);
    } else {
      assert c.panel.live[..|c.panel.live|] == c.panel.live;
      ControlEntry(r, call, found.value, rest);
    }
  }

  lemma ControlEntry(r: Running, call: Call, id: CallId, rest: multiset<CallId>)
    requires Midway(r, multiset{call.id} + rest) && call.arguments.Arguments? && Control(r, call).Ok?
    requires id in r.chat.panel.live
    requires call.arguments.work.Some? && Find(r.chat.panel, call.arguments.work.value, |r.chat.panel.live|) == Some(id)
    ensures Midway(Control(r, call).value, rest)
  {
    var c, all := r.chat, multiset{call.id} + rest;
    var e, d := c.panel.entries[id], Control(r, call).value;
    hide Find, Say, Midway;
    if !e.controllable {
      SayAnswers(r, call, Unsupported(e.to), rest);
    } else if call.name == STEER {
      SayAnswers(r, call, Steered(e.to), rest);
      PostsOnly(r.(chat := Say(c, call, Steered(e.to))), d.posts, rest);
    } else if call.name == ANSWER {
      if e.status != InputRequired {
        SayAnswers(r, call, AskedNothing(e.to), rest);
      } else {
        AnswerKeeps(r, id, all);
        var answered := r.(chat := c.(panel := c.panel.(entries := c.panel.entries[id := e.(status := Working)])));
        SayAnswers(answered, call, Answered(e.to), rest);
        PostsOnly(answered.(chat := Say(answered.chat, call, Answered(e.to))), d.posts, rest);
      }
    } else if e.status == Cancelled {
      SayAnswers(r, call, CancelledBefore(e.to), rest);
    } else {
      CancelKeeps(r, id, all);
      var cancelled := r.(chat := Fenced(c, id));
      SayAnswers(cancelled, call, CancelSent(e.to), rest);
      PostsOnly(cancelled.(chat := Say(cancelled.chat, call, CancelSent(e.to))), d.posts, rest);
    }
  }

  /** Staged mail does not matter to the account. */
  lemma PostsOnly(r: Running, posts: seq<Post>, rest: multiset<CallId>)
    requires Midway(r, rest)
    ensures Midway(r.(posts := posts), rest)
  {
  }

  lemma RunCallKeeps(r: Running, agent: Agent, env: Env, call: Call, k: nat, rest: multiset<CallId>)
    requires Usable(agent) && Midway(r, multiset{call.id} + rest) && RunCall(r, agent, env, call, k).Ok?
    ensures Midway(RunCall(r, agent, env, call, k).value, rest)
  {
    var d := RunCall(r, agent, env, call, k).value;
    hide Midway, Say, Control, Open, Granted;
    if call.name in agent.pipes {
      DelegateKeeps(r, env, call, agent.pipes[call.name], k, rest);
    } else if Granted(agent, call.name) {
      ControlKeeps(r, call, rest);
    } else if call.name == ASK_CALLER && Active(r.chat) {
      var asking := r.chat.(job := Some(r.chat.job.value.(status := InputRequired)));
      JobOnly(r, asking.job, multiset{call.id} + rest);
      SayAnswers(r.(chat := asking), call, AskedCaller, rest);
      RecordOnly(r.(chat := Say(asking, call, AskedCaller)), d.asked, d.posts, rest);
    } else if env.outcome(k).Returned? {
      SayAnswers(r, call, Verbatim(env.outcome(k).text), rest);
      RecordOnly(r.(chat := Say(r.chat, call, Verbatim(env.outcome(k).text))), d.asked, d.posts, rest);
    } else {
      OpenHolds(r, env, call,
                Entry(env.session + ":" + call.id.text, call.name, Wait, Working, None, false, false, false), "", rest);
    }
  }

  lemma DelegateKeeps(r: Running, env: Env, call: Call, pipe: Pipe, k: nat, rest: multiset<CallId>)
    requires pipe.modes != [] && call.arguments.Arguments? && Delegate(r, env, call, pipe, k).Ok?
    requires Midway(r, multiset{call.id} + rest)
    ensures Midway(Delegate(r, env, call, pipe, k).value, rest)
  {
    hide Midway, Say, Open;
    var mode := ChosenMode(pipe, call.arguments.background);
    var until := if mode.Wait? && pipe.budget != 0 then Some(env.clock(k) + pipe.budget) else None;
    var to := env.session + ":" + call.id.text;
    var entry := Entry(to, call.name, mode, Working, until, pipe.interruptible, false, true);
    OpenHolds(r, env, call, entry, call.arguments.task.value, rest);
    if mode.Connected? {
      SayAnswers(Open(r, env, call, entry, call.arguments.task.value).value, call, Started(to), rest);
    }
  }

  lemma JobOnly(r: Running, job: Option<Job>, rest: multiset<CallId>)
    requires Midway(r, rest)
    ensures Midway(r.(chat := r.chat.(job := job)), rest)
  {
    SameHeld(r.chat, r.chat.(job := job));
  }

  lemma RecordOnly(r: Running, asked: bool, posts: seq<Post>, rest: multiset<CallId>)
    requires Midway(r, rest)
    ensures Midway(r.(asked := asked, posts := posts), rest)
  {
  }

  lemma {:induction false} RunCallsKeeps(r: Running, agent: Agent, env: Env, calls: seq<Call>, n: nat)
    requires Usable(agent) && n <= |calls| && Midway(r, CallsFrom(calls, 0)) && RunCalls(r, agent, env, calls, n).Ok?
    ensures Midway(RunCalls(r, agent, env, calls, n).value, CallsFrom(calls, n))
    decreases n
  {
    assert Proper(r.chat.panel);
    hide Midway, RunCall, Usable, Proper, CallsFrom;
    if n == 0 {
    } else {
      RunCallsKeeps(r, agent, env, calls, n - 1);
      NextCall(r, agent, env, calls, n);
    }
  }

  lemma NextCall(r: Running, agent: Agent, env: Env, calls: seq<Call>, n: nat)
    requires Usable(agent) && 0 < n <= |calls| && Proper(r.chat.panel) && RunCalls(r, agent, env, calls, n).Ok?
    requires RunCalls(r, agent, env, calls, n - 1).Ok?
    requires Midway(RunCalls(r, agent, env, calls, n - 1).value, CallsFrom(calls, n - 1))
    ensures Midway(RunCalls(r, agent, env, calls, n).value, CallsFrom(calls, n))
  {
    hide Midway, RunCall, Usable;
    RunCallKeeps(RunCalls(r, agent, env, calls, n - 1).value, agent, env, calls[n - 1], n - 1, CallsFrom(calls, n));
  }

  // ---- A transcript that is broken stays broken ------------------------------

  lemma {:induction false} ScanDead(messages: seq<Message>, longer: seq<Message>)
    requires messages <= longer && Scan(messages).None?
    ensures Scan(longer).None?
    decreases |longer|
  {
    if messages != longer {
      var n := |longer| - 1;
      hide Scan;
      ScanDead(messages, longer[..n]);
      ScanPush(longer[..n], longer[n]);
      SplitLast([], longer);
    }
  }

  lemma {:induction false} RunCallsAppend(r: Running, agent: Agent, env: Env, calls: seq<Call>, n: nat)
    requires Usable(agent) && n <= |calls| && Proper(r.chat.panel) && RunCalls(r, agent, env, calls, n).Ok?
    ensures r.chat.messages <= RunCalls(r, agent, env, calls, n).value.chat.messages
    decreases n
  {
    if n == 0 {
    } else {
      RunCallsAppend(r, agent, env, calls, n - 1);
      var b := RunCalls(r, agent, env, calls, n - 1).value;
      RunCallAppends(b, agent, env, calls[n - 1], n - 1);
      assert RunCalls(r, agent, env, calls, n) == RunCall(b, agent, env, calls[n - 1], n - 1);
      hide RunCall;
    }
  }

  lemma RunCallAppends(r: Running, agent: Agent, env: Env, call: Call, k: nat)
    requires Usable(agent) && Proper(r.chat.panel) && RunCall(r, agent, env, call, k).Ok?
    ensures r.chat.messages <= RunCall(r, agent, env, call, k).value.chat.messages
  {
    hide Granted, Find;
    if call.arguments.Arguments? && call.name !in agent.pipes && Granted(agent, call.name) {
      ControlAppends(r, call);
    } else {
      hide Control;
    }
  }

  lemma ControlAppends(r: Running, call: Call)
    requires Proper(r.chat.panel) && call.arguments.Arguments? && Control(r, call).Ok?
    ensures r.chat.messages <= Control(r, call).value.chat.messages
  {
    hide Find;
  }

  // ---- One activation --------------------------------------------------------

  lemma SavedFacts(c: Chat)
    requires Steady(c)
    ensures Steady(Saved(c)) && Held(Saved(c)) == Held(c) && Saved(c).messages == c.messages
  {
    assert WaitSet(Saved(c).panel) == WaitSet(c.panel);
  }

  /** What a proposal says of the account: kept exactly when nothing was answered twice. */
  predicate KeptUnless(d: Chat, doubled: multiset<CallId>) {
    Kept(d) <==> doubled == multiset{}
  }

  lemma StillOwed(c: Chat, d: Chat, doubled: multiset<CallId>)
    requires Kept(c) && Steady(d) && d.messages == c.messages && Held(d) == Held(c) + doubled
    ensures KeptUnless(Saved(d), doubled)
  {
    SavedFacts(d);
    if doubled == multiset{} {
      assert Held(c) + doubled == Held(c);
    } else {
      var x :| x in doubled;
      assert (Held(c) + doubled)[x] > Held(c)[x];
    }
  }

  lemma PromptScan(messages: seq<Message>, prompt: Option<string>)
    ensures Scan(WithPrompt(messages, prompt)) == Scan(messages)
  {
    if prompt.Some? {
      ScanPrompt(SystemPrompt(prompt.value), messages);
    }
  }

  lemma SpokenMidway(c: Chat, shown: seq<Message>, reply: Message)
    requires Steady(c) && WaitSet(c.panel) == {} && c.deferred == []
    requires Scan(shown) == Some(multiset{}) && reply.Assistant?
    ensures Midway(Running(c.(messages := shown + [reply]), false, {}, []), CallsFrom(reply.calls, 0))
  {
    var d := c.(messages := shown + [reply]);
    ScanPush(shown, reply);
    CallsSplit(reply.calls, 0);
    assert reply.calls[..0] == [] && Held(d) == multiset{};
    assert forall id | id in d.panel.live :: d.panel.entries[id].mode.Wait? <==> id in WaitSet(d.panel);
  }

  lemma TurnKeeps(c: Chat, agent: Agent, env: Env)
    requires Steady(c) && WaitSet(c.panel) == {} && c.deferred == [] && Usable(agent)
    requires Scan(c.messages) == Some(multiset{}) && TakeTurn(c, agent, env).Ok?
    ensures Kept(TakeTurn(c, agent, env).value.chat)
    ensures var shown := TakeTurn(c, agent, env).value.shown; shown.Some? && Scan(shown.value) == Some(multiset{})
  {
    var shown, reply := WithPrompt(c.messages, env.prompt), env.reply.value;
    PromptScan(c.messages, env.prompt);
    SpokenMidway(c, shown, reply);
    var spoken := c.(messages := shown + [reply]);
    hide Scan, WithPrompt, WaitSet, Held, Steady, RunCalls;
    if reply.calls != [] {
      RunCallsKeeps(Running(spoken, false, {}, []), agent, env, reply.calls, |reply.calls|);
      AfterCalls(RunCalls(Running(spoken, false, {}, []), agent, env, reply.calls, |reply.calls|).value);
    } else {
      AfterCalls(Running(spoken, false, {}, []));
      if Active(c) {
        JobSaved(spoken, Some(spoken.job.value.(status := Completed)));
      }
    }
  }

  lemma AfterCalls(r: Running)
    requires Midway(r, multiset{})
    ensures Kept(Saved(r.chat))
  {
    SavedFacts(r.chat);
    assert Held(r.chat) + multiset{} == Held(r.chat);
  }

  /** The job's status does not matter to the account. */
  lemma JobSaved(c: Chat, job: Option<Job>)
    requires Proper(c.panel) && Kept(Saved(c))
    ensures Kept(Saved(c.(job := job)))
  {
    SameHeld(Saved(c), Saved(c.(job := job)));
  }

  lemma BrokenTurn(c: Chat, agent: Agent, env: Env)
    requires Proper(c.panel) && Usable(agent) && Scan(c.messages).None? && TakeTurn(c, agent, env).Ok?
    ensures Scan(TakeTurn(c, agent, env).value.chat.messages).None?
    ensures var shown := TakeTurn(c, agent, env).value.shown; shown.Some? && Scan(shown.value).None?
  {
    var shown, reply := WithPrompt(c.messages, env.prompt), env.reply.value;
    PromptScan(c.messages, env.prompt);
    var spoken := c.(messages := shown + [reply]);
    ScanDead(shown, spoken.messages);
    hide Scan, WithPrompt;
    if reply.calls != [] {
      RunCallsAppend(Running(spoken, false, {}, []), agent, env, reply.calls, |reply.calls|);
      ScanDead(shown, TakeTurn(c, agent, env).value.chat.messages);
    }
  }

  /** The state once the mail is taken in and the budgets are checked. */
  function Heeded(c: Chat, mail: seq<Letter>, env: Env): Result<Chat>
    requires Proper(c.panel)
  {
    var others := Sort(c.panel, mail, |mail|).others;
    var heard := HearAll(Folded(c, mail), others, |others|);
    if heard.Err? then Err(heard.error)
    else if heard.value.cancelled then Ok(heard.value.chat)
    else Ok(PromoteDue(heard.value.chat, env.now))
  }

  lemma HeededKeeps(c: Chat, mail: seq<Letter>, env: Env)
    requires Kept(c) && Heeded(c, mail, env).Ok?
    ensures var d := Heeded(c, mail, env).value;
      && Steady(d) && d.messages == c.messages && Held(d) == Held(c) + Doubled(c.panel, mail)
  {
    var others := Sort(c.panel, mail, |mail|).others;
    FoldedKeeps(c, mail);
    hide Sort, Folded, Held, Steady, Doubled;
    HearAllKeeps(Folded(c, mail), others, |others|);
    var h := HearAll(Folded(c, mail), others, |others|).value;
    hide HearAll;
    if !h.cancelled {
      PromoteDueKeeps(h.chat, env.now);
      assert Held(h.chat) + multiset{} == Held(h.chat);
    }
  }

  lemma FlushFacts(c: Chat)
    requires Steady(c)
    ensures Steady(Flush(c))
    ensures WaitSet(c.panel) != {} ==> Flush(c) == c
    ensures WaitSet(c.panel) == {} ==>
      Flush(c).deferred == [] && Flush(c).panel == c.panel && Held(Flush(c)) == multiset{}
    ensures Waiting(Flush(c).panel) == [] <==> WaitSet(c.panel) == {}
  {
    NoneWaiting(c.panel);
  }

  /** After the flush: still owed as before, or closed exactly when nothing was answered twice. */
  lemma FlushedKeeps(c: Chat, d: Chat, doubled: multiset<CallId>)
    requires Kept(c) && Steady(d) && d.messages == c.messages && Held(d) == Held(c) + doubled
    ensures KeptUnless(Saved(Flush(d)), doubled)
    ensures WaitSet(d.panel) == {} ==>
      Scan(Flush(d).messages) == if doubled == multiset{} then Some(multiset{}) else None
  {
    FlushFacts(d);
    if WaitSet(d.panel) == {} {
      assert ToolIds(d.deferred) == Held(c) + doubled;
      FlushScan(d, Held(c), doubled);
      SavedFacts(Flush(d));
    } else {
      StillOwed(c, d, doubled);
    }
  }

  lemma PassiveKeeps(c: Chat, d: Chat, doubled: multiset<CallId>, job: Option<Job>)
    requires Kept(c) && Steady(d) && d.messages == c.messages && Held(d) == Held(c) + doubled
    ensures KeptUnless(Saved(d.(job := job)), doubled)
  {
    SameHeld(d, d.(job := job));
    StillOwed(c, d.(job := job), doubled);
  }

  /** Main result for one activation: it keeps the account of open calls, and shows the model a well formed
      transcript, exactly when its batch answers no call twice. */
  lemma ActivationKeeps(c: Chat, mail: seq<Letter>, agent: Agent, env: Env)
    requires Kept(c) && Usable(agent) && Resume(c, mail, agent, env).Ok?
    ensures var r := Resume(c, mail, agent, env).value;
      && KeptUnless(r.chat, Doubled(c.panel, mail))
      && (r.shown.Some? ==> (Scan(r.shown.value) == Some(multiset{}) <==> Doubled(c.panel, mail) == multiset{}))
  {
    HeededKeeps(c, mail, env);
    var d, doubled := Heeded(c, mail, env).value, Doubled(c.panel, mail);
    var others := Sort(c.panel, mail, |mail|).others;
    var h := HearAll(Folded(c, mail), others, |others|).value;
    hide Sort, Folded, Held, Steady, Doubled, HearAll, Flush, Scan, WaitSet, TakeTurn, Saved, PromoteDue;
    if h.cancelled {
      PassiveKeeps(c, d, doubled, Some(d.job.value.(status := Cancelled)));
    } else {
      FlushedKeeps(c, d, doubled);
      FlushFacts(d);
      var ready := Flush(d);
      if !env.more && Waiting(ready.panel) == [] && Answerable(ready) {
        if doubled == multiset{} {
          TurnKeeps(ready, agent, env);
        } else {
          BrokenTurn(ready, agent, env);
        }
      }
    }
  }
}
