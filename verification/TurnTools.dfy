/** What each tool call of a turn does, and what a turn proposes: mail, deadline and completion. */
module TurnTools {
  import opened Mail
  import opened Conversation
  import opened TurnAccounting
  import Effects = TurnEffects

  // ---- Delegation ------------------------------------------------------------

  /** The call's key is usable and was not used before. */
  predicate CanOpen(r: Running, env: Env, call: Call) {
    call.id.text != "" && call.id !in env.taken && call.id !in r.keys
  }

  /** A provider was spawned for the call, asked `task`, and entered in the panel behind the others. */
  predicate Opened(r: Running, s: Running, env: Env, call: Call, entry: Entry, task: string, said: seq<Message>) {
    && entry.to == env.session + ":" + call.id.text
    && s.posts == r.posts + [Post(entry.to, Kind.Request, Some(call.id), ByCall(call.id), task)]
    && s.keys == r.keys + {call.id} && s.asked == r.asked
    && s.chat == r.chat.(panel := s.chat.panel, messages := r.chat.messages + said)
    && s.chat.panel.entries == r.chat.panel.entries[call.id := entry]
    && s.chat.panel.live == if call.id in r.chat.panel.live then r.chat.panel.live else r.chat.panel.live + [call.id]
  }

  /** The mode the model asked for if the pipe has it, else the pipe's first. */
  predicate Picked(pipe: Pipe, background: Option<bool>, mode: Mode)
    requires pipe.modes != []
  {
    && mode in pipe.modes
    && (background == Some(true) && Connected in pipe.modes ==> mode == Connected)
    && (background == Some(false) && Wait in pipe.modes ==> mode == Wait)
    && (background.None? ==> mode == pipe.modes[0])
  }

  lemma PickedOnce(pipe: Pipe, background: Option<bool>, one: Mode, two: Mode)
    requires pipe.modes != [] && Picked(pipe, background, one) && Picked(pipe, background, two)
    ensures one == two
  {
    assert (one.Wait? || one.Connected?) && (two.Wait? || two.Connected?);
    if background.Some? {
      if background.value {
        assert background == Some(true);
      } else {
        assert background == Some(false);
      }
    }
  }

  /** A delegation holds the call open for at most the pipe's budget, or answers it at once that the work has started.
      */
  predicate Delegated(r: Running, s: Running, env: Env, call: Call, pipe: Pipe, k: nat)
    requires pipe.modes != [] && call.arguments.Arguments? && call.arguments.task.Some?
  {
    var to, task := env.session + ":" + call.id.text, call.arguments.task.value;
    && CanOpen(r, env, call) && call.id in s.chat.panel.entries
    && var e := s.chat.panel.entries[call.id];
    && Picked(pipe, call.arguments.background, e.mode)
    && e == Entry(to, call.name, e.mode, Working, e.until, pipe.interruptible, false, true)
    && (e.until.Some? <==> e.mode.Wait? && pipe.budget != 0)
    && (e.until.Some? ==> e.until.value == env.clock(k) + pipe.budget)
    && Opened(r, s, env, call, e, task,
              if e.mode.Wait? then [] else [Tool(call.id, call.name, Wording.Started(to))])
  }

  lemma Delegates(r: Running, env: Env, call: Call, pipe: Pipe, k: nat)
    requires pipe.modes != [] && call.arguments.Arguments?
    ensures Delegate(r, env, call, pipe, k).Ok? <==> call.arguments.task.Some? && CanOpen(r, env, call)
    ensures Delegate(r, env, call, pipe, k).Ok? ==>
      Delegated(r, Delegate(r, env, call, pipe, k).value, env, call, pipe, k)
  {
    if Delegate(r, env, call, pipe, k).Ok? {
      var s := Delegate(r, env, call, pipe, k).value;
      assert s.chat.messages == r.chat.messages + [] || s.chat.panel.entries[call.id].mode.Connected?;
    }
  }

  // ---- Controls --------------------------------------------------------------

  /** The first live entry of a provider. */
  predicate Target(p: Panel, work: Id, id: CallId)
    requires Proper(p)
  {
    exists i | 0 <= i < |p.live| ::
      p.live[i] == id && p.entries[id].to == work && forall j | 0 <= j < i :: p.entries[p.live[j]].to != work
  }

  lemma {:induction false} FindsFirst(p: Panel, work: Id, n: nat)
    requires Proper(p) && n <= |p.live|
    ensures var found := Find(p, work, n);
      && (found.Some? <==> exists j | 0 <= j < n :: p.entries[p.live[j]].to == work)
      && (found.Some? ==> Target(p, work, found.value))
    decreases n
  {
    if n == 0 {
    } else {
      FindsFirst(p, work, n - 1);
      if Find(p, work, n - 1).None? && p.entries[p.live[n - 1]].to == work {
        assert p.live[n - 1] == Find(p, work, n).value;
      }
    }
  }

  lemma FindsTarget(p: Panel, work: Id)
    requires Proper(p)
    ensures var found := Find(p, work, |p.live|);
      && (found.None? <==> forall id :: !Target(p, work, id))
      && (found.Some? ==> Target(p, work, found.value) && found.value in p.live && found.value in p.entries)
      && forall id | Target(p, work, id) :: found == Some(id)
  {
    FindsFirst(p, work, |p.live|);
  }

  /** The call is answered at once, and nothing else happens. */
  predicate Said(r: Running, s: Running, call: Call, content: Wording) {
    s == r.(chat := r.chat.(messages := r.chat.messages + [Tool(call.id, call.name, content)]))
  }

  /** The call is answered and mail goes out on the exchange. */
  predicate Sent(r: Running, s: Running, call: Call, content: Wording, kind: Kind, id: CallId, to: Id, text: string) {
    && s.posts == r.posts + [Post(to, kind, Some(id), ByCall(call.id), text)]
    && s.keys == r.keys && s.asked == r.asked && s.chat.job == r.chat.job && s.chat.buffered == r.chat.buffered
    && s.chat.messages == r.chat.messages + [Tool(call.id, call.name, content)]
    && s.chat.panel.live == r.chat.panel.live
  }

  /** What a control does: nothing to work that is unknown or takes no controls; a steer and an answer reach the
      provider, an answer only if it asked, and then it works again; a cancel fences the work and answers the call it
      held. */
  ghost predicate Controlled(r: Running, s: Running, call: Call)
    requires Proper(r.chat.panel) && call.arguments.Arguments?
  {
    var p, work := r.chat.panel, call.arguments.work;
    && ((work.None? || forall id :: !Target(p, work.value, id)) ==> Said(r, s, call, NoSuchWork))
    && forall id | work.Some? && Target(p, work.value, id) ::
      id in p.entries && ControlledEntry(r, s, call, id, p.entries[id])
  }

  predicate ControlledEntry(r: Running, s: Running, call: Call, id: CallId, e: Entry) {
    var text := call.arguments;
    if !e.controllable then Said(r, s, call, Unsupported(e.to))
    else if call.name == "steer" then
      text.Arguments? && text.text.Some? && s.chat.panel == r.chat.panel && s.chat.deferred == r.chat.deferred
      && Sent(r, s, call, Steered(e.to), Steer, id, e.to, text.text.value)
    else if call.name == "answer" then
      if e.status != InputRequired then Said(r, s, call, AskedNothing(e.to))
      else
        && text.Arguments? && text.text.Some? && s.chat.deferred == r.chat.deferred
        && s.chat.panel.entries == r.chat.panel.entries[id := e.(status := Working)]
        && Sent(r, s, call, Answered(e.to), Answer, id, e.to, text.text.value)
    else if e.status == Cancelled then Said(r, s, call, CancelledBefore(e.to))
    else
      && s.chat.panel.entries == r.chat.panel.entries[id := e.(status := Cancelled, mode := Connected)]
      && s.chat.deferred == r.chat.deferred + (if e.mode.Wait? then [Tool(id, e.title, CallCancelled(e.to))] else [])
      && Sent(r, s, call, CancelSent(e.to), Cancel, id, e.to, "")
  }

  /** A control fails only for want of its text. */
  ghost predicate NeedsText(r: Running, call: Call)
    requires Proper(r.chat.panel) && call.arguments.Arguments?
  {
    var p := r.chat.panel;
    exists id | id in p.entries && call.arguments.work.Some? && Target(p, call.arguments.work.value, id) ::
      var e := p.entries[id];
      e.controllable && (call.name == "steer" || (call.name == "answer" && e.status == InputRequired))
  }

  lemma Controls(r: Running, call: Call)
    requires Proper(r.chat.panel) && call.arguments.Arguments?
    ensures Control(r, call).Ok? <==> call.arguments.text.Some? || !NeedsText(r, call)
    ensures Control(r, call).Ok? ==> Controlled(r, Control(r, call).value, call)
  {
    if call.arguments.work.Some? {
      FindsTarget(r.chat.panel, call.arguments.work.value);
    }
    hide Target, Find;
  }

  // ---- Every call ------------------------------------------------------------

  ghost predicate IsControl(agent: Agent, name: string) {
    name in {"steer", "cancel", "answer"} && exists pipe | pipe in agent.pipes :: name in agent.pipes[pipe].grants
  }

  predicate HasJob(c: Chat) { c.job.Some? && (c.job.value.status.Working? || c.job.value.status.InputRequired?) }

  /** The caller is asked: the question goes out and the job waits for input. */
  predicate Asked(r: Running, s: Running, call: Call)
    requires HasJob(r.chat) && call.arguments.Arguments? && call.arguments.text.Some?
  {
    var job := r.chat.job.value;
    && s.asked && s.keys == r.keys
    && s.posts == r.posts + [Post(job.replyTo, Ask, Some(job.requestId), ByCall(call.id), call.arguments.text.value)]
    && s.chat == r.chat.(job := Some(job.(status := InputRequired)),
                         messages := r.chat.messages + [Tool(call.id, call.name, AskedCaller)])
  }

  /** What one tool call does: a delegation, a control, a question to the caller, or a tool, whose result answers the
      call at once or comes later from a provider. */
  ghost predicate CallDone(r: Running, s: Running, agent: Agent, env: Env, call: Call, k: nat)
    requires Proper(r.chat.panel) && Usable(agent) && call.arguments.Arguments?
  {
    if call.name in agent.pipes then
      call.arguments.task.Some? && Delegated(r, s, env, call, agent.pipes[call.name], k)
    else if IsControl(agent, call.name) then Controlled(r, s, call)
    else if call.name == "ask_caller" && HasJob(r.chat) then
      call.arguments.text.Some? && call.id.text != "" && Asked(r, s, call)
    else match env.outcome(k)
      case Returned(text) =>
        && s.chat == r.chat.(messages := r.chat.messages + [Tool(call.id, call.name, Verbatim(text))])
        && s.keys == r.keys && s.posts == r.posts && (s.asked <==> r.asked || call.name == "ask_caller")
      case Later =>
        var to := env.session + ":" + call.id.text;
        && CanOpen(r, env, call)
        && Opened(r, s, env, call, Entry(to, call.name, Wait, Working, None, false, false, false), "", [])
  }

  /** A call fails the turn only if its arguments are no JSON, lack what it needs, or its key is taken. */
  ghost predicate CallFails(r: Running, agent: Agent, env: Env, call: Call, k: nat)
    requires Proper(r.chat.panel) && Usable(agent)
  {
    || call.arguments.Malformed?
    || (call.arguments.Arguments? &&
        if call.name in agent.pipes then call.arguments.task.None? || !CanOpen(r, env, call)
        else if IsControl(agent, call.name) then call.arguments.text.None? && NeedsText(r, call)
        else if call.name == "ask_caller" && HasJob(r.chat) then call.arguments.text.None? || call.id.text == ""
        else env.outcome(k).Later? && !CanOpen(r, env, call))
  }

  lemma Calls(r: Running, agent: Agent, env: Env, call: Call, k: nat)
    requires Proper(r.chat.panel) && Usable(agent)
    ensures RunCall(r, agent, env, call, k).Err? <==> CallFails(r, agent, env, call, k)
    ensures RunCall(r, agent, env, call, k).Ok? ==>
      call.arguments.Arguments? && CallDone(r, RunCall(r, agent, env, call, k).value, agent, env, call, k)
  {
    assert Granted(agent, call.name) <==> IsControl(agent, call.name);
    if call.arguments.Arguments? {
      if call.name in agent.pipes {
        Delegates(r, env, call, agent.pipes[call.name], k);
      } else if Granted(agent, call.name) {
        Controls(r, call);
      } else {
        PlainCalls(r, agent, env, call, k);
      }
    }
    hide Granted, IsControl, Delegate, Control, NeedsText, Delegated, Controlled;
  }

  lemma PlainCalls(r: Running, agent: Agent, env: Env, call: Call, k: nat)
    requires Proper(r.chat.panel) && Usable(agent) && call.arguments.Arguments?
    requires call.name !in agent.pipes && !IsControl(agent, call.name)
    ensures RunCall(r, agent, env, call, k).Err? <==> CallFails(r, agent, env, call, k)
    ensures RunCall(r, agent, env, call, k).Ok? ==>
      CallDone(r, RunCall(r, agent, env, call, k).value, agent, env, call, k)
  {
    assert !Granted(agent, call.name);
    hide IsControl, Granted, NeedsText, Control, Controlled;
    assert r.chat.messages + [] == r.chat.messages;
  }

  // ---- The calls of a reply --------------------------------------------------

  /** The calls of a reply are done one after the other, each on what the one before left. */
  ghost predicate AllDone(states: seq<Running>, agent: Agent, env: Env, calls: seq<Call>)
    requires Usable(agent)
  {
    && |states| == |calls| + 1
    && forall k | 0 <= k < |calls| ::
      && Proper(states[k].chat.panel) && calls[k].arguments.Arguments?
      && CallDone(states[k], states[k + 1], agent, env, calls[k], k)
  }

  lemma {:induction false} RunsAll(r: Running, agent: Agent, env: Env, calls: seq<Call>, n: nat)
      returns (states: seq<Running>)
    requires n <= |calls| && Proper(r.chat.panel) && Usable(agent) && RunCalls(r, agent, env, calls, n).Ok?
    ensures states != [] && states[0] == r && states[|states| - 1] == RunCalls(r, agent, env, calls, n).value
    ensures AllDone(states, agent, env, calls[..n])
    decreases n
  {
    hide CallDone, RunCall, Usable;
    if n == 0 {
      states := [r];
    } else {
      var before := RunsAll(r, agent, env, calls, n - 1);
      var b := RunCalls(r, agent, env, calls, n - 1).value;
      Calls(b, agent, env, calls[n - 1], n - 1);
      states := before + [RunCalls(r, agent, env, calls, n).value];
      DonePush(before, states, agent, env, calls, n);
    }
  }

  lemma DonePush(before: seq<Running>, states: seq<Running>, agent: Agent, env: Env, calls: seq<Call>, n: nat)
    requires 0 < n <= |calls| && Usable(agent) && AllDone(before, agent, env, calls[..n - 1])
    requires |states| == |before| + 1 && states[..|before|] == before
    requires Proper(states[n - 1].chat.panel) && calls[n - 1].arguments.Arguments?
    requires CallDone(states[n - 1], states[n], agent, env, calls[n - 1], n - 1)
    ensures AllDone(states, agent, env, calls[..n])
  {
    hide CallDone, Usable;
    forall k | 0 <= k < n
      ensures Proper(states[k].chat.panel) && calls[..n][k].arguments.Arguments?
      ensures CallDone(states[k], states[k + 1], agent, env, calls[..n][k], k)
    {
      if k < n - 1 {
        assert states[k] == before[k] && states[k + 1] == before[k + 1] && calls[..n][k] == calls[..n - 1][k];
      }
    }
  }

  /** A question was asked in the turn: by its tool, or by a plain tool of that name that answered. */
  predicate AsksIn(c: Chat, agent: Agent, env: Env, calls: seq<Call>) {
    exists k | 0 <= k < |calls| :: AskedBy(c, agent, env, calls[k], k)
  }

  predicate AskedBy(c: Chat, agent: Agent, env: Env, call: Call, k: nat) {
    call.name == "ask_caller" && "ask_caller" !in agent.pipes && (HasJob(c) || env.outcome(k).Returned?)
  }

  lemma AskedOrNot(r: Running, s: Running, agent: Agent, env: Env, call: Call, k: nat)
    requires Proper(r.chat.panel) && Usable(agent) && call.arguments.Arguments? && CallDone(r, s, agent, env, call, k)
    ensures HasJob(s.chat) <==> HasJob(r.chat)
    ensures s.asked <==> r.asked || AskedBy(r.chat, agent, env, call, k)
  {
    if call.name !in agent.pipes && IsControl(agent, call.name) {
      ControlAsksNothing(r, s, call);
    }
  }

  lemma ControlAsksNothing(r: Running, s: Running, call: Call)
    requires Proper(r.chat.panel) && call.arguments.Arguments? && Controlled(r, s, call)
    ensures s.asked == r.asked && s.chat.job == r.chat.job
  {
    if call.arguments.work.Some? {
      FindsTarget(r.chat.panel, call.arguments.work.value);
      var found := Find(r.chat.panel, call.arguments.work.value, |r.chat.panel.live|);
      if found.Some? {
        assert ControlledEntry(r, s, call, found.value, r.chat.panel.entries[found.value]);
      }
    }
  }

  lemma {:induction false} AskedExactly(r: Running, agent: Agent, env: Env, calls: seq<Call>, n: nat)
    requires n <= |calls| && Proper(r.chat.panel) && Usable(agent) && RunCalls(r, agent, env, calls, n).Ok?
    ensures var s := RunCalls(r, agent, env, calls, n).value;
      && (HasJob(s.chat) <==> HasJob(r.chat))
      && (s.asked <==> r.asked || AsksIn(r.chat, agent, env, calls[..n]))
    decreases n
  {
    hide CallDone, RunCall, Usable, HasJob;
    if n == 0 {
    } else {
      AskedExactly(r, agent, env, calls, n - 1);
      var b := RunCalls(r, agent, env, calls, n - 1).value;
      Calls(b, agent, env, calls[n - 1], n - 1);
      AskedOrNot(b, RunCalls(r, agent, env, calls, n).value, agent, env, calls[n - 1], n - 1);
      AsksNext(r.chat, agent, env, calls, n);
    }
  }

  lemma AsksNext(c: Chat, agent: Agent, env: Env, calls: seq<Call>, n: nat)
    requires 0 < n <= |calls|
    ensures AsksIn(c, agent, env, calls[..n]) <==>
      AsksIn(c, agent, env, calls[..n - 1]) || AskedBy(c, agent, env, calls[n - 1], n - 1)
  {
    assert forall k | 0 <= k < n - 1 :: calls[..n][k] == calls[..n - 1][k];
    assert calls[..n][n - 1] == calls[n - 1];
    if AsksIn(c, agent, env, calls[..n - 1]) {
      var k :| 0 <= k < n - 1 && AskedBy(c, agent, env, calls[..n - 1][k], k);
      assert AskedBy(c, agent, env, calls[..n][k], k);
    }
  }

  // ---- What a turn proposes --------------------------------------------------

  /** The transcript the model is called with: the system prompt is put first, once. */
  predicate Prompted(messages: seq<Message>, prompt: Option<string>, shown: seq<Message>) {
    if prompt.Some? && (messages == [] || !messages[0].SystemPrompt?)
    then shown == [SystemPrompt(prompt.value)] + messages
    else shown == messages
  }

  /** What is saved: closed entries are gone. */
  ghost predicate SavedAs(c: Chat, saved: Chat) {
    && saved == c.(panel := saved.panel) && saved.panel.live == c.panel.live
    && (forall id :: id in saved.panel.entries <==> id in c.panel.live)
    && (forall id | id in c.panel.live :: id in c.panel.entries && saved.panel.entries[id] == c.panel.entries[id])
  }

  /** The final answer: to the caller, if there is a job, which ends with it; else to the output address, if there is
      one. */
  predicate FinalAnswer(c: Chat, p: Proposed, agent: Agent, reply: Message, shown: seq<Message>)
    requires reply.Assistant?
  {
    && p.deadline.None? && p.chat.messages == shown + [reply]
    && p.chat.deferred == c.deferred && p.chat.buffered == c.buffered
    && (p.complete <==> HasJob(c))
    && (HasJob(c) ==>
          && p.chat.job == Some(c.job.value.(status := Completed))
          && p.posts == [Post(c.job.value.replyTo, ResultMail, Some(c.job.value.requestId), ForResult, reply.text)])
    && (!HasJob(c) ==>
          && p.chat.job == c.job
          && p.posts == if agent.output.None? then []
                        else [Post(agent.output.value, Kind.Message, None, ByLength(|shown| + 1), reply.text)])
  }

  /** The tool calls are run, and the next activation comes at the first budget of a call held open; when none is
      held, at once, unless the caller was asked. */
  ghost predicate Called(c: Chat, p: Proposed, agent: Agent, env: Env, reply: Message, shown: seq<Message>)
    requires reply.Assistant? && Usable(agent) && Proper(c.panel)
  {
    exists states: seq<Running> | AllDone(states, agent, env, reply.calls) ::
      && states[0] == TurnStart(c, shown, reply)
      && var last := states[|states| - 1];
      && p.posts == last.posts && !p.complete && SavedAs(last.chat, p.chat) && Proper(last.chat.panel)
      && (WaitSet(last.chat.panel) != {} ==> Effects.Earliest(last.chat.panel, last.chat.panel.live, p.deadline))
      && (WaitSet(last.chat.panel) == {} ==>
            p.deadline == if AsksIn(c, agent, env, reply.calls) then None else Some(0))
  }

  function TurnStart(c: Chat, shown: seq<Message>, reply: Message): Running {
    Running(c.(messages := shown + [reply]), false, {}, [])
  }

  lemma SavesLive(c: Chat)
    requires Proper(c.panel)
    ensures SavedAs(c, Saved(c))
  {
  }

  lemma TakesTurn(c: Chat, agent: Agent, env: Env)
    requires Proper(c.panel) && Usable(agent) && TakeTurn(c, agent, env).Ok?
    ensures var p := TakeTurn(c, agent, env).value;
      && env.reply.Some? && env.reply.value.Assistant? && p.shown.Some?
      && Prompted(c.messages, env.prompt, p.shown.value)
      && (if env.reply.value.calls == [] then FinalAnswer(c, p, agent, env.reply.value, p.shown.value)
          else Called(c, p, agent, env, env.reply.value, p.shown.value))
  {
    var shown, reply := WithPrompt(c.messages, env.prompt), env.reply.value;
    var spoken := c.(messages := shown + [reply]);
    assert Active(c) <==> HasJob(c);
    if reply.calls == [] {
      hide RunCalls, Waiting, NextDeadline, WithPrompt;
      SavesLive(spoken);
    } else {
      TurnCalls(c, agent, env, shown, reply);
    }
  }

  lemma TurnCalls(c: Chat, agent: Agent, env: Env, shown: seq<Message>, reply: Message)
    requires Proper(c.panel) && Usable(agent) && reply.Assistant? && reply.calls != []
    requires RunCalls(TurnStart(c, shown, reply), agent, env, reply.calls, |reply.calls|).Ok?
    ensures var ran := RunCalls(TurnStart(c, shown, reply), agent, env, reply.calls, |reply.calls|).value;
      var deadline := if Waiting(ran.chat.panel) != [] then NextDeadline(ran.chat.panel, |ran.chat.panel.live|)
                      else if ran.asked then None else Some(NOW);
      Called(c, Proposed(Saved(ran.chat), deadline, false, Some(shown), ran.posts), agent, env, reply, shown)
  {
    hide RunCalls, Waiting, NextDeadline, AllDone, AsksIn, Usable, Saved, SavedAs;
    var start, n := TurnStart(c, shown, reply), |reply.calls|;
    var states := RunsAll(start, agent, env, reply.calls, n);
    AskedExactly(start, agent, env, reply.calls, n);
    assert reply.calls[..n] == reply.calls;
    SameJob(c, shown + [reply], agent, env, reply.calls);
    var after := states[|states| - 1].chat;
    SavesLive(after);
    NoneWaiting(after.panel);
    Effects.DeadlineIsFirst(after.panel, |after.panel.live|);
    assert after.panel.live[..|after.panel.live|] == after.panel.live;
  }

  lemma SameJob(c: Chat, messages: seq<Message>, agent: Agent, env: Env, calls: seq<Call>)
    ensures AsksIn(c.(messages := messages), agent, env, calls) <==> AsksIn(c, agent, env, calls)
  {
  }
}
