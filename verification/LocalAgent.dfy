/** The agent's turn, step by step over the fields of its session state. */
module LocalAgentModel {
  import opened Mail
  import opened Conversation
  import opened TurnAccounting
  import opened TurnSafety

  class LocalAgent {
    var messages: seq<Message>
    var deferred: seq<Message>
    var buffered: seq<Message>
    var job: Option<Job>
    var entries: map<CallId, Entry>
    var live: seq<CallId>

    // What the running turn has staged.
    var asked: bool
    var keys: set<CallId>
    var posts: seq<Post>

    function Now(): Chat
      reads this
    {
      Chat(messages, deferred, buffered, job, Panel(entries, live))
    }

    function Turn(): Running
      reads this
    {
      Running(Now(), asked, keys, posts)
    }

    ghost predicate Valid()
      reads this
    {
      Proper(Panel(entries, live))
    }

    /** Restores the session state for one activation. */
    constructor (c: Chat)
      requires Proper(c.panel)
      ensures Now() == c && Valid()
      ensures Turn() == Running(c, false, {}, [])
    {
      messages, deferred, buffered, job := c.messages, c.deferred, c.buffered, c.job;
      entries, live := c.panel.entries, c.panel.live;
      asked, keys, posts := false, {}, [];
    }

    // ---- The panel -----------------------------------------------------------

    method WaitingIds() returns (ids: seq<CallId>)
      requires Valid()
      ensures ids == Waiting(Now().panel)
    {
      ids := [];
      for n := 0 to |live|
        invariant ids == WaitingIn(Now().panel, n)
      {
        if entries[live[n]].mode.Wait? {
          ids := ids + [live[n]];
        }
      }
    }

    method Promote(id: CallId)
      requires Valid() && id in entries
      modifies this`entries
      ensures Now() == old(Now()).(panel := Promoted(old(Now().panel), id)) && Valid()
    {
      entries := entries[id := entries[id].(mode := Connected)];
    }

    method DeferAnswer(id: CallId, content: Wording)
      requires id in entries
      modifies this`deferred
      ensures Now() == Defer(old(Now()), id, content)
    {
      deferred := deferred + [Tool(id, entries[id].title, content)];
    }

    /** Queues a message for the model; it promotes interruptible waits. */
    method DeliverMessage(content: Content)
      requires Valid()
      modifies this`entries, this`deferred, this`buffered
      ensures Now() == Deliver(old(Now()), content) && Valid()
    {
      ghost var c := Now();
      var waiting := WaitingIds();
      for n := 0 to |waiting|
        invariant Valid() && Now() == Interrupt(c, waiting, n)
      {
        var id := waiting[n];
        if id in entries && entries[id].interruptible {
          var to := entries[id].to;
          Promote(id);
          DeferAnswer(id, StillRunning(to));
        }
      }
      buffered := buffered + [UserSays(content)];
    }

    method SettleWith(id: CallId, content: Wording)
      requires Valid() && id in entries
      modifies this`entries, this`deferred, this`buffered
      ensures Now() == Settle(old(Now()), id, content) && Valid()
    {
      var e := entries[id];
      if e.mode.Wait? {
        if id in live && e.status != Completed {
          Promote(id);
        }
        DeferAnswer(id, content);
      } else {
        DeliverMessage(Note(content));
      }
    }

    method FoldReply(reply: Reply)
      requires Valid() && reply.id in entries
      modifies this`entries, this`deferred, this`buffered
      ensures Now() == Fold(old(Now()), reply) && Valid()
    {
      var e := entries[reply.id];
      if e.fenced || reply.kind.Progress? {
        return;
      }
      if reply.kind.Ask? {
        SettleWith(reply.id, Asks(e.to, reply.text));
      } else {
        SettleWith(reply.id, Outcome(e, reply.text));
      }
    }

    static method Remove(live: seq<CallId>, id: CallId) returns (rest: seq<CallId>)
      ensures rest == Without(live, id)
    {
      rest := [];
      for n := 0 to |live|
        invariant rest == Without(live[..n], id)
      {
        assert live[..n + 1][..n] == live[..n];
        if live[n] != id {
          rest := rest + [live[n]];
        }
      }
      assert live[..|live|] == live;
    }

    /** Matches the mail against the table; then every reply marks its entry. */
    method Ingest(mail: seq<Letter>) returns (replies: seq<Reply>, others: seq<Letter>)
      requires Valid()
      modifies this`entries, this`live
      ensures Now() == Ingested(old(Now()), mail) && Valid()
      ensures var s := Sort(old(Now().panel), mail, |mail|); replies == s.replies && others == s.others
    {
      SortLive(Now().panel, mail, |mail|);
      replies, others := Match(mail);
      hide Sort;
      MarkReplies(replies);
    }

    method Match(mail: seq<Letter>) returns (replies: seq<Reply>, others: seq<Letter>)
      modifies this`live
      ensures Split(replies, others, live) == Sort(old(Now().panel), mail, |mail|)
    {
      ghost var p := Now().panel;
      replies, others := [], [];
      for n := 0 to |mail|
        invariant Split(replies, others, live) == Sort(p, mail, n)
      {
        var letter := mail[n];
        if ReplyKind(letter.kind) && letter.requestId in live && letter.requestId in entries
          && letter.source == entries[letter.requestId].to
        {
          if letter.kind.ResultMail? {
            live := Remove(live, letter.requestId);
          }
          replies := replies + [ReplyOf(letter)];
        } else {
          others := others + [letter];
        }
      }
    }

    method MarkReplies(replies: seq<Reply>)
      modifies this`entries
      ensures entries == MarkAll(old(entries), replies, |replies|)
    {
      for n := 0 to |replies|
        invariant entries == MarkAll(old(entries), replies, n)
      {
        var reply := replies[n];
        if reply.id in entries {
          var e := entries[reply.id];
          if e.status == Cancelled {
            e := e.(fenced := true);
          } else if reply.kind.Ask? {
            e := e.(status := InputRequired);
          } else if !reply.kind.Progress? {
            e := e.(status := reply.status);
          }
          entries := entries[reply.id := e];
        }
      }
    }

    /** Closes every entry of work that failed, and tells the conversation. */
    method FailEntries(work: Id)
      requires Valid()
      modifies this`entries, this`live, this`deferred, this`buffered
      ensures Now() == FailWork(old(Now()), work) && Valid()
    {
      ghost var c := Now();
      var ids: seq<CallId> := [];
      for n := 0 to |live|
        invariant ids == WorkOf(c.panel, work, n)
      {
        if entries[live[n]].to == work {
          ids := ids + [live[n]];
        }
      }
      WorkOfFacts(c.panel, work, |live|);
      CloseProper(c.panel, ids, |ids|);
      var failed := CloseEntries(ids);
      for n := 0 to |failed|
        invariant Valid() && Now() == SettleFailed(c.(panel := Close(c.panel, ids, |ids|)), failed, n)
      {
        if failed[n] in entries {
          SettleWith(failed[n], Broken(entries[failed[n]].to));
        }
      }
    }

    method CloseEntries(ids: seq<CallId>) returns (failed: seq<CallId>)
      requires Unique(ids)
      modifies this`entries, this`live
      ensures Panel(entries, live) == Close(old(Now().panel), ids, |ids|)
      ensures failed == NewlyFailed(old(Now().panel), ids, |ids|)
    {
      ghost var p := Now().panel;
      failed := [];
      for n := 0 to |ids|
        invariant Panel(entries, live) == Close(p, ids, n)
        invariant failed == NewlyFailed(p, ids, n)
      {
        CloseLeaves(p, ids, n, n);
        var broke := CloseEntry(ids[n]);
        if broke {
          failed := failed + [ids[n]];
        }
      }
    }

    method CloseEntry(id: CallId) returns (broke: bool)
      modifies this`entries, this`live
      ensures Panel(entries, live) == Removed(old(Now().panel), id)
      ensures broke == Breaks(old(Now().panel), id)
    {
      live := Remove(live, id);
      broke := id in entries && entries[id].status != Cancelled;
      if broke {
        entries := entries[id := entries[id].(status := Failed)];
      }
    }

    method PromoteDueWaits(now: int)
      requires Valid()
      modifies this`entries, this`deferred
      ensures Now() == PromoteDue(old(Now()), now) && Valid()
    {
      ghost var c := Now();
      var due: seq<CallId> := [];
      for n := 0 to |live|
        invariant due == Due(c.panel, now, n)
      {
        var e := entries[live[n]];
        if e.mode.Wait? && e.until.Some? && e.until.value <= now {
          due := due + [live[n]];
        }
      }
      for n := 0 to |due|
        invariant Valid() && Now() == PromoteAll(c, due, n)
      {
        if due[n] in entries {
          var to := entries[due[n]].to;
          Promote(due[n]);
          DeferAnswer(due[n], StillRunning(to));
        }
      }
    }

    method FlushMessages()
      requires Valid()
      modifies this`messages, this`deferred, this`buffered
      ensures Now() == Flush(old(Now())) && Valid()
    {
      var waiting := WaitingIds();
      if waiting == [] {
        messages := messages + deferred;
        deferred := [];
        messages := messages + buffered;
        buffered := [];
      }
    }
  
    // ---- Mail that is no reply -----------------------------------------------

    /** Takes one item in; a failure aborts the activation and nothing of it is saved. */
    method HearLetter(letter: Letter) returns (heard: Result<bool>)
      requires Valid()
      modifies this
      ensures Valid() && asked == old(asked) && keys == old(keys) && posts == old(posts)
      ensures match Hear(old(Now()), letter)
        case Ok(h) => heard == Ok(h.cancelled) && Now() == h.chat
        case Err(e) => heard == Err(e)
    {
      if Speaks(letter.kind) {
        if letter.text.None? {
          return Err(KeyError);
        }
        DeliverMessage(Said(letter.text.value));
      } else if letter.kind.Request? {
        if letter.text.None? {
          return Err(KeyError);
        }
        job := Some(Job(Working, letter.requestId, letter.replyTo));
        DeliverMessage(Said(letter.text.value));
      } else if letter.kind.Cancel? && Active(Now()) {
        return Ok(true);
      } else if letter.kind.System? && letter.source == TIMER {
      } else if letter.kind.System? && letter.failed.Some? && letter.failed.value != "" {
        FailEntries(letter.failed.value);
      } else {
        return Err(ValueError);
      }
      heard := Ok(false);
    }

    /** Takes the items in, in order, up to a cancel. */
    method HearLetters(others: seq<Letter>) returns (heard: Result<bool>)
      requires Valid()
      modifies this
      ensures Valid() && asked == old(asked) && keys == old(keys) && posts == old(posts)
      ensures match HearAll(old(Now()), others, |others|)
        case Ok(h) => heard == Ok(h.cancelled) && Now() == h.chat
        case Err(e) => heard == Err(e)
    {
      ghost var c := Now();
      assert HearAll(c, others, 0) == Ok(Heard(c, false));
      hide HearAll, Hear, Proper;
      for n := 0 to |others|
        invariant Valid() && asked == old(asked) && keys == old(keys) && posts == old(posts)
        invariant HearAll(c, others, n) == Ok(Heard(Now(), false))
      {
        HearAllStep(c, others, n);
        heard := HearLetter(others[n]);
        if heard.Err? || heard.value {
          HearAllStops(c, others, n + 1, |others|);
          return;
        }
      }
      heard := Ok(false);
    }

    // ---- Tool calls ----------------------------------------------------------

    method SayResult(call: Call, content: Wording)
      modifies this`messages
      ensures Now() == Say(old(Now()), call, content)
    {
      messages := messages + [Tool(call.id, call.name, content)];
    }

    /** Spawns a provider, sends it the request and remembers the entry. */
    method OpenEntry(env: Env, call: Call, entry: Entry, task: string) returns (failure: Option<Error>)
      modifies this`entries, this`live, this`keys, this`posts
      ensures match Open(old(Turn()), env, call, entry, task)
        case Ok(r) => failure == None && Turn() == r
        case Err(e) => failure == Some(e)
    {
      if call.id.text == "" {
        return Some(ValueError);
      }
      if call.id in env.taken || call.id in keys {
        return Some(AlreadyExists);
      }
      keys := keys + {call.id};
      posts := posts + [Post(entry.to, Kind.Request, Some(call.id), ByCall(call.id), task)];
      entries := entries[call.id := entry];
      if call.id !in live {
        live := live + [call.id];
      }
      failure := None;
    }

    method DelegateTo(env: Env, call: Call, pipe: Pipe, k: nat) returns (failure: Option<Error>)
      requires pipe.modes != [] && call.arguments.Arguments?
      modifies this
      ensures match Delegate(old(Turn()), env, call, pipe, k)
        case Ok(r) => failure == None && Turn() == r
        case Err(e) => failure == Some(e)
    {
      var mode := pipe.modes[0];
      if call.arguments.background.Some? {
        mode := if call.arguments.background.value then Connected else Wait;
        if mode !in pipe.modes {
          mode := pipe.modes[0];
        }
      }
      var until := if mode.Wait? && pipe.budget != 0 then Some(env.clock(k) + pipe.budget) else None;
      if call.arguments.task.None? {
        return Some(KeyError);
      }
      var to := env.session + ":" + call.id.text;
      failure := OpenEntry(env, call, Entry(to, call.name, mode, Working, until, pipe.interruptible, false, true),
                           call.arguments.task.value);
      if failure.None? && mode.Connected? {
        SayResult(call, Started(to));
      }
    }

    /** The first live entry of a provider. */
    method FindWork(work: Id) returns (found: Option<CallId>)
      requires Valid()
      ensures found == Find(Now().panel, work, |live|)
    {
      found := None;
      for n := 0 to |live|
        invariant found == Find(Now().panel, work, n)
      {
        if found.None? && entries[live[n]].to == work {
          found := Some(live[n]);
        }
      }
    }

    method ControlWork(call: Call) returns (failure: Option<Error>)
      requires Valid() && call.arguments.Arguments?
      modifies this
      ensures match Control(old(Turn()), call)
        case Ok(r) => failure == None && Turn() == r
        case Err(e) => failure == Some(e)
    {
      failure := None;
      var found: Option<CallId> := None;
      if call.arguments.work.Some? {
        found := FindWork(call.arguments.work.value);
      }
      if found.None? {
        SayResult(call, NoSuchWork);
        return;
      }
      var id := found.value;
      var e := entries[id];
      if !e.controllable {
        SayResult(call, Unsupported(e.to));
      } else if call.name == STEER {
        if call.arguments.text.None? {
          return Some(KeyError);
        }
        posts := posts + [Post(e.to, Steer, Some(id), ByCall(call.id), call.arguments.text.value)];
        SayResult(call, Steered(e.to));
      } else if call.name == ANSWER {
        failure := AnswerWork(call, id);
      } else if e.status == Cancelled {
        SayResult(call, CancelledBefore(e.to));
      } else {
        entries := entries[id := e.(status := Cancelled, mode := Connected)];
        posts := posts + [Post(e.to, Cancel, Some(id), ByCall(call.id), "")];
        if e.mode.Wait? {
          DeferAnswer(id, CallCancelled(e.to));
        }
        SayResult(call, CancelSent(e.to));
      }
    }

    method AnswerWork(call: Call, id: CallId) returns (failure: Option<Error>)
      requires Valid() && call.arguments.Arguments? && id in entries
      modifies this
      ensures var r, e, text := old(Turn()), old(entries)[id], call.arguments.text;
        if e.status != InputRequired then failure == None && Turn() == r.(chat := Say(r.chat, call, AskedNothing(e.to)))
        else if text.None? then failure == Some(KeyError)
        else
          var p := r.chat.panel.(entries := r.chat.panel.entries[id := e.(status := Working)]);
          && failure == None
          && Turn() == r.(chat := Say(r.chat.(panel := p), call, Answered(e.to)),
                          posts := r.posts + [Post(e.to, Answer, Some(id), ByCall(call.id), text.value)])
    {
      var e := entries[id];
      failure := None;
      if e.status != InputRequired {
        SayResult(call, AskedNothing(e.to));
      } else if call.arguments.text.None? {
        failure := Some(KeyError);
      } else {
        entries := entries[id := e.(status := Working)];
        posts := posts + [Post(e.to, Answer, Some(id), ByCall(call.id), call.arguments.text.value)];
        SayResult(call, Answered(e.to));
      }
    }

    method RunOneCall(agent: Agent, env: Env, call: Call, k: nat) returns (failure: Option<Error>)
      requires Valid() && Usable(agent)
      modifies this
      ensures match RunCall(old(Turn()), agent, env, call, k)
        case Ok(r) => failure == None && Turn() == r
        case Err(e) => failure == Some(e)
    {
      hide Delegate, Control, Open, Granted;
      failure := None;
      if call.arguments.Malformed? {
        return Some(ValueError);
      }
      if call.name in agent.pipes {
        failure := DelegateTo(env, call, agent.pipes[call.name], k);
      } else if Granted(agent, call.name) {
        failure := ControlWork(call);
      } else if call.name == ASK_CALLER && Active(Now()) {
        if call.arguments.text.None? {
          return Some(KeyError);
        }
        if call.id.text == "" {
          return Some(ValueError);
        }
        posts :=
          posts + [Post(job.value.replyTo, Ask, Some(job.value.requestId), ByCall(call.id), call.arguments.text.value)];
        job := Some(job.value.(status := InputRequired));
        SayResult(call, AskedCaller);
        asked := true;
      } else {
        var result := env.outcome(k);
        if result.Later? {
          var to := env.session + ":" + call.id.text;
          failure := OpenEntry(env, call, Entry(to, call.name, Wait, Working, None, false, false, false), "");
        } else {
          SayResult(call, Verbatim(result.text));
          asked := asked || call.name == ASK_CALLER;
        }
      }
    }
  
    // ---- The activation ------------------------------------------------------

    method EarliestDeadline() returns (deadline: Option<int>)
      requires Valid()
      ensures deadline == NextDeadline(Now().panel, |live|)
    {
      deadline := None;
      for n := 0 to |live|
        invariant deadline == NextDeadline(Now().panel, n)
      {
        var e := entries[live[n]];
        if e.mode.Wait? && e.until.Some? && (deadline.None? || e.until.value < deadline.value) {
          deadline := e.until;
        }
      }
    }

    method RunAllCalls(agent: Agent, env: Env, calls: seq<Call>) returns (failure: Option<Error>)
      requires Valid() && Usable(agent)
      modifies this
      ensures match RunCalls(old(Turn()), agent, env, calls, |calls|)
        case Ok(r) => failure == None && Turn() == r && Valid()
        case Err(e) => failure == Some(e)
    {
      ghost var r := Turn();
      assert RunCalls(r, agent, env, calls, 0) == Ok(r);
      hide RunCalls, RunCall, Proper, Usable;
      for n := 0 to |calls|
        invariant Valid() && RunCalls(r, agent, env, calls, n) == Ok(Turn())
      {
        RunCallsStep(r, agent, env, calls, n);
        failure := RunOneCall(agent, env, calls[n], n);
        if failure.Some? {
          RunCallsStop(r, agent, env, calls, n + 1, |calls|);
          return;
        }
      }
      failure := None;
    }

    /** One model call and its tools. */
    method CallModel(agent: Agent, env: Env) returns (proposed: Result<Proposed>)
      requires Valid() && Usable(agent) && !asked && keys == {} && posts == []
      modifies this
      ensures proposed == TakeTurn(old(Now()), agent, env)
    {
      if env.prompt.Some? && (messages == [] || !messages[0].SystemPrompt?) {
        messages := [SystemPrompt(env.prompt.value)] + messages;
      }
      var shown := messages;
      if env.reply.None? || !env.reply.value.Assistant? {
        return Err(ValueError);
      }
      var reply := env.reply.value;
      messages := messages + [reply];
      if reply.calls != [] {
        proposed := RunTurnCalls(agent, env, reply.calls, shown);
      } else if Active(Now()) {
        proposed := FinishJob(reply.text, Completed, Some(shown));
      } else {
        if agent.output.Some? {
          posts := posts + [Post(agent.output.value, Kind.Message, None, ByLength(|messages|), reply.text)];
          assert posts == [Post(agent.output.value, Kind.Message, None, ByLength(|messages|), reply.text)];
        }
        proposed := Ok(Proposed(Saved(Now()), None, false, Some(shown), posts));
      }
    }

    method RunTurnCalls(agent: Agent, env: Env, calls: seq<Call>, shown: seq<Message>)
      returns (proposed: Result<Proposed>)
      requires Valid() && Usable(agent)
      modifies this
      ensures match RunCalls(old(Turn()), agent, env, calls, |calls|)
        case Err(e) => proposed == Err(e)
        case Ok(r) =>
          var deadline :=
            if Waiting(r.chat.panel) != [] then NextDeadline(r.chat.panel, |r.chat.panel.live|)
            else if r.asked then None else Some(NOW);
          proposed == Ok(Proposed(Saved(r.chat), deadline, false, Some(shown), r.posts))
    {
      var failure := RunAllCalls(agent, env, calls);
      if failure.Some? {
        return Err(failure.value);
      }
      var deadline: Option<int>;
      var waiting := WaitingIds();
      if waiting != [] {
        deadline := EarliestDeadline();
      } else {
        deadline := if asked then None else Some(NOW);
      }
      proposed := Ok(Proposed(Saved(Now()), deadline, false, Some(shown), posts));
    }

    /** Replies to the caller and completes the session. */
    method FinishJob(content: string, status: WorkStatus, shown: Option<seq<Message>>)
      returns (proposed: Result<Proposed>)
      requires Valid() && job.Some? && posts == []
      modifies this`job, this`posts
      ensures proposed == Finish(old(Now()), content, status, shown)
    {
      job := Some(job.value.(status := status));
      posts := posts + [Post(job.value.replyTo, ResultMail, Some(job.value.requestId), ForResult, content)];
      assert posts == [Post(job.value.replyTo, ResultMail, Some(job.value.requestId), ForResult, content)];
      proposed := Ok(Proposed(Saved(Now()), None, true, shown, posts));
    }

    /** One activation: what it proposes, or the failure that discards it. */
    method ResumeTurn(mail: seq<Letter>, agent: Agent, env: Env) returns (proposed: Result<Proposed>)
      requires Valid() && Usable(agent) && !asked && keys == {} && posts == []
      modifies this
      ensures proposed == Resume(old(Now()), mail, agent, env)
    {
      ghost var c := Now();
      var others := TakeReplies(mail);
      var heard := HearLetters(others);
      hide Folded, HearAll, Sort;
      if heard.Err? {
        return Err(heard.error);
      }
      if heard.value {
        proposed := FinishJob("", Cancelled, None);
        return;
      }
      PromoteDueWaits(env.now);
      FlushMessages();
      hide PromoteDue, Flush, TakeTurn, NextDeadline, Waiting;
      var waiting := WaitingIds();
      if env.more {
        proposed := Propose(Now(), None);
      } else if waiting != [] {
        var deadline := EarliestDeadline();
        proposed := Propose(Now(), deadline);
      } else if !Answerable(Now()) {
        proposed := Propose(Now(), None);
      } else {
        proposed := CallModel(agent, env);
      }
    }

    /** Matches the mail and folds the replies in; returns the rest of the mail. */
    method TakeReplies(mail: seq<Letter>) returns (others: seq<Letter>)
      requires Valid()
      modifies this`entries, this`live, this`deferred, this`buffered
      ensures Now() == Folded(old(Now()), mail) && Valid()
      ensures others == Sort(old(Now().panel), mail, |mail|).others
    {
      var replies;
      replies, others := Ingest(mail);
      ghost var d := Now();
      hide Sort, Ingested;
      for n := 0 to |replies|
        invariant Valid() && Now() == FoldAll(d, replies, n)
      {
        if replies[n].id in entries {
          FoldReply(replies[n]);
        }
      }
    }
  }

  lemma RunCallsStep(r: Running, agent: Agent, env: Env, calls: seq<Call>, n: nat)
    requires Proper(r.chat.panel) && Usable(agent) && n < |calls| && RunCalls(r, agent, env, calls, n).Ok?
    ensures RunCalls(r, agent, env, calls, n + 1) ==
      RunCall(RunCalls(r, agent, env, calls, n).value, agent, env, calls[n], n)
  {
  }

  lemma {:induction false} RunCallsStop(r: Running, agent: Agent, env: Env, calls: seq<Call>, n: nat, m: nat)
    requires Proper(r.chat.panel) && Usable(agent) && n <= m <= |calls| && RunCalls(r, agent, env, calls, n).Err?
    ensures RunCalls(r, agent, env, calls, m) == RunCalls(r, agent, env, calls, n)
    decreases m
  {
    hide RunCall, Proper, Usable;
    if n < m {
      RunCallsStop(r, agent, env, calls, n, m - 1);
    }
  }

  lemma HearAllStep(c: Chat, others: seq<Letter>, n: nat)
    requires Proper(c.panel) && n < |others| && HearAll(c, others, n).Ok? && !HearAll(c, others, n).value.cancelled
    ensures HearAll(c, others, n + 1) == Hear(HearAll(c, others, n).value.chat, others[n])
  {
  }

  lemma {:induction false} HearAllStops(c: Chat, others: seq<Letter>, n: nat, m: nat)
    requires Proper(c.panel) && n <= m <= |others|
    requires HearAll(c, others, n).Err? || HearAll(c, others, n).value.cancelled
    ensures HearAll(c, others, m) == HearAll(c, others, n)
    decreases m
  {
    if n < m {
      HearAllStops(c, others, n, m - 1);
    }
  }

  /** Closing some entries leaves the later ones as they were. */
  lemma {:induction false} CloseLeaves(p: Panel, ids: seq<CallId>, n: nat, i: nat)
    requires Unique(ids) && n <= i < |ids|
    ensures Breaks(Close(p, ids, n), ids[i]) == Breaks(p, ids[i])
    decreases n
  {
    if n == 0 {
    } else {
      CloseLeaves(p, ids, n - 1, i);
      assert ids[n - 1] != ids[i];
    }
  }
}
