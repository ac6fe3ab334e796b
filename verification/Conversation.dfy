/** One agent turn over session state: replies on open exchanges, mail, promotion, the model call, its tools. */
module Conversation {
  import opened Mail

  // ---- The transcript --------------------------------------------------------

  /** Parsed tool arguments; `Malformed` is text that is not JSON. */
  datatype Arguments =
    | Malformed
    | Arguments(background: Option<bool>, task: Option<string>, work: Option<Id>, text: Option<string>)

  /** The identity of a tool call, of the request made for it and of the provider spawned for it. */
  datatype CallId = CallId(text: string)

  datatype Call = Call(id: CallId, name: string, arguments: Arguments)

  /** What the model is told about tools and delegated work; `Verbatim` is text from a tool or a provider. */
  datatype Wording =
    | Verbatim(text: string)
    | StillRunning(work: Id)
    | Asks(work: Id, text: string)
    | Ended(work: Id, status: WorkStatus, text: string)
    | Broken(work: Id)
    | Started(work: Id)
    | NoSuchWork
    | Unsupported(work: Id)
    | AskedNothing(work: Id)
    | Steered(work: Id)
    | Answered(work: Id)
    | CancelSent(work: Id)
    | CancelledBefore(work: Id)
    | CallCancelled(work: Id)
    | AskedCaller

  /** What a user message says: delivered text, or a bracketed note about delegated work. */
  datatype Content = Said(text: string) | Note(about: Wording)

  datatype Message =
    | SystemPrompt(text: string)
    | UserSays(said: Content)
    | Assistant(text: string, calls: seq<Call>)
    | Tool(callId: CallId, name: string, content: Wording)

  function CallIds(calls: seq<Call>): multiset<CallId> {
    if calls == [] then multiset{} else CallIds(calls[..|calls| - 1]) + multiset{calls[|calls| - 1].id}
  }

  /** Reads a transcript, holding the calls still to be answered. A tool message answers a held call; every
      other message needs all of them answered first. `None` is a transcript no model interface accepts. */
  function Scan(messages: seq<Message>): Option<multiset<CallId>> {
    if messages == [] then Some(multiset{})
    else
      match Scan(messages[..|messages| - 1])
      case None => None
      case Some(open) => Read(open, messages[|messages| - 1])
  }

  function Read(open: multiset<CallId>, message: Message): Option<multiset<CallId>> {
    if message.Tool? then
      if message.callId in open then Some(open - multiset{message.callId}) else None
    else if open == multiset{} then
      Some(if message.Assistant? then CallIds(message.calls) else multiset{})
    else None
  }

  // ---- Session state ---------------------------------------------------------

  datatype Mode = Wait | Connected

  /** The statuses the panel knows; a provider may report any other word. */
  datatype WorkStatus = Working | InputRequired | Completed | Failed | Cancelled | Reported(word: string)

  /** A delegation. Its request, its provider session and its tool call all derive from one call identity,
      which is the key it is stored under. `controllable` is false for a plain deferred tool. */
  datatype Entry = Entry(
    to: Id,
    title: string,
    mode: Mode,
    status: WorkStatus,
    until: Option<int>,
    interruptible: bool,
    fenced: bool,
    controllable: bool)

  /** The panel. `live` is the pending table's keys in insertion order; `entries` also keeps the entries taken
      out during this activation, which replies still refer to. */
  datatype Panel = Panel(entries: map<CallId, Entry>, live: seq<CallId>)

  datatype Job = Job(status: WorkStatus, requestId: CallId, replyTo: Id)

  datatype Chat = Chat(
    messages: seq<Message>,
    deferred: seq<Message>,
    buffered: seq<Message>,
    job: Option<Job>,
    panel: Panel)

  datatype Letter = Letter(
    id: EventId,
    kind: Kind,
    source: Id,
    requestId: CallId,
    text: Option<string>,
    status: Option<WorkStatus>,
    failed: Option<Id>,
    replyTo: Id)

  const TIMER := "timer"

  predicate Proper(p: Panel) {
    && (forall i | 0 <= i < |p.live| :: p.live[i] in p.entries)
    && (forall i, j | 0 <= i < j < |p.live| :: p.live[i] != p.live[j])
  }

  // ---- The panel -------------------------------------------------------------

  /** The first `n` live entries whose tool call is held open, in table order. */
  function WaitingIn(p: Panel, n: nat): seq<CallId>
    requires Proper(p) && n <= |p.live|
  {
    if n == 0 then []
    else WaitingIn(p, n - 1) + if p.entries[p.live[n - 1]].mode.Wait? then [p.live[n - 1]] else []
  }

  function Waiting(p: Panel): seq<CallId>
    requires Proper(p)
  {
    WaitingIn(p, |p.live|)
  }

  function Promoted(p: Panel, id: CallId): Panel
    requires id in p.entries
  {
    p.(entries := p.entries[id := p.entries[id].(mode := Connected)])
  }

  function Without(live: seq<CallId>, id: CallId): seq<CallId> {
    if live == [] then []
    else
      var last := live[|live| - 1];
      Without(live[..|live| - 1], id) + if last == id then [] else [last]
  }

  // ---- Splitting mail --------------------------------------------------------

  datatype Reply = Reply(id: CallId, kind: Kind, text: string, status: WorkStatus)

  datatype Split = Split(replies: seq<Reply>, others: seq<Letter>, live: seq<CallId>)

  predicate ReplyKind(kind: Kind) { kind.ResultMail? || kind.Ask? || kind.Progress? }

  /** The letter answers a pending exchange: its request is live and it comes from the provider. */
  predicate Matches(entries: map<CallId, Entry>, live: seq<CallId>, letter: Letter) {
    && ReplyKind(letter.kind)
    && letter.requestId in live && letter.requestId in entries
    && letter.source == entries[letter.requestId].to
  }

  function Sort(p: Panel, mail: seq<Letter>, n: nat): Split
    requires n <= |mail|
  {
    if n == 0 then Split([], [], p.live)
    else
      var s, letter := Sort(p, mail, n - 1), mail[n - 1];
      if Matches(p.entries, s.live, letter) then
        Split(s.replies + [ReplyOf(letter)], s.others,
              if letter.kind.ResultMail? then Without(s.live, letter.requestId) else s.live)
      else s.(others := s.others + [letter])
  }

  function Or(given: Option<string>, default: string): string { if given.Some? then given.value else default }

  function ReplyOf(letter: Letter): Reply {
    Reply(letter.requestId, letter.kind, Or(letter.text, ""),
          if letter.status.Some? then letter.status.value else Completed)
  }

  /** What a reply does to its entry: a cancelled entry is fenced, otherwise the status is recorded. */
  function Mark(entry: Entry, reply: Reply): Entry {
    if entry.status == Cancelled then entry.(fenced := true)
    else if reply.kind.Ask? then entry.(status := InputRequired)
    else if reply.kind.Progress? then entry
    else entry.(status := reply.status)
  }

  function MarkAll(entries: map<CallId, Entry>, replies: seq<Reply>, n: nat): map<CallId, Entry>
    requires n <= |replies|
  {
    if n == 0 then entries
    else
      var before, reply := MarkAll(entries, replies, n - 1), replies[n - 1];
      if reply.id in before then before[reply.id := Mark(before[reply.id], reply)] else before
  }

  // ---- Folding outcomes in ---------------------------------------------------

  function Defer(c: Chat, id: CallId, content: Wording): Chat
    requires id in c.panel.entries
  {
    c.(deferred := c.deferred + [Tool(id, c.panel.entries[id].title, content)])
  }

  /** Promotes the first `n` of `waiting` that are interruptible. */
  function Interrupt(c: Chat, waiting: seq<CallId>, n: nat): (r: Chat)
    requires n <= |waiting|
    ensures Proper(c.panel) ==> Proper(r.panel)
  {
    if n == 0 then c
    else
      var before, id := Interrupt(c, waiting, n - 1), waiting[n - 1];
      if id in before.panel.entries && before.panel.entries[id].interruptible then
        Defer(before.(panel := Promoted(before.panel, id)), id, StillRunning(before.panel.entries[id].to))
      else before
  }

  /** Queues a message for the model. */
  function Deliver(c: Chat, content: Content): (r: Chat)
    requires Proper(c.panel)
    ensures Proper(r.panel)
  {
    var d := Interrupt(c, Waiting(c.panel), |Waiting(c.panel)|);
    d.(buffered := d.buffered + [UserSays(content)])
  }

  /** Writes an outcome where the entry's mode says: as the tool result, or as a note. */
  function Settle(c: Chat, id: CallId, content: Wording): (r: Chat)
    requires Proper(c.panel) && id in c.panel.entries
    ensures Proper(r.panel)
  {
    var e := c.panel.entries[id];
    if e.mode.Wait? then
      Defer(if id in c.panel.live && e.status != Completed then c.(panel := Promoted(c.panel, id)) else c, id, content)
    else Deliver(c, Note(content))
  }

  /** A completed wait hands over the text itself; any other end names the work and its status. */
  function Outcome(e: Entry, text: string): Wording {
    if e.mode.Connected? || e.status != Completed then Ended(e.to, e.status, text) else Verbatim(text)
  }

  function Fold(c: Chat, reply: Reply): (r: Chat)
    requires Proper(c.panel) && reply.id in c.panel.entries
    ensures Proper(r.panel)
  {
    var e := c.panel.entries[reply.id];
    if e.fenced || reply.kind.Progress? then c
    else if reply.kind.Ask? then Settle(c, reply.id, Asks(e.to, reply.text))
    else Settle(c, reply.id, Outcome(e, reply.text))
  }

  function FoldAll(c: Chat, replies: seq<Reply>, n: nat): (r: Chat)
    requires n <= |replies| && Proper(c.panel)
    ensures Proper(r.panel)
  {
    if n == 0 then c
    else
      var before := FoldAll(c, replies, n - 1);
      if replies[n - 1].id in before.panel.entries then Fold(before, replies[n - 1]) else before
  }

  // ---- Everything else -------------------------------------------------------

  predicate Active(c: Chat) { c.job.Some? && (c.job.value.status.Working? || c.job.value.status.InputRequired?) }

  /** The live entries of one provider, in table order. */
  function WorkOf(p: Panel, work: Id, n: nat): seq<CallId>
    requires Proper(p) && n <= |p.live|
  {
    if n == 0 then []
    else WorkOf(p, work, n - 1) + if p.entries[p.live[n - 1]].to == work then [p.live[n - 1]] else []
  }

  predicate Breaks(p: Panel, id: CallId) { id in p.entries && p.entries[id].status != Cancelled }

  /** Takes an entry out of the table; one that was not cancelled becomes failed. */
  function Removed(p: Panel, id: CallId): Panel {
    Panel(if Breaks(p, id) then p.entries[id := p.entries[id].(status := Failed)] else p.entries, Without(p.live, id))
  }

  /** Takes the first `n` of `ids` out of the table. */
  function Close(p: Panel, ids: seq<CallId>, n: nat): Panel
    requires n <= |ids|
  {
    if n == 0 then p else Removed(Close(p, ids, n - 1), ids[n - 1])
  }

  /** Of the first `n` closed entries, those that failed now. */
  function NewlyFailed(p: Panel, ids: seq<CallId>, n: nat): seq<CallId>
    requires n <= |ids|
  {
    if n == 0 then [] else NewlyFailed(p, ids, n - 1) + if Breaks(p, ids[n - 1]) then [ids[n - 1]] else []
  }

  lemma {:induction false} WithoutLive(live: seq<CallId>, id: CallId)
    ensures forall i | 0 <= i < |Without(live, id)| :: Without(live, id)[i] in live && Without(live, id)[i] != id
    ensures forall x | x in live && x != id :: x in Without(live, id)
    ensures (forall i, j | 0 <= i < j < |live| :: live[i] != live[j]) ==>
      forall i, j | 0 <= i < j < |Without(live, id)| :: Without(live, id)[i] != Without(live, id)[j]
    decreases |live|
  {
    if live == [] {
    } else {
      var n := |live| - 1;
      WithoutLive(live[..n], id);
      assert live == live[..n] + [live[n]];
    }
  }

  lemma {:induction false} CloseProper(p: Panel, ids: seq<CallId>, n: nat)
    requires Proper(p) && n <= |ids|
    ensures Proper(Close(p, ids, n))
    decreases n
  {
    if n == 0 {
    } else {
      CloseProper(p, ids, n - 1);
      WithoutLive(Close(p, ids, n - 1).live, ids[n - 1]);
    }
  }

  function SettleFailed(c: Chat, ids: seq<CallId>, n: nat): (r: Chat)
    requires n <= |ids| && Proper(c.panel)
    ensures Proper(r.panel)
  {
    if n == 0 then c
    else
      var before, id := SettleFailed(c, ids, n - 1), ids[n - 1];
      if id in before.panel.entries then Settle(before, id, Broken(before.panel.entries[id].to)) else before
  }

  function FailWork(c: Chat, work: Id): Chat
    requires Proper(c.panel)
  {
    var ids := WorkOf(c.panel, work, |c.panel.live|);
    CloseProper(c.panel, ids, |ids|);
    SettleFailed(c.(panel := Close(c.panel, ids, |ids|)), NewlyFailed(c.panel, ids, |ids|),
                 |NewlyFailed(c.panel, ids, |ids|)|)
  }

  predicate Speaks(kind: Kind) { kind.User? || kind.Message? || kind.Steer? || kind.Answer? }

  /** Where the mail that is no reply leaves the session: still going, or cancelled by the caller. */
  datatype Heard = Heard(chat: Chat, cancelled: bool)

  /** One mail item that is no reply; mail of an unexpected kind fails the activation. */
  function Hear(c: Chat, letter: Letter): Result<Heard>
    requires Proper(c.panel)
  {
    if Speaks(letter.kind) then
      if letter.text.None? then Err(KeyError) else Ok(Heard(Deliver(c, Said(letter.text.value)), false))
    else if letter.kind.Request? then
      if letter.text.None? then Err(KeyError)
      else
        var job := Some(Job(Working, letter.requestId, letter.replyTo));
        Ok(Heard(Deliver(c.(job := job), Said(letter.text.value)), false))
    else if letter.kind.Cancel? && Active(c) then Ok(Heard(c, true))
    else if letter.kind.System? && letter.source == TIMER then Ok(Heard(c, false))
    else if letter.kind.System? && letter.failed.Some? && letter.failed.value != "" then
      Ok(Heard(FailWork(c, letter.failed.value), false))
    else Err(ValueError)
  }

  /** The first `n` other items in turn; a cancel ends the activation there. */
  function HearAll(c: Chat, others: seq<Letter>, n: nat): (r: Result<Heard>)
    requires n <= |others| && Proper(c.panel)
    ensures r.Ok? ==> Proper(r.value.chat.panel) && (r.value.cancelled ==> Active(r.value.chat))
  {
    if n == 0 then Ok(Heard(c, false))
    else
      var before := HearAll(c, others, n - 1);
      if before.Err? || before.value.cancelled then before
      else
        var b, letter := before.value.chat, others[n - 1];
        HearProper(b, letter);
        Hear(b, letter)
  }

  lemma HearProper(c: Chat, letter: Letter)
    requires Proper(c.panel)
    ensures Hear(c, letter).Ok? ==> Proper(Hear(c, letter).value.chat.panel)
  {
    if letter.failed.Some? {
      var ids := WorkOf(c.panel, letter.failed.value, |c.panel.live|);
      CloseProper(c.panel, ids, |ids|);
    }
  }

  // ---- Budgets and the flush -------------------------------------------------

  /** The waits, among the first `n` live entries, whose budget has passed. */
  function Due(p: Panel, now: int, n: nat): seq<CallId>
    requires Proper(p) && n <= |p.live|
  {
    if n == 0 then []
    else
      var e := p.entries[p.live[n - 1]];
      Due(p, now, n - 1) + if e.mode.Wait? && e.until.Some? && e.until.value <= now then [p.live[n - 1]] else []
  }

  function PromoteAll(c: Chat, ids: seq<CallId>, n: nat): (r: Chat)
    requires n <= |ids|
    ensures Proper(c.panel) ==> Proper(r.panel)
  {
    if n == 0 then c
    else
      var before, id := PromoteAll(c, ids, n - 1), ids[n - 1];
      if id !in before.panel.entries then before
      else Defer(before.(panel := Promoted(before.panel, id)), id, StillRunning(before.panel.entries[id].to))
  }

  function PromoteDue(c: Chat, now: int): (r: Chat)
    requires Proper(c.panel)
    ensures Proper(r.panel)
  {
    var due := Due(c.panel, now, |c.panel.live|);
    PromoteAll(c, due, |due|)
  }

  /** Once no tool call is held open, the deferred results join the transcript, then the buffered messages. */
  function Flush(c: Chat): Chat
    requires Proper(c.panel)
  {
    if Waiting(c.panel) != [] then c
    else c.(messages := c.messages + c.deferred + c.buffered, deferred := [], buffered := [])
  }

  function NextDeadline(p: Panel, n: nat): Option<int>
    requires Proper(p) && n <= |p.live|
  {
    if n == 0 then None
    else
      var e, before := p.entries[p.live[n - 1]], NextDeadline(p, n - 1);
      if e.mode.Connected? || e.until.None? || (before.Some? && before.value <= e.until.value) then before else e.until
  }

  // ---- The model call and its tools ------------------------------------------

  datatype Pipe = Pipe(modes: seq<Mode>, budget: int, interruptible: bool, grants: set<string>)

  /** How an agent is set up. A pipe has at least one mode; a budget of zero is none. */
  datatype Agent = Agent(pipes: map<string, Pipe>, output: Option<Id>)

  datatype ToolResult = Returned(text: string) | Later

  /** What an activation meets: the clock, whether more mail waits, what the model replies (`None`: the call
      failed), what the `k`th tool call returns, and which children already exist. */
  datatype Env = Env(
    session: Id,
    now: int,
    more: bool,
    prompt: Option<string>,
    reply: Option<Message>,
    outcome: nat -> ToolResult,
    clock: nat -> int,
    taken: set<CallId>)

  /** What a staged mail item's stable key is made from. */
  datatype PostKey = ByCall(id: CallId) | ByLength(length: nat) | ForResult

  datatype Post = Post(to: Id, kind: Kind, requestId: Option<CallId>, key: PostKey, text: string)

  /** A turn under way: the conversation, whether a question went out, the keys opened, the mail staged. */
  datatype Running = Running(chat: Chat, asked: bool, keys: set<CallId>, posts: seq<Post>)

  const NOW: int := 0
  const STEER := "steer"
  const CANCEL := "cancel"
  const ANSWER := "answer"
  const ASK_CALLER := "ask_caller"

  predicate Granted(agent: Agent, name: string) {
    name in {STEER, CANCEL, ANSWER} && exists pipe | pipe in agent.pipes :: name in agent.pipes[pipe].grants
  }

  function Say(c: Chat, call: Call, content: Wording): Chat {
    c.(messages := c.messages + [Tool(call.id, call.name, content)])
  }

  /** Spawns a provider, sends it the request and records the entry; a key is opened once. */
  function Open(r: Running, env: Env, call: Call, entry: Entry, task: string): Result<Running> {
    if call.id.text == "" then Err(ValueError)
    else if call.id in env.taken || call.id in r.keys then Err(AlreadyExists)
    else
      var p := r.chat.panel;
      Ok(r.(chat := r.chat.(panel := Panel(p.entries[call.id := entry],
                                           if call.id in p.live then p.live else p.live + [call.id])),
            keys := r.keys + {call.id},
            posts := r.posts + [Post(entry.to, Kind.Request, Some(call.id), ByCall(call.id), task)]))
  }

  function ChosenMode(pipe: Pipe, background: Option<bool>): Mode
    requires pipe.modes != []
  {
    var mode := if background.Some? then (if background.value then Connected else Wait) else pipe.modes[0];
    if mode in pipe.modes then mode else pipe.modes[0]
  }

  function Delegate(r: Running, env: Env, call: Call, pipe: Pipe, k: nat): Result<Running>
    requires pipe.modes != [] && call.arguments.Arguments?
  {
    var mode := ChosenMode(pipe, call.arguments.background);
    var until := if mode.Wait? && pipe.budget != 0 then Some(env.clock(k) + pipe.budget) else None;
    if call.arguments.task.None? then Err(KeyError)
    else
      var to := env.session + ":" + call.id.text;
      var result := Open(r, env, call, Entry(to, call.name, mode, Working, until, pipe.interruptible, false, true),
                         call.arguments.task.value);
      if result.Err? || mode.Wait? then result
      else Ok(result.value.(chat := Say(result.value.chat, call, Started(to))))
  }

  /** The first live entry of a provider, among the first `n`. */
  function Find(p: Panel, work: Id, n: nat): (r: Option<CallId>)
    requires Proper(p) && n <= |p.live|
    ensures r.Some? ==> r.value in p.live[..n] && r.value in p.entries
  {
    if n == 0 then None
    else
      var before := Find(p, work, n - 1);
      if before.Some? then (assert p.live[..n] == p.live[..n - 1] + [p.live[n - 1]]; before)
      else if p.entries[p.live[n - 1]].to == work then Some(p.live[n - 1])
      else None
  }

  /** Steers, answers or cancels running work, and tells the model what happened. */
  function Control(r: Running, call: Call): Result<Running>
    requires Proper(r.chat.panel) && call.arguments.Arguments?
  {
    var c, text := r.chat, call.arguments.text;
    var found := if call.arguments.work.None? then None else Find(c.panel, call.arguments.work.value, |c.panel.live|);
    if found.None? then Ok(r.(chat := Say(c, call, NoSuchWork)))
    else
      var id, e := found.value, c.panel.entries[found.value];
      if !e.controllable then Ok(r.(chat := Say(c, call, Unsupported(e.to))))
      else if call.name == STEER then
        if text.None? then Err(KeyError)
        else Ok(r.(chat := Say(c, call, Steered(e.to)),
                   posts := r.posts + [Post(e.to, Steer, Some(id), ByCall(call.id), text.value)]))
      else if call.name == ANSWER then
        if e.status != InputRequired then Ok(r.(chat := Say(c, call, AskedNothing(e.to))))
        else if text.None? then Err(KeyError)
        else
          var p := c.panel.(entries := c.panel.entries[id := e.(status := Working)]);
          Ok(r.(chat := Say(c.(panel := p), call, Answered(e.to)),
                posts := r.posts + [Post(e.to, Answer, Some(id), ByCall(call.id), text.value)]))
      else if e.status == Cancelled then Ok(r.(chat := Say(c, call, CancelledBefore(e.to))))
      else
        var p := c.panel.(entries := c.panel.entries[id := e.(status := Cancelled, mode := Connected)]);
        var fenced := c.(panel := p);
        Ok(r.(chat := Say(if e.mode.Wait? then Defer(fenced, id, CallCancelled(e.to)) else fenced, call,
                          CancelSent(e.to)),
              posts := r.posts + [Post(e.to, Cancel, Some(id), ByCall(call.id), "")]))
  }

  predicate Usable(agent: Agent) { forall name | name in agent.pipes :: agent.pipes[name].modes != [] }

  /** Runs the `k`th tool call of the reply. */
  function RunCall(r: Running, agent: Agent, env: Env, call: Call, k: nat): Result<Running>
    requires Proper(r.chat.panel) && Usable(agent)
  {
    if call.arguments.Malformed? then Err(ValueError)
    else if call.name in agent.pipes then Delegate(r, env, call, agent.pipes[call.name], k)
    else if Granted(agent, call.name) then Control(r, call)
    else if call.name == ASK_CALLER && Active(r.chat) then
      if call.arguments.text.None? then Err(KeyError)
      else if call.id.text == "" then Err(ValueError)
      else
        var job := r.chat.job.value;
        Ok(r.(chat := Say(r.chat.(job := Some(job.(status := InputRequired))), call, AskedCaller),
              asked := true,
              posts :=
                r.posts + [Post(job.replyTo, Ask, Some(job.requestId), ByCall(call.id), call.arguments.text.value)]))
    else
      match env.outcome(k)
      case Returned(text) =>
        Ok(r.(chat := Say(r.chat, call, Verbatim(text)), asked := r.asked || call.name == ASK_CALLER))
      case Later =>
        Open(r, env, call, Entry(env.session + ":" + call.id.text, call.name, Wait, Working, None, false, false, false),
             "")
  }

  lemma RunCallProper(r: Running, agent: Agent, env: Env, call: Call, k: nat)
    requires Proper(r.chat.panel) && Usable(agent)
    ensures RunCall(r, agent, env, call, k).Ok? ==> Proper(RunCall(r, agent, env, call, k).value.chat.panel)
  {
    hide Granted;
    if call.arguments.Arguments? && call.name !in agent.pipes && Granted(agent, call.name) {
      ControlProper(r, call);
    } else {
      hide Control;
    }
  }

  lemma ControlProper(r: Running, call: Call)
    requires Proper(r.chat.panel) && call.arguments.Arguments?
    ensures Control(r, call).Ok? ==> Proper(Control(r, call).value.chat.panel)
  {
  }

  function RunCalls(r: Running, agent: Agent, env: Env, calls: seq<Call>, n: nat): (s: Result<Running>)
    requires n <= |calls| && Proper(r.chat.panel) && Usable(agent)
    ensures s.Ok? ==> Proper(s.value.chat.panel)
  {
    if n == 0 then Ok(r)
    else
      var before := RunCalls(r, agent, env, calls, n - 1);
      if before.Err? then before
      else
        RunCallProper(before.value, agent, env, calls[n - 1], n - 1);
        RunCall(before.value, agent, env, calls[n - 1], n - 1)
  }

  // ---- The activation --------------------------------------------------------

  /** What an activation proposes. `shown` is the transcript the model was called with, if it was called. */
  datatype Proposed = Proposed(
    chat: Chat,
    deadline: Option<int>,
    complete: bool,
    shown: Option<seq<Message>>,
    posts: seq<Post>)

  /** The state as saved: closed entries are gone. */
  function Saved(c: Chat): Chat
    requires Proper(c.panel)
  {
    c.(panel := Panel(map id | id in c.panel.live :: c.panel.entries[id], c.panel.live))
  }

  function Propose(c: Chat, deadline: Option<int>): Result<Proposed>
    requires Proper(c.panel)
  {
    Ok(Proposed(Saved(c), deadline, false, None, []))
  }

  function WithPrompt(messages: seq<Message>, prompt: Option<string>): seq<Message> {
    if prompt.None? || (messages != [] && messages[0].SystemPrompt?) then messages
    else [SystemPrompt(prompt.value)] + messages
  }

  /** Replies to the caller and completes the session. */
  function Finish(c: Chat, content: string, status: WorkStatus, shown: Option<seq<Message>>): Result<Proposed>
    requires Proper(c.panel) && c.job.Some?
  {
    var job := c.job.value;
    Ok(Proposed(Saved(c.(job := Some(job.(status := status)))), None, true, shown,
                [Post(job.replyTo, ResultMail, Some(job.requestId), ForResult, content)]))
  }

  function TakeTurn(c: Chat, agent: Agent, env: Env): Result<Proposed>
    requires Proper(c.panel) && Usable(agent)
  {
    var shown := WithPrompt(c.messages, env.prompt);
    if env.reply.None? || !env.reply.value.Assistant? then Err(ValueError)
    else
      var reply := env.reply.value;
      var spoken := c.(messages := shown + [reply]);
      if reply.calls != [] then
        var ran := RunCalls(Running(spoken, false, {}, []), agent, env, reply.calls, |reply.calls|);
        if ran.Err? then Err(ran.error)
        else
          var after := ran.value.chat;
          var deadline :=
            if Waiting(after.panel) != [] then NextDeadline(after.panel, |after.panel.live|)
            else if ran.value.asked then None else Some(NOW);
          Ok(Proposed(Saved(after), deadline, false, Some(shown), ran.value.posts))
      else if Active(c) then Finish(spoken, reply.text, Completed, Some(shown))
      else
        var posts :=
          if agent.output.None? then []
          else [Post(agent.output.value, Kind.Message, None, ByLength(|spoken.messages|), reply.text)];
        Ok(Proposed(Saved(spoken), None, false, Some(shown), posts))
  }

  predicate Answerable(c: Chat) {
    && c.messages != []
    && (var last := c.messages[|c.messages| - 1]; last.UserSays? || last.Tool?)
    && !(c.job.Some? && c.job.value.status == InputRequired && c.messages[|c.messages| - 1].Tool?)
  }

  lemma {:induction false} SortLive(p: Panel, mail: seq<Letter>, n: nat)
    requires Proper(p) && n <= |mail|
    ensures Proper(Panel(p.entries, Sort(p, mail, n).live))
    ensures forall i | 0 <= i < |Sort(p, mail, n).replies| :: Sort(p, mail, n).replies[i].id in p.entries
    decreases n
  {
    if n == 0 {
    } else {
      SortLive(p, mail, n - 1);
      WithoutLive(Sort(p, mail, n - 1).live, mail[n - 1].requestId);
    }
  }

  lemma {:induction false} MarkAllKeys(entries: map<CallId, Entry>, replies: seq<Reply>, n: nat)
    requires n <= |replies|
    ensures MarkAll(entries, replies, n).Keys == entries.Keys
    decreases n
  {
    if n == 0 {
    } else {
      MarkAllKeys(entries, replies, n - 1);
    }
  }

  /** The panel after the mail is matched: results leave the table, and every reply marks its entry. */
  function Ingested(c: Chat, mail: seq<Letter>): (r: Chat)
    requires Proper(c.panel)
    ensures Proper(r.panel) && r.panel.entries.Keys == c.panel.entries.Keys
  {
    var s := Sort(c.panel, mail, |mail|);
    SortLive(c.panel, mail, |mail|);
    MarkAllKeys(c.panel.entries, s.replies, |s.replies|);
    c.(panel := Panel(MarkAll(c.panel.entries, s.replies, |s.replies|), s.live))
  }

  function Folded(c: Chat, mail: seq<Letter>): (r: Chat)
    requires Proper(c.panel)
    ensures Proper(r.panel)
  {
    var s, ingested := Sort(c.panel, mail, |mail|), Ingested(c, mail);
    FoldAll(ingested, s.replies, |s.replies|)
  }

  /** One activation of the agent. */
  function Resume(c: Chat, mail: seq<Letter>, agent: Agent, env: Env): Result<Proposed>
    requires Proper(c.panel) && Usable(agent)
  {
    var others := Sort(c.panel, mail, |mail|).others;
    var heard := HearAll(Folded(c, mail), others, |others|);
    if heard.Err? then Err(heard.error)
    else if heard.value.cancelled then Finish(heard.value.chat, "", Cancelled, None)
    else
      var ready := Flush(PromoteDue(heard.value.chat, env.now));
      if env.more then Propose(ready, None)
      else if Waiting(ready.panel) != [] then Propose(ready, NextDeadline(ready.panel, |ready.panel.live|))
      else if !Answerable(ready) then Propose(ready, None)
      else TakeTurn(ready, agent, env)
  }
}
