/** When a batch answers a call twice, and what well formed transcripts and messages mean. */
module TurnClash {
  import opened Mail
  import opened Conversation
  import opened TurnAccounting
  import opened TurnSafety
  import opened TurnTheorems

  // ---- Exactly when ----------------------------------------------------------

  /** The letter is about the live exchange `id`, from its provider. */
  predicate About(p: Panel, letter: Letter, id: CallId) {
    id in p.live && id in p.entries && letter.requestId == id && letter.source == p.entries[id].to
  }

  predicate AsksAbout(p: Panel, letter: Letter, id: CallId) { letter.kind.Ask? && About(p, letter, id) }

  predicate EndsIt(p: Panel, letter: Letter, id: CallId) { letter.kind.ResultMail? && About(p, letter, id) }

  /** Item `i` is a question on the exchange, and no result came before it. */
  predicate AskedAt(p: Panel, mail: seq<Letter>, i: nat, id: CallId)
    requires i < |mail|
  {
    AsksAbout(p, mail[i], id) && forall k | 0 <= k < i :: !EndsIt(p, mail[k], id)
  }

  /** The batch asks something on an exchange whose call is held open, and then ends that exchange. */
  ghost predicate Clash(p: Panel, mail: seq<Letter>) {
    exists i, j, id | 0 <= i < j < |mail| ::
      AskedAt(p, mail, i, id) && EndsIt(p, mail[j], id) && p.entries[id].mode.Wait?
  }

  /** Whether one of the first `n` items ends the exchange. */
  ghost predicate EndedBy(p: Panel, mail: seq<Letter>, n: nat, id: CallId)
    requires n <= |mail|
  {
    exists k | 0 <= k < n :: EndsIt(p, mail[k], id)
  }

  lemma EndedNext(p: Panel, mail: seq<Letter>, n: nat, id: CallId)
    requires 0 < n <= |mail|
    ensures EndedBy(p, mail, n, id) <==> EndedBy(p, mail, n - 1, id) || EndsIt(p, mail[n - 1], id)
  {
  }

  lemma {:induction false} LiveMeans(p: Panel, mail: seq<Letter>, n: nat, id: CallId)
    requires n <= |mail| && id in p.live && id in p.entries
    ensures id in Sort(p, mail, n).live <==> !EndedBy(p, mail, n, id)
    decreases n
  {
    if n == 0 {
    } else {
      LiveMeans(p, mail, n - 1, id);
      EndedNext(p, mail, n, id);
      LiveNext(p, mail, n, id);
      hide EndedBy, Sort, EndsIt;
    }
  }

  lemma LiveNext(p: Panel, mail: seq<Letter>, n: nat, id: CallId)
    requires 0 < n <= |mail| && id in p.live && id in p.entries
    ensures id in Sort(p, mail, n).live <==> id in Sort(p, mail, n - 1).live && !EndsIt(p, mail[n - 1], id)
  {
    var b, letter := Sort(p, mail, n - 1), mail[n - 1];
    InWithout(b.live, letter.requestId, id);
    hide Without;
  }

  /** Whether the replies hold a question on `id`. */
  ghost predicate HasAsk(replies: seq<Reply>, id: CallId) {
    exists k | 0 <= k < |replies| :: replies[k].kind.Ask? && replies[k].id == id
  }

  /** Whether one of the first `n` items is a question on the exchange before any result. */
  ghost predicate AskedBy(p: Panel, mail: seq<Letter>, n: nat, id: CallId)
    requires n <= |mail|
  {
    exists i | 0 <= i < n :: AskedAt(p, mail, i, id)
  }

  lemma {:induction false} AskMeans(p: Panel, mail: seq<Letter>, n: nat, id: CallId)
    requires n <= |mail| && id in p.live && id in p.entries
    ensures HasAsk(Sort(p, mail, n).replies, id) <==> AskedBy(p, mail, n, id)
    decreases n
  {
    if n == 0 {
    } else {
      AskMeans(p, mail, n - 1, id);
      LiveMeans(p, mail, n - 1, id);
      AskNext(p, mail, n, id);
      AskedNext(p, mail, n, id);
      hide HasAsk, AskedBy, AskedAt, Sort;
    }
  }

  lemma AskedNext(p: Panel, mail: seq<Letter>, n: nat, id: CallId)
    requires 0 < n <= |mail|
    ensures AskedBy(p, mail, n, id) <==> AskedBy(p, mail, n - 1, id) || AskedAt(p, mail, n - 1, id)
  {
  }

  lemma AskNext(p: Panel, mail: seq<Letter>, n: nat, id: CallId)
    requires 0 < n <= |mail| && id in p.live && id in p.entries
    requires id in Sort(p, mail, n - 1).live <==> !EndedBy(p, mail, n - 1, id)
    ensures HasAsk(Sort(p, mail, n).replies, id)
      <==> HasAsk(Sort(p, mail, n - 1).replies, id) || AskedAt(p, mail, n - 1, id)
  {
    var b, s, letter := Sort(p, mail, n - 1), Sort(p, mail, n), mail[n - 1];
    if Matches(p.entries, b.live, letter) {
      assert s.replies == b.replies + [ReplyOf(letter)];
      assert s.replies[|b.replies|] == ReplyOf(letter);
      forall k | 0 <= k < |b.replies| ensures s.replies[k] == b.replies[k] {
      }
    }
  }

  /** A question's call counts twice when its exchange has ended. */
  lemma {:induction false} ExtraMeans(entries: map<CallId, Entry>, live: seq<CallId>, replies: seq<Reply>, n: nat,
                                      id: CallId)
    requires n <= |replies|
    ensures id in Extra(entries, live, replies, n)
      <==> id !in live && id in entries && entries[id].mode.Wait? && HasAsk(replies[..n], id)
    decreases n
  {
    if n == 0 {
    } else {
      ExtraMeans(entries, live, replies, n - 1, id);
      assert replies[..n] == replies[..n - 1] + [replies[n - 1]];
      HasAskPush(replies[..n - 1], replies[n - 1], id);
    }
  }

  lemma HasAskPush(replies: seq<Reply>, r: Reply, id: CallId)
    ensures HasAsk(replies + [r], id) <==> HasAsk(replies, id) || (r.kind.Ask? && r.id == id)
  {
    assert (replies + [r])[|replies|] == r;
    if HasAsk(replies, id) {
      var k :| 0 <= k < |replies| && replies[k].kind.Ask? && replies[k].id == id;
      assert (replies + [r])[k] == replies[k];
    }
  }

  lemma InDoubled(p: Panel, mail: seq<Letter>, id: CallId)
    requires Proper(p)
    ensures id in Doubled(p, mail) <==>
      && id in p.live && p.entries[id].mode.Wait?
      && AskedBy(p, mail, |mail|, id)
      && EndedBy(p, mail, |mail|, id)
  {
    var s, n := Sort(p, mail, |mail|), |mail|;
    ExtraMeans(p.entries, s.live, s.replies, |s.replies|, id);
    assert s.replies[..|s.replies|] == s.replies;
    hide Sort, Extra, AskedAt, EndsIt;
    if id in p.live {
      LiveMeans(p, mail, n, id);
      AskMeans(p, mail, n, id);
    } else {
      SortFacts(p, mail, n);
    }
  }

  /** A batch answers a call twice exactly when it asks something on a held call's exchange and then ends it. */
  lemma DoubledMeansClash(p: Panel, mail: seq<Letter>)
    requires Proper(p)
    ensures Doubled(p, mail) != multiset{} <==> Clash(p, mail)
  {
    hide Doubled;
    if Doubled(p, mail) != multiset{} {
      var id :| id in Doubled(p, mail);
      InDoubled(p, mail, id);
      var i :| 0 <= i < |mail| && AskedAt(p, mail, i, id);
      var j :| 0 <= j < |mail| && EndsIt(p, mail[j], id);
      assert i < j;
    }
    if Clash(p, mail) {
      var i, j, id :| 0 <= i < j < |mail| && AskedAt(p, mail, i, id) && EndsIt(p, mail[j], id)
        && p.entries[id].mode.Wait?;
      InDoubled(p, mail, id);
    }
  }

  /** The model is shown a well formed transcript, and the account is kept, if and only if the batch does not
      ask on and then end one held exchange. */
  lemma WellFormedUnlessClash(c: Chat, mail: seq<Letter>, agent: Agent, env: Env)
    requires Kept(c) && Usable(agent) && Resume(c, mail, agent, env).Ok?
    ensures var r := Resume(c, mail, agent, env).value;
      && (Kept(r.chat) <==> !Clash(c.panel, mail))
      && (r.shown.Some? ==> (Scan(r.shown.value) == Some(multiset{}) <==> !Clash(c.panel, mail)))
  {
    ActivationKeeps(c, mail, agent, env);
    DoubledMeansClash(c.panel, mail);
  }

  // ---- Whole lives -----------------------------------------------------------

  /** One activation that a worker tried: the mail it was given and what it met. */
  datatype Wake = Wake(mail: seq<Letter>, env: Env)

  /** The chat after the first `n` activations; one that fails leaves the saved state as it was. */
  function Lived(c: Chat, agent: Agent, wakes: seq<Wake>, n: nat): (r: Chat)
    requires n <= |wakes| && Usable(agent) && Proper(c.panel)
    ensures Proper(r.panel)
  {
    if n == 0 then c
    else
      var before := Lived(c, agent, wakes, n - 1);
      var r := Resume(before, wakes[n - 1].mail, agent, wakes[n - 1].env);
      if r.Ok? then
        ResumeProper(before, wakes[n - 1].mail, agent, wakes[n - 1].env);
        r.value.chat
      else before
  }

  lemma ResumeProper(c: Chat, mail: seq<Letter>, agent: Agent, env: Env)
    requires Proper(c.panel) && Usable(agent) && Resume(c, mail, agent, env).Ok?
    ensures Proper(Resume(c, mail, agent, env).value.chat.panel)
  {
    hide RunCalls, HearAll, Folded, Sort, PromoteDue, Waiting, NextDeadline, Granted;
  }

  /** No activation so far was given a batch that asks on and then ends one held exchange. */
  ghost predicate NeverClashes(c: Chat, agent: Agent, wakes: seq<Wake>, n: nat)
    requires n <= |wakes| && Usable(agent) && Proper(c.panel)
  {
    forall k | 0 <= k < n :: !Clash(Lived(c, agent, wakes, k).panel, wakes[k].mail)
  }

  /** A new session: nothing said, nothing open. */
  function Fresh(job: Option<Job>): Chat { Chat([], [], [], job, Panel(map[], [])) }

  lemma FreshKept(job: Option<Job>)
    ensures Kept(Fresh(job))
  {
    assert WaitSet(Fresh(job).panel) == {};
    assert Held(Fresh(job)) == multiset{};
  }

  lemma {:induction false} LivesKept(c: Chat, agent: Agent, wakes: seq<Wake>, n: nat)
    requires n <= |wakes| && Usable(agent) && Kept(c) && NeverClashes(c, agent, wakes, n)
    ensures Kept(Lived(c, agent, wakes, n))
    decreases n
  {
    if n == 0 {
    } else {
      LivesKept(c, agent, wakes, n - 1);
      var before := Lived(c, agent, wakes, n - 1);
      hide Kept, Clash, Resume, Usable;
      if Resume(before, wakes[n - 1].mail, agent, wakes[n - 1].env).Ok? {
        WellFormedUnlessClash(before, wakes[n - 1].mail, agent, wakes[n - 1].env);
      }
    }
  }

  /** Whenever the model is called, in any life without a clash, every call has exactly one answer. */
  lemma EveryModelCallIsWellFormed(agent: Agent, job: Option<Job>, wakes: seq<Wake>, n: nat)
    requires n < |wakes| && Usable(agent) && NeverClashes(Fresh(job), agent, wakes, n + 1)
    ensures var r := Resume(Lived(Fresh(job), agent, wakes, n), wakes[n].mail, agent, wakes[n].env);
      r.Ok? && r.value.shown.Some? ==> Scan(r.value.shown.value) == Some(multiset{})
  {
    FreshKept(job);
    LivesKept(Fresh(job), agent, wakes, n);
    var c := Lived(Fresh(job), agent, wakes, n);
    if Resume(c, wakes[n].mail, agent, wakes[n].env).Ok? {
      WellFormedUnlessClash(c, wakes[n].mail, agent, wakes[n].env);
    }
  }

  // ---- What a well formed transcript says ------------------------------------

  lemma {:induction false} CallCount(calls: seq<Call>)
    ensures |CallIds(calls)| == |calls|
    decreases |calls|
  {
    if calls == [] {
    } else {
      CallCount(calls[..|calls| - 1]);
    }
  }

  /** Reading on from `done`: the next message is accepted. */
  lemma NextAccepted(done: seq<Message>, m: Message, rest: seq<Message>)
    requires Scan(done + ([m] + rest)).Some?
    ensures Scan(done).Some? && Scan(done + [m]).Some?
    ensures Scan(done + [m]) == Read(Scan(done).value, m)
  {
    var longer := done + ([m] + rest);
    assert done + [m] <= longer && done <= longer;
    ScanPush(done, m);
    if Scan(done + [m]).None? {
      ScanDead(done + [m], longer);
    }
  }

  lemma {:induction false} ToolIdsFront(m: Message, tools: seq<Message>)
    requires m.Tool?
    ensures ToolIds([m] + tools) == multiset{m.callId} + ToolIds(tools)
    decreases |tools|
  {
    if tools == [] {
      assert [m] + tools == [] + [m];
      ToolIdsPush([], m);
    } else {
      var n := |tools| - 1;
      ToolIdsFront(m, tools[..n]);
      SplitLast([m], tools);
      ToolIdsPush([m] + tools[..n], tools[n]);
      ToolIdsPush(tools[..n], tools[n]);
      hide ToolIds;
    }
  }

  /** What follows `done` answers its open calls one by one, and then comes no further tool message. */
  predicate AnsweredBy(open: multiset<CallId>, rest: seq<Message>, block: seq<Message>, tail: seq<Message>) {
    && rest == block + tail && AllTools(block) && |block| == |open|
    && ToolIds(block) == open && (tail != [] ==> !tail[0].Tool?)
  }

  lemma HeadAndTail(rest: seq<Message>)
    requires rest != []
    ensures rest == [rest[0]] + rest[1..]
  {
  }

  lemma AnsweredNext(open: multiset<CallId>, h: Message, rest: seq<Message>, block: seq<Message>, tail: seq<Message>)
    requires h.Tool? && h.callId in open && AnsweredBy(open - multiset{h.callId}, rest, block, tail)
    ensures AnsweredBy(open, [h] + rest, [h] + block, tail)
  {
    ToolIdsFront(h, block);
    Regrouped([h], block, tail);
    AllToolsFront(h, block);
    PutBack(open, h.callId);
    hide ToolIds, AllTools;
  }

  lemma AllToolsFront(h: Message, block: seq<Message>)
    requires h.Tool? && AllTools(block)
    ensures AllTools([h] + block)
  {
  }

  lemma PutBack(open: multiset<CallId>, id: CallId)
    requires id in open
    ensures multiset{id} + (open - multiset{id}) == open && |open| == 1 + |open - multiset{id}|
  {
  }

  lemma {:induction false} AnswersFollow(done: seq<Message>, rest: seq<Message>, open: multiset<CallId>)
    returns (block: seq<Message>, tail: seq<Message>)
    requires Scan(done + rest) == Some(multiset{}) && Scan(done) == Some(open)
    ensures AnsweredBy(open, rest, block, tail)
    decreases |rest|
  {
    hide Scan, ToolIds;
    if rest == [] {
      assert done + rest == done;
      block, tail := [], [];
      NoAnswers(open, rest);
    } else {
      HeadAndTail(rest);
      NextAccepted(done, rest[0], rest[1..]);
      if open == multiset{} {
        block, tail := [], rest;
        NoAnswers(open, rest);
      } else {
        Regrouped(done, [rest[0]], rest[1..]);
        var more;
        more, tail := AnswersFollow(done + [rest[0]], rest[1..], open - multiset{rest[0].callId});
        block := [rest[0]] + more;
        AnsweredNext(open, rest[0], rest[1..], more, tail);
      }
    }
  }

  lemma NoAnswers(open: multiset<CallId>, rest: seq<Message>)
    requires open == multiset{} && (rest != [] ==> !rest[0].Tool?)
    ensures AnsweredBy(open, rest, [], rest)
  {
  }

  /** In a well formed transcript every assistant message is followed at once by exactly one tool message for
      each of its calls, and then by no further tool message. */
  lemma EveryCallAnsweredOnce(before: seq<Message>, assistant: Message, rest: seq<Message>)
    returns (block: seq<Message>, tail: seq<Message>)
    requires assistant.Assistant? && Scan(before + ([assistant] + rest)) == Some(multiset{})
    ensures rest == block + tail && AllTools(block) && |block| == |assistant.calls|
    ensures ToolIds(block) == CallIds(assistant.calls) && (tail != [] ==> !tail[0].Tool?)
  {
    NextAccepted(before, assistant, rest);
    Regrouped(before, [assistant], rest);
    CallCount(assistant.calls);
    block, tail := AnswersFollow(before + [assistant], rest, CallIds(assistant.calls));
  }

  // ---- The clash happens -----------------------------------------------------

  /** An agent without pipes; its tools may defer their results. */
  const QUIET_AGENT := Agent(map[], None)

  function Greeting(text: string): Letter {
    Letter(External("hello"), User, "user", CallId(""), Some(text), None, None, "")
  }

  /** The model makes one call, which its tool defers. */
  function Calling(session: Id, call: Call): Env {
    Env(session, 0, false, None, Some(Assistant("", [call])), (k: nat) => Later, (k: nat) => 0, {})
  }

  /** The model answers with text. */
  function Finishing(session: Id): Env {
    Env(session, 0, false, None, Some(Assistant("fine", [])), (k: nat) => Later, (k: nat) => 0, {})
  }

  function Provider(session: Id, call: Call): Id { session + ":" + call.id.text }

  /** The provider asks, then finishes, and both letters come in one batch. */
  function AskThenResult(session: Id, call: Call, question: string, answer: string): seq<Letter> {
    [Letter(External("one"), Ask, Provider(session, call), call.id, Some(question), None, None, ""),
     Letter(External("two"), ResultMail, Provider(session, call), call.id, Some(answer), None, None, "")]
  }

  /** The session once its first activation has left the call held open. */
  function WaitingChat(session: Id, call: Call, hello: string): Chat {
    Chat([UserSays(Said(hello)), Assistant("", [call])], [], [], None,
         Panel(map[call.id := Entry(Provider(session, call), call.name, Wait, Working, None, false, false, false)],
               [call.id]))
  }

  predicate Deferrable(call: Call) { call.arguments.Arguments? && call.id.text != "" }

  lemma HelloHeard(hello: string)
    ensures var c, mail := Fresh(None), [Greeting(hello)];
      && Sort(c.panel, mail, 1) == Split([], mail, []) && Folded(c, mail) == c
      && HearAll(c, mail, 1) == Ok(Heard(c.(buffered := [UserSays(Said(hello))]), false))
  {
    var c, mail := Fresh(None), [Greeting(hello)];
    assert [] + mail == mail;
    assert Sort(c.panel, mail, 0) == Split([], [], []);
    assert Waiting(c.panel) == [];
    assert Deliver(c, Said(hello)) == c.(buffered := [UserSays(Said(hello))]);
    assert HearAll(c, mail, 0) == Ok(Heard(c, false));
  }

  lemma CallOpens(session: Id, call: Call, hello: string)
    requires Deferrable(call)
    ensures var c := Fresh(None).(messages := [UserSays(Said(hello))]);
      && TakeTurn(c, QUIET_AGENT, Calling(session, call)).Ok?
      && TakeTurn(c, QUIET_AGENT, Calling(session, call)).value.chat == WaitingChat(session, call, hello)
  {
    var c, env := Fresh(None).(messages := [UserSays(Said(hello))]), Calling(session, call);
    var spoken := c.(messages := c.messages + [Assistant("", [call])]);
    var r := Running(spoken, false, {}, []);
    assert RunCalls(r, QUIET_AGENT, env, [call], 0) == Ok(r);
    assert !Granted(QUIET_AGENT, call.name);
    var held := RunCall(r, QUIET_AGENT, env, call, 0);
    assert held.Ok? && RunCalls(r, QUIET_AGENT, env, [call], 1) == held;
    assert held.value.chat == WaitingChat(session, call, hello);
    assert Saved(held.value.chat) == held.value.chat;
  }

  /** The first activation holds the call open. */
  lemma CallIsHeld(session: Id, call: Call, hello: string)
    requires Deferrable(call)
    ensures var r := Resume(Fresh(None), [Greeting(hello)], QUIET_AGENT, Calling(session, call));
      r.Ok? && r.value.chat == WaitingChat(session, call, hello)
  {
    var c, mail, env := Fresh(None), [Greeting(hello)], Calling(session, call);
    HelloHeard(hello);
    CallOpens(session, call, hello);
    var heard := c.(buffered := [UserSays(Said(hello))]);
    hide TakeTurn, HearAll, Sort, Folded;
    assert Due(heard.panel, env.now, 0) == [] && PromoteDue(heard, env.now) == heard && Waiting(heard.panel) == [];
    var ready := Flush(heard);
    assert ready.messages == [] + [] + [UserSays(Said(hello))] == [UserSays(Said(hello))];
    assert ready == c.(messages := [UserSays(Said(hello))]) && Waiting(ready.panel) == [];
  }

  lemma WaitingChatKept(session: Id, call: Call, hello: string, question: string, answer: string)
    requires Deferrable(call)
    ensures Kept(WaitingChat(session, call, hello))
    ensures Clash(WaitingChat(session, call, hello).panel, AskThenResult(session, call, question, answer))
  {
    var c, mail := WaitingChat(session, call, hello), AskThenResult(session, call, question, answer);
    FreshKept(None);
    CallIsHeld(session, call, hello);
    hide Resume;
    WellFormedUnlessClash(Fresh(None), [Greeting(hello)], QUIET_AGENT, Calling(session, call));
    assert !Clash(Fresh(None).panel, [Greeting(hello)]);
    assert AskedAt(c.panel, mail, 0, call.id) && EndsIt(c.panel, mail[1], call.id);
  }

  lemma ClashSorts(session: Id, call: Call, hello: string, question: string, answer: string)
    ensures var p, mail := WaitingChat(session, call, hello).panel, AskThenResult(session, call, question, answer);
      var s := Sort(p, mail, 2);
      s.others == [] && s.live == [] && s.replies == [ReplyOf(mail[0]), ReplyOf(mail[1])]
  {
    var p, mail := WaitingChat(session, call, hello).panel, AskThenResult(session, call, question, answer);
    assert call.id in p.live && Matches(p.entries, p.live, mail[0]);
    assert Sort(p, mail, 1).live == p.live && Sort(p, mail, 1).replies == [ReplyOf(mail[0])];
    assert Matches(p.entries, p.live, mail[1]);
    assert [call.id][..0] == [] && Without([call.id], call.id) == [];
  }

  lemma ClashFolds(session: Id, call: Call, hello: string, question: string, answer: string)
    ensures var d := Folded(WaitingChat(session, call, hello), AskThenResult(session, call, question, answer));
      d.panel.live == [] && d.job == None && |d.deferred| == 2 && d.deferred[1].Tool? && d.buffered == []
  {
    var c, mail := WaitingChat(session, call, hello), AskThenResult(session, call, question, answer);
    ClashSorts(session, call, hello, question, answer);
    var replies, d := [ReplyOf(mail[0]), ReplyOf(mail[1])], Ingested(c, mail);
    assert MarkAll(c.panel.entries, replies, 1)[call.id].status == InputRequired;
    var e := d.panel.entries[call.id];
    assert d.panel.live == [] && e.mode.Wait? && !e.fenced && call.id !in d.panel.live;
    assert replies[0].kind.Ask? && replies[0].id == call.id && replies[1].kind.ResultMail? && replies[1].id == call.id;
    hide MarkAll, Sort, Ingested;
    assert FoldAll(d, replies, 0) == d && call.id in d.panel.entries;
    var one := FoldAll(d, replies, 1);
    assert one == Fold(d, replies[0]);
    assert one == Defer(d, call.id, Asks(e.to, replies[0].text));
    assert FoldAll(d, replies, 2) == Fold(one, replies[1]);
    assert FoldAll(d, replies, 2) == Defer(one, call.id, Outcome(e, replies[1].text));
  }

  /** What the waiting session does with the batch. */
  lemma ClashBreaks(session: Id, call: Call, hello: string, question: string, answer: string)
    requires Deferrable(call)
    ensures var c, mail := WaitingChat(session, call, hello), AskThenResult(session, call, question, answer);
      var r := Resume(c, mail, QUIET_AGENT, Finishing(session));
      r.Ok? && r.value.shown.Some? && Scan(r.value.shown.value).None?
  {
    var c, mail, env :=
      WaitingChat(session, call, hello), AskThenResult(session, call, question, answer), Finishing(session);
    WaitingChatKept(session, call, hello, question, answer);
    ClashSorts(session, call, hello, question, answer);
    ClashFolds(session, call, hello, question, answer);
    var d := Folded(c, mail);
    hide Folded, Sort, Scan;
    assert HearAll(d, [], 0) == Ok(Heard(d, false));
    assert Due(d.panel, env.now, 0) == [] && PromoteDue(d, env.now) == d && Waiting(d.panel) == [];
    var ready := Flush(d);
    assert ready.messages == d.messages + d.deferred + d.buffered == d.messages + d.deferred;
    assert ready.messages[|ready.messages| - 1] == d.deferred[1];
    assert Answerable(ready) && TakeTurn(ready, QUIET_AGENT, env).Ok?;
    var r := Resume(c, mail, QUIET_AGENT, env);
    assert r == TakeTurn(ready, QUIET_AGENT, env);
    HeededKeeps(c, mail, env);
    DoubledMeansClash(c.panel, mail);
    FlushedKeeps(c, d, Doubled(c.panel, mail));
    NoneWaiting(d.panel);
    BrokenTurn(ready, QUIET_AGENT, env);
  }

  /** The condition is met by real lives: whatever call a fresh session holds open, if its provider asks and then
      finishes in one batch, the model is next shown a transcript that answers the call twice. */
  lemma ClashBreaksTheTranscript(session: Id, call: Call, hello: string, question: string, answer: string)
    requires Deferrable(call)
    ensures var wakes := [Wake([Greeting(hello)], Calling(session, call)),
                          Wake(AskThenResult(session, call, question, answer), Finishing(session))];
      var r := Resume(Lived(Fresh(None), QUIET_AGENT, wakes, 1), wakes[1].mail, QUIET_AGENT, wakes[1].env);
      r.Ok? && r.value.shown.Some? && Scan(r.value.shown.value).None?
  {
    CallIsHeld(session, call, hello);
    ClashBreaks(session, call, hello, question, answer);
    var wakes := [Wake([Greeting(hello)], Calling(session, call)),
                  Wake(AskThenResult(session, call, question, answer), Finishing(session))];
    hide Resume, Scan;
    assert Lived(Fresh(None), QUIET_AGENT, wakes, 0) == Fresh(None);
    assert Lived(Fresh(None), QUIET_AGENT, wakes, 1) == WaitingChat(session, call, hello);
  }
}
