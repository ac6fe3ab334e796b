/** Requests and replies between durable sessions: stable identities on the way out, a pending table on the way in, and
    at most one closing from end to end. */
module RequestReply {
  import opened Mail
  import opened SessionStore
  import opened SessionHistory
  import opened SessionSafety
  import opened SessionTheorems

  /** One exchange the caller waits on; a table lists them in the order they were opened. */
  datatype Exchange = Exchange(request: EventId, to: Id, title: string)

  datatype Reply = Reply(exchange: Exchange, event: Event)

  datatype Split = Split(table: seq<Exchange>, replies: seq<Reply>, others: seq<Event>)

  predicate IsReplyKind(kind: Kind) { kind == ResultMail || kind == Ask || kind == Progress }

  function Find(table: seq<Exchange>, request: EventId): Option<Exchange> {
    if table == [] then None
    else if table[0].request == request then Some(table[0])
    else Find(table[1..], request)
  }

  function Forget(table: seq<Exchange>, request: EventId): seq<Exchange> {
    if table == [] then []
    else if table[0].request == request then table[1..]
    else [table[0]] + Forget(table[1..], request)
  }

  predicate OneEach(table: seq<Exchange>) {
    forall i, j | 0 <= i < j < |table| :: table[i].request != table[j].request
  }

  /** The exchange the event replies to: of a reply kind, with a pending request, from the session it was sent to. */
  function Answers(table: seq<Exchange>, e: Event): Option<Exchange> {
    if !IsReplyKind(e.kind) || e.requestId.None? then None
    else match Find(table, e.requestId.value)
      case None => None
      case Some(x) => if e.source == x.to then Some(x) else None
  }

  /** Delivered mail split into matched replies and everything else; a result closes its exchange. */
  function Ingest(table: seq<Exchange>, mail: seq<Event>): Split {
    if mail == [] then Split(table, [], [])
    else
      var before, e := Ingest(table, mail[..|mail| - 1]), mail[|mail| - 1];
      match Answers(before.table, e)
      case None => before.(others := before.others + [e])
      case Some(x) =>
        Split(if e.kind == ResultMail then Forget(before.table, x.request) else before.table,
              before.replies + [Reply(x, e)],
              before.others)
  }

  // ---- There and back --------------------------------------------------------

  /** The mail of a request: it names itself as the exchange, and its sender as where to reply. */
  function Requested(caller: Id, key: string, payload: Payload): Event {
    var id := Sent(caller, Plain(key));
    Event(id, Kind.Request, caller, Some(id), Some(caller), payload)
  }

  /** The result of a request, as mail to whoever it names; a request that names no exchange or no sender has none. */
  function Replied(provider: Id, request: Event, name: string, payload: Payload): Result<Publication> {
    if request.requestId.None? || request.replyTo.None? then Err(KeyError)
    else
      var id := Sent(provider, ReplyTo(request.requestId.value, name));
      Ok(Publication(request.replyTo.value, Event(id, ResultMail, provider, request.requestId, None, payload)))
  }

  /** The provider's answer to a request goes back to its caller, under the same identity on every attempt, and closes
      the very exchange the caller remembered; an answer by anybody else, or to another request, closes nothing of
      it. */
  lemma RoundTrip(table: seq<Exchange>, x: Exchange, caller: Id, key: string, asked: Payload, answerer: Id,
                  request: Event, name: string, answer: Payload)
    requires OneEach(table) && x in table && x.request == Requested(caller, key, asked).id
    requires Replied(answerer, request, name, answer).Ok?
    ensures var p := Replied(answerer, request, name, answer).value;
      && (request == Requested(caller, key, asked) ==> p.session == caller)
      && (Answers(table, p.event) == Some(x) <==> request.requestId == Some(x.request) && answerer == x.to)
      && (Answers(table, p.event) == Some(x) ==> Find(Ingest(table, [p.event]).table, x.request).None?)
  {
    var e := Replied(answerer, request, name, answer).value.event;
    FindIn(table, x);
    FindFacts(table, e.requestId.value);
    ForgetFacts(table, x.request);
    assert [e][..0] == [] && Ingest(table, []) == Split(table, [], []);
  }

  lemma {:induction false} FindIn(table: seq<Exchange>, x: Exchange)
    requires OneEach(table) && x in table
    ensures Find(table, x.request) == Some(x)
  {
    if table[0] != x {
      Parted(table);
      FindIn(table[1..], x);
    }
  }

  // ---- The split -------------------------------------------------------------

  /** Which items matched an exchange pending at their turn. */
  function Matched(table: seq<Exchange>, mail: seq<Event>): (marks: seq<bool>)
    ensures |marks| == |mail|
  {
    seq(|mail|, i requires 0 <= i < |mail| => Answers(Ingest(table, mail[..i]).table, mail[i]).Some?)
  }

  function Pick(mail: seq<Event>, marks: seq<bool>, wanted: bool): seq<Event>
    requires |marks| == |mail|
  {
    if mail == [] then []
    else
      var n := |mail| - 1;
      Pick(mail[..n], marks[..n], wanted) + if marks[n] == wanted then [mail[n]] else []
  }

  function Events(replies: seq<Reply>): seq<Event> {
    seq(|replies|, i requires 0 <= i < |replies| => replies[i].event)
  }

  /** The batch falls apart into the items that matched and the rest, each in order of arrival. */
  lemma {:induction false} IngestSplits(table: seq<Exchange>, mail: seq<Event>)
    ensures Events(Ingest(table, mail).replies) == Pick(mail, Matched(table, mail), true)
    ensures Ingest(table, mail).others == Pick(mail, Matched(table, mail), false)
    decreases |mail|
  {
    if mail == [] {
    } else {
      var n := |mail| - 1;
      IngestSplits(table, mail[..n]);
      assert Matched(table, mail)[..n] == Matched(table, mail[..n]) by {
        assert forall i | 0 <= i < n :: mail[..n][..i] == mail[..i];
      }
      var replies := Ingest(table, mail[..n]).replies;
      assert forall r: Reply :: Events(replies + [r]) == Events(replies) + [r.event];
    }
  }

  // ---- Closing ---------------------------------------------------------------

  predicate Closes(r: Reply, request: EventId) {
    r.exchange.request == request && r.event.kind == ResultMail
  }

  function Closings(replies: seq<Reply>, request: EventId): nat {
    if replies == [] then 0
    else Closings(replies[..|replies| - 1], request) + if Closes(replies[|replies| - 1], request) then 1 else 0
  }

  function Open(table: seq<Exchange>, request: EventId): nat { if Find(table, request).Some? then 1 else 0 }

  lemma {:induction false} FindFacts(table: seq<Exchange>, request: EventId)
    ensures Find(table, request).Some? ==>
      Find(table, request).value in table && Find(table, request).value.request == request
    ensures Find(table, request).None? ==> forall x | x in table :: x.request != request
  {
    if table != [] && table[0].request != request {
      FindFacts(table[1..], request);
    }
  }

  lemma Joined(x: Exchange, rest: seq<Exchange>)
    requires OneEach(rest) && forall y | y in rest :: y.request != x.request
    ensures OneEach([x] + rest)
  {
  }

  lemma Parted(table: seq<Exchange>)
    requires OneEach(table) && table != []
    ensures OneEach(table[1..]) && forall y | y in table[1..] :: y.request != table[0].request
  {
  }

  lemma {:induction false} ForgetFacts(table: seq<Exchange>, request: EventId)
    requires OneEach(table)
    ensures OneEach(Forget(table, request)) && Find(Forget(table, request), request).None?
    ensures forall x | x in Forget(table, request) :: x in table
    ensures forall other | other != request :: Find(Forget(table, request), other) == Find(table, other)
  {
    if table == [] {
    } else {
      Parted(table);
      hide OneEach;
      if table[0].request == request {
        FindFacts(table[1..], request);
      } else {
        ForgetFacts(table[1..], request);
        Joined(table[0], Forget(table[1..], request));
      }
    }
  }

  /** A batch closes a pending exchange at most once, and then it is pending no more; an exchange that is not pending
      is never closed. */
  lemma {:induction false} ClosedOnce(table: seq<Exchange>, mail: seq<Event>, request: EventId)
    requires OneEach(table)
    ensures OneEach(Ingest(table, mail).table)
    ensures Closings(Ingest(table, mail).replies, request) + Open(Ingest(table, mail).table, request) ==
      Open(table, request)
    decreases |mail|
  {
    if mail == [] {
    } else {
      var n := |mail| - 1;
      ClosedOnce(table, mail[..n], request);
      var before, e := Ingest(table, mail[..n]), mail[n];
      if Answers(before.table, e).Some? {
        ClosedStep(before, e, request);
      }
    }
  }

  lemma ClosedStep(before: Split, e: Event, request: EventId)
    requires OneEach(before.table) && Answers(before.table, e).Some?
    ensures var x := Answers(before.table, e).value;
      var table := if e.kind == ResultMail then Forget(before.table, x.request) else before.table;
      var replies := before.replies + [Reply(x, e)];
      OneEach(table)
        && Closings(replies, request) + Open(table, request) ==
          Closings(before.replies, request) + Open(before.table, request)
  {
    var x := Answers(before.table, e).value;
    FindFacts(before.table, e.requestId.value);
    ForgetFacts(before.table, x.request);
    assert (before.replies + [Reply(x, e)])[..|before.replies|] == before.replies;
    hide OneEach, Find, Forget;
  }

  // ---- Whole lives of a table ------------------------------------------------

  datatype Use = Asked(request: EventId, to: Id, title: string) | Heard(mail: seq<Event>) | Dropped(to: Id)

  /** Remembering a request under an identity already pending replaces its entry in place. */
  function Remember(table: seq<Exchange>, x: Exchange): seq<Exchange> {
    if table == [] then [x]
    else if table[0].request == x.request then [x] + table[1..]
    else [table[0]] + Remember(table[1..], x)
  }

  function Without(table: seq<Exchange>, to: Id): seq<Exchange> {
    if table == [] then []
    else (if table[0].to == to then [] else [table[0]]) + Without(table[1..], to)
  }

  function Used(table: seq<Exchange>, u: Use): seq<Exchange> {
    match u
    case Asked(request, to, title) => Remember(table, Exchange(request, to, title))
    case Heard(mail) => Ingest(table, mail).table
    case Dropped(to) => Without(table, to)
  }

  function Uses(table: seq<Exchange>, run: seq<Use>): seq<Exchange>
    decreases |run|
  {
    if run == [] then table else Used(Uses(table, run[..|run| - 1]), run[|run| - 1])
  }

  function Closed(table: seq<Exchange>, u: Use, request: EventId): nat {
    if u.Heard? then Closings(Ingest(table, u.mail).replies, request) else 0
  }

  function TimesClosed(table: seq<Exchange>, run: seq<Use>, request: EventId): nat
    decreases |run|
  {
    if run == [] then 0
    else
      var n := |run| - 1;
      TimesClosed(table, run[..n], request) + Closed(Uses(table, run[..n]), run[n], request)
  }

  function TimesAsked(run: seq<Use>, request: EventId): nat
    decreases |run|
  {
    if run == [] then 0
    else
      var n := |run| - 1;
      TimesAsked(run[..n], request) + if run[n].Asked? && run[n].request == request then 1 else 0
  }

  lemma {:induction false} RememberFacts(table: seq<Exchange>, x: Exchange)
    requires OneEach(table)
    ensures OneEach(Remember(table, x)) && Find(Remember(table, x), x.request).Some?
    ensures forall other | other != x.request :: Find(Remember(table, x), other) == Find(table, other)
    ensures forall y | y in Remember(table, x) :: y == x || y in table
  {
    if table == [] {
      assert Remember(table, x) == [x];
    } else {
      Parted(table);
      hide OneEach;
      if table[0].request == x.request {
        Joined(x, table[1..]);
      } else {
        RememberFacts(table[1..], x);
        Joined(table[0], Remember(table[1..], x));
      }
    }
  }

  lemma {:induction false} WithoutFacts(table: seq<Exchange>, to: Id)
    requires OneEach(table)
    ensures OneEach(Without(table, to)) && forall x :: x in Without(table, to) <==> x in table && x.to != to
  {
    if table == [] {
    } else {
      Parted(table);
      hide OneEach;
      WithoutFacts(table[1..], to);
      var rest := Without(table[1..], to);
      assert table == [table[0]] + table[1..];
      assert Without(table, to) == if table[0].to == to then rest else [table[0]] + rest;
      hide Without;
      if table[0].to != to {
        Joined(table[0], rest);
      }
    }
  }

  lemma WithoutFind(table: seq<Exchange>, to: Id, request: EventId)
    requires OneEach(table) && Find(Without(table, to), request).Some?
    ensures Find(table, request).Some?
  {
    WithoutFacts(table, to);
    FindFacts(Without(table, to), request);
    FindFacts(table, request);
  }

  /** Over the whole life of a table an exchange is closed at most as often as it was asked: every closing takes one
      request away, and none reappears by itself. */
  lemma {:induction false} ClosedAsAsked(table: seq<Exchange>, run: seq<Use>, request: EventId)
    requires OneEach(table)
    ensures OneEach(Uses(table, run))
    ensures TimesClosed(table, run, request) + Open(Uses(table, run), request) <=
      TimesAsked(run, request) + Open(table, request)
    decreases |run|
  {
    if run == [] {
    } else {
      var n := |run| - 1;
      ClosedAsAsked(table, run[..n], request);
      var t := Uses(table, run[..n]);
      match run[n]
      case Asked(r, to, title) =>
        RememberFacts(t, Exchange(r, to, title));
        assert r != request ==> Find(Remember(t, Exchange(r, to, title)), request) == Find(t, request);
      case Heard(mail) => ClosedOnce(t, mail, request);
      case Dropped(to) =>
        WithoutFacts(t, to);
        if Find(Without(t, to), request).Some? {
          WithoutFind(t, to, request);
        }
    }
  }

  // ---- From end to end -------------------------------------------------------

  predicate IsResult(e: Event, provider: Id, request: EventId) {
    e.kind == ResultMail && e.requestId == Some(request) && e.source == provider
  }

  /** The closings by a provider among the replies, counting those whose mail the checkpoint incorporated. */
  function ClosingsTaken(replies: seq<Reply>, took: seq<EventId>, provider: Id, request: EventId): nat {
    if replies == [] then 0
    else
      var r := replies[|replies| - 1];
      ClosingsTaken(replies[..|replies| - 1], took, provider, request)
        + if Closes(r, request) && r.exchange.to == provider && r.event.id in took then 1 else 0
  }

  lemma {:induction false} ClosingsTakenBound(replies: seq<Reply>, took: seq<EventId>, provider: Id, request: EventId)
    ensures ClosingsTaken(replies, took, provider, request) <= Closings(replies, request)
    decreases |replies|
  {
    if replies == [] {
    } else {
      ClosingsTakenBound(replies[..|replies| - 1], took, provider, request);
    }
  }

  /** Results for the request carry the identity the provider derives from it and one reply key. */
  predicate OneKey(mail: seq<Event>, provider: Id, request: EventId, name: string) {
    forall e | e in mail && IsResult(e, provider, request) :: e.id == Sent(provider, ReplyTo(request, name))
  }

  /** A closing that counts takes the one result. */
  lemma {:induction false} TakesTheResult(table: seq<Exchange>, mail: seq<Event>, took: seq<EventId>, provider: Id,
                                          request: EventId, name: string)
    requires OneKey(mail, provider, request, name) && Sent(provider, ReplyTo(request, name)) !in took
    ensures ClosingsTaken(Ingest(table, mail).replies, took, provider, request) == 0
    decreases |mail|
  {
    hide OneKey, ClosingsTaken, Answers;
    if mail == [] {
      NoneTaken(took, provider, request);
    } else {
      var n := |mail| - 1;
      OneKeyFront(mail, provider, request, name);
      TakesTheResult(table, mail[..n], took, provider, request, name);
      var before, e := Ingest(table, mail[..n]), mail[n];
      if Answers(before.table, e).Some? {
        NotTaken(before, e, took, provider, request);
      }
    }
  }

  lemma NoneTaken(took: seq<EventId>, provider: Id, request: EventId)
    ensures ClosingsTaken([], took, provider, request) == 0
  {
  }

  lemma OneKeyFront(mail: seq<Event>, provider: Id, request: EventId, name: string)
    requires mail != [] && OneKey(mail, provider, request, name)
    ensures OneKey(mail[..|mail| - 1], provider, request, name)
    ensures var e := mail[|mail| - 1]; IsResult(e, provider, request) ==> e.id == Sent(provider, ReplyTo(request, name))
  {
  }

  lemma NotTaken(before: Split, e: Event, took: seq<EventId>, provider: Id, request: EventId)
    requires Answers(before.table, e).Some? && (IsResult(e, provider, request) ==> e.id !in took)
    ensures ClosingsTaken(before.replies + [Reply(Answers(before.table, e).value, e)], took, provider, request)
      == ClosingsTaken(before.replies, took, provider, request)
  {
    FindFacts(before.table, e.requestId.value);
    assert (before.replies + [Reply(Answers(before.table, e).value, e)])[..|before.replies|] == before.replies;
    hide Find;
  }

  /** The exchanges a provider closed over a session's accepted checkpoints, each of which ingests the batch it was
      delivered with whatever table its handler restored, and may incorporate only part of it. */
  function ClosedOver(entries: seq<Entry>, issued: seq<Lease>, tables: seq<seq<Exchange>>, provider: Id,
                      request: EventId): nat
    requires |tables| == |entries|
  {
    if entries == [] then 0
    else
      var n := |entries| - 1;
      ClosedOver(entries[..n], issued, tables[..n], provider, request)
        + if entries[n].token < |issued|
          then ClosingsTaken(Ingest(tables[n], issued[entries[n].token].act.events).replies, entries[n].took, provider,
                             request)
          else 0
  }

  function Takers(entries: seq<Entry>, id: EventId): nat {
    if entries == [] then 0
    else Takers(entries[..|entries| - 1], id) + if id in entries[|entries| - 1].took then 1 else 0
  }

  lemma {:induction false} OneTaker(entries: seq<Entry>, id: EventId)
    requires forall k, l | 0 <= k < l < |entries| && id in entries[k].took :: id !in entries[l].took
    ensures Takers(entries, id) <= 1
    ensures Takers(entries, id) == 1 ==> exists k :: 0 <= k < |entries| && id in entries[k].took
    decreases |entries|
  {
    if entries == [] {
    } else {
      OneTaker(entries[..|entries| - 1], id);
    }
  }

  lemma {:induction false} ClosedByTakers(entries: seq<Entry>, issued: seq<Lease>, tables: seq<seq<Exchange>>,
                                          provider: Id, request: EventId, name: string)
    requires |tables| == |entries| && (forall k | 0 <= k < |tables| :: OneEach(tables[k]))
    requires forall k | 0 <= k < |entries| && entries[k].token < |issued| ::
      OneKey(issued[entries[k].token].act.events, provider, request, name)
    ensures ClosedOver(entries, issued, tables, provider, request) <=
      Takers(entries, Sent(provider, ReplyTo(request, name)))
    decreases |entries|
  {
    if entries == [] {
    } else {
      var n := |entries| - 1;
      ClosedByTakers(entries[..n], issued, tables[..n], provider, request, name);
      if entries[n].token < |issued| {
        var batch, took := issued[entries[n].token].act.events, entries[n].took;
        ClosedOnce(tables[n], batch, request);
        ClosingsTakenBound(Ingest(tables[n], batch).replies, took, provider, request);
        if Sent(provider, ReplyTo(request, name)) !in took {
          TakesTheResult(tables[n], batch, took, provider, request, name);
        }
      }
    }
  }

  /** However callers are retried, providers crash or are delivered the request again, and transports repeat
      themselves, a caller's inbox holds each request and each result under one identity at most once, and at most one
      accepted checkpoint takes it. */
  lemma OneCopy(steps: seq<Step>, session: Id, id: EventId, i: nat, j: nat)
    requires session in Run(steps).db.sessions
    requires i < |Run(steps).db.sessions[session].inbox| && j < |Run(steps).db.sessions[session].inbox|
    requires Run(steps).db.sessions[session].inbox[i].event.id == id
    requires Run(steps).db.sessions[session].inbox[j].event.id == id
    ensures i == j && session in Run(steps).chains
    ensures var entries := Run(steps).chains[session].entries;
      forall k, l | 0 <= k < |entries| && 0 <= l < |entries| && id in entries[k].took && id in entries[l].took :: k == l
  {
    MailTakenOnce(steps, session, i);
  }

  /** A request a provider answers under one reply key is closed at most once over all the caller's accepted
      checkpoints, whatever tables its handlers keep, whatever part of each batch they incorporate, and even if they
      ask again. */
  lemma RequestClosedOnce(steps: seq<Step>, caller: Id, provider: Id, request: EventId, name: string,
                          tables: seq<seq<Exchange>>)
    requires caller in Run(steps).db.sessions && caller in Run(steps).chains
    requires var w := Run(steps);
      var entries := w.chains[caller].entries;
      && |tables| == |entries| && (forall k | 0 <= k < |tables| :: OneEach(tables[k]))
      && forall k | 0 <= k < |entries| && entries[k].token < |w.issued| ::
           OneKey(w.issued[entries[k].token].act.events, provider, request, name)
    ensures ClosedOver(Run(steps).chains[caller].entries, Run(steps).issued, tables, provider, request) <= 1
  {
    RunKeeps(steps);
    hide Run;
    var w := Run(steps);
    TakenApart(w, caller, Sent(provider, ReplyTo(request, name)));
    OneTaker(w.chains[caller].entries, Sent(provider, ReplyTo(request, name)));
    ClosedByTakers(w.chains[caller].entries, w.issued, tables, provider, request, name);
  }

  lemma TakenApart(w: World, id: Id, x: EventId)
    requires Inv(w) && id in w.db.sessions
    ensures var entries := w.chains[id].entries;
      forall k, l | 0 <= k < l < |entries| && x in entries[k].took :: x !in entries[l].took
  {
    assert SessionOk(id, w.db.sessions[id], w.issued, w.chains[id]);
  }
}
