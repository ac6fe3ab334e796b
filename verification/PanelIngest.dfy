/** The panel grows out of the exchange table: matching an agent's mail is the table's own split, under the request
    identities its tool calls stand for. */
module PanelIngest {
  import opened Mail
  import Agent = Conversation
  import Table = RequestReply

  /** The identity of the request a tool call sends. */
  function RequestOf(session: Id, call: Agent.CallId): EventId { Sent(session, Plain(call.text)) }

  function ExchangeOf(session: Id, p: Agent.Panel, call: Agent.CallId): Table.Exchange
    requires call in p.entries
  {
    Table.Exchange(RequestOf(session, call), p.entries[call].to, p.entries[call].title)
  }

  /** The pending table under a panel. */
  function TableOf(session: Id, p: Agent.Panel, live: seq<Agent.CallId>): seq<Table.Exchange>
    requires forall i | 0 <= i < |live| :: live[i] in p.entries
  {
    seq(|live|, i requires 0 <= i < |live| => ExchangeOf(session, p, live[i]))
  }

  /** A letter as the mail it came as. */
  function EventOf(session: Id, letter: Agent.Letter): Event {
    Event(letter.id, letter.kind, letter.source, Some(RequestOf(session, letter.requestId)), None, Body(""))
  }

  function EventsOf(session: Id, mail: seq<Agent.Letter>): seq<Event> {
    seq(|mail|, i requires 0 <= i < |mail| => EventOf(session, mail[i]))
  }

  predicate Entered(p: Agent.Panel, live: seq<Agent.CallId>) { forall i | 0 <= i < |live| :: live[i] in p.entries }

  lemma TableFront(session: Id, p: Agent.Panel, first: Agent.CallId, rest: seq<Agent.CallId>)
    requires first in p.entries && Entered(p, rest)
    ensures Entered(p, [first] + rest)
    ensures TableOf(session, p, [first] + rest) == [ExchangeOf(session, p, first)] + TableOf(session, p, rest)
  {
  }

  lemma {:induction false} Finds(session: Id, p: Agent.Panel, live: seq<Agent.CallId>, call: Agent.CallId)
    requires Entered(p, live)
    ensures Table.Find(TableOf(session, p, live), RequestOf(session, call))
      == if call in live then Some(ExchangeOf(session, p, call)) else None
  {
    if live == [] {
    } else {
      var first, rest := live[0], live[1..];
      assert live == [first] + rest;
      Finds(session, p, rest, call);
      TableFront(session, p, first, rest);
      hide TableOf, Entered;
      assert ([ExchangeOf(session, p, first)] + TableOf(session, p, rest))[1..] == TableOf(session, p, rest);
    }
  }

  /** Taking an exchange out, from the front as the table does and from the back as the panel does. */
  lemma {:induction false} Forgets(session: Id, p: Agent.Panel, live: seq<Agent.CallId>, call: Agent.CallId)
    requires Entered(p, live) && Once(live)
    ensures Entered(p, Agent.Without(live, call)) && Once(Agent.Without(live, call))
    ensures Table.Forget(TableOf(session, p, live), RequestOf(session, call)) ==
      TableOf(session, p, Agent.Without(live, call))
  {
    if live == [] {
    } else {
      var first, rest := live[0], live[1..];
      Apart(live);
      Forgets(session, p, rest, call);
      WithoutFront(first, rest, call);
      TableFront(session, p, first, rest);
      var table := TableOf(session, p, rest);
      assert live == [first] + rest && ([ExchangeOf(session, p, first)] + table)[1..] == table;
      if first == call {
        NotThere(rest, call);
        assert [] + rest == rest;
        hide TableOf, Entered, Once, Agent.Without;
      } else {
        OnlyThese(rest, call);
        TableFront(session, p, first, Agent.Without(rest, call));
        Together(first, Agent.Without(rest, call));
        hide TableOf, Entered, Once, Agent.Without;
      }
    }
  }

  predicate Once(live: seq<Agent.CallId>) { forall i, j | 0 <= i < j < |live| :: live[i] != live[j] }

  lemma Apart(live: seq<Agent.CallId>)
    requires live != [] && Once(live)
    ensures Once(live[1..]) && live[0] !in live[1..]
  {
  }

  lemma Together(first: Agent.CallId, rest: seq<Agent.CallId>)
    requires Once(rest) && first !in rest
    ensures Once([first] + rest)
  {
  }

  lemma {:induction false} OnlyThese(live: seq<Agent.CallId>, call: Agent.CallId)
    ensures forall x | x in Agent.Without(live, call) :: x in live
    decreases |live|
  {
    if live == [] {
    } else {
      OnlyThese(live[..|live| - 1], call);
    }
  }

  lemma {:induction false} WithoutFront(first: Agent.CallId, rest: seq<Agent.CallId>, call: Agent.CallId)
    ensures Agent.Without([first] + rest, call) == (if first == call then [] else [first]) + Agent.Without(rest, call)
    decreases |rest|
  {
    var all := [first] + rest;
    if rest == [] {
      assert all == [first] && all[..0] == [];
    } else {
      var n := |rest| - 1;
      WithoutFront(first, rest[..n], call);
      assert all[..|all| - 1] == [first] + rest[..n];
    }
  }

  lemma {:induction false} NotThere(live: seq<Agent.CallId>, call: Agent.CallId)
    requires call !in live
    ensures Agent.Without(live, call) == live
    decreases |live|
  {
    if live == [] {
    } else {
      NotThere(live[..|live| - 1], call);
    }
  }

  predicate SameReplies(session: Id, ours: seq<Agent.Reply>, theirs: seq<Table.Reply>) {
    && |ours| == |theirs|
    && forall i | 0 <= i < |ours| ::
         theirs[i].exchange.request == RequestOf(session, ours[i].id) && theirs[i].event.kind == ours[i].kind
  }

  /** The two splits say the same. */
  predicate Same(session: Id, p: Agent.Panel, ours: Agent.Split, theirs: Table.Split) {
    && Entered(p, ours.live) && Once(ours.live)
    && theirs.table == TableOf(session, p, ours.live)
    && theirs.others == EventsOf(session, ours.others)
    && SameReplies(session, ours.replies, theirs.replies)
  }

  /** The panel's matching of mail is the exchange table's: the same exchanges stay pending, the same mail is a reply to
      the same exchanges, and the same is left over, all in the same order. */
  lemma {:induction false} SortIsIngest(session: Id, p: Agent.Panel, mail: seq<Agent.Letter>, n: nat)
    requires Agent.Proper(p) && n <= |mail|
    ensures Same(session, p, Agent.Sort(p, mail, n),
                 Table.Ingest(TableOf(session, p, p.live), EventsOf(session, mail[..n])))
    decreases n
  {
    if n == 0 {
    } else {
      SortIsIngest(session, p, mail, n - 1);
      var s, letter := Agent.Sort(p, mail, n - 1), mail[n - 1];
      var r := Table.Ingest(TableOf(session, p, p.live), EventsOf(session, mail[..n - 1]));
      assert EventsOf(session, mail[..n])[..n - 1] == EventsOf(session, mail[..n - 1]);
      assert EventsOf(session, mail[..n])[n - 1] == EventOf(session, letter);
      hide Same, TableOf, EventsOf, EventOf, Table.Answers, Table.Forget, Agent.Matches, Agent.Without;
      MatchesAlike(session, p, s, r, letter);
      if Agent.Matches(p.entries, s.live, letter) {
        ReplyAlike(session, p, s, r, letter);
      } else {
        OtherAlike(session, p, s, r, letter);
      }
    }
  }

  lemma MatchesAlike(session: Id, p: Agent.Panel, s: Agent.Split, r: Table.Split, letter: Agent.Letter)
    requires Same(session, p, s, r)
    ensures Agent.Matches(p.entries, s.live, letter) <==> Table.Answers(r.table, EventOf(session, letter)).Some?
    ensures Agent.Matches(p.entries, s.live, letter) ==>
      && letter.requestId in p.entries
      && Table.Answers(r.table, EventOf(session, letter)) == Some(ExchangeOf(session, p, letter.requestId))
  {
    Finds(session, p, s.live, letter.requestId);
    hide TableOf, EventsOf, SameReplies;
  }

  lemma ReplyAlike(session: Id, p: Agent.Panel, s: Agent.Split, r: Table.Split, letter: Agent.Letter)
    requires Same(session, p, s, r) && letter.requestId in p.entries
    ensures var x := ExchangeOf(session, p, letter.requestId);
      Same(session, p,
           Agent.Split(s.replies + [Agent.ReplyOf(letter)], s.others,
                       if letter.kind.ResultMail? then Agent.Without(s.live, letter.requestId) else s.live),
           Table.Split(if letter.kind == ResultMail then Table.Forget(r.table, x.request) else r.table,
                       r.replies + [Table.Reply(x, EventOf(session, letter))], r.others))
  {
    Forgets(session, p, s.live, letter.requestId);
    hide TableOf, EventsOf, Table.Forget, Agent.Without, Once, Entered;
  }

  lemma OtherAlike(session: Id, p: Agent.Panel, s: Agent.Split, r: Table.Split, letter: Agent.Letter)
    requires Same(session, p, s, r)
    ensures Same(session, p, s.(others := s.others + [letter]), r.(others := r.others + [EventOf(session, letter)]))
  {
    assert EventsOf(session, s.others + [letter]) == EventsOf(session, s.others) + [EventOf(session, letter)];
    hide TableOf, Once, Entered;
  }
}
