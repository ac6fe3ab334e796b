/** The handler's side of requests and replies: mail staged under stable identities, and the pending table. */
module LocalExchangesModel {
  import opened Mail
  import opened RequestReply
  import Store = SessionStore

  /** Per-attempt staged mail and children, with no way to commit them. */
  class Context {
    const sessionId: Id
    var published: seq<Store.Publication>
    var spawned: seq<Store.Spawn>

    constructor (sessionId: Id)
      ensures this.sessionId == sessionId && published == [] && spawned == []
    {
      this.sessionId := sessionId;
      published, spawned := [], [];
    }

    method Stage(destination: Id, event: Event)
      modifies this`published
      ensures published == old(published) + [Store.Publication(destination, event)]
    {
      published := published + [Store.Publication(destination, event)];
    }

    /** Stages mail whose identity depends on the session and the key alone, so every attempt stages the same. */
    method Send(destination: Id, payload: Payload, key: string, kind: Kind, requestId: Option<EventId>)
      returns (staged: Result<EventId>)
      modifies this`published
      ensures key == "" ==> staged == Err(ValueError) && published == old(published)
      ensures key != "" ==>
        && staged == Ok(Sent(sessionId, Plain(key)))
        && published == old(published) + [
          Store.Publication(destination, Event(staged.value, kind, sessionId, requestId, None, payload))]
    {
      if key == "" {
        return Err(ValueError);
      }
      var id := Sent(sessionId, Plain(key));
      Stage(destination, Event(id, kind, sessionId, requestId, None, payload));
      staged := Ok(id);
    }

    /** A request names itself, so that replies can. */
    method Request(destination: Id, payload: Payload, key: string) returns (staged: Result<EventId>)
      modifies this`published
      ensures key == "" ==> staged == Err(ValueError) && published == old(published)
      ensures key != "" ==>
        && staged == Ok(Sent(sessionId, Plain(key)))
        && published == old(published)
           + [Store.Publication(destination, Requested(sessionId, key, payload))]
    {
      staged := Send(destination, payload, key, Kind.Request, None);
      if staged.Ok? {
        var last := published[|published| - 1];
        published := published[..|published| - 1]
          + [last.(event := last.event.(requestId := Some(staged.value), replyTo := Some(sessionId)))];
      }
    }

    /** The final result of a request, to whoever asked; its identity depends on the session, the request and the
        key. */
    method Reply(request: Event, payload: Payload, name: string) returns (staged: Result<EventId>)
      modifies this`published
      ensures match Replied(sessionId, request, name, payload)
        case Err(e) => staged == Err(e) && published == old(published)
        case Ok(p) => staged == Ok(p.event.id) && published == old(published) + [p]
    {
      if request.requestId.None? || request.replyTo.None? {
        return Err(KeyError);
      }
      var id := Sent(sessionId, ReplyTo(request.requestId.value, name));
      Stage(request.replyTo.value, Event(id, ResultMail, sessionId, None, None, payload));
      var last := published[|published| - 1];
      published := published[..|published| - 1] + [last.(event := last.event.(requestId := request.requestId))];
      staged := Ok(id);
    }

    /** Stages a child session named after this one and the key. */
    method Spawn(executable: string, state: Json, key: string) returns (child: Result<Id>)
      modifies this`spawned
      ensures key == "" ==> child == Err(ValueError) && spawned == old(spawned)
      ensures key != "" ==>
        child == Ok(sessionId + ":" + key)
        && spawned == old(spawned) + [Store.Spawn(sessionId + ":" + key, executable, state)]
    {
      if key == "" {
        return Err(ValueError);
      }
      child := Ok(sessionId + ":" + key);
      spawned := spawned + [Store.Spawn(child.value, executable, state)];
    }
  }

  /** The pending-exchange table of one session, built over the restored state on every activation. */
  class Exchanges {
    var table: seq<Exchange>

    ghost predicate Valid()
      reads this
    {
      OneEach(table)
    }

    constructor (table: seq<Exchange>)
      requires OneEach(table)
      ensures Valid() && this.table == table
    {
      this.table := table;
    }

    /** Stages a request and remembers it under its identity; the table shows the label, or else the key. */
    method Request(context: Context, destination: Id, payload: Payload, key: string, title: Option<string>)
      returns (staged: Result<EventId>)
      requires Valid()
      modifies this, context`published
      ensures Valid()
      ensures key == "" ==>
        staged == Err(ValueError) && table == old(table) && context.published == old(context.published)
      ensures key != "" ==>
        && staged == Ok(Sent(context.sessionId, Plain(key)))
        && table == Remember(old(table), Exchange(staged.value, destination,
                                                  if title.Some? && title.value != "" then title.value else key))
        && context.published == old(context.published)
           + [Store.Publication(destination, Requested(context.sessionId, key, payload))]
    {
      staged := context.Request(destination, payload, key);
      if staged.Err? {
        return;
      }
      var x := Exchange(staged.value, destination, if title.Some? && title.value != "" then title.value else key);
      RememberFacts(table, x);
      var i := 0;
      ghost var was := table;
      while i < |table| && table[i].request != x.request
        invariant i <= |table| && table == was && forall k | 0 <= k < i :: table[k].request != x.request
      {
        i := i + 1;
      }
      RememberAt(table, x, i);
      table := if i == |table| then table + [x] else table[i := x];
    }

    /** Splits delivered mail into matched replies and everything else; a result closes its exchange. */
    method Ingest(mail: seq<Event>) returns (replies: seq<Reply>, others: seq<Event>)
      requires Valid()
      modifies this
      ensures Valid() && RequestReply.Ingest(old(table), mail) == Split(table, replies, others)
    {
      replies, others := [], [];
      for i := 0 to |mail|
        invariant Valid() && RequestReply.Ingest(old(table), mail[..i]) == Split(table, replies, others)
      {
        assert mail[..i + 1][..i] == mail[..i];
        var event := mail[i];
        var pending: Option<Exchange> := None;
        if IsReplyKind(event.kind) && event.requestId.Some? {
          pending := Find(table, event.requestId.value);
        }
        if pending.Some? && event.source == pending.value.to {
          FindFacts(table, event.requestId.value);
          ForgetFacts(table, event.requestId.value);
          if event.kind == ResultMail {
            table := Forget(table, event.requestId.value);
          }
          replies := replies + [RequestReply.Reply(pending.value, event)];
        } else {
          others := others + [event];
        }
      }
      assert mail[..|mail|] == mail;
    }

    /** Forgets every exchange addressed to a session; their labels, in table order. */
    method Drop(destination: Id) returns (titles: seq<string>)
      requires Valid()
      modifies this
      ensures Valid() && table == Without(old(table), destination) && titles == TitlesTo(old(table), destination)
    {
      WithoutFacts(table, destination);
      var kept;
      kept, titles := Sift(table, destination);
      table := kept;
    }

    static method Sift(table: seq<Exchange>, to: Id) returns (kept: seq<Exchange>, titles: seq<string>)
      ensures kept == Without(table, to) && titles == TitlesTo(table, to)
    {
      kept, titles := [], [];
      assert table[0..] == table && table[|table|..] == [];
      for i := 0 to |table|
        invariant Sifted(table, to, i, kept, titles)
      {
        AtOne(table, to, i, kept, titles);
        if table[i].to == to {
          titles := titles + [table[i].title];
        } else {
          kept := kept + [table[i]];
        }
      }
      assert kept + [] == kept && titles + [] == titles;
    }
  }

  /** What the first `i` exchanges leave and name, completed by the rest. */
  predicate Sifted(table: seq<Exchange>, to: Id, i: nat, kept: seq<Exchange>, titles: seq<string>) {
    && i <= |table| && kept + Without(table[i..], to) == Without(table, to)
    && titles + TitlesTo(table[i..], to) == TitlesTo(table, to)
  }

  lemma AtOne(table: seq<Exchange>, to: Id, i: nat, kept: seq<Exchange>, titles: seq<string>)
    requires i < |table| && Sifted(table, to, i, kept, titles)
    ensures if table[i].to == to then Sifted(table, to, i + 1, kept, titles + [table[i].title])
            else Sifted(table, to, i + 1, kept + [table[i]], titles)
  {
    var rest, names := Without(table[i + 1..], to), TitlesTo(table[i + 1..], to);
    assert table[i..][1..] == table[i + 1..];
    assert kept + ([table[i]] + rest) == kept + [table[i]] + rest && [] + rest == rest;
    assert titles + ([table[i].title] + names) == titles + [table[i].title] + names && [] + names == names;
  }

  /** The labels of the exchanges addressed to a session. */
  function TitlesTo(table: seq<Exchange>, to: Id): seq<string> {
    if table == [] then []
    else (if table[0].to == to then [table[0].title] else []) + TitlesTo(table[1..], to)
  }

  /** Where remembering puts an exchange: in place of the entry under its identity, or at the end. */
  lemma {:induction false} RememberAt(table: seq<Exchange>, x: Exchange, i: nat)
    requires i <= |table| && (forall k | 0 <= k < i :: table[k].request != x.request)
    requires i < |table| ==> table[i].request == x.request
    ensures Remember(table, x) == if i == |table| then table + [x] else table[i := x]
    decreases i
  {
    if 0 < i {
      RememberAt(table[1..], x, i - 1);
      assert table == [table[0]] + table[1..];
    }
  }
}
