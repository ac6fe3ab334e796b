/** What a checkpoint needs to be accepted, and every field that an accepted one leaves in the tables. */
module SessionCheckpoints {
  import opened Mail
  import opened SessionStore
  import opened SessionHistory
  import opened SessionSafety

  // ---- Published mail --------------------------------------------------------

  /** The mail for one session, in publication order. */
  function MailTo(publish: seq<Publication>, id: Id): seq<Event> {
    if publish == [] then []
    else (if publish[0].session == id then [publish[0].event] else []) + MailTo(publish[1..], id)
  }

  predicate Holding(inbox: seq<Input>, id: EventId) { exists x | x in inbox :: x.event.id == id }

  /** The inbox with each identity of the mail that it does not hold yet, as first written and still to be taken. */
  function Received(inbox: seq<Input>, mail: seq<Event>): seq<Input>
    decreases |mail|
  {
    if mail == [] then inbox
    else Received(if Holding(inbox, mail[0].id) then inbox else inbox + [Input(mail[0], false)], mail[1..])
  }

  lemma HoldingKnown(inbox: seq<Input>, id: EventId)
    ensures Holding(inbox, id) <==> Known(inbox, id)
  {
    if Holding(inbox, id) {
      var x :| x in inbox && x.event.id == id;
      var i :| 0 <= i < |inbox| && inbox[i] == x;
    }
    if Known(inbox, id) {
      var i :| 0 <= i < |inbox| && inbox[i].event.id == id;
      assert inbox[i] in inbox;
    }
  }

  lemma {:induction false} ReceivedAfter(inbox: seq<Input>, mail: seq<Event>)
    ensures inbox <= Received(inbox, mail)
    decreases |mail|
  {
    if mail == [] {
    } else {
      ReceivedAfter(if Holding(inbox, mail[0].id) then inbox else inbox + [Input(mail[0], false)], mail[1..]);
    }
  }

  /** One delivery: at the end of the inbox, or nothing if the identity is there. */
  lemma Appended(db: Store, to: Id, event: Event)
    requires AppendTo(db, to, event, false).Ok?
    ensures to in db.sessions && AppendTo(db, to, event, false).value.0 ==
      db.(sessions := db.sessions[to := db.sessions[to].(inbox := Received(db.sessions[to].inbox, [event]))])
  {
    var inbox := db.sessions[to].inbox;
    HoldingKnown(inbox, event.id);
    assert [event][1..] == [];
    var next := if Holding(inbox, event.id) then inbox else inbox + [Input(event, false)];
    assert Received(inbox, [event]) == Received(next, []) == next;
    assert Known(inbox, event.id) ==> db.sessions[to := db.sessions[to].(inbox := inbox)] == db.sessions;
  }

  lemma ReceivedMore(inbox: seq<Input>, first: Event, rest: seq<Event>)
    ensures Received(Received(inbox, [first]), rest) == Received(inbox, [first] + rest)
  {
    assert ([first] + rest)[1..] == rest && [first][1..] == [];
    var next := if Holding(inbox, first.id) then inbox else inbox + [Input(first, false)];
    assert Received(inbox, [first]) == Received(next, []) == next;
  }

  /** Publishing leaves every row as it was but for its mail. */
  lemma {:induction false} Published(db: Store, publish: seq<Publication>, id: Id)
    requires PublishAll(db, publish).Ok? && id in db.sessions
    ensures var r := PublishAll(db, publish).value;
      r.sessions[id] == db.sessions[id].(inbox := Received(db.sessions[id].inbox, MailTo(publish, id)))
    decreases |publish|
  {
    if publish == [] {
    } else {
      var m := publish[0];
      Appended(db, m.session, m.event);
      var next := AppendTo(db, m.session, m.event, false).value.0;
      hide AppendTo, Received;
      Published(next, publish[1..], id);
      if m.session == id {
        ReceivedMore(db.sessions[id].inbox, m.event, MailTo(publish[1..], id));
      } else {
        assert MailTo(publish, id) == [] + MailTo(publish[1..], id) == MailTo(publish[1..], id);
        assert next.sessions[id] == db.sessions[id];
      }
    }
  }

  /** Mail that may be delivered: an outside identity, to a session that is not complete or has it already. */
  predicate Deliverable(db: Store, m: Publication) {
    && m.event.id != External("") && !m.event.id.Timer? && m.session in db.sessions
    && (db.sessions[m.session].status == Complete ==> Holding(db.sessions[m.session].inbox, m.event.id))
  }

  lemma DeliverableExactly(db: Store, m: Publication)
    ensures AppendTo(db, m.session, m.event, false).Ok? <==> Deliverable(db, m)
  {
    if m.session in db.sessions {
      HoldingKnown(db.sessions[m.session].inbox, m.event.id);
    }
  }

  /** One delivery makes no other mail deliverable or undeliverable. */
  lemma DeliverableSame(db: Store, first: Publication, m: Publication)
    requires Deliverable(db, first)
    ensures AppendTo(db, first.session, first.event, false).Ok?
    ensures Deliverable(AppendTo(db, first.session, first.event, false).value.0, m) <==> Deliverable(db, m)
  {
    DeliverableExactly(db, first);
    if first.session in db.sessions {
      HoldingKnown(db.sessions[first.session].inbox, first.event.id);
    }
  }

  lemma {:induction false} PublishesExactly(db: Store, publish: seq<Publication>)
    ensures PublishAll(db, publish).Ok? <==> forall m | m in publish :: Deliverable(db, m)
    decreases |publish|
  {
    if publish == [] {
    } else {
      var first, rest := publish[0], publish[1..];
      assert publish == [first] + rest;
      DeliverableExactly(db, first);
      if Deliverable(db, first) {
        var next := AppendTo(db, first.session, first.event, false).value.0;
        PublishesExactly(next, rest);
        forall m | m in rest ensures Deliverable(next, m) <==> Deliverable(db, m) {
          DeliverableSame(db, first, m);
        }
        hide Deliverable, AppendTo;
      }
    }
  }

  // ---- Children --------------------------------------------------------------

  predicate Spawnable(db: Store, c: Spawn) {
    c.session != "" && c.executable != "" && c.executable in db.definitions && c.session !in db.sessions
  }

  lemma {:induction false} SpawnsExactly(db: Store, spawn: seq<Spawn>)
    requires Distinct(Children(spawn))
    ensures SpawnAll(db, spawn).Ok? <==> forall c | c in spawn :: Spawnable(db, c)
    decreases |spawn|
  {
    if spawn == [] {
    } else {
      var first, rest := spawn[0], spawn[1..];
      assert spawn == [first] + rest;
      ChildrenTail(spawn);
      DistinctTail(spawn);
      if Spawnable(db, first) {
        var next := CreateIn(db, first.session, first.executable, first.state).value;
        SpawnsExactly(next, rest);
        forall c | c in rest ensures Spawnable(next, c) <==> Spawnable(db, c) {
          var i :| 0 <= i < |rest| && rest[i] == c;
          assert Children(rest)[i] == c.session;
        }
      }
    }
  }

  lemma DistinctTail(spawn: seq<Spawn>)
    requires spawn != [] && Distinct(Children(spawn))
    ensures Distinct(Children(spawn[1..]))
    ensures forall i | 0 <= i < |spawn[1..]| :: Children(spawn[1..])[i] != spawn[0].session
  {
    ChildrenTail(spawn);
    var a, b := Children(spawn), Children(spawn[1..]);
    assert a == [spawn[0].session] + b;
    assert a[0] == spawn[0].session && forall i | 0 <= i < |b| :: b[i] == a[i + 1];
    forall i | 0 <= i < |b| ensures b[i] != a[0] {
      assert a[0] != a[i + 1];
    }
  }

  /** A fresh row. */
  predicate IsNew(s: Session, row: nat, executable: string, state: Json) {
    && s.rowid == row && s.executable == executable && s.state == state && s.status == Ready && s.revision == 0
    && s.attempts == 0 && s.lastClaim == 0 && s.inbox == [] && s.deadline.None? && s.token.None? && s.leaseUntil.None?
    && s.completedAt.None? && s.worker.None? && s.lastError.None?
  }

  /** The children are born in order, and nothing else happens. */
  lemma {:induction false} Spawned(db: Store, spawn: seq<Spawn>)
    requires SpawnAll(db, spawn).Ok? && Distinct(Children(spawn))
    ensures var r := SpawnAll(db, spawn).value;
      && (forall id | id in db.sessions :: id in r.sessions && r.sessions[id] == db.sessions[id])
      && (forall i | 0 <= i < |spawn| :: spawn[i].session in r.sessions
            && IsNew(r.sessions[spawn[i].session], db.nextRow + i, spawn[i].executable, spawn[i].state))
      && (forall id | id in r.sessions :: id in db.sessions || id in Children(spawn))
      && r.definitions == db.definitions && r.nextToken == db.nextToken && r.nextRow == db.nextRow + |spawn|
    decreases |spawn|
  {
    if spawn == [] {
    } else {
      var first, rest := spawn[0], spawn[1..];
      ChildrenTail(spawn);
      DistinctTail(spawn);
      var next := CreateIn(db, first.session, first.executable, first.state).value;
      Spawned(next, rest);
      var r := SpawnAll(db, spawn).value;
      forall i | 0 <= i < |spawn|
        ensures spawn[i].session in r.sessions
        ensures IsNew(r.sessions[spawn[i].session], db.nextRow + i, spawn[i].executable, spawn[i].state)
      {
        if i > 0 {
          assert spawn[i] == rest[i - 1];
        }
      }
    }
  }

  // ---- Acceptance ------------------------------------------------------------

  /** What the arguments of a checkpoint must say whatever the tables hold. */
  predicate WellFormed(act: Activation, p: Proposal) {
    && (p.complete ==> p.deadline.None? && p.rebind.None?)
    && (p.rebind.Some? ==> p.rebind.value != "" && p.rebind.value != act.executable)
    && (forall id | id in p.incorporated :: exists e | e in act.events :: e.id == id)
    && (forall i, j | 0 <= i < j < |p.spawn| :: p.spawn[i].session != p.spawn[j].session)
    && (forall c | c in p.spawn :: c.session != act.session)
  }

  /** The worker's lease is the row's and has time left. */
  predicate InForce(db: Store, act: Activation, now: real) {
    && act.session in db.sessions && db.sessions[act.session].token == Some(act.token)
    && db.sessions[act.session].leaseUntil.Some? && now < db.sessions[act.session].leaseUntil.value
  }

  /** A publication has somewhere to go: a session that was there before, or a child of this checkpoint. */
  predicate Addressed(db: Store, p: Proposal, m: Publication) {
    && m.event.id != External("") && !m.event.id.Timer?
    && (m.session in db.sessions || exists c | c in p.spawn :: c.session == m.session)
    && (m.session in db.sessions && db.sessions[m.session].status == Complete ==>
          Holding(db.sessions[m.session].inbox, m.event.id))
  }

  /** Nothing is left to do: all mail of the session is taken, and it sends itself nothing new. */
  predicate AllTaken(s: Session, id: Id, p: Proposal) {
    && (forall x | x in s.inbox :: x.incorporated || x.event.id in p.incorporated)
    && (forall m | m in p.publish && m.session == id :: Holding(s.inbox, m.event.id))
  }

  lemma WellFormedExactly(act: Activation, p: Proposal)
    ensures WellFormed(act, p) <==> !Malformed(act, p)
    ensures WellFormed(act, p) ==> Distinct(Children(p.spawn))
  {
    forall id ensures id in Ids(act.events) <==> exists e | e in act.events :: e.id == id {
    }
    assert forall i | 0 <= i < |p.spawn| :: Children(p.spawn)[i] == p.spawn[i].session;
    assert act.session in Children(p.spawn) <==> exists c | c in p.spawn :: c.session == act.session by {
      if c :| c in p.spawn && c.session == act.session {
        var i :| 0 <= i < |p.spawn| && p.spawn[i] == c;
        assert Children(p.spawn)[i] in Children(p.spawn);
      }
    }
  }

  lemma {:induction false} NothingReceived(inbox: seq<Input>, mail: seq<Event>)
    requires Pending(inbox) == []
    ensures Pending(Received(inbox, mail)) == [] <==> forall e | e in mail :: Holding(inbox, e.id)
    decreases |mail|
  {
    if mail == [] {
    } else if Holding(inbox, mail[0].id) {
      NothingReceived(inbox, mail[1..]);
      assert mail == [mail[0]] + mail[1..];
    } else {
      StaysPending(inbox + [Input(mail[0], false)], mail[1..]);
      PendingLast(inbox, mail[0]);
    }
  }

  lemma PendingLast(inbox: seq<Input>, e: Event)
    ensures Pending(inbox + [Input(e, false)]) == Pending(inbox) + [e]
  {
    assert (inbox + [Input(e, false)])[..|inbox|] == inbox;
  }

  lemma {:induction false} StaysPending(inbox: seq<Input>, mail: seq<Event>)
    ensures |Pending(Received(inbox, mail))| >= |Pending(inbox)|
    decreases |mail|
  {
    if mail == [] {
    } else if Holding(inbox, mail[0].id) {
      StaysPending(inbox, mail[1..]);
    } else {
      PendingLast(inbox, mail[0]);
      StaysPending(inbox + [Input(mail[0], false)], mail[1..]);
    }
  }

  lemma {:induction false} PendingNone(inbox: seq<Input>)
    ensures Pending(inbox) == [] <==> forall x | x in inbox :: x.incorporated
    decreases |inbox|
  {
    if inbox == [] {
    } else {
      var n := |inbox| - 1;
      PendingNone(inbox[..n]);
      assert inbox == inbox[..n] + [inbox[n]];
    }
  }

  lemma InMailTo(publish: seq<Publication>, id: Id, e: Event)
    ensures e in MailTo(publish, id) <==> exists m | m in publish :: m.session == id && m.event == e
    decreases |publish|
  {
    if publish == [] {
    } else {
      InMailTo(publish[1..], id, e);
      assert publish == [publish[0]] + publish[1..];
    }
  }

  lemma MarkHolds(inbox: seq<Input>, ids: seq<EventId>, id: EventId)
    ensures Holding(Mark(inbox, ids), id) <==> Holding(inbox, id)
  {
    HoldingKnown(inbox, id);
    HoldingKnown(Mark(inbox, ids), id);
    assert forall i | 0 <= i < |inbox| :: Mark(inbox, ids)[i].event == inbox[i].event;
  }

  /** The session's own inbox as the last check of a checkpoint sees it. */
  lemma TakenExactly(s: Session, id: Id, p: Proposal)
    ensures Pending(Received(Mark(s.inbox, p.incorporated), MailTo(p.publish, id))) == [] <==> AllTaken(s, id, p)
  {
    var marked, mail := Mark(s.inbox, p.incorporated), MailTo(p.publish, id);
    PendingNone(marked);
    StaysPending(marked, mail);
    assert (forall x | x in marked :: x.incorporated) <==>
      (forall x | x in s.inbox :: x.incorporated || x.event.id in p.incorporated) by {
      assert forall i | 0 <= i < |marked| :: marked[i] in marked && s.inbox[i] in s.inbox;
    }
    if Pending(marked) == [] {
      NothingReceived(marked, mail);
      forall m | m in p.publish && m.session == id
        ensures m.event in mail && (Holding(marked, m.event.id) <==> Holding(s.inbox, m.event.id))
      {
        InMailTo(p.publish, id, m.event);
        MarkHolds(s.inbox, p.incorporated, m.event.id);
      }
      forall e | e in mail ensures exists m | m in p.publish :: m.session == id && m.event == e {
        InMailTo(p.publish, id, e);
      }
    }
  }

  /** The state of the tables in the middle of a checkpoint: children born, inputs taken, mail not yet out. */
  lemma HalfWay(db: Store, act: Activation, p: Proposal)
    requires act.session in db.sessions && WellFormed(act, p) && SpawnAll(db, p.spawn).Ok?
    ensures var taken := Incorporate(SpawnAll(db, p.spawn).value, act.session, p.incorporated);
      && (forall id | id in db.sessions && id != act.session ::
            id in taken.sessions && taken.sessions[id] == db.sessions[id])
      && taken.sessions[act.session] ==
        db.sessions[act.session].(inbox := Mark(db.sessions[act.session].inbox, p.incorporated))
      && (forall c | c in p.spawn :: c.session in taken.sessions && c.session !in db.sessions)
      && (forall i | 0 <= i < |p.spawn| ::
            IsNew(taken.sessions[p.spawn[i].session], db.nextRow + i, p.spawn[i].executable, p.spawn[i].state))
      && (forall id | id in taken.sessions :: id in db.sessions || exists c | c in p.spawn :: c.session == id)
      && taken.definitions == db.definitions && taken.nextToken == db.nextToken
      && taken.nextRow == db.nextRow + |p.spawn|
  {
    WellFormedExactly(act, p);
    Spawned(db, p.spawn);
    SpawnsExactly(db, p.spawn);
    hide SpawnAll, Mark, IsNew, Malformed, WellFormed;
    forall c | c in p.spawn ensures c.session in SpawnAll(db, p.spawn).value.sessions && c.session !in db.sessions {
      var i :| 0 <= i < |p.spawn| && p.spawn[i] == c;
      assert Spawnable(db, c);
    }
    forall id | id in Children(p.spawn) ensures exists c | c in p.spawn :: c.session == id {
      var i :| 0 <= i < |Children(p.spawn)| && Children(p.spawn)[i] == id;
      assert p.spawn[i] in p.spawn;
    }
    forall i | 0 <= i < |p.spawn| ensures p.spawn[i].session != act.session {
      assert p.spawn[i] in p.spawn;
    }
  }

  lemma AddressedExactly(db: Store, act: Activation, p: Proposal, m: Publication)
    requires act.session in db.sessions && WellFormed(act, p) && SpawnAll(db, p.spawn).Ok?
    ensures Addressed(db, p, m) <==>
      Deliverable(Incorporate(SpawnAll(db, p.spawn).value, act.session, p.incorporated), m)
  {
    HalfWay(db, act, p);
    hide SpawnAll, Mark, Incorporate, WellFormed;
    MarkHolds(db.sessions[act.session].inbox, p.incorporated, m.event.id);
    if m.session !in db.sessions && exists c | c in p.spawn :: c.session == m.session {
      var c :| c in p.spawn && c.session == m.session;
      var i :| 0 <= i < |p.spawn| && p.spawn[i] == c;
    }
  }

  /** A checkpoint is accepted exactly when its arguments are well formed, its worker's lease is in force, the
      definition it names is bound, every child can be created, every publication has somewhere to go, and, if it
      completes, no mail is left. */
  lemma AcceptedExactly(db: Store, act: Activation, p: Proposal, now: real)
    ensures CommitTo(db, act, p, now).Ok? <==>
      && WellFormed(act, p) && InForce(db, act, now)
      && (p.rebind.Some? ==> p.rebind.value in db.definitions)
      && (forall c | c in p.spawn :: Spawnable(db, c))
      && (forall m | m in p.publish :: Addressed(db, p, m))
      && (p.complete ==> AllTaken(db.sessions[act.session], act.session, p))
    ensures CommitTo(db, act, p, now) == Err(StaleActivation) <==> WellFormed(act, p) && !InForce(db, act, now)
  {
    WellFormedExactly(act, p);
    if WellFormed(act, p) && InForce(db, act, now) {
      SpawnsExactly(db, p.spawn);
      NeverStale(db, p.spawn);
      if SpawnAll(db, p.spawn).Ok? {
        var taken := Incorporate(SpawnAll(db, p.spawn).value, act.session, p.incorporated);
        HalfWay(db, act, p);
        PublishesExactly(taken, p.publish);
        PublishNeverStale(taken, p.publish);
        forall m | m in p.publish ensures Addressed(db, p, m) <==> Deliverable(taken, m) {
          AddressedExactly(db, act, p, m);
        }
        if PublishAll(taken, p.publish).Ok? {
          Published(taken, p.publish, act.session);
          TakenExactly(db.sessions[act.session], act.session, p);
        }
        hide SpawnAll, PublishAll, Addressed, Deliverable, Spawnable, Malformed, WellFormed, Incorporate, AllTaken;
        hide Checkpointed;
      }
    }
  }

  lemma {:induction false} NeverStale(db: Store, spawn: seq<Spawn>)
    ensures SpawnAll(db, spawn) != Err(StaleActivation)
    decreases |spawn|
  {
    if spawn != [] && CreateIn(db, spawn[0].session, spawn[0].executable, spawn[0].state).Ok? {
      NeverStale(CreateIn(db, spawn[0].session, spawn[0].executable, spawn[0].state).value, spawn[1..]);
    }
  }

  lemma {:induction false} PublishNeverStale(db: Store, publish: seq<Publication>)
    ensures PublishAll(db, publish) != Err(StaleActivation)
    decreases |publish|
  {
    if publish != [] && AppendTo(db, publish[0].session, publish[0].event, false).Ok? {
      PublishNeverStale(AppendTo(db, publish[0].session, publish[0].event, false).value.0, publish[1..]);
    }
  }

  // ---- What is written -------------------------------------------------------

  /** The committer's row: its state, status, deadline and definition are the proposal's, its lease and its failures
      are gone, the inputs it named are taken, and everything else of it stays. */
  predicate Wrote(s: Session, s': Session, p: Proposal, mail: seq<Event>, now: real) {
    && s'.state == p.state && s'.revision == s.revision + 1
    && s'.deadline == p.deadline
    && (s'.status == Complete <==> p.complete) && (s'.status == Status.Waiting <==> !p.complete)
    && s'.completedAt == (if p.complete then Some(now) else None)
    && s'.executable == (if p.rebind.Some? then p.rebind.value else s.executable)
    && s'.token.None? && s'.leaseUntil.None? && s'.worker.None? && s'.attempts == 0 && s'.lastError.None?
    && s'.rowid == s.rowid && s'.lastClaim == s.lastClaim
    && |s.inbox| <= |s'.inbox| && var taken := s'.inbox[..|s.inbox|];
    && Took(s.inbox, taken, p.incorporated) && s'.inbox == Received(taken, mail)
  }

  /** Exactly the named inputs are taken, besides those taken before. */
  predicate Took(inbox: seq<Input>, taken: seq<Input>, ids: seq<EventId>) {
    && |taken| == |inbox|
    && forall i | 0 <= i < |inbox| ::
      taken[i].event == inbox[i].event && (taken[i].incorporated <==> inbox[i].incorporated || inbox[i].event.id in ids)
  }

  /** Only mail came. */
  predicate OnlyMail(s: Session, s': Session, mail: seq<Event>) { s' == s.(inbox := Received(s.inbox, mail)) }

  /** A child's row: new, but for mail published to it at once. */
  predicate Child(s: Session, row: nat, c: Spawn, mail: seq<Event>) {
    IsNew(s.(inbox := []), row, c.executable, c.state) && s.inbox == Received([], mail)
  }

  /** Everything an accepted checkpoint leaves: its own row, its children, its publications, and nothing else. */
  lemma CheckpointWrites(db: Store, act: Activation, p: Proposal, now: real)
    requires CommitTo(db, act, p, now).Ok?
    ensures var v := CommitTo(db, act, p, now).value;
      && act.session in db.sessions && act.session in v.sessions
      && Wrote(db.sessions[act.session], v.sessions[act.session], p, MailTo(p.publish, act.session), now)
      && (forall id | id in db.sessions && id != act.session ::
            id in v.sessions && OnlyMail(db.sessions[id], v.sessions[id], MailTo(p.publish, id)))
      && (forall i | 0 <= i < |p.spawn| :: p.spawn[i].session in v.sessions
            && Child(v.sessions[p.spawn[i].session], db.nextRow + i, p.spawn[i], MailTo(p.publish, p.spawn[i].session)))
      && (forall id | id in v.sessions :: id in db.sessions || exists c | c in p.spawn :: c.session == id)
      && v.definitions == db.definitions && v.nextToken == db.nextToken && v.nextRow == db.nextRow + |p.spawn|
  {
    hide CommitTo, SpawnAll, PublishAll, WellFormed, MailTo, Received, Wrote, Child, OnlyMail, Mark, IsNew;
    var taken, sent := CommitParts(db, act, p, now);
    var v := CommitTo(db, act, p, now).value;
    Committer(db.sessions[act.session], taken.sessions[act.session], sent.sessions[act.session], p,
              MailTo(p.publish, act.session), now);
    forall id | id in db.sessions && id != act.session
      ensures id in v.sessions && OnlyMail(db.sessions[id], v.sessions[id], MailTo(p.publish, id))
    {
      Bystander(taken, sent, p.publish, id);
    }
    forall i | 0 <= i < |p.spawn|
      ensures p.spawn[i].session in v.sessions
      ensures Child(v.sessions[p.spawn[i].session], db.nextRow + i, p.spawn[i], MailTo(p.publish, p.spawn[i].session))
    {
      assert p.spawn[i] in p.spawn;
      Newborn(taken, sent, p.publish, db.nextRow + i, p.spawn[i]);
    }
  }

  /** The tables before and after the publications of an accepted checkpoint, and the last write. */
  lemma CommitParts(db: Store, act: Activation, p: Proposal, now: real) returns (taken: Store, sent: Store)
    requires CommitTo(db, act, p, now).Ok?
    ensures act.session in db.sessions && act.session in sent.sessions && act.session in taken.sessions
    ensures forall id | id in db.sessions && id != act.session ::
      id in taken.sessions && taken.sessions[id] == db.sessions[id]
    ensures taken.sessions[act.session] ==
      db.sessions[act.session].(inbox := Mark(db.sessions[act.session].inbox, p.incorporated))
    ensures forall c | c in p.spawn :: c.session in taken.sessions && c.session !in db.sessions
    ensures forall i | 0 <= i < |p.spawn| ::
      IsNew(taken.sessions[p.spawn[i].session], db.nextRow + i, p.spawn[i].executable, p.spawn[i].state)
    ensures forall id | id in taken.sessions :: id in db.sessions || exists c | c in p.spawn :: c.session == id
    ensures PublishAll(taken, p.publish) == Ok(sent) && sent.sessions.Keys == taken.sessions.Keys
    ensures sent.sessions[act.session] == taken.sessions[act.session].(
              inbox := Received(taken.sessions[act.session].inbox, MailTo(p.publish, act.session)))
    ensures CommitTo(db, act, p, now).value == Store(
              sent.sessions[act.session := Checkpointed(sent.sessions[act.session], p, now)], db.definitions,
              db.nextRow + |p.spawn|, db.nextToken)
  {
    WellFormedExactly(act, p);
    HalfWay(db, act, p);
    taken := Incorporate(SpawnAll(db, p.spawn).value, act.session, p.incorporated);
    sent := PublishAll(taken, p.publish).value;
    PublishedFrame(taken, p.publish);
    Published(taken, p.publish, act.session);
    hide SpawnAll, PublishAll, Malformed, WellFormed, MailTo, Received, Mark, IsNew, Checkpointed;
  }

  lemma Committer(s: Session, taken: Session, sent: Session, p: Proposal, mail: seq<Event>, now: real)
    requires taken == s.(inbox := Mark(s.inbox, p.incorporated))
    requires sent == taken.(inbox := Received(taken.inbox, mail))
    ensures Wrote(s, Checkpointed(sent, p, now), p, mail, now)
  {
    ReceivedAfter(taken.inbox, mail);
    var after := Checkpointed(sent, p, now);
    assert after.inbox == Received(taken.inbox, mail) && after.inbox[..|s.inbox|] == taken.inbox;
  }

  lemma Bystander(taken: Store, sent: Store, publish: seq<Publication>, id: Id)
    requires PublishAll(taken, publish) == Ok(sent) && id in taken.sessions
    ensures id in sent.sessions && OnlyMail(taken.sessions[id], sent.sessions[id], MailTo(publish, id))
  {
    Published(taken, publish, id);
  }

  lemma Newborn(taken: Store, sent: Store, publish: seq<Publication>, row: nat, c: Spawn)
    requires PublishAll(taken, publish) == Ok(sent) && c.session in taken.sessions
    requires IsNew(taken.sessions[c.session], row, c.executable, c.state)
    ensures c.session in sent.sessions && Child(sent.sessions[c.session], row, c, MailTo(publish, c.session))
  {
    Published(taken, publish, c.session);
    var s := taken.sessions[c.session];
    assert s == s.(inbox := []);
  }

  lemma {:induction false} PublishedFrame(db: Store, publish: seq<Publication>)
    requires PublishAll(db, publish).Ok?
    ensures PublishAll(db, publish).value == db.(sessions := PublishAll(db, publish).value.sessions)
    ensures PublishAll(db, publish).value.sessions.Keys == db.sessions.Keys
    decreases |publish|
  {
    if publish == [] {
    } else {
      PublishedFrame(AppendTo(db, publish[0].session, publish[0].event, false).value.0, publish[1..]);
    }
  }
}
