/** Whole runs of the session store: any interleaving of workers, crashes, expiries and retries.

    A run is a sequence of transactions. A worker is whoever presents a lease token; a crashed worker
    is one that never presents it again, and a zombie one that presents it too late. The world keeps,
    beside the tables, what an observer writes down: every lease ever issued, every checkpoint
    ever accepted, and the chain of accepted checkpoints of each live session. */
module SessionHistory {
  import opened Mail
  import opened SessionStore

  /** A lease and the revision its holder was given to work on. */
  datatype Lease = Lease(act: Activation, revision: nat)

  /** An accepted checkpoint: who made it, the state it wrote, the inputs it took. */
  datatype Entry = Entry(token: nat, state: Json, took: seq<EventId>)

  datatype Chain = Chain(initial: Json, entries: seq<Entry>)

  datatype World = World(
    db: Store,
    clock: real,
    issued: seq<Lease>,
    accepted: seq<nat>,
    chains: map<Id, Chain>)

  datatype Op =
    | BindOp(executable: string, contract: Json)
    | CreateOp(id: Id, executable: string, state: Json)
    | AppendOp(id: Id, event: Event)
    | ClaimOp(q: Query)
    | ReleaseOp(token: nat, message: Option<string>, retryAfter: Option<real>)
    | RetryOp(id: Id)
    | CommitOp(token: nat, p: Proposal)
    | PurgeOp(before: real, ids: set<Id>)

  datatype Step = Step(now: real, op: Op)

  ghost function Init(): World {
    World(Store(map[], map[], 0, 0), 0.0, [], [], map[])
  }

  function ExtendChains(chains: map<Id, Chain>, spawn: seq<Spawn>): map<Id, Chain>
    decreases |spawn|
  {
    if spawn == [] then chains
    else ExtendChains(chains[spawn[0].session := Chain(spawn[0].state, [])], spawn[1..])
  }

  function Link(c: Chain, e: Entry): Chain { Chain(c.initial, c.entries + [e]) }

  ghost predicate Commits(w: World, step: Step) {
    && step.op.CommitOp?
    && step.op.token < |w.issued|
    && CommitTo(w.db, w.issued[step.op.token].act, step.op.p, step.now).Ok?
    && w.issued[step.op.token].act.session in w.chains
  }

  ghost predicate CommitsFor(w: World, step: Step, id: Id) {
    Commits(w, step) && w.issued[step.op.token].act.session == id
  }

  /** One transaction; a rejected one changes nothing but the time. */
  ghost function Next(w: World, step: Step): World {
    var v := w.(clock := step.now);
    match step.op
    case BindOp(executable, contract) =>
      (match BindIn(w.db, executable, contract) case Ok(db) => v.(db := db) case Err(_) => v)
    case CreateOp(id, executable, state) =>
      (match CreateIn(w.db, id, executable, state)
       case Ok(db) => v.(db := db, chains := w.chains[id := Chain(state, [])])
       case Err(_) => v)
    case AppendOp(id, event) =>
      (match AppendTo(w.db, id, event, false) case Ok(r) => v.(db := r.0) case Err(_) => v)
    case ClaimOp(q0) =>
      var q := q0.(now := step.now);
      if !ValidQuery(q) then v
      else
        var (db, r) := ClaimFrom(w.db, q);
        if r.None? || r.value.session !in w.db.sessions then v.(db := db)
        else v.(db := db, issued := w.issued + [Lease(r.value, w.db.sessions[r.value.session].revision)])
    case ReleaseOp(token, message, retryAfter) =>
      if token >= |w.issued| then v
      else (match ReleaseFrom(w.db, w.issued[token].act, step.now, message, retryAfter)
            case Ok(db) => v.(db := db) case Err(_) => v)
    case RetryOp(id) =>
      (match RetryIn(w.db, id) case Ok(r) => v.(db := r.0) case Err(_) => v)
    case CommitOp(token, p) =>
      if !Commits(w, step) then v
      else
        var id := w.issued[token].act.session;
        var chains := ExtendChains(w.chains, p.spawn);
        v.(db := CommitTo(w.db, w.issued[token].act, p, step.now).value,
           accepted := w.accepted + [token],
           chains := chains[id := Link(w.chains[id], Entry(token, p.state, p.incorporated))])
    case PurgeOp(before, ids) =>
      if exists id :: id in ids && !(id in w.db.sessions && Purgeable(w.db.sessions[id], before)) then v
      else v.(db := PurgeFrom(w.db, ids), chains := w.chains - ids)
  }

  ghost function Run(steps: seq<Step>): World {
    if steps == [] then Init() else Next(Run(steps[..|steps| - 1]), steps[|steps| - 1])
  }

  // ---- The invariant of one session ------------------------------------------

  predicate UniqueIds(inbox: seq<Input>) {
    forall i, j | 0 <= i < j < |inbox| :: inbox[i].event.id != inbox[j].event.id
  }

  /** Exactly the active rows carry a token; complete rows hold no mail; a leased or parked row
      that has checkpointed before still has the mail that made it runnable. */
  predicate RowOk(s: Session) {
    && (s.status == Active <==> s.token.Some?)
    && (s.token.Some? ==> s.leaseUntil.Some?)
    && (s.status == Failed ==> s.leaseUntil.None?)
    && (s.status == Complete ==> Pending(s.inbox) == [])
    && (s.status == Complete <==> s.completedAt.Some?)
    && (s.status == Ready ==> s.revision == 0)
    && (s.status == Waiting ==> s.revision > 0)
    && (s.deadline.Some? ==> s.revision > 0)
    && (s.status == Active && s.revision > 0 ==> Pending(s.inbox) != [])
    && UniqueIds(s.inbox)
  }

  /** Timer mail names its own session and a past or present revision, and a timer of the
      present revision is still pending. */
  predicate TimersOk(id: Id, s: Session) {
    forall i | 0 <= i < |s.inbox| && s.inbox[i].event.id.Timer? ::
      && s.inbox[i].event.id.session == id
      && s.inbox[i].event.id.revision <= s.revision
      && (s.inbox[i].event.id.revision == s.revision ==> !s.inbox[i].incorporated)
  }

  predicate LeaseOk(id: Id, s: Session, issued: seq<Lease>) {
    s.token.Some? ==>
      var t := s.token.value;
      && t < |issued|
      && issued[t].act.session == id
      && issued[t].act.token == t
      && issued[t].act.state == s.state
      && issued[t].act.executable == s.executable
      && issued[t].revision == s.revision
      && issued[t].act.events <= Pending(s.inbox)
  }

  /** The state stored when entry `k` was accepted. */
  function StateBefore(c: Chain, k: nat): Json
    requires k <= |c.entries|
  {
    if k == 0 then c.initial else c.entries[k - 1].state
  }

  predicate ChainOk(id: Id, s: Session, issued: seq<Lease>, c: Chain) {
    && |c.entries| == s.revision
    && StateBefore(c, |c.entries|) == s.state
    && (forall k | 0 <= k < |c.entries| ::
          && c.entries[k].token < |issued|
          && issued[c.entries[k].token].act.session == id
          && issued[c.entries[k].token].revision == k
          && issued[c.entries[k].token].act.state == StateBefore(c, k))
  }

  predicate TookBy(c: Chain, id: EventId) {
    exists k :: 0 <= k < |c.entries| && id in c.entries[k].took
  }

  /** A checkpoint takes only mail of its session that its own lease was delivered. */
  predicate TookDelivered(inbox: seq<Input>, issued: seq<Lease>, e: Entry) {
    e.token < |issued| && forall x | x in e.took :: Known(inbox, x) && x in Ids(issued[e.token].act.events)
  }

  predicate MailOk(s: Session, issued: seq<Lease>, c: Chain) {
    && (forall i | 0 <= i < |s.inbox| :: s.inbox[i].incorporated <==> TookBy(c, s.inbox[i].event.id))
    && (forall k, l, id | 0 <= k < l < |c.entries| && id in c.entries[k].took :: id !in c.entries[l].took)
    && (forall k | 0 <= k < |c.entries| :: TookDelivered(s.inbox, issued, c.entries[k]))
  }

  /** The checkpoint took every input it was delivered. */
  predicate WholeBatch(e: Entry, issued: seq<Lease>) {
    e.token < |issued| && forall m | m in issued[e.token].act.events :: m.id in e.took
  }

  predicate AllWhole(c: Chain, issued: seq<Lease>) {
    forall k | 0 <= k < |c.entries| :: WholeBatch(c.entries[k], issued)
  }

  /** The batches of a chain, one after the other. */
  function Delivered(entries: seq<Entry>, issued: seq<Lease>): seq<Event> {
    if entries == [] then []
    else
      var last := entries[|entries| - 1];
      Delivered(entries[..|entries| - 1], issued) + if last.token < |issued| then issued[last.token].act.events else []
  }

  predicate OrderOk(s: Session, issued: seq<Lease>, c: Chain) {
    AllWhole(c, issued) ==> Delivered(c.entries, issued) + Pending(s.inbox) == Accepted(s.inbox)
  }

  predicate SessionOk(id: Id, s: Session, issued: seq<Lease>, c: Chain) {
    && RowOk(s)
    && TimersOk(id, s)
    && LeaseOk(id, s, issued)
    && ChainOk(id, s, issued, c)
    && MailOk(s, issued, c)
    && OrderOk(s, issued, c)
  }

  ghost predicate Inv(w: World) {
    && w.db.nextToken == |w.issued|
    && (forall t | 0 <= t < |w.issued| :: w.issued[t].act.token == t)
    && w.chains.Keys == w.db.sessions.Keys
    && (forall id | id in w.db.sessions :: SessionOk(id, w.db.sessions[id], w.issued, w.chains[id]))
    && Distinct(w.accepted)
    && (forall t | t in w.accepted :: t < |w.issued|)
    && (forall t, id | t in w.accepted && id in w.db.sessions :: w.db.sessions[id].token != Some(t))
  }

  // ---- Inboxes ---------------------------------------------------------------

  lemma {:induction false} PendingAppend(a: seq<Input>, b: seq<Input>)
    ensures Pending(a + b) == Pending(a) + Pending(b)
    decreases |b|
  {
    if b == [] {
      assert a + b == a;
    } else {
      var n := |b| - 1;
      PendingAppend(a, b[..n]);
      assert (a + b)[..|a + b| - 1] == a + b[..n];
    }
  }

  lemma {:induction false} PendingIn(inbox: seq<Input>, e: Event)
    ensures e in Pending(inbox) <==> exists i :: 0 <= i < |inbox| && !inbox[i].incorporated && inbox[i].event == e
    decreases |inbox|
  {
    if inbox == [] {
    } else {
      var n := |inbox| - 1;
      PendingIn(inbox[..n], e);
      if e in Pending(inbox) && e !in Pending(inbox[..n]) {
        assert inbox[n].event == e;
      }
      assert forall i | 0 <= i < n :: inbox[..n][i] == inbox[i];
    }
  }

  lemma {:induction false} PendingNew(events: seq<Input>)
    requires forall i | 0 <= i < |events| :: !events[i].incorporated
    ensures Pending(events) == Accepted(events)
    decreases |events|
  {
    if events == [] {
    } else {
      var n := |events| - 1;
      PendingNew(events[..n]);
      assert Accepted(events) == Accepted(events[..n]) + [events[n].event];
    }
  }

  function Without(events: seq<Event>, ids: seq<EventId>): seq<Event> {
    if events == [] then []
    else
      var last := events[|events| - 1];
      Without(events[..|events| - 1], ids) + if last.id in ids then [] else [last]
  }

  lemma MarkLast(inbox: seq<Input>, ids: seq<EventId>)
    requires inbox != []
    ensures var n := |inbox| - 1;
      Mark(inbox, ids) == Mark(inbox[..n], ids) +
        [inbox[n].(incorporated := inbox[n].incorporated || inbox[n].event.id in ids)]
  {}

  lemma PendingSnoc(inbox: seq<Input>, last: Input)
    ensures Pending(inbox + [last]) == if last.incorporated then Pending(inbox) else Pending(inbox) + [last.event]
  {
    assert (inbox + [last])[..|inbox|] == inbox;
  }

  lemma WithoutSnoc(events: seq<Event>, last: Event, ids: seq<EventId>)
    ensures Without(events + [last], ids) ==
      if last.id in ids then Without(events, ids) else Without(events, ids) + [last]
  {
    assert (events + [last])[..|events|] == events;
  }

  lemma {:induction false} PendingMark(inbox: seq<Input>, ids: seq<EventId>)
    ensures Pending(Mark(inbox, ids)) == Without(Pending(inbox), ids)
    decreases |inbox|
  {
    if inbox == [] {
      assert Mark(inbox, ids) == [];
    } else {
      var n := |inbox| - 1;
      var last := inbox[n].(incorporated := inbox[n].incorporated || inbox[n].event.id in ids);
      PendingMark(inbox[..n], ids);
      MarkLast(inbox, ids);
      assert inbox == inbox[..n] + [inbox[n]];
      PendingSnoc(inbox[..n], inbox[n]);
      PendingSnoc(Mark(inbox[..n], ids), last);
      WithoutSnoc(Pending(inbox[..n]), inbox[n].event, ids);
    }
  }

  lemma {:induction false} WithoutAll(a: seq<Event>, ids: seq<EventId>)
    requires forall i | 0 <= i < |a| :: a[i].id in ids
    ensures Without(a, ids) == []
    decreases |a|
  {
    if a == [] {
    } else {
      WithoutAll(a[..|a| - 1], ids);
    }
  }

  lemma {:induction false} WithoutSplit(a: seq<Event>, b: seq<Event>, ids: seq<EventId>)
    requires forall i | 0 <= i < |a| :: a[i].id in ids
    requires forall i | 0 <= i < |b| :: b[i].id !in ids
    ensures Without(a + b, ids) == b
    decreases |b|
  {
    if b == [] {
      assert a + b == a;
      WithoutAll(a, ids);
    } else {
      var n := |b| - 1;
      assert (a + b)[..|a + b| - 1] == a + b[..n];
      WithoutSplit(a, b[..n], ids);
    }
  }

  lemma {:induction false} PendingDistinct(inbox: seq<Input>)
    requires UniqueIds(inbox)
    ensures forall i, j | 0 <= i < j < |Pending(inbox)| :: Pending(inbox)[i].id != Pending(inbox)[j].id
    decreases |inbox|
  {
    if inbox == [] {
    } else {
      var n := |inbox| - 1;
      PendingDistinct(inbox[..n]);
      forall e | e in Pending(inbox[..n]) ensures e.id != inbox[n].event.id {
        PendingIn(inbox[..n], e);
      }
    }
  }

  /** Marking a delivered batch leaves exactly the mail behind it. */
  lemma TakeBatch(inbox: seq<Input>, batch: seq<Event>, ids: seq<EventId>)
    requires UniqueIds(inbox) && batch <= Pending(inbox)
    requires forall e | e in batch :: e.id in ids
    requires forall id | id in ids :: id in Ids(batch)
    ensures Pending(inbox) == batch + Pending(Mark(inbox, ids))
  {
    var p := Pending(inbox);
    var rest := p[|batch|..];
    assert p == batch + rest;
    PendingMark(inbox, ids);
    PendingDistinct(inbox);
    forall j | 0 <= j < |rest| ensures rest[j].id !in ids {
      assert rest[j] == p[|batch| + j];
    }
    WithoutSplit(batch, rest, ids);
  }

  // ---- How one row may change ------------------------------------------------

  /** New mail arrived, and nothing else happened. */
  predicate Grew(a: Session, b: Session) {
    && |a.inbox| <= |b.inbox|
    && b == a.(inbox := b.inbox)
    && b.inbox[..|a.inbox|] == a.inbox
    && (forall i | |a.inbox| <= i < |b.inbox| :: !b.inbox[i].incorporated && !b.inbox[i].event.id.Timer?)
    && (UniqueIds(a.inbox) ==> UniqueIds(b.inbox))
    && (a.status == Complete ==> b == a)
  }

  lemma GrewTransitive(a: Session, b: Session, c: Session)
    requires Grew(a, b) && Grew(b, c)
    ensures Grew(a, c)
  {
    assert c.inbox[..|a.inbox|] == c.inbox[..|b.inbox|][..|a.inbox|];
    forall i | |a.inbox| <= i < |c.inbox| ensures !c.inbox[i].incorporated && !c.inbox[i].event.id.Timer? {
      if i < |b.inbox| {
        assert c.inbox[i] == b.inbox[i];
      }
    }
  }

  lemma {:induction false} PublishGrows(db: Store, publish: seq<Publication>, id: Id)
    requires PublishAll(db, publish).Ok? && id in db.sessions
    ensures Grew(db.sessions[id], PublishAll(db, publish).value.sessions[id])
    ensures PublishAll(db, publish).value == db.(sessions := PublishAll(db, publish).value.sessions)
    ensures !(exists i :: 0 <= i < |publish| && publish[i].session == id) ==>
      PublishAll(db, publish).value.sessions[id] == db.sessions[id]
    decreases |publish|
  {
    if publish == [] {
    } else {
      var next := AppendTo(db, publish[0].session, publish[0].event, false).value.0;
      AppendGrows(db, publish[0].session, publish[0].event, id);
      PublishGrows(next, publish[1..], id);
      GrewTransitive(db.sessions[id], next.sessions[id], PublishAll(db, publish).value.sessions[id]);
      if !(exists i :: 0 <= i < |publish| && publish[i].session == id) {
        assert publish[0].session != id;
        assert forall i | 0 <= i < |publish[1..]| :: publish[1..][i] == publish[i + 1];
      }
    }
  }

  lemma AppendGrows(db: Store, to: Id, event: Event, id: Id)
    requires AppendTo(db, to, event, false).Ok? && id in db.sessions
    ensures var db' := AppendTo(db, to, event, false).value.0;
      && db' == db.(sessions := db'.sessions) && db'.sessions.Keys == db.sessions.Keys
      && Grew(db.sessions[id], db'.sessions[id])
      && (id != to ==> db'.sessions[id] == db.sessions[id])
  {
  }

  lemma ChildrenTail(spawn: seq<Spawn>)
    requires spawn != []
    ensures Children(spawn) == [spawn[0].session] + Children(spawn[1..])
  {
  }

  lemma {:induction false} SpawnOnlyAdds(db: Store, spawn: seq<Spawn>)
    requires SpawnAll(db, spawn).Ok?
    ensures var db' := SpawnAll(db, spawn).value;
      && (forall id | id in db.sessions :: db'.sessions[id] == db.sessions[id] && id !in Children(spawn))
      && (forall id | id in db'.sessions && id !in db.sessions ::
            id in Children(spawn) && exists row, executable, state ::
              db'.sessions[id] == NewSession(row, executable, state))
      && db'.definitions == db.definitions && db'.nextToken == db.nextToken
    decreases |spawn|
  {
    if spawn == [] {
    } else {
      var c := spawn[0];
      var next := CreateIn(db, c.session, c.executable, c.state).value;
      SpawnOnlyAdds(next, spawn[1..]);
      var db' := SpawnAll(db, spawn).value;
      ChildrenTail(spawn);
      assert db'.sessions[c.session] == NewSession(db.nextRow, c.executable, c.state);
    }
  }

  lemma {:induction false} SpawnedChains(db: Store, spawn: seq<Spawn>, chains: map<Id, Chain>, id: Id)
    requires SpawnAll(db, spawn).Ok? && chains.Keys == db.sessions.Keys
    ensures ExtendChains(chains, spawn).Keys == SpawnAll(db, spawn).value.sessions.Keys
    ensures id in chains ==> ExtendChains(chains, spawn)[id] == chains[id]
    ensures id in ExtendChains(chains, spawn) && id !in chains ==>
      && ExtendChains(chains, spawn)[id].entries == []
      && ExtendChains(chains, spawn)[id].initial == SpawnAll(db, spawn).value.sessions[id].state
    decreases |spawn|
  {
    if spawn == [] {
    } else {
      var c := spawn[0];
      var next := CreateIn(db, c.session, c.executable, c.state).value;
      SpawnedChains(next, spawn[1..], chains[c.session := Chain(c.state, [])], id);
      SpawnOnlyAdds(next, spawn[1..]);
    }
  }

  /** What a claim does to each row. */
  ghost predicate ClaimEffect(id: Id, s: Session, s': Session, q: Query, r: Option<Activation>, token: nat)
    requires ValidQuery(q)
  {
    || (s' == s && (r.None? || r.value.session != id))
    || (s' == Park(s) && IsReady(s, q.now) && Exhausted(s, q) && (r.None? || r.value.session != id))
    || (r == Some(Activate(id, WithTimer(id, s, q.now), q, token)) && IsReady(s, q.now) && !Exhausted(s, q)
        && exists n: nat :: s' == Leased(WithTimer(id, s, q.now), q, token, n) && n > s.lastClaim)
  }

  lemma {:induction false} ClaimEffects(db: Store, q: Query)
    requires ValidQuery(q)
    ensures var (db', r) := ClaimFrom(db, q);
      && db'.sessions.Keys == db.sessions.Keys
      && (r.Some? ==> r.value.session in db.sessions && r.value.token == db.nextToken)
      && db'.nextToken == db.nextToken + (if r.Some? then 1 else 0)
      && db' == db.(sessions := db'.sessions, nextToken := db'.nextToken)
      && (forall id | id in db.sessions :: ClaimEffect(id, db.sessions[id], db'.sessions[id], q, r, db.nextToken))
    decreases ReadyIds(db, q)
  {
    if !exists id :: IsFirst(db, q, id) {
      NothingToClaim(db, q);
    } else {
      var first :| IsFirst(db, q, first);
      ClaimUnfolds(db, q, first);
      hide ClaimFrom, Matches, Activate, WithTimer, Park, Exhausted;
      if Exhausted(db.sessions[first], q) {
        ClaimEffects(ParkFirst(db, first), q);
        var (db', r) := ClaimFrom(ParkFirst(db, first), q);
        hide ParkFirst, ClaimEffect;
        forall id | id in db.sessions
          ensures ClaimEffect(id, db.sessions[id], db'.sessions[id], q, r, db.nextToken)
        {
          ParkedEffect(db, q, first, db', r, id);
        }
      } else {
        LeasedEffect(db, q, first);
      }
    }
  }

  lemma ParkedEffect(db: Store, q: Query, first: Id, db': Store, r: Option<Activation>, id: Id)
    requires ValidQuery(q) && IsFirst(db, q, first) && Exhausted(db.sessions[first], q)
    requires id in db.sessions && id in db'.sessions
    requires ClaimEffect(id, ParkFirst(db, first).sessions[id], db'.sessions[id], q, r, db.nextToken)
    ensures ClaimEffect(id, db.sessions[id], db'.sessions[id], q, r, db.nextToken)
  {
    hide Pending, WithTimer, Activate;
    if id == first {
      assert !IsReady(ParkFirst(db, first).sessions[id], q.now);
    }
  }

  lemma LeasedEffect(db: Store, q: Query, first: Id)
    requires ValidQuery(q) && IsFirst(db, q, first) && !Exhausted(db.sessions[first], q)
    ensures var (db', act) := LeaseFirst(db, q, first);
      && db'.sessions.Keys == db.sessions.Keys && act.session == first && act.token == db.nextToken
      && db' == db.(sessions := db'.sessions, nextToken := db.nextToken + 1)
      && forall id | id in db.sessions :: ClaimEffect(id, db.sessions[id], db'.sessions[id], q, Some(act), db.nextToken)
  {
    hide Pending, WithTimer;
    var s := db.sessions[first];
    var n := MaxClaim(db.sessions) + 1;
    assert n > s.lastClaim
      && LeaseFirst(db, q, first).0.sessions[first] == Leased(WithTimer(first, s, q.now), q, db.nextToken, n);
  }

  // ---- Row identities --------------------------------------------------------

  lemma {:induction false} SpawnRows(db: Store, spawn: seq<Spawn>)
    requires RowsOk(db) && SpawnAll(db, spawn).Ok?
    ensures RowsOk(SpawnAll(db, spawn).value)
    decreases |spawn|
  {
    if spawn == [] {
    } else {
      SpawnRows(CreateIn(db, spawn[0].session, spawn[0].executable, spawn[0].state).value, spawn[1..]);
    }
  }

  /** Replacing rows in place keeps their identities. */
  lemma SameRows(a: Store, b: Store)
    requires RowsOk(a) && b.sessions.Keys <= a.sessions.Keys && b.nextRow == a.nextRow
    requires forall id | id in b.sessions :: b.sessions[id].rowid == a.sessions[id].rowid
    ensures RowsOk(b)
  {
  }

  lemma CommitRows(db: Store, act: Activation, p: Proposal, now: real)
    requires RowsOk(db) && CommitTo(db, act, p, now).Ok?
    ensures RowsOk(CommitTo(db, act, p, now).value)
  {
    var spawned := SpawnAll(db, p.spawn).value;
    SpawnRows(db, p.spawn);
    var taken := Incorporate(spawned, act.session, p.incorporated);
    var sent := PublishAll(taken, p.publish).value;
    forall id | id in sent.sessions ensures sent.sessions[id].rowid == spawned.sessions[id].rowid {
      PublishGrows(taken, p.publish, id);
    }
    PublishGrows(taken, p.publish, act.session);
    SameRows(spawned, CommitTo(db, act, p, now).value);
  }

  lemma CreateRows(db: Store, id: Id, executable: string, state: Json)
    requires RowsOk(db) && CreateIn(db, id, executable, state).Ok?
    ensures RowsOk(CreateIn(db, id, executable, state).value)
  {
  }

  lemma LeaseRows(db: Store, q: Query, id: Id)
    requires RowsOk(db) && ValidQuery(q) && id in db.sessions
    ensures RowsOk(LeaseFirst(db, q, id).0) && RowsOk(ParkFirst(db, id))
  {
    hide Batch, Pending;
    SameRows(db, LeaseFirst(db, q, id).0);
    SameRows(db, ParkFirst(db, id));
  }
}
