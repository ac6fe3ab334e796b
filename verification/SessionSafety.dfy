/** The invariant of every reachable world, and what it says about a session's history. */
module SessionSafety {
  import opened Mail
  import opened SessionStore
  import opened SessionHistory

  // ---- One row at a time -----------------------------------------------------

  lemma NewSessionOk(id: Id, row: nat, executable: string, state: Json, issued: seq<Lease>)
    ensures SessionOk(id, NewSession(row, executable, state), issued, Chain(state, []))
  {
  }

  /** More leases elsewhere do not disturb a session. */
  lemma MoreLeases(id: Id, s: Session, issued: seq<Lease>, more: seq<Lease>, c: Chain)
    requires SessionOk(id, s, issued, c) && issued <= more
    ensures SessionOk(id, s, more, c)
  {
    DeliveredStable(s, issued, more, c);
    MailStable(s, issued, more, c);
  }

  lemma MailStable(s: Session, issued: seq<Lease>, more: seq<Lease>, c: Chain)
    requires issued <= more && MailOk(s, issued, c)
    ensures MailOk(s, more, c)
  {
    forall k | 0 <= k < |c.entries| ensures TookDelivered(s.inbox, more, c.entries[k]) {
      assert TookDelivered(s.inbox, issued, c.entries[k]);
    }
  }

  lemma DeliveredStable(s: Session, issued: seq<Lease>, more: seq<Lease>, c: Chain)
    requires issued <= more && OrderOk(s, issued, c)
    requires forall k | 0 <= k < |c.entries| :: c.entries[k].token < |issued|
    ensures OrderOk(s, more, c)
  {
    SameDelivered(c.entries, issued, more);
    if AllWhole(c, more) {
      forall k | 0 <= k < |c.entries| ensures WholeBatch(c.entries[k], issued) {
        assert WholeBatch(c.entries[k], more);
      }
    }
  }

  lemma {:induction false} SameDelivered(entries: seq<Entry>, issued: seq<Lease>, more: seq<Lease>)
    requires issued <= more
    requires forall k | 0 <= k < |entries| :: entries[k].token < |issued|
    ensures Delivered(entries, issued) == Delivered(entries, more)
    decreases |entries|
  {
    if entries == [] {
    } else {
      SameDelivered(entries[..|entries| - 1], issued, more);
    }
  }

  /** Unincorporated mail with new identities behind the inbox. */
  predicate Extended(a: Session, b: Session) {
    && UniqueIds(b.inbox) && |a.inbox| <= |b.inbox| && b.inbox[..|a.inbox|] == a.inbox
    && (forall i | |a.inbox| <= i < |b.inbox| :: !b.inbox[i].incorporated)
  }

  lemma ExtendedMail(a: Session, b: Session, issued: seq<Lease>, c: Chain)
    requires Extended(a, b) && MailOk(a, issued, c)
    ensures MailOk(b, issued, c)
  {
    var n := |a.inbox|;
    assert forall i | 0 <= i < n :: b.inbox[i] == a.inbox[i];
    forall i | 0 <= i < |b.inbox| ensures b.inbox[i].incorporated <==> TookBy(c, b.inbox[i].event.id) {
      if i < n {
        assert b.inbox[i] == a.inbox[i];
      } else {
        assert forall k | 0 <= k < |c.entries| :: TookDelivered(a.inbox, issued, c.entries[k]);
      }
    }
    forall k | 0 <= k < |c.entries| ensures TookDelivered(b.inbox, issued, c.entries[k]) {
      assert TookDelivered(a.inbox, issued, c.entries[k]);
      forall x | x in c.entries[k].took ensures Known(b.inbox, x) {
        var j :| 0 <= j < |a.inbox| && a.inbox[j].event.id == x;
        assert b.inbox[j].event.id == x;
      }
    }
  }

  lemma ExtendedOrder(a: Session, b: Session, issued: seq<Lease>, c: Chain)
    requires Extended(a, b) && OrderOk(a, issued, c)
    ensures OrderOk(b, issued, c)
    ensures Pending(a.inbox) <= Pending(b.inbox)
  {
    var extra := b.inbox[|a.inbox|..];
    assert b.inbox == a.inbox + extra;
    PendingAppend(a.inbox, extra);
    PendingNew(extra);
    AcceptedAppend(a.inbox, extra);
    hide Pending, Accepted, Delivered, AllWhole, Extended;
    if AllWhole(c, issued) {
      Behind(Delivered(c.entries, issued), Pending(a.inbox), Accepted(a.inbox), Accepted(extra));
    }
  }

  lemma AcceptedAppend(a: seq<Input>, b: seq<Input>)
    ensures Accepted(a + b) == Accepted(a) + Accepted(b)
  {
  }

  lemma Behind(done: seq<Event>, pending: seq<Event>, all: seq<Event>, extra: seq<Event>)
    requires done + pending == all
    ensures done + (pending + extra) == all + extra
  {
  }

  lemma MoreMail(a: Session, b: Session, issued: seq<Lease>, c: Chain)
    requires Extended(a, b) && MailOk(a, issued, c) && OrderOk(a, issued, c)
    ensures MailOk(b, issued, c) && OrderOk(b, issued, c)
    ensures Pending(a.inbox) <= Pending(b.inbox)
  {
    ExtendedMail(a, b, issued, c);
    ExtendedOrder(a, b, issued, c);
  }

  lemma GrewOk(id: Id, a: Session, b: Session, issued: seq<Lease>, c: Chain)
    requires SessionOk(id, a, issued, c) && Grew(a, b)
    ensures SessionOk(id, b, issued, c)
    ensures Pending(a.inbox) <= Pending(b.inbox)
  {
    MoreMail(a, b, issued, c);
    forall i | 0 <= i < |b.inbox| && b.inbox[i].event.id.Timer? ensures i < |a.inbox| && b.inbox[i] == a.inbox[i] {
    }
  }

  lemma ParkOk(id: Id, s: Session, issued: seq<Lease>, c: Chain)
    requires SessionOk(id, s, issued, c) && s.status != Complete
    ensures SessionOk(id, Park(s), issued, c)
  {
  }

  lemma ReleasedOk(id: Id, s: Session, now: real, error: Option<string>, after: Option<real>, issued: seq<Lease>,
                   c: Chain)
    requires SessionOk(id, s, issued, c) && s.status == Active
    ensures SessionOk(id, Released(s, now, error, after), issued, c)
  {
  }

  lemma HolderIsActive(id: Id, s: Session, issued: seq<Lease>, c: Chain)
    requires SessionOk(id, s, issued, c)
    ensures s.token.Some? ==>
      && s.status == Active && s.token.value < |issued|
      && issued[s.token.value].act.session == id && issued[s.token.value].act.token == s.token.value
  {
  }

  lemma RetriedOk(id: Id, s: Session, issued: seq<Lease>, c: Chain)
    requires SessionOk(id, s, issued, c) && s.status == Failed
    ensures SessionOk(id, Retried(s), issued, c)
  {
  }

  lemma WithTimerOk(id: Id, s: Session, now: real, issued: seq<Lease>, c: Chain)
    requires SessionOk(id, s, issued, c) && s.status != Complete
    ensures SessionOk(id, WithTimer(id, s, now), issued, c)
    ensures Due(s, now) ==> Pending(WithTimer(id, s, now).inbox) != []
  {
    var t := WithTimer(id, s, now);
    if t != s {
      assert t.inbox[..|s.inbox|] == s.inbox;
      MoreMail(s, t, issued, c);
    }
    if Due(s, now) {
      assert Known(t.inbox, Timer(id, s.revision)) by {
        if t != s {
          assert t.inbox[|s.inbox|].event.id == Timer(id, s.revision);
        }
      }
      var i :| 0 <= i < |t.inbox| && t.inbox[i].event.id == Timer(id, s.revision);
      PendingIn(t.inbox, t.inbox[i].event);
    }
  }

  lemma LeasedOk(id: Id, s: Session, q: Query, n: nat, issued: seq<Lease>, c: Chain)
    requires SessionOk(id, s, issued, c) && ValidQuery(q) && IsReady(s, q.now)
    ensures var t := WithTimer(id, s, q.now);
      SessionOk(id, Leased(t, q, |issued|, n), issued + [Lease(Activate(id, t, q, |issued|), s.revision)], c)
  {
    var t := WithTimer(id, s, q.now);
    WithTimerOk(id, s, q.now, issued, c);
    MoreLeases(id, t, issued, issued + [Lease(Activate(id, t, q, |issued|), s.revision)], c);
  }

  /** The inputs a checkpoint names were delivered to it, and no earlier checkpoint took them. */
  lemma TakesNewMail(id: Id, s: Session, p: Proposal, issued: seq<Lease>, c: Chain, x: EventId)
    requires SessionOk(id, s, issued, c) && s.token.Some?
    requires !Malformed(issued[s.token.value].act, p) && x in p.incorporated
    ensures Known(s.inbox, x) && x in Ids(issued[s.token.value].act.events) && !TookBy(c, x)
  {
    var act := issued[s.token.value].act;
    var m :| m in act.events && m.id == x;
    assert m in Pending(s.inbox);
    PendingIn(s.inbox, m);
    var i :| 0 <= i < |s.inbox| && !s.inbox[i].incorporated && s.inbox[i].event == m;
  }

  lemma LinkOk(id: Id, s: Session, issued: seq<Lease>, c: Chain, e: Entry)
    requires ChainOk(id, s, issued, c) && LeaseOk(id, s, issued) && s.token == Some(e.token)
    ensures ChainOk(id, s.(state := e.state, revision := s.revision + 1), issued, Link(c, e))
  {
    hide Pending;
    var d, n := Link(c, e), |c.entries|;
    assert d.entries[n] == e && StateBefore(d, n + 1) == e.state;
    forall k | 0 <= k <= n
      ensures d.entries[k].token < |issued| && issued[d.entries[k].token].act.session == id
      ensures issued[d.entries[k].token].revision == k && issued[d.entries[k].token].act.state == StateBefore(d, k)
    {
      LinkBefore(c, e, k);
    }
  }

  lemma LinkBefore(c: Chain, e: Entry, k: nat)
    requires k <= |c.entries|
    ensures StateBefore(Link(c, e), k) == StateBefore(c, k)
    ensures Link(c, e).entries[k] == if k < |c.entries| then c.entries[k] else e
  {
  }

  /** The row a checkpoint writes, once it has taken its inputs and its mail has been published. */
  lemma CheckpointOk(id: Id, s: Session, sent: Session, p: Proposal, now: real, issued: seq<Lease>, c: Chain)
    requires SessionOk(id, s, issued, c) && s.token.Some?
    requires s.token.value < |issued| && !Malformed(issued[s.token.value].act, p)
    requires Grew(s.(inbox := Mark(s.inbox, p.incorporated)), sent)
    requires p.complete ==> Pending(sent.inbox) == []
    ensures SessionOk(id, Checkpointed(sent, p, now), issued, Link(c, Entry(s.token.value, p.state, p.incorporated)))
  {
    var e := Entry(s.token.value, p.state, p.incorporated);
    var d := Link(c, e);
    var marked := s.(inbox := Mark(s.inbox, p.incorporated));
    var after := Checkpointed(sent, p, now);
    forall x | x in p.incorporated
      ensures Known(s.inbox, x) && x in Ids(issued[e.token].act.events) && !TookBy(c, x)
    {
      TakesNewMail(id, s, p, issued, c, x);
    }
    MarkedSame(s.inbox, p.incorporated);
    CheckpointRow(id, s, sent, p, now);
    LinkOk(id, s, issued, c, e);
    hide Pending, Delivered, Mark, Malformed, AllWhole, Accepted, RowOk, TimersOk, ChainOk, MailOk, OrderOk;
    assert Extended(marked, sent) && Extended(sent, after);
    MarkedMailOk(marked, s, p.incorporated, issued, c, d);
    MarkedOrderOk(s, e, issued, c);
    MoreMail(marked, sent, issued, d);
    MoreMail(sent, after, issued, d);
    SameChain(id, s.(state := e.state, revision := s.revision + 1), after, issued, d);
  }

  lemma SameChain(id: Id, a: Session, b: Session, issued: seq<Lease>, c: Chain)
    requires ChainOk(id, a, issued, c) && a.state == b.state && a.revision == b.revision
    ensures ChainOk(id, b, issued, c)
  {
  }

  lemma CheckpointRow(id: Id, s: Session, sent: Session, p: Proposal, now: real)
    requires RowOk(s) && TimersOk(id, s) && (p.deadline.Some? ==> !p.complete)
    requires Grew(s.(inbox := Mark(s.inbox, p.incorporated)), sent)
    requires p.complete ==> Pending(sent.inbox) == []
    ensures RowOk(Checkpointed(sent, p, now)) && TimersOk(id, Checkpointed(sent, p, now))
    ensures UniqueIds(sent.inbox)
  {
    hide Pending;
    var marked := s.(inbox := Mark(s.inbox, p.incorporated));
    MarkedSame(s.inbox, p.incorporated);
    forall i | 0 <= i < |sent.inbox| && sent.inbox[i].event.id.Timer?
      ensures sent.inbox[i].event.id.session == id && sent.inbox[i].event.id.revision <= s.revision
    {
      assert sent.inbox[i] == marked.inbox[i] && marked.inbox[i].event == s.inbox[i].event;
    }
  }

  lemma MarkedSame(inbox: seq<Input>, ids: seq<EventId>)
    ensures |Mark(inbox, ids)| == |inbox|
    ensures forall i | 0 <= i < |inbox| :: Mark(inbox, ids)[i].event == inbox[i].event
    ensures UniqueIds(inbox) ==> UniqueIds(Mark(inbox, ids))
  {
  }

  lemma MarkedMailOk(marked: Session, s: Session, took: seq<EventId>, issued: seq<Lease>, c: Chain, d: Chain)
    requires MailOk(s, issued, c) && marked == s.(inbox := Mark(s.inbox, took))
    requires |d.entries| == |c.entries| + 1 && d.entries[|c.entries|].took == took
    requires forall k | 0 <= k < |c.entries| :: d.entries[k] == c.entries[k]
    requires d.entries[|c.entries|].token < |issued|
    requires forall x | x in took :: Known(s.inbox, x) && !TookBy(c, x)
    requires forall x | x in took :: x in Ids(issued[d.entries[|c.entries|].token].act.events)
    ensures MailOk(marked, issued, d)
  {
    var n := |c.entries|;
    forall x ensures TookBy(d, x) <==> TookBy(c, x) || x in took {
      if TookBy(c, x) {
        var k :| 0 <= k < n && x in c.entries[k].took;
        assert x in d.entries[k].took;
      }
      if x in took {
        assert x in d.entries[n].took;
      }
    }
    forall k, l, x | 0 <= k < l < n + 1 && x in d.entries[k].took ensures x !in d.entries[l].took {
      if l == n {
        assert x in c.entries[k].took && TookBy(c, x);
      } else {
        assert x in c.entries[k].took;
      }
    }
    forall k | 0 <= k < n + 1 ensures TookDelivered(marked.inbox, issued, d.entries[k]) {
      assert k < n ==> TookDelivered(s.inbox, issued, c.entries[k]);
      forall x | x in d.entries[k].took ensures Known(marked.inbox, x) {
        var i :| 0 <= i < |s.inbox| && s.inbox[i].event.id == x;
        assert marked.inbox[i].event.id == x;
      }
    }
  }

  lemma MarkedOrderOk(s: Session, e: Entry, issued: seq<Lease>, c: Chain)
    requires OrderOk(s, issued, c) && UniqueIds(s.inbox)
    requires e.token < |issued| && issued[e.token].act.events <= Pending(s.inbox)
    requires forall x | x in e.took :: x in Ids(issued[e.token].act.events)
    ensures OrderOk(s.(inbox := Mark(s.inbox, e.took)), issued, Link(c, e))
  {
    hide AllWhole, Delivered, Pending, UniqueIds, Mark;
    if AllWhole(Link(c, e), issued) {
      WholeLink(c, e, issued);
      var batch := issued[e.token].act.events;
      assert forall m | m in batch :: m.id in e.took;
      TakeBatch(s.inbox, batch, e.took);
      DeliveredLink(c, e, issued);
      MarkedSame(s.inbox, e.took);
      assert Accepted(Mark(s.inbox, e.took)) == Accepted(s.inbox);
      var d := Delivered(c.entries, issued);
      var rest := Pending(Mark(s.inbox, e.took));
      assert d + (batch + rest) == (d + batch) + rest;
    }
  }

  lemma WholeLink(c: Chain, e: Entry, issued: seq<Lease>)
    requires AllWhole(Link(c, e), issued)
    ensures AllWhole(c, issued) && WholeBatch(e, issued)
  {
    var d := Link(c, e);
    assert WholeBatch(d.entries[|c.entries|], issued);
    forall k | 0 <= k < |c.entries| ensures WholeBatch(c.entries[k], issued) {
      assert WholeBatch(d.entries[k], issued);
    }
  }

  lemma DeliveredLink(c: Chain, e: Entry, issued: seq<Lease>)
    requires e.token < |issued|
    ensures Delivered(Link(c, e).entries, issued) == Delivered(c.entries, issued) + issued[e.token].act.events
  {
    assert Link(c, e).entries[..|c.entries|] == c.entries;
  }

  // ---- Every transaction keeps the invariant ---------------------------------

  lemma ClaimKeeps(w: World, step: Step)
    requires Inv(w) && step.op.ClaimOp?
    ensures Inv(Next(w, step))
  {
    hide SessionOk, ClaimFrom, ClaimEffect;
    var q := step.op.q.(now := step.now);
    if ValidQuery(q) {
      ClaimEffects(w.db, q);
      var w' := Next(w, step);
      var r := ClaimFrom(w.db, q).1;
      forall id | id in w'.db.sessions
        ensures SessionOk(id, w'.db.sessions[id], w'.issued, w'.chains[id])
        ensures forall t | t in w'.accepted :: w'.db.sessions[id].token != Some(t)
      {
        ClaimKeepsRow(id, w.db.sessions[id], w'.db.sessions[id], q, r, w.issued, w.chains[id],
          if r.Some? then w.db.sessions[r.value.session].revision else 0);
      }
    }
  }

  /** A claim leaves a row as it was, parks it, or leases it under the newest token. */
  lemma ClaimKeepsRow(id: Id, s: Session, s': Session, q: Query, r: Option<Activation>, issued: seq<Lease>, c: Chain,
                      revision: nat)
    requires ValidQuery(q) && SessionOk(id, s, issued, c) && ClaimEffect(id, s, s', q, r, |issued|)
    requires r.Some? && r.value.session == id ==> revision == s.revision
    ensures SessionOk(id, s', if r.None? then issued else issued + [Lease(r.value, revision)], c)
    ensures s'.token == s.token || s'.token == None || s'.token == Some(|issued|)
  {
    hide SessionOk, WithTimer;
    var more := if r.None? then issued else issued + [Lease(r.value, revision)];
    if s' == s {
      MoreLeases(id, s, issued, more, c);
    } else if s' == Park(s) && (r.None? || r.value.session != id) {
      ParkOk(id, s, issued, c);
      MoreLeases(id, Park(s), issued, more, c);
    } else {
      var n: nat :| s' == Leased(WithTimer(id, s, q.now), q, |issued|, n);
      LeasedOk(id, s, q, n, issued, c);
    }
  }

  /** What a successful checkpoint does to the row of its own session. */
  lemma CommitterEffect(db: Store, act: Activation, p: Proposal, now: real)
    returns (sent: Session)
    requires CommitTo(db, act, p, now).Ok?
    ensures Holds(db, act, now) && !Malformed(act, p)
    ensures var s := db.sessions[act.session];
      Grew(s.(inbox := Mark(s.inbox, p.incorporated)), sent)
    ensures p.complete ==> Pending(sent.inbox) == []
    ensures act.session in CommitTo(db, act, p, now).value.sessions
    ensures CommitTo(db, act, p, now).value.sessions[act.session] == Checkpointed(sent, p, now)
  {
    var spawned := SpawnAll(db, p.spawn).value;
    var taken := Incorporate(spawned, act.session, p.incorporated);
    SpawnOnlyAdds(db, p.spawn);
    PublishGrows(taken, p.publish, act.session);
    sent := PublishAll(taken, p.publish).value.sessions[act.session];
  }

  /** A session that did not exist before a checkpoint is one of its children, perhaps with mail. */
  ghost predicate Born(chain: Chain, s: Session) {
    chain.entries == [] && exists row: nat, executable :: Grew(NewSession(row, executable, chain.initial), s)
  }

  /** What a successful checkpoint does to every other row: children appear, and mail arrives. */
  lemma BystanderEffect(db: Store, act: Activation, p: Proposal, now: real, chains: map<Id, Chain>, id: Id)
    requires CommitTo(db, act, p, now).Ok? && chains.Keys == db.sessions.Keys
    ensures var db' := CommitTo(db, act, p, now).value;
      var chains' := ExtendChains(chains, p.spawn);
      && db'.sessions.Keys == chains'.Keys && db'.nextToken == db.nextToken
      && (id in db.sessions ==> id in db'.sessions && chains'[id] == chains[id])
      && (id in db.sessions && id != act.session ==> Grew(db.sessions[id], db'.sessions[id]))
      && (id in db'.sessions && id !in db.sessions ==> Born(chains'[id], db'.sessions[id]))
  {
    var spawned := SpawnAll(db, p.spawn).value;
    var taken := Incorporate(spawned, act.session, p.incorporated);
    SpawnOnlyAdds(db, p.spawn);
    SpawnedChains(db, p.spawn, chains, id);
    PublishGrows(taken, p.publish, act.session);
    if id in spawned.sessions && id != act.session {
      PublishGrows(taken, p.publish, id);
      if id !in db.sessions {
        var row: nat, executable, state :| spawned.sessions[id] == NewSession(row, executable, state);
        assert Grew(NewSession(row, executable, ExtendChains(chains, p.spawn)[id].initial),
                    CommitTo(db, act, p, now).value.sessions[id]);
      }
    }
  }

  lemma BornOk(id: Id, s: Session, issued: seq<Lease>, c: Chain)
    requires Born(c, s)
    ensures SessionOk(id, s, issued, c) && s.token.None?
  {
    hide SessionOk;
    var row: nat, executable :| Grew(NewSession(row, executable, c.initial), s);
    NewSessionOk(id, row, executable, c.initial, issued);
    assert c == Chain(c.initial, []);
    GrewOk(id, NewSession(row, executable, c.initial), s, issued, c);
  }

  lemma CommitKeepsRow(w: World, step: Step, id: Id)
    requires Inv(w) && Commits(w, step) && id in Next(w, step).db.sessions
    ensures var w' := Next(w, step);
      && id in w'.chains
      && SessionOk(id, w'.db.sessions[id], w'.issued, w'.chains[id])
      && forall t | t in w'.accepted :: w'.db.sessions[id].token != Some(t)
  {
    hide SessionOk, CommitTo, Malformed;
    var w', p := Next(w, step), step.op.p;
    var act := w.issued[step.op.token].act;
    var sent := CommitterEffect(w.db, act, p, step.now);
    var s := w.db.sessions[act.session];
    HolderIsActive(act.session, s, w.issued, w.chains[act.session]);
    BystanderEffect(w.db, act, p, step.now, w.chains, act.session);
    BystanderEffect(w.db, act, p, step.now, w.chains, id);
    if id == act.session {
      CheckpointOk(id, s, sent, p, step.now, w.issued, w.chains[id]);
      HolderIsActive(id, w'.db.sessions[id], w'.issued, w'.chains[id]);
    } else if id in w.db.sessions {
      GrewOk(id, w.db.sessions[id], w'.db.sessions[id], w.issued, w.chains[id]);
      HolderIsActive(id, w.db.sessions[id], w.issued, w.chains[id]);
    } else {
      BornOk(id, w'.db.sessions[id], w.issued, w'.chains[id]);
    }
  }

  lemma CommitKeepsKeys(w: World, step: Step)
    requires Inv(w) && Commits(w, step)
    ensures var w' := Next(w, step);
      && w'.chains.Keys == w'.db.sessions.Keys && w'.db.nextToken == w.db.nextToken
      && step.op.token !in w.accepted && w'.accepted == w.accepted + [step.op.token] && w'.issued == w.issued
  {
    hide SessionOk, CommitTo;
    var act := w.issued[step.op.token].act;
    var _ := CommitterEffect(w.db, act, step.op.p, step.now);
    BystanderEffect(w.db, act, step.op.p, step.now, w.chains, act.session);
    HolderIsActive(act.session, w.db.sessions[act.session], w.issued, w.chains[act.session]);
  }

  lemma CommitKeeps(w: World, step: Step)
    requires Inv(w) && Commits(w, step)
    ensures Inv(Next(w, step))
  {
    hide SessionOk, CommitTo;
    var w' := Next(w, step);
    CommitKeepsKeys(w, step);
    forall id | id in w'.db.sessions
      ensures SessionOk(id, w'.db.sessions[id], w'.issued, w'.chains[id])
      ensures forall t | t in w'.accepted :: w'.db.sessions[id].token != Some(t)
    {
      CommitKeepsRow(w, step, id);
    }
  }

  /** Only the current holder of a lease can commit. */
  lemma CommitterHolds(w: World, step: Step)
    requires Inv(w) && Commits(w, step)
    ensures var act := w.issued[step.op.token].act;
      && act.session in w.db.sessions && act.token == step.op.token
      && w.db.sessions[act.session].token == Some(step.op.token)
      && step.op.token !in w.accepted
  {
    hide SessionOk;
  }

  lemma OtherStepsKeep(w: World, step: Step)
    requires Inv(w) && !step.op.ClaimOp? && !step.op.CommitOp?
    ensures Inv(Next(w, step))
  {
    hide SessionOk;
    var w' := Next(w, step);
    forall id | id in w'.db.sessions
      ensures id in w'.chains && SessionOk(id, w'.db.sessions[id], w'.issued, w'.chains[id])
      ensures forall t | t in w'.accepted :: w'.db.sessions[id].token != Some(t)
    {
      if id in w.db.sessions {
        OtherRowKept(w, step, id);
      } else {
        NewSessionOk(id, w.db.nextRow, step.op.executable, step.op.state, w.issued);
      }
    }
  }

  /** A row that was there before; a create that names it is rejected. */
  lemma OtherRowKept(w: World, step: Step, id: Id)
    requires Inv(w) && !step.op.ClaimOp? && !step.op.CommitOp?
    requires id in w.db.sessions && id in Next(w, step).db.sessions
    ensures var v := Next(w, step);
      && id in v.chains && SessionOk(id, v.db.sessions[id], v.issued, v.chains[id])
      && forall t | t in v.accepted :: v.db.sessions[id].token != Some(t)
  {
    hide SessionOk;
    var s, c, v := w.db.sessions[id], w.chains[id], Next(w, step);
    assert SessionOk(id, s, w.issued, c);
    match step.op
    case AppendOp(to, event) =>
      if AppendTo(w.db, to, event, false).Ok? {
        AppendGrows(w.db, to, event, id);
        GrewOk(id, s, v.db.sessions[id], w.issued, c);
      }
    case ReleaseOp(token, message, after) =>
      if v.db.sessions[id] != s {
        HolderIsActive(id, s, w.issued, c);
        ReleasedOk(id, s, step.now, message, after, w.issued, c);
      }
    case RetryOp(_) =>
      if v.db.sessions[id] != s {
        RetriedOk(id, s, w.issued, c);
      }
    case _ =>
  }

  /** Every transaction, accepted or rejected, on time or too late, keeps the invariant. */
  lemma StepKeeps(w: World, step: Step)
    requires Inv(w)
    ensures Inv(Next(w, step))
  {
    if step.op.ClaimOp? {
      ClaimKeeps(w, step);
    } else if step.op.CommitOp? {
      if Commits(w, step) {
        CommitKeeps(w, step);
      }
    } else {
      OtherStepsKeep(w, step);
    }
  }

  lemma {:induction false} RunKeeps(steps: seq<Step>)
    ensures Inv(Run(steps))
    decreases |steps|
  {
    if steps == [] {
    } else {
      RunKeeps(steps[..|steps| - 1]);
      StepKeeps(Run(steps[..|steps| - 1]), steps[|steps| - 1]);
    }
  }
}
