/** What the fair-share queue is for: each key's envelopes are first claimed in the order they were sent, returned ones
    go before them, and what is acknowledged has been handed out. */
module FairOrder {
  import opened Mail
  import opened FairQueue

  // ---- One claim, one return -------------------------------------------------

  /** A claim that no other command interrupts takes the envelope at the head of the key's list and puts it in
      flight. */
  lemma ClaimTakesHead(q: Store, w: nat, key: Id)
    requires PlaceOf(q, w).Idle? && At(q.lists, key) != []
    ensures Enabled(q, Pop(w, key)) && Enabled(Next(q, Pop(w, key)), Record(w))
    ensures var v, e := Next(Next(q, Pop(w, key)), Record(w)), At(q.lists, key)[0];
      && At(v.lists, key) == At(q.lists, key)[1..] && (forall k | k != key :: At(v.lists, k) == At(q.lists, k))
      && v.inFlight == q.inFlight[e.id := e] && v.delivered == q.delivered + {e}
      && v.active == q.active && v.sent == q.sent && v.acked == q.acked
      && PlaceOf(v, w).Idle? && forall u | u != w :: PlaceOf(v, u) == PlaceOf(q, u)
  {
  }

  /** A claim that finds nothing retires the key, unless an envelope came in before it looks again. */
  lemma ClaimRetiresKey(q: Store, w: nat, key: Id, e: Envelope)
    requires PlaceOf(q, w).Idle? && At(q.lists, key) == []
    ensures Enabled(q, Pop(w, key)) && Enabled(Next(q, Pop(w, key)), Prune(w))
    ensures var v := Next(Next(q, Pop(w, key)), Prune(w));
      && Enabled(v, Recheck(w))
      && Next(v, Recheck(w)) == q.(active := q.active - {key}, workers := q.workers[w := Idle])
      && (Enabled(v, Send(e)) && e.key == key ==>
            var u := Next(v, Send(e));
            Enabled(u, Recheck(w)) && Enabled(Next(u, Recheck(w)), Readd(w))
            && key in Next(Next(u, Recheck(w)), Readd(w)).active)
  {
    assert q.workers[w := Drained(key)][w := Pruned(key)][w := Idle] == q.workers[w := Idle];
  }

  /** A new envelope is the last of its key. */
  lemma SendGoesLast(q: Store, e: Envelope)
    requires Enabled(q, Send(e))
    ensures var v := Next(q, Send(e));
      && At(v.lists, e.key) == At(q.lists, e.key) + [e] && (forall k | k != e.key :: At(v.lists, k) == At(q.lists, k))
      && v.active == q.active + {e.key} && v.sent == q.sent + {e} && v.delivered == q.delivered
      && v.inFlight == q.inFlight && v.workers == q.workers && v.acked == q.acked
  {
  }

  ghost predicate PutBack(q: Store, v: Store, e: Envelope, w: nat) {
    && At(v.lists, e.key) == [e] + At(q.lists, e.key) && (forall k | k != e.key :: At(v.lists, k) == At(q.lists, k))
    && v.active == q.active + {e.key} && v.inFlight == q.inFlight - {e.id}
    && v.sent == q.sent && v.delivered == q.delivered && v.acked == q.acked
    && PlaceOf(v, w).Idle? && forall u | u != w :: PlaceOf(v, u) == PlaceOf(q, u)
  }

  /** A returned envelope is the next of its key to be claimed. */
  lemma ReleaseGoesFirst(q: Store, w: nat, e: Envelope)
    requires PlaceOf(q, w).Idle? && e in q.delivered
    ensures Enabled(q, Release(w, e)) && Enabled(Next(q, Release(w, e)), Push(w))
    ensures PutBack(q, Next(Next(q, Release(w, e)), Push(w)), e, w)
  {
  }

  /** So is one reclaimed from a worker that died; of several reclaimers only the first puts it back. */
  lemma ReclaimGoesFirst(q: Store, w: nat, id: Id, v: nat)
    requires PlaceOf(q, w).Idle? && PlaceOf(q, v).Idle? && v != w && id in q.inFlight && q.inFlight[id].id == id
    ensures Enabled(q, Reclaim(w, id))
    ensures var u := Next(q, Reclaim(w, id));
      && Enabled(u, Push(w)) && PutBack(q, Next(u, Push(w)), q.inFlight[id], w)
      && Enabled(u, Reclaim(v, id)) && Next(u, Reclaim(v, id)) == u
  {
  }

  // ---- First come, first served ----------------------------------------------

  function Sending(c: Command, key: Id): seq<Envelope> {
    if c.Send? && c.envelope.key == key then [c.envelope] else []
  }

  /** A key's envelopes in the order they were sent. */
  function Sends(run: seq<Command>, key: Id): seq<Envelope> {
    if run == [] then [] else Sends(run[..|run| - 1], key) + Sending(run[|run| - 1], key)
  }

  /** What a command claims for the first time. */
  function Taking(q: Store, c: Command, key: Id, taken: seq<Envelope>): seq<Envelope> {
    var list := At(q.lists, key);
    if c.Pop? && c.key == key && list != [] && list[0] !in taken then [list[0]] else []
  }

  /** A key's envelopes in the order of their first claims. */
  function Taken(run: seq<Command>, key: Id): seq<Envelope>
    requires Possible(run)
  {
    if run == [] then []
    else
      var taken := Taken(run[..|run| - 1], key);
      taken + Taking(After(run[..|run| - 1]), run[|run| - 1], key, taken)
  }

  /** The list is what was returned, then what was never claimed; with what was, in order, that is what was sent. */
  predicate InOrder(sends: seq<Envelope>, taken: seq<Envelope>, list: seq<Envelope>, k: nat) {
    && k <= |list| && (forall i | 0 <= i < k :: list[i] in taken) && taken + list[k..] == sends
  }

  predicate Apart(sends: seq<Envelope>) { forall i, j | 0 <= i < j < |sends| :: sends[i] != sends[j] }

  lemma {:induction false} SentAreSends(run: seq<Command>, key: Id)
    requires Possible(run)
    ensures forall e :: e in Sends(run, key) <==> e in After(run).sent && e.key == key
    ensures Apart(Sends(run, key))
    decreases |run|
  {
    if run == [] {
    } else {
      var before, c := run[..|run| - 1], run[|run| - 1];
      SentAreSends(before, key);
      SentStep(After(before), c, key, Sends(before, key));
      hide Next, Enabled, Apart, Sending;
    }
  }

  lemma SentStep(q: Store, c: Command, key: Id, sends: seq<Envelope>)
    requires Enabled(q, c) && Apart(sends) && forall e :: e in sends <==> e in q.sent && e.key == key
    ensures forall e :: e in sends + Sending(c, key) <==> e in Next(q, c).sent && e.key == key
    ensures Apart(sends + Sending(c, key))
  {
    if c.Send? {
      assert c.envelope !in sends;
      assert Next(q, c).sent == q.sent + {c.envelope};
    } else {
      assert Next(q, c).sent == q.sent && sends + [] == sends;
    }
  }

  lemma SendKeeps(sends: seq<Envelope>, taken: seq<Envelope>, list: seq<Envelope>, k: nat, e: Envelope)
    requires InOrder(sends, taken, list, k)
    ensures InOrder(sends + [e], taken, list + [e], k)
  {
    assert (list + [e])[k..] == list[k..] + [e];
  }

  lemma PopReturned(sends: seq<Envelope>, taken: seq<Envelope>, list: seq<Envelope>, k: nat)
    requires InOrder(sends, taken, list, k) && k > 0
    ensures list[0] in taken && InOrder(sends, taken, list[1..], k - 1)
  {
    assert list[1..][k - 1..] == list[k..];
  }

  lemma PopFresh(sends: seq<Envelope>, taken: seq<Envelope>, list: seq<Envelope>)
    requires InOrder(sends, taken, list, 0) && list != [] && Apart(sends)
    ensures list[0] !in taken && InOrder(sends, taken + [list[0]], list[1..], 0)
  {
    assert taken + list == sends && sends[|taken|] == list[0];
    assert forall i | 0 <= i < |taken| :: taken[i] == sends[i];
    assert taken + [list[0]] + list[1..] == taken + list;
  }

  lemma PushKeeps(sends: seq<Envelope>, taken: seq<Envelope>, list: seq<Envelope>, k: nat, e: Envelope)
    requires InOrder(sends, taken, list, k) && e in taken
    ensures InOrder(sends, taken, [e] + list, k + 1)
  {
    assert ([e] + list)[k + 1..] == list[k..];
  }

  /** What a command claims. */
  function Claiming(q: Store, c: Command): set<Envelope> {
    if c.Pop? && At(q.lists, c.key) != [] then {At(q.lists, c.key)[0]} else {}
  }

  function Ever(run: seq<Command>): set<Envelope>
    requires Possible(run)
  {
    if run == [] then {} else Ever(run[..|run| - 1]) + Claiming(After(run[..|run| - 1]), run[|run| - 1])
  }

  /** Whatever is in flight, handed out or in a worker's hand was claimed. */
  ghost predicate AllClaimed(q: Store, ever: set<Envelope>) {
    && q.delivered <= ever
    && (forall id | id in q.inFlight :: q.inFlight[id] in q.delivered)
    && (forall w :: PlaceOf(q, w).Popped? ==> PlaceOf(q, w).envelope in ever)
    && (forall w :: PlaceOf(q, w).Holding? ==> PlaceOf(q, w).envelope in q.delivered)
  }

  lemma ClaimedStep(q: Store, c: Command, ever: set<Envelope>)
    requires Enabled(q, c) && AllClaimed(q, ever)
    ensures AllClaimed(Next(q, c), ever + Claiming(q, c))
  {
    var r := Next(q, c);
    forall w | PlaceOf(r, w).Popped? ensures PlaceOf(r, w).envelope in ever + Claiming(q, c) {
      assert PlaceOf(q, w).Popped? ==> PlaceOf(q, w).envelope in ever;
    }
    forall w | PlaceOf(r, w).Holding? ensures PlaceOf(r, w).envelope in r.delivered {
      assert PlaceOf(q, w).Holding? ==> PlaceOf(q, w).envelope in q.delivered;
    }
    if c.Record? {
      assert PlaceOf(q, c.worker).envelope in ever;
    }
  }

  lemma {:induction false} HandsClaimed(run: seq<Command>)
    requires Possible(run)
    ensures AllClaimed(After(run), Ever(run))
    decreases |run|
  {
    if run == [] {
    } else {
      HandsClaimed(run[..|run| - 1]);
      ClaimedStep(After(run[..|run| - 1]), run[|run| - 1], Ever(run[..|run| - 1]));
      hide Next, Enabled, AllClaimed, Claiming;
    }
  }

  lemma {:induction false} TakenAreEver(run: seq<Command>, key: Id)
    requires Possible(run)
    ensures forall e :: e in Taken(run, key) <==> e in Ever(run) && e.key == key
    decreases |run|
  {
    if run == [] {
    } else {
      var before, c := run[..|run| - 1], run[|run| - 1];
      TakenAreEver(before, key);
      RunKeeps(before);
      if c.Pop? && At(After(before).lists, c.key) != [] {
        assert Sound(After(before).lists[c.key], c.key, After(before).sent);
      }
      hide Possible, After, Inv;
    }
  }

  ghost predicate Ordered(run: seq<Command>, key: Id)
    requires Possible(run)
  {
    exists k: nat :: InOrder(Sends(run, key), Taken(run, key), At(After(run).lists, key), k)
  }

  /** Over every interleaving, the envelopes of a key in the order of their first claims, followed by those never
      claimed, are its envelopes in the order they were sent; what was returned is listed before them. */
  lemma FirstComeFirstServed(run: seq<Command>, key: Id)
    requires Possible(run)
    ensures exists k: nat :: InOrder(Sends(run, key), Taken(run, key), At(After(run).lists, key), k)
  {
    KeyOrdered(run, key);
  }

  lemma {:induction false} KeyOrdered(run: seq<Command>, key: Id)
    requires Possible(run)
    ensures Ordered(run, key)
    decreases |run|
  {
    if run == [] {
      assert InOrder(Sends(run, key), Taken(run, key), At(After(run).lists, key), 0);
    } else {
      KeyOrdered(run[..|run| - 1], key);
      OrderStep(run, key);
    }
  }

  lemma OrderStep(run: seq<Command>, key: Id)
    requires Possible(run) && run != [] && Ordered(run[..|run| - 1], key)
    ensures Ordered(run, key)
  {
    var before, c := run[..|run| - 1], run[|run| - 1];
    var k: nat :| InOrder(Sends(before, key), Taken(before, key), At(After(before).lists, key), k);
    SentAreSends(before, key);
    HandsClaimed(before);
    TakenAreEver(before, key);
    hide Next, Enabled, InOrder, Sending, Taking;
    var next := OrderNext(After(before), c, key, Sends(before, key), Taken(before, key), k);
    assert InOrder(Sends(run, key), Taken(run, key), At(After(run).lists, key), next);
  }

  lemma OrderNext(q: Store, c: Command, key: Id, sends: seq<Envelope>, taken: seq<Envelope>, k: nat)
    returns (next: nat)
    requires Enabled(q, c) && InOrder(sends, taken, At(q.lists, key), k) && Apart(sends)
    requires c.Push? && PlaceOf(q, c.worker).Holding? && PlaceOf(q, c.worker).envelope.key == key ==>
      PlaceOf(q, c.worker).envelope in taken
    ensures InOrder(sends + Sending(c, key), taken + Taking(q, c, key, taken), At(Next(q, c).lists, key), next)
  {
    var list := At(q.lists, key);
    assert sends + [] == sends && taken + [] == taken;
    next := k;
    if c.Send? && c.envelope.key == key {
      SendKeeps(sends, taken, list, k, c.envelope);
    } else if c.Pop? && c.key == key && list != [] {
      if k > 0 {
        PopReturned(sends, taken, list, k);
        next := k - 1;
      } else {
        PopFresh(sends, taken, list);
      }
    } else if c.Push? && PlaceOf(q, c.worker).envelope.key == key {
      PushKeeps(sends, taken, list, k, PlaceOf(q, c.worker).envelope);
      next := k + 1;
    }
    hide InOrder;
  }

  // ---- Acknowledged for good -------------------------------------------------

  /** Only what a worker was handed is acknowledged. */
  lemma {:induction false} AckedWasHandedOut(run: seq<Command>)
    requires Possible(run)
    ensures forall id | id in After(run).acked :: exists e :: e in After(run).delivered && e.id == id
    decreases |run|
  {
    if run == [] {
    } else {
      AckedWasHandedOut(run[..|run| - 1]);
      AckedStep(After(run[..|run| - 1]), run[|run| - 1]);
      hide Next, Enabled;
    }
  }

  lemma AckedStep(q: Store, c: Command)
    requires Enabled(q, c) && forall id | id in q.acked :: exists e :: e in q.delivered && e.id == id
    ensures q.delivered <= Next(q, c).delivered
    ensures forall id | id in Next(q, c).acked :: exists e :: e in Next(q, c).delivered && e.id == id
  {
    var r := Next(q, c);
    forall id | id in r.acked ensures exists e :: e in r.delivered && e.id == id {
      if id in q.acked {
        var e :| e in q.delivered && e.id == id;
        assert e in r.delivered;
      } else {
        assert c.envelope in r.delivered;
      }
    }
  }

  /** The envelope is nowhere in the queue. */
  ghost predicate Gone(q: Store, e: Envelope) {
    e in q.sent && !Listed(q, e) && !InHand(q, e) && e.id !in q.inFlight
  }

  lemma GoneStep(q: Store, c: Command, e: Envelope)
    requires Inv(q) && Gone(q, e) && Enabled(q, c) && !(c.Release? && c.envelope == e)
    ensures Gone(Next(q, c), e)
  {
    var r := Next(q, c);
    forall v ensures PlaceOf(r, v) != Popped(e) && PlaceOf(r, v) != Holding(e) {
      assert PlaceOf(q, v) != Popped(e) && PlaceOf(q, v) != Holding(e);
    }
    if c.Push? {
      assert PlaceOf(q, c.worker) != Holding(e);
    } else if c.Record? {
      assert Has(PlaceOf(q, c.worker), q.sent);
    }
  }

  /** An envelope acknowledged by its holder, and listed nowhere else, is gone for good: no command of any run lists it
      or hands it out again, unless a holder returns it all the same. */
  lemma {:induction false} AckedStaysAway(before: seq<Command>, e: Envelope, rest: seq<Command>)
    requires Possible(before + [Ack(e)] + rest) && Possible(before)
    requires !Listed(After(before), e) && !InHand(After(before), e)
    requires forall i | 0 <= i < |rest| :: !(rest[i].Release? && rest[i].envelope == e)
    ensures Gone(After(before + [Ack(e)] + rest), e)
    decreases |rest|
  {
    var run := before + [Ack(e)] + rest;
    if rest == [] {
      assert run == before + [Ack(e)] && run[..|run| - 1] == before;
      RunKeeps(before);
      AckGoes(After(before), e);
    } else {
      var n := |rest| - 1;
      assert run[..|run| - 1] == before + [Ack(e)] + rest[..n];
      AckedStaysAway(before, e, rest[..n]);
      RunKeeps(before + [Ack(e)] + rest[..n]);
      hide Next, Enabled, Inv, Gone;
      GoneStep(After(before + [Ack(e)] + rest[..n]), rest[n], e);
    }
  }

  lemma AckGoes(q: Store, e: Envelope)
    requires Inv(q) && Enabled(q, Ack(e)) && !Listed(q, e) && !InHand(q, e)
    ensures Gone(Next(q, Ack(e)), e)
  {
    var r := Next(q, Ack(e));
    forall v ensures PlaceOf(r, v) == PlaceOf(q, v) {
    }
  }
}
