/** The fair-share queue over Redis lists: many senders and claimers, one Redis command at a time. */
module FairQueue {
  import opened Mail

  /** A queued envelope; `key` is the session it is fair to. */
  datatype Envelope = Envelope(id: Id, key: Id, payload: Json)

  /** Where a worker stands between two commands of a claim, a nack or a reclaim. */
  datatype Place =
    | Idle
    | Popped(envelope: Envelope)   // RPOP gave it; HSET comes next
    | Drained(key: Id)             // RPOP gave nothing; SREM comes next
    | Pruned(key: Id)              // after SREM; LLEN comes next
    | Refilled(key: Id)            // LLEN found something; SADD comes next
    | Holding(envelope: Envelope)  // after HDEL; the push comes next

  /** The shared keys, where each worker stands, and what was ever sent, delivered and acknowledged. A list has
      the next envelope to claim first. */
  datatype Store = Store(
    lists: map<Id, seq<Envelope>>,
    active: set<Id>,
    inFlight: map<Id, Envelope>,
    workers: map<nat, Place>,
    sent: set<Envelope>,
    delivered: set<Envelope>,
    acked: set<Id>)

  function At(lists: map<Id, seq<Envelope>>, key: Id): seq<Envelope> {
    if key in lists then lists[key] else []
  }

  function PlaceOf(q: Store, w: nat): Place { if w in q.workers then q.workers[w] else Idle }

  function Move(q: Store, w: nat, place: Place): Store { q.(workers := q.workers[w := place]) }

  /** The push pipeline, one transaction: the envelope is listed and its key becomes active. */
  function Pushed(q: Store, e: Envelope, front: bool): Store {
    q.(lists := q.lists[e.key := if front then [e] + At(q.lists, e.key) else At(q.lists, e.key) + [e]],
       active := q.active + {e.key})
  }

  datatype Command =
    | Send(envelope: Envelope)
    | Pop(worker: nat, key: Id)
    | Record(worker: nat)
    | Prune(worker: nat)
    | Recheck(worker: nat)
    | Readd(worker: nat)
    | Ack(envelope: Envelope)
    | Release(worker: nat, envelope: Envelope)
    | Reclaim(worker: nat, id: Id)
    | Push(worker: nat)
    | Crash(worker: nat)

  /** Whether the command can come next. A worker crashes only where it holds nothing and owes no recheck. */
  predicate Enabled(q: Store, c: Command) {
    match c
    case Send(e) => forall other | other in q.sent :: other.id != e.id
    case Pop(w, _) => PlaceOf(q, w).Idle?
    case Record(w) => PlaceOf(q, w).Popped?
    case Prune(w) => PlaceOf(q, w).Drained?
    case Recheck(w) => PlaceOf(q, w).Pruned?
    case Readd(w) => PlaceOf(q, w).Refilled?
    case Ack(e) => e in q.delivered
    case Release(w, e) => PlaceOf(q, w).Idle? && e in q.delivered
    case Reclaim(w, _) => PlaceOf(q, w).Idle?
    case Push(w) => PlaceOf(q, w).Holding?
    case Crash(w) => PlaceOf(q, w).Idle? || PlaceOf(q, w).Drained?
  }

  function Next(q: Store, c: Command): Store
    requires Enabled(q, c)
  {
    match c
    case Send(e) => Pushed(q.(sent := q.sent + {e}), e, false)
    case Pop(w, key) =>
      var list := At(q.lists, key);
      if list == [] then Move(q, w, Drained(key))
      else Move(q.(lists := q.lists[key := list[1..]]), w, Popped(list[0]))
    case Record(w) =>
      var e := PlaceOf(q, w).envelope;
      Move(q.(inFlight := q.inFlight[e.id := e], delivered := q.delivered + {e}), w, Idle)
    case Prune(w) =>
      var key := PlaceOf(q, w).key;
      Move(q.(active := q.active - {key}), w, Pruned(key))
    case Recheck(w) =>
      var key := PlaceOf(q, w).key;
      Move(q, w, if At(q.lists, key) == [] then Idle else Refilled(key))
    case Readd(w) => Move(q.(active := q.active + {PlaceOf(q, w).key}), w, Idle)
    case Ack(e) => q.(inFlight := q.inFlight - {e.id}, acked := q.acked + {e.id})
    case Release(w, e) => Move(q.(inFlight := q.inFlight - {e.id}), w, Holding(e))
    case Reclaim(w, id) =>
      if id in q.inFlight then Move(q.(inFlight := q.inFlight - {id}), w, Holding(q.inFlight[id])) else q
    case Push(w) => Move(Pushed(q, PlaceOf(q, w).envelope, true), w, Idle)
    case Crash(w) => Move(q, w, Idle)
  }

  const EMPTY := Store(map[], {}, map[], map[], {}, {}, {})

  predicate Possible(run: seq<Command>)
    decreases |run|, 0
  {
    run == [] || (Possible(run[..|run| - 1]) && Enabled(After(run[..|run| - 1]), run[|run| - 1]))
  }

  /** The store after a whole run, from empty. */
  function After(run: seq<Command>): Store
    requires Possible(run)
    decreases |run|, 1
  {
    if run == [] then EMPTY else Next(After(run[..|run| - 1]), run[|run| - 1])
  }

  // ---- Nothing is stranded ---------------------------------------------------

  /** A worker that removed the key from the active set has yet to look at its list again, or to put it back. */
  ghost predicate Owed(q: Store, key: Id) {
    exists w :: PlaceOf(q, w) == Pruned(key) || PlaceOf(q, w) == Refilled(key)
  }

  ghost predicate Findable(q: Store, key: Id) {
    At(q.lists, key) != [] ==> key in q.active || Owed(q, key)
  }

  /** Envelopes listed under a key are that key's, and were sent. */
  predicate Sound(list: seq<Envelope>, key: Id, sent: set<Envelope>) {
    forall i | 0 <= i < |list| :: list[i].key == key && list[i] in sent
  }

  predicate ListsSound(q: Store) { forall key | key in q.lists :: Sound(q.lists[key], key, q.sent) }

  predicate FlightsSound(q: Store) {
    forall id | id in q.inFlight :: q.inFlight[id].id == id && q.inFlight[id] in q.sent
  }

  /** The envelope is listed. */
  predicate Listed(q: Store, e: Envelope) { e in At(q.lists, e.key) }

  /** A worker has it in hand, between two commands. */
  ghost predicate InHand(q: Store, e: Envelope) {
    exists w :: PlaceOf(q, w) == Popped(e) || PlaceOf(q, w) == Holding(e)
  }

  ghost predicate Accounted(q: Store, e: Envelope) {
    || e.id in q.acked
    || Listed(q, e)
    || (e.id in q.inFlight && q.inFlight[e.id] == e)
    || InHand(q, e)
  }

  predicate Has(place: Place, sent: set<Envelope>) {
    (place.Popped? || place.Holding?) ==> place.envelope in sent
  }

  /** Sent envelopes have distinct identities, and only sent ones are anywhere. */
  predicate Known(q: Store) {
    && (forall a, b | a in q.sent && b in q.sent && a.id == b.id :: a == b)
    && ListsSound(q) && FlightsSound(q)
    && (forall e | e in q.delivered :: e in q.sent)
    && (forall w | w in q.workers :: Has(q.workers[w], q.sent))
  }

  ghost predicate Inv(q: Store) {
    Known(q) && (forall key :: Findable(q, key)) && (forall e | e in q.sent :: Accounted(q, e))
  }

  // ---- Every command keeps the invariant -------------------------------------

  lemma PushSound(q: Store, e: Envelope, front: bool)
    requires ListsSound(q) && e in q.sent
    ensures ListsSound(Pushed(q, e, front))
  {
    var r := Pushed(q, e, front);
    assert Sound(At(q.lists, e.key), e.key, q.sent);
    assert Sound(r.lists[e.key], e.key, q.sent);
    forall key | key in r.lists ensures Sound(r.lists[key], key, r.sent) {
      if key != e.key {
        assert Sound(q.lists[key], key, q.sent);
      }
    }
  }

  lemma PopSound(q: Store, key: Id)
    requires ListsSound(q) && At(q.lists, key) != []
    ensures ListsSound(q.(lists := q.lists[key := q.lists[key][1..]]))
    ensures q.lists[key][0] in q.sent
  {
    assert Sound(q.lists[key], key, q.sent);
    var r := q.(lists := q.lists[key := q.lists[key][1..]]);
    assert Sound(r.lists[key], key, q.sent);
    forall other | other in r.lists ensures Sound(r.lists[other], other, r.sent) {
      if other != key {
        assert Sound(q.lists[other], other, q.sent);
      }
    }
  }

  lemma SendSound(q: Store, e: Envelope)
    requires ListsSound(q)
    ensures ListsSound(q.(sent := q.sent + {e}))
  {
    forall key | key in q.lists ensures Sound(q.lists[key], key, q.sent + {e}) {
      assert Sound(q.lists[key], key, q.sent);
    }
  }

  lemma KnownKept(q: Store, c: Command)
    requires Known(q) && Enabled(q, c)
    ensures Known(Next(q, c))
  {
    match c
    case Send(e) =>
      SendSound(q, e);
      PushSound(q.(sent := q.sent + {e}), e, false);
    case Pop(w, key) =>
      if At(q.lists, key) != [] {
        PopSound(q, key);
      }
    case Push(w) =>
      assert Has(PlaceOf(q, w), q.sent);
      PushSound(q, PlaceOf(q, w).envelope, true);
    case Record(w) =>
      assert Has(PlaceOf(q, w), q.sent);
    case _ =>
  }

  /** Moving one worker leaves what the others owe and hold. */
  lemma OwedKept(q: Store, r: Store, w: nat, key: Id)
    requires Owed(q, key) && r.workers == q.workers[w := PlaceOf(r, w)]
    requires PlaceOf(q, w) != Pruned(key) && PlaceOf(q, w) != Refilled(key)
    ensures Owed(r, key)
  {
    var v :| PlaceOf(q, v) == Pruned(key) || PlaceOf(q, v) == Refilled(key);
    assert PlaceOf(r, v) == PlaceOf(q, v);
  }

  lemma HandKept(q: Store, r: Store, w: nat, e: Envelope)
    requires InHand(q, e) && r.workers == q.workers[w := PlaceOf(r, w)]
    requires PlaceOf(q, w) != Popped(e) && PlaceOf(q, w) != Holding(e)
    ensures InHand(r, e)
  {
    var v :| PlaceOf(q, v) == Popped(e) || PlaceOf(q, v) == Holding(e);
    assert PlaceOf(r, v) == PlaceOf(q, v);
  }

  predicate ByWorker(c: Command) { !c.Send? && !c.Ack? }

  lemma FindableKept(q: Store, c: Command, key: Id)
    requires Enabled(q, c) && Findable(q, key)
    ensures Findable(Next(q, c), key)
  {
    var r := Next(q, c);
    if At(r.lists, key) != [] && key !in r.active {
      if ByWorker(c) {
        var w := c.worker;
        match c
        case Prune(_) =>
          assert PlaceOf(q, w).key == key ==> PlaceOf(r, w) == Pruned(key);
          if PlaceOf(q, w).key != key {
            OwedKept(q, r, w, key);
          }
        case Recheck(_) =>
          assert PlaceOf(q, w).key == key ==> PlaceOf(r, w) == Refilled(key);
          if PlaceOf(q, w).key != key {
            OwedKept(q, r, w, key);
          }
        case Reclaim(_, id) =>
          if id in q.inFlight {
            OwedKept(q, r, w, key);
          }
        case _ => OwedKept(q, r, w, key);
      } else {
        var v :| PlaceOf(q, v) == Pruned(key) || PlaceOf(q, v) == Refilled(key);
        assert PlaceOf(r, v) == PlaceOf(q, v);
      }
    }
  }

  lemma AccountedKept(q: Store, c: Command, e: Envelope)
    requires Known(q) && Enabled(q, c) && e in q.sent && Accounted(q, e)
    ensures Accounted(Next(q, c), e)
  {
    var r := Next(q, c);
    if e.id !in r.acked && !Listed(r, e) && !(e.id in r.inFlight && r.inFlight[e.id] == e) {
      if ByWorker(c) {
        var w := c.worker;
        match c
        case Pop(_, key) =>
          var list := At(q.lists, key);
          if Listed(q, e) {
            assert list != [] && list == [list[0]] + list[1..] && e == list[0];
            assert PlaceOf(r, w) == Popped(e);
          } else {
            HandKept(q, r, w, e);
          }
        case Release(_, d) =>
          if e.id == d.id {
            assert PlaceOf(r, w) == Holding(e);
          } else {
            HandKept(q, r, w, e);
          }
        case Reclaim(_, id) =>
          if id in q.inFlight {
            if e == q.inFlight[id] {
              assert PlaceOf(r, w) == Holding(e);
            } else {
              HandKept(q, r, w, e);
            }
          }
        case _ => HandKept(q, r, w, e);
      } else {
        var v :| PlaceOf(q, v) == Popped(e) || PlaceOf(q, v) == Holding(e);
        assert PlaceOf(r, v) == PlaceOf(q, v);
      }
    }
  }

  lemma StepKeeps(q: Store, c: Command)
    requires Inv(q) && Enabled(q, c)
    ensures Inv(Next(q, c))
  {
    var r := Next(q, c);
    KnownKept(q, c);
    forall key ensures Findable(r, key) {
      FindableKept(q, c, key);
    }
    forall e | e in r.sent ensures Accounted(r, e) {
      if e in q.sent {
        AccountedKept(q, c, e);
      } else {
        assert Listed(r, e);
      }
    }
  }

  lemma {:induction false} RunKeeps(run: seq<Command>)
    requires Possible(run)
    ensures Inv(After(run))
    decreases |run|
  {
    if run == [] {
    } else {
      RunKeeps(run[..|run| - 1]);
      StepKeeps(After(run[..|run| - 1]), run[|run| - 1]);
    }
  }

  /** No queued message is stranded: whatever the interleaving, a key with something listed is active, or a
      worker that pruned it is about to look again; and every envelope sent is acknowledged, listed, in flight
      or in a worker's hand. */
  lemma NothingStranded(run: seq<Command>, key: Id, e: Envelope)
    requires Possible(run)
    ensures At(After(run).lists, key) != [] ==> key in After(run).active || Owed(After(run), key)
    ensures e in After(run).sent ==> Accounted(After(run), e)
  {
    RunKeeps(run);
    assert Findable(After(run), key);
  }

  /** At rest, the active set is enough to find everything still to be delivered. */
  lemma RestFindsAll(run: seq<Command>, e: Envelope)
    requires Possible(run) && (forall w :: PlaceOf(After(run), w).Idle?)
    requires e in After(run).sent && e.id !in After(run).acked
    ensures var q := After(run);
      || (e in At(q.lists, e.key) && e.key in q.active)
      || (e.id in q.inFlight && q.inFlight[e.id] == e)
  {
    NothingStranded(run, e.key, e);
  }

  const LATE := Envelope("late", "key", "{}")

  const LOST_RUN := [Pop(0, "key"), Send(LATE), Prune(0)]

  /** The recheck is needed: were the one worker that pruned the key to stop there, the envelope would be
      listed under a key that nobody looks at. */
  lemma PruneAloneStrands()
    ensures Possible(LOST_RUN)
    ensures var q := After(LOST_RUN);
      && LATE in At(q.lists, "key") && "key" !in q.active
      && PlaceOf(q, 0) == Pruned("key") && forall v | v != 0 :: PlaceOf(q, v).Idle?
  {
    var none: seq<Command> := [];
    Extend(none, Pop(0, "key"));
    Extend(none + [Pop(0, "key")], Send(LATE));
    Extend(none + [Pop(0, "key")] + [Send(LATE)], Prune(0));
    assert none + [Pop(0, "key")] + [Send(LATE)] + [Prune(0)] == LOST_RUN;
  }

  lemma Extend(run: seq<Command>, c: Command)
    requires Possible(run) && Enabled(After(run), c)
    ensures Possible(run + [c]) && After(run + [c]) == Next(After(run), c)
  {
    assert (run + [c])[..|run + [c]| - 1] == run;
  }
}
