/** The mailbox contract: append, lease, acknowledge, release and purge, by event identity and append order. */
module Mailboxes {
  import opened Mail

  datatype EventStatus = Pending | Leased(consumer: string, until: real) | Acknowledged(at: real)

  /** A stored event; `sequence` is its place in append order over all conversations. */
  datatype Stored = Stored(id: Id, conversation: Id, sequence: nat, status: EventStatus, body: Json)

  /** A deduplication key: where the identity belongs and when it was first seen. */
  datatype Seen = Seen(conversation: Id, at: real)

  datatype Box = Box(events: map<Id, Stored>, next: nat, seen: map<Id, Seen>)

  predicate Claimable(e: Stored, now: real) {
    e.status.Pending? || (e.status.Leased? && e.status.until <= now)
  }

  /** What every mailbox keeps: identities match, sequences are distinct and below the next, and whatever is
      stored is remembered for its conversation. */
  predicate Sound(b: Box) {
    && (forall id | id in b.events :: SoundEvent(b, id))
    && (forall x, y | x in b.events && y in b.events && b.events[x].sequence == b.events[y].sequence :: x == y)
  }

  predicate SoundEvent(b: Box, id: Id)
    requires id in b.events
  {
    var e := b.events[id];
    e.id == id && e.sequence < b.next && id in b.seen && b.seen[id].conversation == e.conversation
  }

  // ---- Append ----------------------------------------------------------------

  /** Appending is idempotent by identity; an identity never moves to another conversation. */
  function Append(b: Box, conversation: Id, id: Id, body: Json, now: real): Result<Box> {
    if conversation == "" then Err(ValueError)
    else if id in b.seen then if b.seen[id].conversation == conversation then Ok(b) else Err(ValueError)
    else
      Ok(Box(b.events[id := Stored(id, conversation, b.next, Pending, body)], b.next + 1,
             b.seen[id := Seen(conversation, now)]))
  }

  // ---- Claims ----------------------------------------------------------------

  predicate CanClaim(b: Box, conversation: Id, id: Id, now: real) {
    id in b.events && b.events[id].conversation == conversation && Claimable(b.events[id], now)
  }

  /** Events in append order. */
  predicate InOrder(b: Box, ids: seq<Id>) {
    && (forall i | 0 <= i < |ids| :: ids[i] in b.events)
    && (forall i, j | 0 <= i < j < |ids| :: b.events[ids[i]].sequence < b.events[ids[j]].sequence)
  }

  /** The event comes after all of `ids`. */
  predicate After(b: Box, ids: seq<Id>, id: Id)
    requires id in b.events && forall i | 0 <= i < |ids| :: ids[i] in b.events
  {
    forall i | 0 <= i < |ids| :: b.events[ids[i]].sequence < b.events[id].sequence
  }

  function Lease(b: Box, ids: seq<Id>, consumer: string, until: real): Box {
    b.(events := map id | id in b.events ::
         if id in ids then b.events[id].(status := Leased(consumer, until)) else b.events[id])
  }

  /** A claim takes the oldest claimable events of the conversation, up to the limit, in append order. */
  predicate Claims(b: Box, conversation: Id, limit: nat, now: real, ids: seq<Id>) {
    && |ids| <= limit
    && InOrder(b, ids)
    && (forall i | 0 <= i < |ids| :: CanClaim(b, conversation, ids[i], now))
    && (forall id | id in b.events && CanClaim(b, conversation, id, now) && id !in ids ::
        |ids| == limit && After(b, ids, id))
  }

  /** The conversation a claim on any conversation serves: the one of the globally oldest claimable event. */
  predicate Oldest(b: Box, conversation: Id, id: Id, now: real) {
    && CanClaim(b, conversation, id, now)
    && forall other | other in b.events && Claimable(b.events[other], now) ::
      b.events[id].sequence <= b.events[other].sequence
  }

  ghost predicate ClaimsAny(b: Box, limit: nat, now: real, ids: seq<Id>) {
    if exists id :: id in b.events && Claimable(b.events[id], now) then
      exists conversation, id :: Oldest(b, conversation, id, now) && Claims(b, conversation, limit, now, ids)
    else ids == []
  }

  // ---- Acknowledge, release, purge -------------------------------------------

  function SetStatus(b: Box, ids: set<Id>, status: EventStatus): Box {
    b.(events := map id | id in b.events :: if id in ids then b.events[id].(status := status) else b.events[id])
  }

  /** The events a forced acknowledgement reaches: those of the conversation not acknowledged yet. */
  function Reached(b: Box, conversation: Id, ids: set<Id>): set<Id> {
    set id | id in ids && id in b.events && b.events[id].conversation == conversation
      && !b.events[id].status.Acknowledged?
  }

  /** Replay of committed acknowledgements: leases are not checked, unknown events are ignored. */
  function ForceAcknowledge(b: Box, conversation: Id, ids: set<Id>, now: real): Box {
    SetStatus(b, Reached(b, conversation, ids), Acknowledged(now))
  }

  predicate HoldsLease(b: Box, conversation: Id, id: Id, consumer: string, now: real) {
    && id in b.events && b.events[id].conversation == conversation
    && b.events[id].status.Leased? && b.events[id].status.consumer == consumer && b.events[id].status.until > now
  }

  /** A consumer may settle exactly events it holds under an unexpired lease. */
  predicate MaySettle(b: Box, conversation: Id, ids: set<Id>, consumer: string, now: real) {
    forall id | id in ids :: HoldsLease(b, conversation, id, consumer, now)
  }

  predicate Found(b: Box, conversation: Id, ids: set<Id>) {
    forall id | id in ids :: id in b.events && b.events[id].conversation == conversation
  }

  /** How settling ends: all the events are settled exactly when the consumer holds them all, none when one is
      unknown, and otherwise only events it held have been. */
  predicate Settles(b: Box, conversation: Id, consumer: string, wanted: set<Id>, now: real, failed: Option<Error>,
                    settled: set<Id>)
  {
    && settled <= wanted && MaySettle(b, conversation, settled, consumer, now)
    && (failed.None? <==> MaySettle(b, conversation, wanted, consumer, now))
    && (failed.None? ==> settled == wanted)
    && (!Found(b, conversation, wanted) ==> failed == Some(KeyError) && settled == {})
    && (failed.Some? && Found(b, conversation, wanted) ==> failed == Some(ValueError))
  }

  predicate Purgeable(b: Box, conversation: Option<Id>, olderThan: Option<real>, id: Id) {
    && id in b.events && b.events[id].status.Acknowledged?
    && (conversation.None? || b.events[id].conversation == conversation.value)
    && (olderThan.None? || (b.events[id].status.at != 0.0 && b.events[id].status.at <= olderThan.value))
  }

  /** A purge removes the oldest purgeable events, up to the limit. */
  predicate Purges(b: Box, conversation: Option<Id>, olderThan: Option<real>, limit: nat, ids: seq<Id>) {
    && |ids| <= limit
    && InOrder(b, ids)
    && (forall i | 0 <= i < |ids| :: Purgeable(b, conversation, olderThan, ids[i]))
    && (forall id | id in b.events && Purgeable(b, conversation, olderThan, id) && id !in ids ::
          |ids| == limit && After(b, ids, id))
  }

  /** Payloads go, identities stay remembered. */
  function Remove(b: Box, ids: seq<Id>): Box {
    b.(events := map id | id in b.events && id !in ids :: b.events[id])
  }

  // ---- Runs ------------------------------------------------------------------

  /** One successful call on a mailbox. */
  datatype Call =
    | Appended(conversation: Id, id: Id, body: Json, at: real)
    | Claimed(conversation: Id, consumer: string, limit: nat, now: real, until: real, ids: seq<Id>)
    | Settled(conversation: Id, consumer: string, settled: set<Id>, acknowledge: bool, at: real)
    | Forced(conversation: Id, forced: set<Id>, at: real)
    | Purged(scope: Option<Id>, olderThan: Option<real>, limit: nat, purged: seq<Id>)

  predicate Allowed(b: Box, c: Call) {
    match c
    case Appended(conversation, id, body, at) => Append(b, conversation, id, body, at).Ok?
    case Claimed(conversation, _, limit, now, until, ids) => now <= until && Claims(b, conversation, limit, now, ids)
    case Settled(conversation, consumer, ids, _, at) => MaySettle(b, conversation, ids, consumer, at)
    case Forced(_, _, _) => true
    case Purged(scope, olderThan, limit, ids) => Purges(b, scope, olderThan, limit, ids)
  }

  function Do(b: Box, c: Call): Box
    requires Allowed(b, c)
  {
    match c
    case Appended(conversation, id, body, at) => Append(b, conversation, id, body, at).value
    case Claimed(_, consumer, _, _, until, ids) => Lease(b, ids, consumer, until)
    case Settled(_, _, ids, acknowledge, at) => SetStatus(b, ids, if acknowledge then Acknowledged(at) else Pending)
    case Forced(conversation, ids, at) => ForceAcknowledge(b, conversation, ids, at)
    case Purged(_, _, _, ids) => Remove(b, ids)
  }

  predicate Possible(b: Box, run: seq<Call>)
    decreases |run|, 0
  {
    run == [] || (Possible(b, run[..|run| - 1]) && Allowed(Ran(b, run[..|run| - 1]), run[|run| - 1]))
  }

  function Ran(b: Box, run: seq<Call>): Box
    requires Possible(b, run)
    decreases |run|, 1
  {
    if run == [] then b else Do(Ran(b, run[..|run| - 1]), run[|run| - 1])
  }

  lemma SoundKept(b: Box, c: Call)
    requires Sound(b) && Allowed(b, c)
    ensures Sound(Do(b, c))
  {
    var r := Do(b, c);
    forall id | id in r.events ensures SoundEvent(r, id) {
      if id in b.events {
        assert SoundEvent(b, id);
      }
    }
    forall x, y | x in r.events && y in r.events && r.events[x].sequence == r.events[y].sequence ensures x == y {
      if x in b.events {
        assert SoundEvent(b, x);
      }
      if y in b.events {
        assert SoundEvent(b, y);
      }
    }
  }

  /** Done with: acknowledged, or its payload purged while its identity is still remembered. */
  predicate Spent(b: Box, id: Id) {
    id in b.seen && (id in b.events ==> b.events[id].status.Acknowledged?)
  }

  lemma SpentKept(b: Box, c: Call, id: Id)
    requires Sound(b) && Allowed(b, c) && Spent(b, id)
    ensures Spent(Do(b, c), id) && (c.Claimed? ==> id !in c.ids)
  {
    assert c.Claimed? ==> forall i | 0 <= i < |c.ids| :: CanClaim(b, c.conversation, c.ids[i], c.now);
    assert c.Settled? && id in c.settled ==> HoldsLease(b, c.conversation, id, c.consumer, c.at);
  }

  /** Acknowledged events never come back: nothing after an acknowledgement ever leases the event again, and
      appending its identity again changes nothing. */
  lemma {:induction false} AcknowledgedForGood(b: Box, run: seq<Call>, id: Id, k: nat)
    requires Sound(b) && Possible(b, run) && Spent(b, id) && k < |run| && run[k].Claimed?
    ensures id !in run[k].ids
    decreases |run|
  {
    SpentThrough(b, run, id);
    if k < |run| - 1 {
      AcknowledgedForGood(b, run[..|run| - 1], id, k);
    } else {
      SpentThrough(b, run[..k], id);
      SpentKept(Ran(b, run[..k]), run[k], id);
    }
  }

  lemma {:induction false} SpentThrough(b: Box, run: seq<Call>, id: Id)
    requires Sound(b) && Possible(b, run) && Spent(b, id)
    ensures Sound(Ran(b, run)) && Spent(Ran(b, run), id)
    decreases |run|
  {
    if run == [] {
    } else {
      var n := |run| - 1;
      SpentThrough(b, run[..n], id);
      SoundKept(Ran(b, run[..n]), run[n]);
      SpentKept(Ran(b, run[..n]), run[n], id);
    }
  }

  /** Leased to this consumer until then. */
  predicate LeasedTo(b: Box, id: Id, consumer: string, until: real) {
    id in b.events && b.events[id].status == Leased(consumer, until)
  }

  /** A lease ends only when its consumer settles the event, when a replayed acknowledgement ends it for good,
      or when a later claim finds it expired: an event never has two unexpired leases. */
  lemma LeaseEnds(b: Box, c: Call, id: Id, consumer: string, until: real)
    requires Sound(b) && Allowed(b, c) && LeasedTo(b, id, consumer, until)
    ensures || LeasedTo(Do(b, c), id, consumer, until)
            || (c.Claimed? && id in c.ids && until <= c.now)
            || (c.Settled? && id in c.settled && c.consumer == consumer && c.at < until)
            || (c.Forced? && id in c.forced && Spent(Do(b, c), id))
  {
    assert SoundEvent(b, id);
    if c.Claimed? && id in c.ids {
      var i :| 0 <= i < |c.ids| && c.ids[i] == id;
      assert CanClaim(b, c.conversation, c.ids[i], c.now);
    }
    if c.Settled? && id in c.settled {
      assert HoldsLease(b, c.conversation, id, c.consumer, c.at);
    }
    assert c.Purged? ==> forall i | 0 <= i < |c.purged| :: Purgeable(b, c.scope, c.olderThan, c.purged[i]);
  }
}
