/** Which events a claim takes and a purge removes, by status and place, and how long a lease lasts over whole runs. */
module MailboxTimes {
  import opened Mail
  import opened Mailboxes
  import opened MailboxBackends

  // ---- The oldest few --------------------------------------------------------

  /** The events of the pool that were appended before this one. */
  function Ahead(b: Box, pool: set<Id>, id: Id): set<Id>
    requires pool <= b.events.Keys && id in b.events
  {
    set k | k in pool && b.events[k].sequence < b.events[id].sequence
  }

  lemma {:induction false} SizeOf(ids: seq<Id>, all: set<Id>)
    requires forall i, j | 0 <= i < j < |ids| :: ids[i] != ids[j]
    requires forall k :: k in ids <==> k in all
    ensures |all| == |ids|
    decreases |ids|
  {
    if ids == [] {
      assert all == {};
    } else {
      var n := |ids| - 1;
      assert ids == ids[..n] + [ids[n]];
      SizeOf(ids[..n], all - {ids[n]});
      assert all == (all - {ids[n]}) + {ids[n]};
    }
  }

  /** The oldest of a pool, up to a limit, are those that fewer than the limit come before. */
  lemma PickedExactly(b: Box, pool: set<Id>, limit: nat, ids: seq<Id>, id: Id)
    requires id in b.events && OldestOf(b, pool, limit, ids)
    ensures id in ids <==> id in pool && |Ahead(b, pool, id)| < limit
  {
    var ahead := Ahead(b, pool, id);
    if id in ids {
      var k :| 0 <= k < |ids| && ids[k] == id;
      assert forall x | x in pool && x !in ids :: After(b, ids, x) && b.events[id].sequence < b.events[x].sequence;
      forall x | x in ahead ensures x in ids[..k] {
        var i :| 0 <= i < |ids| && ids[i] == x;
        assert i < k && ids[..k][i] == x;
      }
      SizeOf(ids[..k], ahead);
    } else if id in pool {
      var mine := set k | k in ids;
      SizeOf(ids, mine);
      assert mine <= ahead by {
        assert After(b, ids, id);
      }
      Fewer(mine, ahead);
    }
  }

  lemma Fewer(a: set<Id>, b: set<Id>)
    requires a <= b
    ensures |a| <= |b|
  {
    assert b == a + (b - a);
  }

  // ---- Claims ----------------------------------------------------------------

  /** Nobody has the event now, and it is not done with. */
  predicate FreeAt(status: EventStatus, now: real) {
    match status
    case Pending => true
    case Leased(_, until) => until <= now
    case Acknowledged(_) => false
  }

  /** The free events, of one conversation or of all. */
  function Free(b: Box, scope: Option<Id>, now: real): set<Id> {
    set k | k in b.events && (scope.None? || b.events[k].conversation == scope.value) && FreeAt(b.events[k].status, now)
  }

  /** A claim takes an event exactly when it is free, of the conversation, and among the oldest of those up to the
      limit. So an expired lease is taken over at once, and a running one never. */
  lemma TakenExactly(b: Box, conversation: Id, limit: nat, now: real, ids: seq<Id>, id: Id)
    requires Claims(b, conversation, limit, now, ids) && id in b.events
    ensures id in ids <==>
      && b.events[id].conversation == conversation && FreeAt(b.events[id].status, now)
      && |Ahead(b, Free(b, Some(conversation), now), id)| < limit
  {
    var pool := Free(b, Some(conversation), now);
    forall k | k in b.events ensures k in pool <==> CanClaim(b, conversation, k, now) {
    }
    PickedExactly(b, pool, limit, ids, id);
  }

  /** A claim on any conversation takes something exactly when an event is free; the globally oldest one comes first,
      and the rest is what a claim of its conversation takes. */
  lemma AnyTakes(b: Box, limit: nat, now: real, ids: seq<Id>, id: Id)
    requires Sound(b) && ClaimsAny(b, limit, now, ids) && limit > 0 && id in Free(b, None, now)
    ensures ids != [] && ids[0] in Free(b, None, now) && b.events[ids[0]].sequence <= b.events[id].sequence
    ensures Claims(b, b.events[ids[0]].conversation, limit, now, ids)
  {
    assert Claimable(b.events[id], now);
    var conversation, first :| Oldest(b, conversation, first, now) && Claims(b, conversation, limit, now, ids);
    var pool := Free(b, Some(conversation), now);
    assert Ahead(b, pool, first) == {};
    TakenExactly(b, conversation, limit, now, ids, first);
    var i :| 0 <= i < |ids| && ids[i] == first;
    assert ids[0] in ids;
    TakenExactly(b, conversation, limit, now, ids, ids[0]);
    assert Claimable(b.events[ids[0]], now);
  }

  lemma NoneFree(b: Box, limit: nat, now: real, ids: seq<Id>)
    requires ClaimsAny(b, limit, now, ids) && Free(b, None, now) == {}
    ensures ids == []
  {
    forall id | id in b.events ensures !Claimable(b.events[id], now) {
      assert id !in Free(b, None, now);
    }
  }

  /** What was taken is leased to the claimer for the whole time, and nothing else changed. */
  lemma LeaseWrites(b: Box, ids: seq<Id>, consumer: string, until: real)
    ensures var r := Lease(b, ids, consumer, until);
      && r.events.Keys == b.events.Keys && r.next == b.next && r.seen == b.seen
      && forall id | id in b.events ::
        r.events[id] == Stored(b.events[id].id, b.events[id].conversation, b.events[id].sequence,
                               if id in ids then Leased(consumer, until) else b.events[id].status, b.events[id].body)
  {
  }

  // ---- Leases over runs ------------------------------------------------------

  /** The call lets the lease go: its consumer settles it, or a committed acknowledgement is replayed. */
  predicate LetsGo(c: Call, id: Id, conversation: Id, consumer: string) {
    || (c.Settled? && id in c.settled && c.consumer == consumer)
    || (c.Forced? && id in c.forced && c.conversation == conversation)
  }

  /** Every claim comes before the lease ends, and nobody lets it go. */
  predicate Undisturbed(run: seq<Call>, id: Id, conversation: Id, consumer: string, until: real) {
    forall i | 0 <= i < |run| ::
      (run[i].Claimed? ==> run[i].now < until) && !LetsGo(run[i], id, conversation, consumer)
  }

  predicate LeasedIn(b: Box, id: Id, conversation: Id, consumer: string, until: real) {
    LeasedTo(b, id, consumer, until) && b.events[id].conversation == conversation
  }

  lemma LeaseKept(b: Box, c: Call, id: Id, conversation: Id, consumer: string, until: real)
    requires Sound(b) && Allowed(b, c) && LeasedIn(b, id, conversation, consumer, until)
    requires (c.Claimed? ==> c.now < until) && !LetsGo(c, id, conversation, consumer)
    ensures LeasedIn(Do(b, c), id, conversation, consumer, until) && (c.Claimed? ==> id !in c.ids)
  {
    LeaseEnds(b, c, id, consumer, until);
    if c.Claimed? {
      TakenExactly(b, c.conversation, c.limit, c.now, c.ids, id);
    }
  }

  /** A claim's lease lasts its whole time over every run in which nobody settles the event. */
  lemma {:induction false} LeaseLasts(b: Box, run: seq<Call>, id: Id, conversation: Id, consumer: string, until: real)
    requires Sound(b) && Possible(b, run) && LeasedIn(b, id, conversation, consumer, until)
    requires Undisturbed(run, id, conversation, consumer, until)
    ensures Sound(Ran(b, run)) && LeasedIn(Ran(b, run), id, conversation, consumer, until)
    ensures forall k | 0 <= k < |run| && run[k].Claimed? :: id !in run[k].ids
    decreases |run|
  {
    if run == [] {
    } else {
      var n := |run| - 1;
      hide Allowed, Do, Sound, LeasedIn, LetsGo;
      LeaseLasts(b, run[..n], id, conversation, consumer, until);
      SoundKept(Ran(b, run[..n]), run[n]);
      LeaseKept(Ran(b, run[..n]), run[n], id, conversation, consumer, until);
      forall k | 0 <= k < |run| && run[k].Claimed? ensures id !in run[k].ids {
        if k < n {
          assert run[..n][k] == run[k];
        }
      }
    }
  }

  /** What a claim at `now` took is its consumer's until `until`: no other claim takes it before, its consumer may
      settle it exactly until then, and from then on a claim of the conversation takes it if its limit reaches that
      far. */
  lemma LeaseInForce(b: Box, claim: Call, run: seq<Call>, id: Id, at: real, limit: nat, ids: seq<Id>)
    requires Sound(b) && claim.Claimed? && Allowed(b, claim) && id in claim.ids && Possible(Do(b, claim), run)
    requires Undisturbed(run, id, claim.conversation, claim.consumer, claim.until)
    ensures var v := Ran(Do(b, claim), run);
      && (forall k | 0 <= k < |run| && run[k].Claimed? :: id !in run[k].ids)
      && (MaySettle(v, claim.conversation, {id}, claim.consumer, at) <==> at < claim.until)
      && id in v.events
      && (Claims(v, claim.conversation, limit, at, ids) ==>
            (id in ids <==> claim.until <= at && |Ahead(v, Free(v, Some(claim.conversation), at), id)| < limit))
  {
    var v := Ran(Do(b, claim), run);
    SoundKept(b, claim);
    var i :| 0 <= i < |claim.ids| && claim.ids[i] == id;
    assert CanClaim(b, claim.conversation, claim.ids[i], claim.now);
    LeaseWrites(b, claim.ids, claim.consumer, claim.until);
    LeaseLasts(Do(b, claim), run, id, claim.conversation, claim.consumer, claim.until);
    hide Ran, Possible, Sound, Claims, Undisturbed;
    if Claims(v, claim.conversation, limit, at, ids) {
      TakenExactly(v, claim.conversation, limit, at, ids, id);
    }
  }

  // ---- The other calls -------------------------------------------------------

  /** An event is appended as given, pending, behind everything stored; its identity belongs to one conversation. */
  lemma AppendWrites(b: Box, conversation: Id, id: Id, body: Json, now: real)
    ensures Append(b, conversation, id, body, now).Ok? <==>
      conversation != "" && (id in b.seen ==> b.seen[id].conversation == conversation)
    ensures Append(b, conversation, id, body, now).Ok? ==>
      var r := Append(b, conversation, id, body, now).value;
      && (id in b.seen ==> r == b)
      && (id !in b.seen ==>
            && r.events == b.events[id := Stored(id, conversation, b.next, Pending, body)] && r.next == b.next + 1
            && r.seen == b.seen[id := Seen(conversation, now)])
  {
  }

  /** A settled event is done with or pending again, a replayed acknowledgement reaches every event of the conversation
      that is not done with, and neither touches anything else. */
  lemma SettleWrites(b: Box, c: Call)
    requires Allowed(b, c) && (c.Settled? || c.Forced?)
    ensures var r := Do(b, c);
      && r.events.Keys == b.events.Keys && r.next == b.next && r.seen == b.seen
      && forall id | id in b.events ::
        var e := b.events[id];
        r.events[id] == e.(status :=
          if c.Settled? && id in c.settled then (if c.acknowledge then Acknowledged(c.at) else Pending)
          else if c.Forced? && id in c.forced && e.conversation == c.conversation && !e.status.Acknowledged?
          then Acknowledged(c.at) else e.status)
  {
  }

  /** The consumer's lease on an event of the conversation runs at this time. */
  predicate Held(b: Box, conversation: Id, id: Id, consumer: string, now: real)
    requires id in b.events && b.events[id].conversation == conversation
  {
    match b.events[id].status
    case Leased(holder, until) => holder == consumer && now < until
    case _ => false
  }

  /** A call settles all of its events when its consumer holds each of them, and otherwise fails: with an unknown key,
      and nothing settled, when one is not in the conversation, else with a value error. */
  lemma SettlesExactly(b: Box, conversation: Id, consumer: string, wanted: set<Id>, now: real, failed: Option<Error>,
                       settled: set<Id>)
    requires Settles(b, conversation, consumer, wanted, now, failed, settled)
    ensures var there := forall id | id in wanted :: id in b.events && b.events[id].conversation == conversation;
      && (failed == Some(KeyError) <==> !there)
      && (failed == None <==> there && forall id | id in wanted :: Held(b, conversation, id, consumer, now))
      && (failed == Some(ValueError) <==>
            there && exists id :: id in wanted && !Held(b, conversation, id, consumer, now))
      && (failed == None ==> settled == wanted) && (!there ==> settled == {})
  {
    if forall id | id in wanted :: id in b.events && b.events[id].conversation == conversation {
      forall id | id in wanted ensures Held(b, conversation, id, consumer, now) <==>
        HoldsLease(b, conversation, id, consumer, now)
      {
      }
    }
  }

  /** Acknowledged long enough ago, in scope; an acknowledgement at time zero counts as unknown. */
  predicate OldEnough(b: Box, scope: Option<Id>, olderThan: Option<real>, id: Id)
    requires id in b.events
  {
    match b.events[id].status
    case Acknowledged(at) =>
      && (scope.None? || b.events[id].conversation == scope.value)
      && (olderThan.None? || (at != 0.0 && at <= olderThan.value))
    case _ => false
  }

  function Purgeables(b: Box, scope: Option<Id>, olderThan: Option<real>): set<Id> {
    set k | k in b.events && OldEnough(b, scope, olderThan, k)
  }

  /** A purge removes an event exactly when it is old enough and among the oldest of those up to the limit; what is
      removed stays remembered. */
  lemma PurgedExactly(b: Box, scope: Option<Id>, olderThan: Option<real>, limit: nat, ids: seq<Id>, id: Id)
    requires Purges(b, scope, olderThan, limit, ids) && id in b.events
    ensures id in ids <==>
      OldEnough(b, scope, olderThan, id) && |Ahead(b, Purgeables(b, scope, olderThan), id)| < limit
    ensures var r := Remove(b, ids);
      && r.next == b.next && r.seen == b.seen && (id in r.events <==> id !in ids)
      && (id in r.events ==> r.events[id] == b.events[id]) && r.events.Keys <= b.events.Keys
  {
    var pool := Purgeables(b, scope, olderThan);
    forall k | k in b.events ensures k in pool <==> Purgeable(b, scope, olderThan, k) {
    }
    PickedExactly(b, pool, limit, ids, id);
  }
}
