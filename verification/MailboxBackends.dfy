/** Both backends are the same mailbox: the contract leaves no choice of events, and it does not depend on where the
    sequence numbers start (0 in memory, 1 in Redis). */
module MailboxBackends {
  import opened Mail
  import opened Mailboxes

  // ---- The contract leaves no choice -----------------------------------------

  /** `ids` are the oldest of `from`, up to the limit, in append order. */
  predicate OldestOf(b: Box, from: set<Id>, limit: nat, ids: seq<Id>) {
    && |ids| <= limit && InOrder(b, ids) && from <= b.events.Keys
    && (forall i | 0 <= i < |ids| :: ids[i] in from)
    && (forall id | id in from && id !in ids :: |ids| == limit && After(b, ids, id))
  }

  /** Two claims of the same mailbox take the same events. */
  lemma ClaimsAgree(b: Box, conversation: Id, limit: nat, now: real, one: seq<Id>, two: seq<Id>)
    requires Claims(b, conversation, limit, now, one) && Claims(b, conversation, limit, now, two)
    ensures one == two
  {
    var from := set id | id in b.events && CanClaim(b, conversation, id, now);
    OldestAgree(b, from, limit, one, two);
  }

  /** Two claims on any conversation take the same events too. */
  lemma AnyAgree(b: Box, limit: nat, now: real, one: seq<Id>, two: seq<Id>)
    requires Sound(b) && ClaimsAny(b, limit, now, one) && ClaimsAny(b, limit, now, two)
    ensures one == two
  {
    if exists id :: id in b.events && Claimable(b.events[id], now) {
      var c, x :| Oldest(b, c, x, now) && Claims(b, c, limit, now, one);
      var d, y :| Oldest(b, d, y, now) && Claims(b, d, limit, now, two);
      assert b.events[x].sequence == b.events[y].sequence;
      ClaimsAgree(b, c, limit, now, one, two);
    }
  }

  /** Two purges of the same mailbox remove the same events. */
  lemma PurgesAgree(b: Box, scope: Option<Id>, olderThan: Option<real>, limit: nat, one: seq<Id>, two: seq<Id>)
    requires Purges(b, scope, olderThan, limit, one) && Purges(b, scope, olderThan, limit, two)
    ensures one == two
  {
    var from := set id | id in b.events && Purgeable(b, scope, olderThan, id);
    OldestAgree(b, from, limit, one, two);
  }

  lemma OldestAgree(b: Box, from: set<Id>, limit: nat, one: seq<Id>, two: seq<Id>)
    requires OldestOf(b, from, limit, one) && OldestOf(b, from, limit, two)
    ensures one == two
  {
    if |one| <= |two| {
      OldestPrefix(b, from, limit, one, two, |one|);
      NoMore(b, from, limit, one, two);
    } else {
      OldestPrefix(b, from, limit, two, one, |two|);
      NoMore(b, from, limit, two, one);
    }
  }

  function Nth(ids: seq<Id>, i: nat): Option<Id> { if i < |ids| then Some(ids[i]) else None }

  lemma NoMore(b: Box, from: set<Id>, limit: nat, one: seq<Id>, two: seq<Id>)
    requires OldestOf(b, from, limit, one) && OldestOf(b, from, limit, two)
    requires |one| <= |two| && one == two[..|one|]
    ensures one == two
  {
    var next := Nth(two, |one|);
    assert forall i | 0 <= i < |two| :: two[i] in from;
    assert forall i | 0 <= i < |two| && two[i] in one :: i < |one|;
    assert two[..|two|] == two;
  }

  lemma {:induction false} OldestPrefix(b: Box, from: set<Id>, limit: nat, one: seq<Id>, two: seq<Id>, n: nat)
    requires OldestOf(b, from, limit, one) && OldestOf(b, from, limit, two)
    requires n <= |one| <= |two|
    ensures one[..n] == two[..n]
    decreases n
  {
    if n == 0 {
    } else {
      OldestPrefix(b, from, limit, one, two, n - 1);
      forall k | 0 <= k < n - 1 ensures one[k] == two[k] {
        assert one[..n - 1][k] == two[..n - 1][k];
      }
      NextAgrees(b, from, limit, one, two, n - 1);
    }
  }

  lemma NextAgrees(b: Box, from: set<Id>, limit: nat, one: seq<Id>, two: seq<Id>, k: nat)
    requires OldestOf(b, from, limit, one) && OldestOf(b, from, limit, two)
    requires k < |one| && k < |two| && (forall i | 0 <= i < k :: one[i] == two[i])
    ensures one[k] == two[k]
  {
    Placed(b, from, limit, one, two, k);
    Placed(b, from, limit, two, one, k);
    var y := two[k];
    assert y in from && y in one;
    var j :| 0 <= j < |one| && one[j] == y;
    assert b.events[one[j]].sequence == b.events[one[k]].sequence;
    assert j == k;
  }

  /** An event taken at one place is not passed over there by the other. */
  lemma Placed(b: Box, from: set<Id>, limit: nat, one: seq<Id>, two: seq<Id>, k: nat)
    requires OldestOf(b, from, limit, one) && OldestOf(b, from, limit, two)
    requires k < |one| && k < |two| && (forall i | 0 <= i < k :: one[i] == two[i])
    ensures b.events[two[k]].sequence <= b.events[one[k]].sequence
  {
    var x := one[k];
    assert x in from;
    assert forall i | 0 <= i < k :: one[i] != x;
    if x in two {
      var j :| 0 <= j < |two| && two[j] == x;
      assert k <= j;
    } else {
      assert After(b, two, x);
    }
  }

  // ---- Where the numbers start does not matter --------------------------------

  /** The mailbox with every sequence number moved up. */
  function Shifted(b: Box, d: nat): Box {
    Box(map id | id in b.events :: b.events[id].(sequence := b.events[id].sequence + d), b.next + d, b.seen)
  }

  lemma ShiftStep(b: Box, d: nat, c: Call)
    ensures Allowed(Shifted(b, d), c) <==> Allowed(b, c)
    ensures Allowed(b, c) ==> Do(Shifted(b, d), c) == Shifted(Do(b, c), d)
  {
    match c
    case Claimed(conversation, consumer, limit, now, until, ids) =>
      ShiftClaims(b, d, conversation, limit, now, ids);
      LeaseIsSet(b, ids, consumer, until);
      LeaseIsSet(Shifted(b, d), ids, consumer, until);
      ShiftStatus(b, d, (set id | id in ids), Leased(consumer, until));
      hide Claims, Shifted, SetStatus, Lease;
    case Purged(scope, olderThan, limit, ids) =>
      ShiftPurges(b, d, scope, olderThan, limit, ids);
      ShiftRemove(b, d, ids);
      hide Purges, Shifted, Remove;
    case Settled(conversation, consumer, ids, acknowledge, at) =>
      ShiftHolds(b, d, conversation, ids, consumer, at);
      ShiftStatus(b, d, ids, if acknowledge then Acknowledged(at) else Pending);
      hide MaySettle, Shifted, SetStatus;
    case Forced(conversation, ids, at) =>
      ShiftReached(b, d, conversation, ids);
      ShiftStatus(b, d, Reached(b, conversation, ids), Acknowledged(at));
      hide Reached, Shifted, SetStatus;
    case Appended(conversation, id, body, at) =>
      ShiftAppend(b, d, conversation, id, body, at);
      hide Append, Shifted;
  }

  lemma LeaseIsSet(b: Box, ids: seq<Id>, consumer: string, until: real)
    ensures Lease(b, ids, consumer, until) == SetStatus(b, (set id | id in ids), Leased(consumer, until))
  {
  }

  lemma ShiftStatus(b: Box, d: nat, ids: set<Id>, status: EventStatus)
    ensures SetStatus(Shifted(b, d), ids, status) == Shifted(SetStatus(b, ids, status), d)
  {
  }

  lemma ShiftRemove(b: Box, d: nat, ids: seq<Id>)
    ensures Remove(Shifted(b, d), ids) == Shifted(Remove(b, ids), d)
  {
  }

  lemma ShiftHolds(b: Box, d: nat, conversation: Id, ids: set<Id>, consumer: string, at: real)
    ensures MaySettle(Shifted(b, d), conversation, ids, consumer, at) <==> MaySettle(b, conversation, ids, consumer, at)
  {
    assert forall id ::
      HoldsLease(Shifted(b, d), conversation, id, consumer, at) <==> HoldsLease(b, conversation, id, consumer, at);
  }

  lemma ShiftReached(b: Box, d: nat, conversation: Id, ids: set<Id>)
    ensures Reached(Shifted(b, d), conversation, ids) == Reached(b, conversation, ids)
  {
  }

  lemma ShiftAppend(b: Box, d: nat, conversation: Id, id: Id, body: Json, at: real)
    ensures Append(Shifted(b, d), conversation, id, body, at).Ok? <==> Append(b, conversation, id, body, at).Ok?
    ensures Append(b, conversation, id, body, at).Ok? ==>
      Append(Shifted(b, d), conversation, id, body, at).value == Shifted(Append(b, conversation, id, body, at).value, d)
  {
    if Append(b, conversation, id, body, at).Ok? && id !in b.seen {
      var one := Append(Shifted(b, d), conversation, id, body, at).value;
      var two := Shifted(Append(b, conversation, id, body, at).value, d);
      assert one.events == two.events;
    }
  }

  lemma ShiftOrder(b: Box, d: nat, ids: seq<Id>)
    ensures InOrder(Shifted(b, d), ids) <==> InOrder(b, ids)
    ensures forall id | InOrder(b, ids) && id in b.events :: After(Shifted(b, d), ids, id) <==> After(b, ids, id)
  {
  }

  lemma ShiftClaims(b: Box, d: nat, conversation: Id, limit: nat, now: real, ids: seq<Id>)
    ensures Claims(Shifted(b, d), conversation, limit, now, ids) <==> Claims(b, conversation, limit, now, ids)
  {
    ShiftOrder(b, d, ids);
    assert forall id :: CanClaim(Shifted(b, d), conversation, id, now) <==> CanClaim(b, conversation, id, now);
    hide InOrder, After, CanClaim;
  }

  lemma ShiftPurges(b: Box, d: nat, scope: Option<Id>, olderThan: Option<real>, limit: nat, ids: seq<Id>)
    ensures Purges(Shifted(b, d), scope, olderThan, limit, ids) <==> Purges(b, scope, olderThan, limit, ids)
  {
    ShiftOrder(b, d, ids);
    assert forall id :: Purgeable(Shifted(b, d), scope, olderThan, id) <==> Purgeable(b, scope, olderThan, id);
    hide InOrder, After, Purgeable;
  }

  /** Every run of calls, with the events each claim and purge took, is possible on one backend exactly when it is
      on the other, and leaves the same mailbox but for the numbering. */
  lemma {:induction false} BackendsAgree(b: Box, d: nat, run: seq<Call>)
    ensures Possible(Shifted(b, d), run) <==> Possible(b, run)
    ensures Possible(b, run) ==> Ran(Shifted(b, d), run) == Shifted(Ran(b, run), d)
    decreases |run|
  {
    if run == [] {
    } else {
      var n := |run| - 1;
      BackendsAgree(b, d, run[..n]);
      if Possible(b, run[..n]) {
        ShiftStep(Ran(b, run[..n]), d, run[n]);
      }
    }
  }

  /** The two empty mailboxes differ only in the numbering. */
  lemma BackendsStartAlike()
    ensures Shifted(Box(map[], 0, map[]), 1) == Box(map[], 1, map[])
  {
  }
}
