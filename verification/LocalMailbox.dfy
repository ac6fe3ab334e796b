/** The in-memory mailbox: one list of events for each conversation. */
module LocalMailboxModel {
  import opened Mail
  import opened Mailboxes
  import opened MailboxLists

  function At(lists: map<Id, seq<Stored>>, conversation: Id): seq<Stored> {
    if conversation in lists then lists[conversation] else []
  }

  class LocalMailbox {
    var lists: map<Id, seq<Stored>>
    var ids: map<Id, Seen>
    var next: nat

    /** The mailbox the lists stand for. */
    ghost var box: Box

    function ListOf(conversation: Id): seq<Stored>
      reads this
    {
      At(lists, conversation)
    }

    ghost predicate Valid()
      reads this
    {
      && Sound(box) && ids == box.seen && next == box.next
      && forall c :: Lists(box, c, At(lists, c))
    }

    constructor ()
      ensures Valid() && box == Box(map[], 0, map[])
    {
      lists, ids, next := map[], map[], 0;
      box := Box(map[], 0, map[]);
    }

    method AppendEvent(conversation: Id, id: Id, body: Json, now: real) returns (done: Result<Id>)
      requires Valid()
      modifies this
      ensures Valid()
      ensures match Append(old(box), conversation, id, body, now)
        case Ok(b) => done == Ok(id) && box == b
        case Err(e) => done == Err(e) && box == old(box)
    {
      if conversation == "" {
        return Err(ValueError);
      }
      if id in ids {
        return if ids[id].conversation == conversation then Ok(id) else Err(ValueError);
      }
      ghost var b, was := box, lists;
      AppendLists(b, conversation, id, body, now, conversation, At(was, conversation));
      lists := lists[conversation := At(lists, conversation) + [Stored(id, conversation, next, Pending, body)]];
      ids := ids[id := Seen(conversation, now)];
      next := next + 1;
      box := Append(b, conversation, id, body, now).value;
      done := Ok(id);
      forall c ensures Lists(box, c, At(lists, c)) {
        AppendLists(b, conversation, id, body, now, c, At(was, c));
      }
    }

    /** Puts a list with changed statuses in place. */
    method Replace(conversation: Id, list: seq<Stored>, ghost changed: set<Id>, ghost status: EventStatus)
      requires Valid() && list == Restatus(ListOf(conversation), changed, status)
      requires forall id | id in changed :: id in box.events && box.events[id].conversation == conversation
      modifies this`lists, this`box
      ensures Valid() && box == SetStatus(old(box), changed, status)
    {
      ghost var b, was := box, lists;
      StatusSound(b, changed, status);
      lists := lists[conversation := list];
      box := SetStatus(b, changed, status);
      forall c ensures Lists(box, c, At(lists, c)) {
        StatusKeepsLists(b, c, At(was, c), changed, status);
        if c != conversation {
          Elsewhere(b, conversation, c, At(was, c), changed);
          RestatusOther(At(was, c), changed, status);
        }
      }
    }

    /** Leases the oldest claimable events of a conversation. */
    method Claim(conversation: Id, consumer: string, limit: int, lease: real, now: real)
      returns (claimed: Result<seq<Id>>)
      requires Valid()
      modifies this
      ensures Valid()
      ensures claimed.Err? <==> consumer == "" || limit < 1 || lease < 0.0
      ensures claimed.Err? ==> claimed == Err(ValueError) && box == old(box)
      ensures claimed.Ok? ==>
        && Claims(old(box), conversation, limit, now, claimed.value)
        && box == Lease(old(box), claimed.value, consumer, now + lease)
    {
      if consumer == "" || limit < 1 || lease < 0.0 {
        return Err(ValueError);
      }
      ghost var b := box;
      ScanClaims(b, conversation, ListOf(conversation), limit, now);
      var list, taken := LeaseFirst(ListOf(conversation), limit, now, Leased(consumer, now + lease));
      LeaseIsStatus(b, taken, consumer, now + lease);
      assert forall i | 0 <= i < |taken| :: CanClaim(b, conversation, taken[i], now);
      hide Claims, Lists, Sound, Lease, Restatus;
      Replace(conversation, list, Ids(taken), Leased(consumer, now + lease));
      claimed := Ok(taken);
    }

    /** Scans the list once, leasing the claimable events it meets until the limit is reached. */
    static method LeaseFirst(was: seq<Stored>, limit: nat, now: real, leased: EventStatus)
      returns (list: seq<Stored>, taken: seq<Id>)
      requires limit > 0 && forall i, j | 0 <= i < j < |was| :: was[i].id != was[j].id
      ensures taken == FirstClaimable(was, |was|, limit, now) && list == Restatus(was, Ids(taken), leased)
    {
      list, taken := was, [];
      RestatusOther(was, Ids([]), leased);
      for i := 0 to |was|
        invariant taken == FirstClaimable(was, i, limit, now) && |taken| < limit
        invariant list == Restatus(was, Ids(taken), leased)
      {
        TakenBefore(was, i, limit, now);
        RestatusAt(was, Ids(taken), leased, i);
        if Claimable(list[i], now) {
          RestatusOne(was, taken, leased, i);
          taken := taken + [was[i].id];
          list := list[i := list[i].(status := leased)];
          if |taken| == limit {
            ScanStops(was, i + 1, |was|, limit, now);
            break;
          }
        }
      }
    }

    /** The conversation of the oldest claimable event over all conversations. */
    method OldestConversation(now: real) returns (found: Option<Id>)
      requires Valid()
      ensures found.None? ==> forall id | id in box.events :: !Claimable(box.events[id], now)
      ensures found.Some? ==> exists id :: Oldest(box, found.value, id, now)
    {
      var rest := lists.Keys;
      var best: Option<Stored> := None;
      forall id | id in box.events ensures box.events[id].conversation in rest {
        assert Lists(box, box.events[id].conversation, At(lists, box.events[id].conversation));
      }
      while rest != {}
        invariant rest <= lists.Keys
        invariant best.Some? ==>
          CanClaim(box, best.value.conversation, best.value.id, now) && box.events[best.value.id] == best.value
        invariant forall id
            | id in box.events && Claimable(box.events[id], now) && box.events[id].conversation !in rest ::
          best.Some? && best.value.sequence <= box.events[id].sequence
        decreases rest
      {
        var conversation :| conversation in rest;
        var first := FirstOf(lists[conversation], now);
        FirstIsOldest(box, conversation, At(lists, conversation), now, first);
        hide Lists, Sound;
        if first.Some? && (best.None? || first.value.sequence < best.value.sequence) {
          best := first;
        }
        rest := rest - {conversation};
      }
      if best.None? {
        return None;
      }
      found := Some(best.value.conversation);
      assert Oldest(box, found.value, best.value.id, now);
    }

    /** Leases the oldest ready conversation's events, without mixing conversations. */
    method ClaimAny(consumer: string, limit: int, lease: real, now: real) returns (claimed: Result<seq<Id>>)
      requires Valid()
      modifies this
      ensures Valid()
      ensures claimed.Err? ==> box == old(box)
      ensures !(consumer != "" && limit >= 1 && lease >= 0.0) ==>
        && box == old(box)
        && ((exists id :: id in box.events && Claimable(box.events[id], now)) ==> claimed == Err(ValueError))
        && (!(exists id :: id in box.events && Claimable(box.events[id], now)) ==> claimed == Ok([]))
      ensures consumer != "" && limit >= 1 && lease >= 0.0 ==>
        && claimed.Ok?
        && ClaimsAny(old(box), limit, now, claimed.value)
        && box == Lease(old(box), claimed.value, consumer, now + lease)
    {
      var found := OldestConversation(now);
      if found.None? {
        NoneLeased(box, consumer, now + lease);
        return Ok([]);
      }
      claimed := Claim(found.value, consumer, limit, lease, now);
    }

    /** Marks events as incorporated whatever their lease: unknown and acknowledged ones are passed over. */
    method ForceAck(conversation: Id, wanted: set<Id>, now: real)
      requires Valid()
      modifies this
      ensures Valid() && box == ForceAcknowledge(old(box), conversation, wanted, now)
    {
      var list := ListOf(conversation);
      var reached: set<Id> := {};
      for i := 0 to |list|
        invariant reached == set k | 0 <= k < i && list[k].id in wanted && !list[k].status.Acknowledged? :: list[k].id
      {
        if list[i].id in wanted && !list[i].status.Acknowledged? {
          reached := reached + {list[i].id};
        }
      }
      ReachedInList(box, conversation, list, wanted);
      hide Lists, Sound;
      var changed := Recompute(list, reached, Acknowledged(now));
      Replace(conversation, changed, reached, Acknowledged(now));
    }

    /** Settles events under the consumer's lease: acknowledged, or back to pending. The events are settled one by
        one, so a call that fails part way has settled some it held, `settled`. */
    method Settle(conversation: Id, consumer: string, wanted: set<Id>, acknowledge: bool, now: real)
      returns (failed: Option<Error>, ghost settled: set<Id>)
      requires Valid()
      modifies this
      ensures Valid() && Settles(old(box), conversation, consumer, wanted, now, failed, settled)
      ensures box == SetStatus(old(box), settled, if acknowledge then Acknowledged(now) else Pending)
    {
      var list := ListOf(conversation);
      var status := if acknowledge then Acknowledged(now) else Pending;
      FoundInList(box, conversation, list, wanted);
      if (set k | 0 <= k < |list| && list[k].id in wanted :: list[k].id) != wanted {
        settled := {};
        NothingSet(box, status);
        return Some(KeyError), settled;
      }
      var part: set<Id> := {};
      failed := None;
      for i := 0 to |list|
        invariant failed.None?
        invariant part == set k | 0 <= k < i && list[k].id in wanted :: list[k].id
        invariant forall id | id in part :: HoldsLease(box, conversation, id, consumer, now)
      {
        if list[i].id in wanted {
          if !HeldBy(list[i], consumer, now) {
            failed := Some(ValueError);
            assert !HoldsLease(box, conversation, list[i].id, consumer, now);
            break;
          }
          part := part + {list[i].id};
        }
      }
      settled := part;
      hide Lists, Sound;
      var changed := Recompute(list, part, status);
      Replace(conversation, changed, part, status);
    }

    /** The purgeable events in scope, with their place in append order. */
    method Candidates(scope: Option<Id>, olderThan: Option<real>) returns (found: map<Id, nat>)
      requires Valid()
      ensures forall id :: id in found <==> Purgeable(box, scope, olderThan, id)
      ensures forall id | id in found :: id in box.events && found[id] == box.events[id].sequence
    {
      var rest := if scope.None? then lists.Keys else {scope.value};
      found := map[];
      forall id | id in box.events ensures box.events[id].conversation in lists {
        assert Lists(box, box.events[id].conversation, At(lists, box.events[id].conversation));
      }
      while rest != {}
        invariant Collected(box, scope, olderThan, found, rest)
        decreases rest
      {
        var conversation :| conversation in rest;
        var more := CandidatesOf(ListOf(conversation), olderThan);
        CandidatesInList(box, conversation, ListOf(conversation), olderThan, more);
        CollectMore(box, scope, olderThan, found, rest, conversation, more);
        found := found + more;
        rest := rest - {conversation};
      }
    }

    /** Removes the oldest acknowledged events, up to the limit; their identities stay remembered. */
    method PurgeAcknowledged(scope: Option<Id>, olderThan: Option<real>, limit: int)
      returns (purged: Result<nat>, ghost ids: seq<Id>)
      requires Valid()
      modifies this
      ensures Valid() && (purged.Err? <==> limit < 1)
      ensures purged.Err? ==> purged == Err(ValueError) && box == old(box)
      ensures purged.Ok? ==>
        && Purges(old(box), scope, olderThan, limit, ids) && purged.value == |ids|
        && box == Remove(old(box), ids)
    {
      if limit < 1 {
        ids := [];
        return Err(ValueError), ids;
      }
      var found := Candidates(scope, olderThan);
      SequencesDistinct(box, found);
      var oldest := TakeOldest(found, limit);
      OldestPurges(box, scope, olderThan, found, limit, oldest);
      Discard(scope, oldest);
      ids := oldest;
      purged := Ok(|oldest|);
    }

    /** Takes events out of the lists of the conversations in scope. */
    method Discard(scope: Option<Id>, gone: seq<Id>)
      requires Valid() && InScope(box, scope, gone)
      modifies this`lists, this`box
      ensures Valid() && box == Remove(old(box), gone)
    {
      var going := set id | id in gone;
      ghost var b, was := box, lists;
      lists := Without(lists, if scope.None? then lists.Keys else {scope.value}, going);
      box := Remove(b, gone);
      Discarded(b, scope, was, lists, gone, going);
      hide Sound, Lists, Keep, InScope;
    }

    /** Filters each of the lists in turn; an emptied one goes. */
    static method Without(was: map<Id, seq<Stored>>, conversations: set<Id>, going: set<Id>)
      returns (lists: map<Id, seq<Stored>>)
      ensures forall c :: At(lists, c) == if c in conversations then Keep(At(was, c), going) else At(was, c)
    {
      lists := was;
      var rest := conversations;
      while rest != {}
        invariant rest <= conversations
        invariant forall c ::
          At(lists, c) == if c in conversations && c !in rest then Keep(At(was, c), going) else At(was, c)
        decreases rest
      {
        var conversation :| conversation in rest;
        var list := Filter(At(lists, conversation), going);
        if list != [] {
          lists := lists[conversation := list];
        } else {
          lists := lists - {conversation};
        }
        rest := rest - {conversation};
      }
    }
  }

  lemma Discarded(b: Box, scope: Option<Id>, was: map<Id, seq<Stored>>, lists: map<Id, seq<Stored>>, gone: seq<Id>,
                  going: set<Id>)
    requires Sound(b) && (forall c :: Lists(b, c, At(was, c))) && InScope(b, scope, gone)
    requires going == set id | id in gone
    requires forall c ::
      At(lists, c) ==
        if (if scope.None? then c in was else c == scope.value) then Keep(At(was, c), going) else At(was, c)
    ensures Sound(Remove(b, gone)) && forall c :: Lists(Remove(b, gone), c, At(lists, c))
  {
    RemoveSound(b, gone);
    hide Sound, Lists, InScope;
    forall c ensures Lists(Remove(b, gone), c, At(lists, c)) {
      DiscardedLists(b, scope, c, At(was, c), At(lists, c), gone, going);
    }
  }

  lemma DiscardedLists(b: Box, scope: Option<Id>, c: Id, was: seq<Stored>, now: seq<Stored>, gone: seq<Id>,
                       going: set<Id>)
    requires Sound(b) && Lists(b, c, was) && InScope(b, scope, gone) && going == set id | id in gone
    requires now == if scope.None? || c == scope.value || was == [] then Keep(was, going) else was
    ensures Lists(Remove(b, gone), c, now)
  {
    assert going == Ids(gone);
    KeepLists(b, c, was, gone);
    if scope.Some? && c != scope.value {
      Elsewhere(b, scope.value, c, was, going);
      KeepAll(was, going);
    }
  }

  lemma Elsewhere(b: Box, conversation: Id, other: Id, list: seq<Stored>, changed: set<Id>)
    requires Lists(b, other, list) && other != conversation
    requires forall id | id in changed :: id in b.events && b.events[id].conversation == conversation
    ensures forall i | 0 <= i < |list| :: list[i].id !in changed
  {
  }
}
