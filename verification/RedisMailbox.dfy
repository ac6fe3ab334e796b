/** The Redis mailbox: event records, a sorted set of identities for each conversation, the conversations that have
    any, and the deduplication hash. Every call holds the namespace lock. */
module RedisMailboxModel {
  import opened Mail
  import opened Mailboxes
  import opened MailboxLists

  function In(index: map<Id, seq<Id>>, conversation: Id): seq<Id> {
    if conversation in index then index[conversation] else []
  }

  /** `ids` is exactly the conversation's events by score. */
  predicate Orders(b: Box, conversation: Id, ids: seq<Id>) {
    && InOrder(b, ids)
    && (forall i | 0 <= i < |ids| :: b.events[ids[i]].conversation == conversation)
    && (forall id | id in b.events && b.events[id].conversation == conversation :: id in ids)
  }

  predicate Stores(records: map<Id, Stored>, ids: seq<Id>) {
    forall i | 0 <= i < |ids| :: ids[i] in records
  }

  /** The records a sorted set leads to. */
  function Rows(records: map<Id, Stored>, ids: seq<Id>): seq<Stored>
    requires Stores(records, ids)
  {
    seq(|ids|, i requires 0 <= i < |ids| => records[ids[i]])
  }

  lemma OrdersList(b: Box, conversation: Id, ids: seq<Id>)
    requires Sound(b) && Orders(b, conversation, ids)
    ensures Stores(b.events, ids) && Lists(b, conversation, Rows(b.events, ids))
  {
    var list := Rows(b.events, ids);
    forall i | 0 <= i < |list| ensures list[i].id == ids[i] {
      assert SoundEvent(b, ids[i]);
    }
    forall id | id in b.events && b.events[id].conversation == conversation ensures b.events[id] in list {
      var k :| 0 <= k < |ids| && ids[k] == id;
      assert list[k] == b.events[id];
    }
  }

  class RedisMailbox {
    var records: map<Id, Stored>
    var index: map<Id, seq<Id>>
    var conversations: set<Id>
    var dedup: map<Id, Seen>
    var sequence: nat

    /** The mailbox the keys stand for. */
    ghost var box: Box

    ghost predicate Valid()
      reads this
    {
      Linked() && forall c :: c in conversations <==> In(index, c) != []
    }

    /** Records, index and counters agree with the mailbox. */
    ghost predicate Linked()
      reads this
    {
      && Sound(box) && records == box.events && dedup == box.seen && sequence + 1 == box.next
      && forall c :: Orders(box, c, In(index, c))
    }

    constructor ()
      ensures Valid() && box == Box(map[], 1, map[])
    {
      records, index, conversations, dedup, sequence := map[], map[], {}, map[], 0;
      box := Box(map[], 1, map[]);
    }

    /** The events of a conversation, loaded one by one in append order. */
    method Load(conversation: Id) returns (list: seq<Stored>)
      requires Valid()
      ensures Stores(records, In(index, conversation)) && list == Rows(records, In(index, conversation))
      ensures Lists(box, conversation, list)
    {
      var ids := In(index, conversation);
      OrdersList(box, conversation, ids);
      list := [];
      for i := 0 to |ids|
        invariant |list| == i && forall k | 0 <= k < i :: list[k] == records[ids[k]]
      {
        list := list + [records[ids[i]]];
      }
      assert list == Rows(records, ids);
    }

    method AppendEvent(conversation: Id, id: Id, body: Json, now: real) returns (done: Result<Id>)
      requires Valid()
      modifies this
      ensures Valid()
      ensures match Append(old(box), conversation, id, body, now)
        case Ok(b) => done == Ok(id) && box == b
        case Err(e) => done == Err(e) && box == old(box)
    {
      if conversation == "" {
        return Err(ValueError);
      }
      if id in dedup {
        return if dedup[id].conversation == conversation then Ok(id) else Err(ValueError);
      }
      ghost var b, was := box, index;
      sequence := sequence + 1;
      records := records[id := Stored(id, conversation, sequence, Pending, body)];
      index := index[conversation := In(index, conversation) + [id]];
      dedup := dedup[id := Seen(conversation, now)];
      conversations := conversations + {conversation};
      box := Append(b, conversation, id, body, now).value;
      SoundKept(b, Appended(conversation, id, body, now));
      forall c ensures Orders(box, c, In(index, c)) {
        AppendOrders(b, conversation, id, body, now, c, In(was, c));
      }
      done := Ok(id);
    }

    /** Writes one status into the records of the events. */
    method Write(ids: set<Id>, status: EventStatus)
      requires Valid() && ids <= records.Keys
      modifies this`records, this`box
      ensures Valid() && box == SetStatus(old(box), ids, status)
    {
      ghost var b := box;
      records := Rewrite(records, ids, status);
      box := SetStatus(b, ids, status);
      WriteOrders(b, index, ids, status);
      hide Sound, Orders;
    }

    static method Rewrite(was: map<Id, Stored>, ids: set<Id>, status: EventStatus) returns (records: map<Id, Stored>)
      requires ids <= was.Keys
      ensures records == map id | id in was :: if id in ids then was[id].(status := status) else was[id]
    {
      records := was;
      var rest := ids;
      while rest != {}
        invariant rest <= ids && records.Keys == was.Keys
        invariant forall id | id in was ::
          records[id] == if id in ids && id !in rest then was[id].(status := status) else was[id]
        decreases rest
      {
        var id :| id in rest;
        records := records[id := records[id].(status := status)];
        rest := rest - {id};
      }
    }

    static predicate ValidClaim(consumer: string, limit: int, lease: real) {
      consumer != "" && limit >= 1 && lease >= 0.0
    }

    /** Leases the oldest claimable events of a conversation. */
    method Claim(conversation: Id, consumer: string, limit: int, lease: real, now: real)
      returns (claimed: Result<seq<Id>>)
      requires Valid()
      modifies this
      ensures Valid()
      ensures !ValidClaim(consumer, limit, lease) ==> claimed == Err(ValueError) && box == old(box)
      ensures ValidClaim(consumer, limit, lease) ==>
        && claimed.Ok?
        && Claims(old(box), conversation, limit, now, claimed.value)
        && box == Lease(old(box), claimed.value, consumer, now + lease)
    {
      if !ValidClaim(consumer, limit, lease) {
        return Err(ValueError);
      }
      var taken := ClaimLocked(conversation, consumer, limit, now + lease, now);
      claimed := Ok(taken);
    }

    method ClaimLocked(conversation: Id, consumer: string, limit: nat, until: real, now: real) returns (taken: seq<Id>)
      requires Valid() && limit > 0
      modifies this`records, this`box
      ensures Valid() && Claims(old(box), conversation, limit, now, taken)
      ensures box == Lease(old(box), taken, consumer, until)
    {
      var list := Load(conversation);
      ScanClaims(box, conversation, list, limit, now);
      taken := FirstIds(list, limit, now);
      LeaseIsStatus(box, taken, consumer, until);
      var leased := set id | id in taken;
      TakenStored(box, conversation, limit, now, taken, leased);
      hide Claims, Sound, Orders, Lists, SetStatus, Lease, Ids;
      Write(leased, Leased(consumer, until));
    }

    /** Leases the oldest ready conversation's events, without mixing conversations. */
    method ClaimAny(consumer: string, limit: int, lease: real, now: real) returns (claimed: Result<seq<Id>>)
      requires Valid()
      modifies this
      ensures Valid()
      ensures !ValidClaim(consumer, limit, lease) ==> claimed == Err(ValueError) && box == old(box)
      ensures ValidClaim(consumer, limit, lease) ==>
        && claimed.Ok?
        && ClaimsAny(old(box), limit, now, claimed.value)
        && box == Lease(old(box), claimed.value, consumer, now + lease)
    {
      if !ValidClaim(consumer, limit, lease) {
        return Err(ValueError);
      }
      var found := OldestConversation(now);
      if found.None? {
        NoneLeased(box, consumer, now + lease);
        return Ok([]);
      }
      var taken := ClaimLocked(found.value, consumer, limit, now + lease, now);
      claimed := Ok(taken);
    }

    /** The conversation of the oldest claimable event; only conversations in the set are looked at. */
    method OldestConversation(now: real) returns (found: Option<Id>)
      requires Valid()
      ensures found.None? ==> forall id | id in box.events :: !Claimable(box.events[id], now)
      ensures found.Some? ==> exists id :: Oldest(box, found.value, id, now)
    {
      var rest := conversations;
      var best: Option<Stored> := None;
      forall id | id in box.events ensures box.events[id].conversation in rest {
        assert Orders(box, box.events[id].conversation, In(index, box.events[id].conversation));
      }
      while rest != {}
        invariant rest <= conversations
        invariant best.Some? ==>
          CanClaim(box, best.value.conversation, best.value.id, now) && box.events[best.value.id] == best.value
        invariant forall id
            | id in box.events && Claimable(box.events[id], now) && box.events[id].conversation !in rest ::
          best.Some? && best.value.sequence <= box.events[id].sequence
        decreases rest
      {
        var conversation :| conversation in rest;
        var list := Load(conversation);
        var first := FirstOf(list, now);
        FirstIsOldest(box, conversation, list, now, first);
        hide Lists, Sound;
        if first.Some? && (best.None? || first.value.sequence < best.value.sequence) {
          best := first;
        }
        rest := rest - {conversation};
      }
      if best.None? {
        return None;
      }
      found := Some(best.value.conversation);
      assert Oldest(box, found.value, best.value.id, now);
    }

    /** Marks events as incorporated whatever their lease: unknown and acknowledged ones are passed over. */
    method ForceAck(conversation: Id, wanted: set<Id>, now: real)
      requires Valid()
      modifies this
      ensures Valid() && box == ForceAcknowledge(old(box), conversation, wanted, now)
    {
      var reached := set id | id in wanted && id in records && records[id].conversation == conversation
        && !records[id].status.Acknowledged?;
      assert reached == Reached(box, conversation, wanted);
      Write(reached, Acknowledged(now));
    }

    /** Settles events under the consumer's lease, one by one in no particular order. */
    method Settle(conversation: Id, consumer: string, wanted: set<Id>, acknowledge: bool, now: real)
      returns (failed: Option<Error>, ghost settled: set<Id>)
      requires Valid()
      modifies this
      ensures Valid() && Settles(old(box), conversation, consumer, wanted, now, failed, settled)
      ensures box == SetStatus(old(box), settled, if acknowledge then Acknowledged(now) else Pending)
    {
      var status := if acknowledge then Acknowledged(now) else Pending;
      if exists id | id in wanted :: id !in records || records[id].conversation != conversation {
        settled := {};
        NothingSet(box, status);
        return Some(KeyError), settled;
      }
      var part: set<Id>, rest := {}, wanted;
      failed := None;
      while rest != {}
        invariant part == wanted - rest && rest <= wanted && failed.None?
        invariant forall id | id in part :: HoldsLease(box, conversation, id, consumer, now)
        decreases rest
      {
        var id :| id in rest;
        if !HeldBy(records[id], consumer, now) {
          failed := Some(ValueError);
          break;
        }
        part, rest := part + {id}, rest - {id};
      }
      settled := part;
      Write(part, status);
    }

    /** Removes the oldest acknowledged events, up to the limit; their identities stay remembered. */
    method PurgeAcknowledged(scope: Option<Id>, olderThan: Option<real>, limit: int)
      returns (purged: Result<nat>, ghost ids: seq<Id>)
      requires Valid()
      modifies this
      ensures Valid() && (purged.Err? <==> limit < 1)
      ensures purged.Err? ==> purged == Err(ValueError) && box == old(box)
      ensures purged.Ok? ==>
        && Purges(old(box), scope, olderThan, limit, ids) && purged.value == |ids|
        && box == Remove(old(box), ids)
    {
      if limit < 1 {
        ids := [];
        return Err(ValueError), ids;
      }
      var found := Candidates(scope, olderThan);
      SequencesDistinct(box, found);
      var oldest := TakeOldest(found, limit);
      OldestPurges(box, scope, olderThan, found, limit, oldest);
      Discard(scope, oldest);
      ids := oldest;
      purged := Ok(|oldest|);
    }

    /** The purgeable events in scope, with their places in append order. */
    method Candidates(scope: Option<Id>, olderThan: Option<real>) returns (found: map<Id, nat>)
      requires Valid()
      ensures forall id :: id in found <==> Purgeable(box, scope, olderThan, id)
      ensures forall id | id in found :: id in box.events && found[id] == box.events[id].sequence
    {
      var rest := if scope.None? then conversations else {scope.value};
      found := map[];
      forall id | id in box.events ensures box.events[id].conversation in conversations {
        assert Orders(box, box.events[id].conversation, In(index, box.events[id].conversation));
      }
      while rest != {}
        invariant Collected(box, scope, olderThan, found, rest)
        decreases rest
      {
        var conversation :| conversation in rest;
        var list := Load(conversation);
        var more := CandidatesOf(list, olderThan);
        CandidatesInList(box, conversation, list, olderThan, more);
        CollectMore(box, scope, olderThan, found, rest, conversation, more);
        found := found + more;
        rest := rest - {conversation};
      }
    }

    /** One pipeline deletes the records and their index entries; emptied conversations in scope leave the set. */
    method Discard(scope: Option<Id>, gone: seq<Id>)
      requires Valid() && InScope(box, scope, gone) && forall i, j | 0 <= i < j < |gone| :: gone[i] != gone[j]
      modifies this`records, this`index, this`conversations, this`box
      ensures Valid() && box == Remove(old(box), gone)
    {
      ghost var b := box;
      RemoveNone(b);
      for i := 0 to |gone|
        invariant Linked() && box == Remove(b, gone[..i])
        invariant forall c | In(index, c) != [] :: c in conversations
        invariant forall c | c in conversations && In(index, c) == [] :: scope.None? || c == scope.value
      {
        RemoveMore(b, gone, i);
        assert gone[i] in gone && gone[i] in records;
        DeleteRecord(gone[i]);
      }
      assert gone[..|gone|] == gone;
      var rest := if scope.None? then conversations else {scope.value};
      while rest != {}
        invariant box == Remove(b, gone) && Linked()
        invariant forall c | In(index, c) != [] :: c in conversations
        invariant forall c | c in conversations && In(index, c) == [] :: c in rest
        decreases rest
      {
        var c :| c in rest;
        if In(index, c) == [] {
          conversations := conversations - {c};
        }
        rest := rest - {c};
      }
    }

    /** Deletes one record and its index entry. */
    method DeleteRecord(id: Id)
      requires Linked() && id in records
      modifies this`records, this`index, this`box
      ensures Linked() && box == Remove(old(box), [id])
      ensures forall c | In(index, c) != [] :: In(old(index), c) != []
      ensures forall c | In(index, c) == [] && In(old(index), c) != [] :: old(records)[id].conversation == c
    {
      ghost var b, was := box, index;
      var c := records[id].conversation;
      index := index[c := Dropped(In(index, c), id)];
      records := records - {id};
      box := Remove(b, [id]);
      RemoveSound(b, [id]);
      DroppedFacts(In(was, c), id);
      forall other ensures Orders(box, other, In(index, other)) {
        DropOrders(b, other, In(was, other), id);
      }
    }
  }

  /** ZREM. */
  function Dropped(ids: seq<Id>, id: Id): seq<Id> {
    if ids == [] then []
    else if ids[0] == id then Dropped(ids[1..], id)
    else [ids[0]] + Dropped(ids[1..], id)
  }

  lemma {:induction false} DroppedFacts(ids: seq<Id>, id: Id)
    ensures forall x :: x in Dropped(ids, id) <==> x in ids && x != id
    ensures id !in ids ==> Dropped(ids, id) == ids
  {
    if ids == [] {
    } else {
      DroppedFacts(ids[1..], id);
    }
  }

  lemma {:induction false} DroppedInOrder(b: Box, ids: seq<Id>, id: Id)
    requires InOrder(b, ids)
    ensures InOrder(b, Dropped(ids, id))
  {
    if ids == [] {
    } else {
      TailInOrder(b, ids);
      hide InOrder;
      DroppedInOrder(b, ids[1..], id);
      DroppedFacts(ids[1..], id);
      var rest := Dropped(ids[1..], id);
      forall i | 0 <= i < |rest| ensures rest[i] in b.events && b.events[ids[0]].sequence < b.events[rest[i]].sequence {
        assert rest[i] in ids[1..];
      }
      FirstInOrder(b, ids[0], rest);
    }
  }

  lemma TailInOrder(b: Box, ids: seq<Id>)
    requires ids != [] && InOrder(b, ids)
    ensures InOrder(b, ids[1..]) && ids[0] in b.events
    ensures forall id | id in ids[1..] :: id in b.events && b.events[ids[0]].sequence < b.events[id].sequence
  {
  }

  lemma FirstInOrder(b: Box, id: Id, rest: seq<Id>)
    requires id in b.events && InOrder(b, rest)
    requires forall i | 0 <= i < |rest| :: b.events[id].sequence < b.events[rest[i]].sequence
    ensures InOrder(b, [id] + rest)
  {
  }

  lemma DropOrders(b: Box, c: Id, ids: seq<Id>, id: Id)
    requires Sound(b) && Orders(b, c, ids) && id in b.events
    ensures Orders(Remove(b, [id]), c, if c == b.events[id].conversation then Dropped(ids, id) else ids)
  {
    DroppedFacts(ids, id);
    DroppedInOrder(b, ids, id);
    var r, left := Remove(b, [id]), Dropped(ids, id);
    forall i | 0 <= i < |left| ensures left[i] in r.events && r.events[left[i]].conversation == c {
      assert left[i] in ids;
    }
  }

  lemma WriteOrders(b: Box, index: map<Id, seq<Id>>, ids: set<Id>, status: EventStatus)
    requires Sound(b) && forall c :: Orders(b, c, In(index, c))
    ensures Sound(SetStatus(b, ids, status)) && forall c :: Orders(SetStatus(b, ids, status), c, In(index, c))
  {
    StatusSound(b, ids, status);
    forall c ensures Orders(SetStatus(b, ids, status), c, In(index, c)) {
      assert Orders(b, c, In(index, c));
    }
  }

  lemma TakenStored(b: Box, conversation: Id, limit: nat, now: real, taken: seq<Id>, leased: set<Id>)
    requires Claims(b, conversation, limit, now, taken) && leased == set id | id in taken
    ensures leased == Ids(taken) && leased <= b.events.Keys
  {
  }

  lemma AppendOrders(b: Box, conversation: Id, id: Id, body: Json, now: real, c: Id, ids: seq<Id>)
    requires Sound(b) && Orders(b, c, ids) && conversation != "" && id !in b.seen
    ensures Orders(Append(b, conversation, id, body, now).value, c, if c == conversation then ids + [id] else ids)
  {
    assert forall i | 0 <= i < |ids| :: SoundEvent(b, ids[i]);
  }

  lemma RemoveNone(b: Box)
    ensures Remove(b, []) == b
  {
  }

  lemma RemoveMore(b: Box, gone: seq<Id>, i: nat)
    requires i < |gone|
    ensures Remove(b, gone[..i + 1]) == Remove(Remove(b, gone[..i]), [gone[i]])
  {
    assert gone[..i + 1] == gone[..i] + [gone[i]];
  }
}
