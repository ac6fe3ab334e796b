/** A conversation's events as a list in append order, which both mailbox backends scan. */
module MailboxLists {
  import opened Mail
  import opened Mailboxes

  /** `list` is exactly the conversation's events, oldest first. */
  predicate Lists(b: Box, conversation: Id, list: seq<Stored>) {
    && (forall i | 0 <= i < |list| ::
        list[i].id in b.events && b.events[list[i].id] == list[i] && list[i].conversation == conversation)
    && (forall i, j | 0 <= i < j < |list| :: list[i].sequence < list[j].sequence)
    && (forall id | id in b.events && b.events[id].conversation == conversation :: b.events[id] in list)
  }

  // ---- Claiming --------------------------------------------------------------

  /** The oldest claimable events among the first `n`, up to the limit. */
  function FirstClaimable(list: seq<Stored>, n: nat, limit: nat, now: real): seq<Id>
    requires n <= |list|
  {
    if n == 0 then []
    else
      var before := FirstClaimable(list, n - 1, limit, now);
      if |before| < limit && Claimable(list[n - 1], now) then before + [list[n - 1].id] else before
  }

  /** `ids` is what a scan takes from the first `n` events. */
  predicate Scanned(b: Box, conversation: Id, list: seq<Stored>, ids: seq<Id>, n: nat, limit: nat, now: real)
    requires n <= |list|
  {
    && |ids| <= limit && InOrder(b, ids)
    && (forall i | 0 <= i < |ids| :: CanClaim(b, conversation, ids[i], now))
    && (forall i, k | 0 <= i < |ids| && n <= k < |list| :: b.events[ids[i]].sequence < list[k].sequence)
    && (forall k | 0 <= k < n && Claimable(list[k], now) && list[k].id !in ids ::
          |ids| == limit && forall i | 0 <= i < |ids| :: b.events[ids[i]].sequence < list[k].sequence)
  }

  lemma ScanPasses(b: Box, conversation: Id, list: seq<Stored>, ids: seq<Id>, n: nat, limit: nat, now: real)
    requires n < |list| && Scanned(b, conversation, list, ids, n, limit, now)
    requires |ids| == limit || !Claimable(list[n], now)
    ensures Scanned(b, conversation, list, ids, n + 1, limit, now)
  {
  }

  lemma ScanAdds(b: Box, conversation: Id, list: seq<Stored>, ids: seq<Id>, n: nat, limit: nat, now: real)
    requires Lists(b, conversation, list) && n < |list| && Scanned(b, conversation, list, ids, n, limit, now)
    requires |ids| < limit && Claimable(list[n], now)
    ensures Scanned(b, conversation, list, ids + [list[n].id], n + 1, limit, now)
  {
    var more := ids + [list[n].id];
    assert forall i | 0 <= i < |more| :: more[i] == if i < |ids| then ids[i] else list[n].id;
    forall k | 0 <= k <= n && Claimable(list[k], now) ensures list[k].id in more {
      if k < n {
        assert list[k].id in ids;
      } else {
        assert more[|ids|] == list[n].id;
      }
    }
  }

  /** What the scan has taken after `n` events. */
  lemma {:induction false} ScanTakes(b: Box, conversation: Id, list: seq<Stored>, n: nat, limit: nat, now: real)
    requires Lists(b, conversation, list) && n <= |list|
    ensures Scanned(b, conversation, list, FirstClaimable(list, n, limit, now), n, limit, now)
    decreases n
  {
    if n == 0 {
    } else {
      hide Lists, Scanned;
      ScanTakes(b, conversation, list, n - 1, limit, now);
      var ids := FirstClaimable(list, n - 1, limit, now);
      if |ids| < limit && Claimable(list[n - 1], now) {
        ScanAdds(b, conversation, list, ids, n - 1, limit, now);
      } else {
        assert |ids| <= limit by {
          ScanLimit(list, n - 1, limit, now);
        }
        ScanPasses(b, conversation, list, ids, n - 1, limit, now);
      }
    }
  }

  lemma {:induction false} ScanLimit(list: seq<Stored>, n: nat, limit: nat, now: real)
    requires n <= |list|
    ensures |FirstClaimable(list, n, limit, now)| <= limit
    decreases n
  {
    if n == 0 {
    } else {
      ScanLimit(list, n - 1, limit, now);
    }
  }

  /** Scanning a conversation's list is a claim. */
  lemma ScanClaims(b: Box, conversation: Id, list: seq<Stored>, limit: nat, now: real)
    requires Sound(b) && Lists(b, conversation, list)
    ensures Claims(b, conversation, limit, now, FirstClaimable(list, |list|, limit, now))
  {
    ScanTakes(b, conversation, list, |list|, limit, now);
    var ids := FirstClaimable(list, |list|, limit, now);
    forall id | id in b.events && CanClaim(b, conversation, id, now) && id !in ids
      ensures |ids| == limit && After(b, ids, id)
    {
      assert b.events[id] in list && SoundEvent(b, id);
      var k :| 0 <= k < |list| && list[k] == b.events[id];
    }
  }

  /** Once the limit is reached the rest of the list takes nothing. */
  lemma {:induction false} ScanStops(list: seq<Stored>, n: nat, m: nat, limit: nat, now: real)
    requires n <= m <= |list| && |FirstClaimable(list, n, limit, now)| == limit
    ensures FirstClaimable(list, m, limit, now) == FirstClaimable(list, n, limit, now)
    decreases m
  {
    if n < m {
      ScanStops(list, n, m - 1, limit, now);
    }
  }

  // ---- Changing statuses -----------------------------------------------------

  function Restatus(list: seq<Stored>, ids: set<Id>, status: EventStatus): (r: seq<Stored>)
    ensures |r| == |list|
  {
    seq(|list|, i requires 0 <= i < |list| => if list[i].id in ids then list[i].(status := status) else list[i])
  }

  lemma StatusKeepsEntry(b: Box, list: seq<Stored>, ids: set<Id>, status: EventStatus, id: Id)
    requires id in b.events && b.events[id].id == id && b.events[id] in list
    ensures SetStatus(b, ids, status).events[id] in Restatus(list, ids, status)
  {
    var k :| 0 <= k < |list| && list[k] == b.events[id];
    assert Restatus(list, ids, status)[k] == SetStatus(b, ids, status).events[id];
  }

  /** A change of status leaves every conversation's list in order. */
  lemma StatusKeepsLists(b: Box, conversation: Id, list: seq<Stored>, ids: set<Id>, status: EventStatus)
    requires Sound(b) && Lists(b, conversation, list)
    ensures Lists(SetStatus(b, ids, status), conversation, Restatus(list, ids, status))
  {
    var r, l := SetStatus(b, ids, status), Restatus(list, ids, status);
    forall id | id in r.events && r.events[id].conversation == conversation ensures r.events[id] in l {
      assert b.events[id] in list && SoundEvent(b, id);
      StatusKeepsEntry(b, list, ids, status, id);
    }
    hide Sound, Restatus;
    forall i | 0 <= i < |l|
      ensures l[i].id in r.events && r.events[l[i].id] == l[i] && l[i].conversation == conversation
    {
      RestatusAt(list, ids, status, i);
    }
    forall i, j | 0 <= i < j < |l| ensures l[i].sequence < l[j].sequence {
      RestatusAt(list, ids, status, i);
      RestatusAt(list, ids, status, j);
    }
  }

  lemma RestatusAt(list: seq<Stored>, ids: set<Id>, status: EventStatus, i: nat)
    requires i < |list|
    ensures Restatus(list, ids, status)[i] == if list[i].id in ids then list[i].(status := status) else list[i]
  {
  }

  /** A list none of whose events is touched stays as it is. */
  lemma RestatusOther(list: seq<Stored>, ids: set<Id>, status: EventStatus)
    requires forall i | 0 <= i < |list| :: list[i].id !in ids
    ensures Restatus(list, ids, status) == list
  {
  }

  function Ids(ids: seq<Id>): set<Id> { set i | 0 <= i < |ids| :: ids[i] }

  /** Leasing one more event of a list. */
  lemma RestatusOne(list: seq<Stored>, taken: seq<Id>, status: EventStatus, i: nat)
    requires i < |list| && forall j, k | 0 <= j < k < |list| :: list[j].id != list[k].id
    ensures Restatus(list, Ids(taken), status)[i := list[i].(status := status)]
      == Restatus(list, Ids(taken + [list[i].id]), status)
  {
    var more := taken + [list[i].id];
    assert forall id :: id in Ids(more) <==> id in more;
    assert forall id :: id in Ids(taken) <==> id in taken;
  }

  /** What the scan took came before. */
  lemma {:induction false} TakenBefore(list: seq<Stored>, n: nat, limit: nat, now: real)
    requires n < |list| && forall j, k | 0 <= j < k < |list| :: list[j].id != list[k].id
    ensures forall k | n <= k < |list| :: list[k].id !in Ids(FirstClaimable(list, n, limit, now))
  {
    if n == 0 {
    } else {
      TakenBefore(list, n - 1, limit, now);
    }
  }

  lemma LeaseIsStatus(b: Box, ids: seq<Id>, consumer: string, until: real)
    ensures Lease(b, ids, consumer, until) == SetStatus(b, Ids(ids), Leased(consumer, until))
  {
    assert forall id :: id in ids <==> id in Ids(ids);
  }

  lemma StatusSound(b: Box, ids: set<Id>, status: EventStatus)
    requires Sound(b)
    ensures Sound(SetStatus(b, ids, status))
  {
    var r := SetStatus(b, ids, status);
    forall id | id in r.events ensures SoundEvent(r, id) {
      assert SoundEvent(b, id);
    }
  }

  // ---- Removing --------------------------------------------------------------

  function Keep(list: seq<Stored>, ids: set<Id>): seq<Stored> {
    if list == [] then []
    else
      var last := list[|list| - 1];
      Keep(list[..|list| - 1], ids) + if last.id in ids then [] else [last]
  }

  lemma {:induction false} KeepMembers(list: seq<Stored>, ids: set<Id>)
    ensures forall e :: e in Keep(list, ids) <==> e in list && e.id !in ids
    decreases |list|
  {
    if list == [] {
    } else {
      var n := |list| - 1;
      KeepMembers(list[..n], ids);
      assert list == list[..n] + [list[n]];
    }
  }

  /** By the position each event was appended at. */
  predicate Ascending(list: seq<Stored>) {
    forall i, j | 0 <= i < j < |list| :: list[i].sequence < list[j].sequence
  }

  lemma AscendingMore(list: seq<Stored>, last: Stored)
    requires Ascending(list) && forall e | e in list :: e.sequence < last.sequence
    ensures Ascending(list + [last])
  {
  }

  lemma AscendingFront(list: seq<Stored>)
    requires list != [] && Ascending(list)
    ensures var n := |list| - 1; Ascending(list[..n]) && forall e | e in list[..n] :: e.sequence < list[n].sequence
  {
  }

  lemma {:induction false} KeepFacts(list: seq<Stored>, ids: set<Id>)
    ensures forall e :: e in Keep(list, ids) <==> e in list && e.id !in ids
    ensures Ascending(list) ==> Ascending(Keep(list, ids))
    decreases |list|
  {
    KeepMembers(list, ids);
    if list == [] {
    } else if Ascending(list) {
      var n := |list| - 1;
      AscendingFront(list);
      KeepFacts(list[..n], ids);
      hide Ascending;
      var kept := Keep(list[..n], ids);
      assert Keep(list, ids) == if list[n].id in ids then kept else kept + [list[n]];
      if list[n].id !in ids {
        AscendingMore(kept, list[n]);
      }
    }
  }

  /** A list that holds none of the events stays as it is. */
  lemma {:induction false} KeepAll(list: seq<Stored>, ids: set<Id>)
    requires forall i | 0 <= i < |list| :: list[i].id !in ids
    ensures Keep(list, ids) == list
    decreases |list|
  {
    if list == [] {
    } else {
      var n := |list| - 1;
      KeepAll(list[..n], ids);
      assert list == list[..n] + [list[n]];
    }
  }

  lemma KeepLists(b: Box, conversation: Id, list: seq<Stored>, ids: seq<Id>)
    requires Sound(b) && Lists(b, conversation, list)
    ensures Lists(Remove(b, ids), conversation, Keep(list, Ids(ids)))
  {
    KeepFacts(list, Ids(ids));
    var kept, r := Keep(list, Ids(ids)), Remove(b, ids);
    assert forall id :: id in ids <==> id in Ids(ids);
    forall i | 0 <= i < |kept|
      ensures kept[i].id in r.events && r.events[kept[i].id] == kept[i] && kept[i].conversation == conversation
    {
      assert kept[i] in kept;
    }
    forall id | id in r.events && r.events[id].conversation == conversation ensures r.events[id] in kept {
      assert SoundEvent(b, id);
    }
  }

  /** The events named all belong to the scope of a purge. */
  predicate InScope(b: Box, scope: Option<Id>, ids: seq<Id>) {
    forall id | id in ids :: id in b.events && (scope.None? || b.events[id].conversation == scope.value)
  }

  lemma RemoveSound(b: Box, ids: seq<Id>)
    requires Sound(b)
    ensures Sound(Remove(b, ids))
  {
    forall id | id in Remove(b, ids).events ensures SoundEvent(Remove(b, ids), id) {
      assert SoundEvent(b, id);
    }
  }

  // ---- Appending -------------------------------------------------------------

  lemma AppendLists(b: Box, conversation: Id, id: Id, body: Json, now: real, other: Id, list: seq<Stored>)
    requires Sound(b) && Lists(b, other, list) && conversation != "" && id !in b.seen
    ensures var e := Stored(id, conversation, b.next, Pending, body);
      Lists(Append(b, conversation, id, body, now).value, other, if other == conversation then list + [e] else list)
    ensures Sound(Append(b, conversation, id, body, now).value)
  {
    var e, r := Stored(id, conversation, b.next, Pending, body), Append(b, conversation, id, body, now).value;
    assert id in b.events ==> SoundEvent(b, id);
    forall i | 0 <= i < |list| ensures list[i].sequence < b.next && list[i].id != id {
      assert SoundEvent(b, list[i].id);
    }
    SoundKept(b, Appended(conversation, id, body, now));
    var l := if other == conversation then list + [e] else list;
    forall x | x in r.events && r.events[x].conversation == other ensures r.events[x] in l {
      if x != id {
        assert b.events[x] in list;
      }
    }
  }

  // ---- Scans both backends share ---------------------------------------------

  /** The oldest claimable events of a list, up to the limit. */
  method FirstIds(list: seq<Stored>, limit: nat, now: real) returns (taken: seq<Id>)
    requires limit > 0
    ensures taken == FirstClaimable(list, |list|, limit, now)
  {
    taken := [];
    for i := 0 to |list|
      invariant taken == FirstClaimable(list, i, limit, now) && |taken| < limit
    {
      if Claimable(list[i], now) {
        taken := taken + [list[i].id];
        if |taken| == limit {
          ScanStops(list, i + 1, |list|, limit, now);
          break;
        }
      }
    }
  }

  /** The first claimable event of a list. */
  method FirstOf(list: seq<Stored>, now: real) returns (found: Option<Stored>)
    ensures found.None? ==> forall i | 0 <= i < |list| :: !Claimable(list[i], now)
    ensures found.Some? ==> exists i | 0 <= i < |list| ::
      list[i] == found.value && Claimable(list[i], now) && forall k | 0 <= k < i :: !Claimable(list[k], now)
  {
    for i := 0 to |list|
      invariant forall k | 0 <= k < i :: !Claimable(list[k], now)
    {
      if Claimable(list[i], now) {
        return Some(list[i]);
      }
    }
    found := None;
  }

  /** The first claimable event of a conversation's list is its oldest. */
  lemma FirstIsOldest(b: Box, conversation: Id, list: seq<Stored>, now: real, found: Option<Stored>)
    requires Sound(b) && Lists(b, conversation, list)
    requires found.None? ==> forall i | 0 <= i < |list| :: !Claimable(list[i], now)
    requires found.Some? ==> exists i | 0 <= i < |list| ::
      list[i] == found.value && Claimable(list[i], now) && forall k | 0 <= k < i :: !Claimable(list[k], now)
    ensures found.Some? ==> CanClaim(b, conversation, found.value.id, now) && b.events[found.value.id] == found.value
    ensures forall id | id in b.events && CanClaim(b, conversation, id, now) ::
      found.Some? && found.value.sequence <= b.events[id].sequence
  {
    forall id | id in b.events && CanClaim(b, conversation, id, now)
      ensures found.Some? && found.value.sequence <= b.events[id].sequence
    {
      assert b.events[id] in list;
      var k :| 0 <= k < |list| && list[k] == b.events[id];
    }
  }

  method Recompute(list: seq<Stored>, ids: set<Id>, status: EventStatus) returns (changed: seq<Stored>)
    ensures changed == Restatus(list, ids, status)
  {
    changed := [];
    for i := 0 to |list|
      invariant |changed| == i
      invariant forall k | 0 <= k < i :: changed[k] == if list[k].id in ids then list[k].(status := status) else list[k]
    {
      changed := changed + [if list[i].id in ids then list[i].(status := status) else list[i]];
    }
  }

  method Filter(list: seq<Stored>, ids: set<Id>) returns (kept: seq<Stored>)
    ensures kept == Keep(list, ids)
  {
    kept := [];
    for i := 0 to |list|
      invariant kept == Keep(list[..i], ids)
    {
      assert list[..i + 1][..i] == list[..i];
      if list[i].id !in ids {
        kept := kept + [list[i]];
      }
    }
    assert list[..|list|] == list;
  }

  lemma {:induction false} LeastExists(found: map<Id, nat>, ids: set<Id>)
    requires ids != {} && ids <= found.Keys
    ensures exists id :: id in ids && forall other | other in ids :: found[id] <= found[other]
    decreases |ids|
  {
    var x :| x in ids;
    if ids == {x} {
      assert x in ids && forall other | other in ids :: found[x] <= found[other];
    } else {
      var rest := ids - {x};
      assert rest != {};
      LeastExists(found, rest);
      var y :| y in rest && forall other | other in rest :: found[y] <= found[other];
      var z := if found[x] <= found[y] then x else y;
      assert z in ids && forall other | other in ids :: found[z] <= found[other];
    }
  }

  /** `ids` are smaller than all the rest, in order. */
  predicate Chosen(found: map<Id, nat>, ids: seq<Id>, rest: set<Id>) {
    && rest <= found.Keys
    && (forall i | 0 <= i < |ids| :: ids[i] in found && ids[i] !in rest)
    && (forall i, j | 0 <= i < j < |ids| :: found[ids[i]] < found[ids[j]])
    && (forall id | id in found && id !in ids :: id in rest)
    && (forall i, id | 0 <= i < |ids| && id in rest :: found[ids[i]] < found[id])
  }

  lemma ChooseNext(found: map<Id, nat>, ids: seq<Id>, rest: set<Id>, id: Id)
    requires Chosen(found, ids, rest) && id in rest && forall other | other in rest :: found[id] <= found[other]
    requires forall x, y | x in found && y in found && found[x] == found[y] :: x == y
    ensures Chosen(found, ids + [id], rest - {id})
  {
    var more := ids + [id];
    forall x | x in found && x !in more ensures x in rest - {id} {
      assert more[|ids|] == id;
      assert x !in ids;
    }
  }

  /** The identities with the smallest sequences, up to the limit, in order. */
  method TakeOldest(found: map<Id, nat>, limit: nat) returns (ids: seq<Id>)
    requires forall x, y | x in found && y in found && found[x] == found[y] :: x == y
    ensures |ids| <= limit && (forall i | 0 <= i < |ids| :: ids[i] in found)
    ensures forall i, j | 0 <= i < j < |ids| :: found[ids[i]] < found[ids[j]]
    ensures forall id | id in found && id !in ids ::
      |ids| == limit && forall i | 0 <= i < |ids| :: found[ids[i]] < found[id]
  {
    ids := [];
    var rest := found.Keys;
    while |ids| < limit && rest != {}
      invariant |ids| <= limit && Chosen(found, ids, rest)
      decreases rest
    {
      LeastExists(found, rest);
      var id :| id in rest && forall other | other in rest :: found[id] <= found[other];
      ChooseNext(found, ids, rest, id);
      ids := ids + [id];
      rest := rest - {id};
    }
  }

  /** The purgeable events of a list, with their places in append order. */
  method CandidatesOf(list: seq<Stored>, olderThan: Option<real>) returns (found: map<Id, nat>)
    requires forall i, j | 0 <= i < |list| && 0 <= j < |list| && list[i].id == list[j].id :: i == j
    ensures forall id :: id in found <==> exists k :: 0 <= k < |list| && list[k].id == id && Old(list[k], olderThan)
    ensures forall k | 0 <= k < |list| && list[k].id in found :: found[list[k].id] == list[k].sequence
  {
    found := map[];
    for i := 0 to |list|
      invariant forall id :: id in found <==> exists k :: 0 <= k < i && list[k].id == id && Old(list[k], olderThan)
      invariant forall k | 0 <= k < i && list[k].id in found :: found[list[k].id] == list[k].sequence
    {
      if Old(list[i], olderThan) {
        found := found[list[i].id := list[i].sequence];
      }
    }
  }

  lemma CandidatesInList(b: Box, conversation: Id, list: seq<Stored>, olderThan: Option<real>, found: map<Id, nat>)
    requires Sound(b) && Lists(b, conversation, list)
    requires forall id :: id in found <==> exists k :: 0 <= k < |list| && list[k].id == id && Old(list[k], olderThan)
    requires forall k | 0 <= k < |list| && list[k].id in found :: found[list[k].id] == list[k].sequence
    ensures forall id :: id in found <==> Purgeable(b, Some(conversation), olderThan, id)
    ensures forall id | id in found :: id in b.events && found[id] == b.events[id].sequence
  {
    PurgeableInList(b, conversation, list, olderThan);
  }

  /** The candidates found so far; only conversations in `rest` can hold more. */
  predicate Collected(b: Box, scope: Option<Id>, olderThan: Option<real>, found: map<Id, nat>, rest: set<Id>) {
    && (forall id | id in found :: Purgeable(b, scope, olderThan, id) && found[id] == b.events[id].sequence)
    && (forall id | id in b.events && Purgeable(b, scope, olderThan, id) ::
        id in found || b.events[id].conversation in rest)
    && (scope.None? || rest <= {scope.value})
  }

  lemma CollectMore(b: Box, scope: Option<Id>, olderThan: Option<real>, found: map<Id, nat>, rest: set<Id>,
                    conversation: Id, more: map<Id, nat>)
    requires Collected(b, scope, olderThan, found, rest) && conversation in rest
    requires forall id :: id in more <==> Purgeable(b, Some(conversation), olderThan, id)
    requires forall id | id in more :: id in b.events && more[id] == b.events[id].sequence
    ensures Collected(b, scope, olderThan, found + more, rest - {conversation})
  {
  }

  // ---- What a list says of its conversation ----------------------------------

  predicate HeldBy(e: Stored, consumer: string, now: real) {
    e.status.Leased? && e.status.consumer == consumer && e.status.until > now
  }

  lemma NoneLeased(b: Box, consumer: string, until: real)
    ensures Lease(b, [], consumer, until) == b
  {
  }

  lemma ReachedInList(b: Box, conversation: Id, list: seq<Stored>, wanted: set<Id>)
    requires Sound(b) && Lists(b, conversation, list)
    ensures Reached(b, conversation, wanted)
      == set k | 0 <= k < |list| && list[k].id in wanted && !list[k].status.Acknowledged? :: list[k].id
  {
    forall id | id in Reached(b, conversation, wanted)
      ensures exists k :: 0 <= k < |list| && list[k].id == id && id in wanted && !list[k].status.Acknowledged?
    {
      assert SoundEvent(b, id) && b.events[id] in list;
      var k :| 0 <= k < |list| && list[k] == b.events[id];
    }
  }

  lemma FoundInList(b: Box, conversation: Id, list: seq<Stored>, wanted: set<Id>)
    requires Sound(b) && Lists(b, conversation, list)
    ensures Found(b, conversation, wanted) <==> wanted == set k | 0 <= k < |list| && list[k].id in wanted :: list[k].id
  {
    var found := set k | 0 <= k < |list| && list[k].id in wanted :: list[k].id;
    if Found(b, conversation, wanted) {
      forall id | id in wanted ensures id in found {
        assert SoundEvent(b, id) && b.events[id] in list;
        var k :| 0 <= k < |list| && list[k] == b.events[id];
        assert list[k].id == id;
      }
    }
  }

  lemma NothingSet(b: Box, status: EventStatus)
    ensures SetStatus(b, {}, status) == b
  {
  }

  predicate Old(e: Stored, olderThan: Option<real>) {
    e.status.Acknowledged? && (olderThan.None? || (e.status.at != 0.0 && e.status.at <= olderThan.value))
  }

  lemma PurgeableInList(b: Box, conversation: Id, list: seq<Stored>, olderThan: Option<real>)
    requires Sound(b) && Lists(b, conversation, list)
    ensures forall id ::
      Purgeable(b, Some(conversation), olderThan, id) <==>
        (exists k :: 0 <= k < |list| && list[k].id == id && Old(list[k], olderThan))
  {
    forall id | Purgeable(b, Some(conversation), olderThan, id)
      ensures exists k :: 0 <= k < |list| && list[k].id == id && Old(list[k], olderThan)
    {
      assert SoundEvent(b, id) && b.events[id] in list;
      var k :| 0 <= k < |list| && list[k] == b.events[id];
      assert list[k].id == id && Old(list[k], olderThan);
    }
  }

  lemma SequencesDistinct(b: Box, found: map<Id, nat>)
    requires Sound(b) && forall id | id in found :: id in b.events && found[id] == b.events[id].sequence
    ensures forall x, y | x in found && y in found && found[x] == found[y] :: x == y
  {
  }

  lemma OldestPurges(b: Box, scope: Option<Id>, olderThan: Option<real>, found: map<Id, nat>, limit: nat, ids: seq<Id>)
    requires forall id :: id in found <==> Purgeable(b, scope, olderThan, id)
    requires forall id | id in found :: id in b.events && found[id] == b.events[id].sequence
    requires |ids| <= limit && (forall i | 0 <= i < |ids| :: ids[i] in found)
    requires forall i, j | 0 <= i < j < |ids| :: found[ids[i]] < found[ids[j]]
    requires forall id | id in found && id !in ids ::
      |ids| == limit && forall i | 0 <= i < |ids| :: found[ids[i]] < found[id]
    ensures Purges(b, scope, olderThan, limit, ids)
  {
  }
}
