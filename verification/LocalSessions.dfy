/** The SQLite binding of the session store: every method is one transaction, and a transaction
    that raises leaves the tables as it found them. */
module LocalSessionsModel {
  import opened Mail
  import opened SessionStore
  import opened SessionHistory

  class LocalSessions {
    var sessions: map<Id, Session>
    var definitions: map<string, Json>
    var nextRow: nat
    var nextToken: nat

    function Tables(): Store
      reads this
    {
      Store(sessions, definitions, nextRow, nextToken)
    }

    /** Row identities are distinct and below the next one. */
    ghost predicate Valid()
      reads this
    {
      RowsOk(Tables())
    }

    constructor ()
      ensures Valid() && Tables() == Store(map[], map[], 0, 0)
    {
      sessions, definitions, nextRow, nextToken := map[], map[], 0, 0;
    }

    method BindDefinition(executable: string, contract: Json) returns (error: Option<Error>)
      requires Valid()
      modifies this
      ensures Valid()
      ensures match BindIn(old(Tables()), executable, contract)
              case Ok(db) => error == None && Tables() == db
              case Err(e) => error == Some(e) && Tables() == old(Tables())
    {
      if executable in definitions && definitions[executable] != contract {
        return Some(ValueError);
      }
      if executable !in definitions {
        definitions := definitions[executable := contract];
      }
      assert definitions == old(definitions)[executable := contract];
      return None;
    }

    method Insert(id: Id, executable: string, state: Json) returns (error: Option<Error>)
      modifies this
      ensures match CreateIn(old(Tables()), id, executable, state)
              case Ok(db) => error == None && Tables() == db
              case Err(e) => error == Some(e) && Tables() == old(Tables())
    {
      if id == "" || executable == "" {
        return Some(ValueError);
      }
      if id in sessions {
        return Some(AlreadyExists);
      }
      sessions := sessions[id := NewSession(nextRow, executable, state)];
      nextRow := nextRow + 1;
      return None;
    }

    method Create(id: Id, executable: string, state: Json) returns (error: Option<Error>)
      requires Valid()
      modifies this
      ensures Valid()
      ensures match CreateIn(old(Tables()), id, executable, state)
              case Ok(db) => error == None && Tables() == db
              case Err(e) => error == Some(e) && Tables() == old(Tables())
    {
      ghost var db := Tables();
      error := Insert(id, executable, state);
      if error.None? {
        CreateRows(db, id, executable, state);
      }
    }

    method Deliver(id: Id, event: Event, timer: bool) returns (r: Result<bool>)
      modifies this
      ensures match AppendTo(old(Tables()), id, event, timer)
              case Ok(next) => r == Ok(next.1) && Tables() == next.0
              case Err(e) => r == Err(e) && Tables() == old(Tables())
    {
      if event.id == External("") || (event.id.Timer? && !timer) {
        return Err(ValueError);
      }
      if id !in sessions {
        return Err(KeyError);
      }
      var s := sessions[id];
      if Known(s.inbox, event.id) {
        return Ok(false);
      }
      if s.status == Complete {
        return Err(ValueError);
      }
      sessions := sessions[id := s.(inbox := s.inbox + [Input(event, false)])];
      return Ok(true);
    }

    method Append(id: Id, event: Event) returns (r: Result<bool>)
      requires Valid()
      modifies this
      ensures Valid()
      ensures match AppendTo(old(Tables()), id, event, false)
              case Ok(next) => r == Ok(next.1) && Tables() == next.0
              case Err(e) => r == Err(e) && Tables() == old(Tables())
    {
      ghost var db := Tables();
      r := Deliver(id, event, false);
      SameRows(db, Tables());
    }

    method LargestClaim() returns (m: nat)
      ensures m == MaxClaim(sessions)
    {
      m := 0;
      var left := sessions.Keys;
      while left != {}
        invariant left <= sessions.Keys
        invariant forall k | k in sessions && k !in left :: sessions[k].lastClaim <= m
        invariant m == 0 || exists k :: k in sessions && sessions[k].lastClaim == m
        decreases left
      {
        var k :| k in left;
        if m < sessions[k].lastClaim {
          m := sessions[k].lastClaim;
        }
        left := left - {k};
      }
      assert IsMaxClaim(sessions, m);
      ghost var n := MaxClaim(sessions);
      assert m == n by { SameMax(sessions, m, n); }
    }

    /** The claim query: the least recently claimed ready row that passes the filters, the oldest first. */
    method SelectFirst(q: Query) returns (found: Option<Id>)
      requires Valid()
      ensures found.None? ==> forall k :: !Matches(Tables(), q, k)
      ensures found.Some? ==> IsFirst(Tables(), q, found.value)
    {
      found := None;
      var rest := sessions.Keys;
      while rest != {}
        invariant rest <= sessions.Keys
        invariant found.None? ==> forall k | k in sessions && k !in rest :: !Matches(Tables(), q, k)
        invariant found.Some? ==>
          && Matches(Tables(), q, found.value)
          && forall k | k in sessions && k !in rest && k != found.value ::
            !Matches(Tables(), q, k) || Before(sessions[found.value], sessions[k])
        decreases rest
      {
        var k :| k in rest;
        if Matches(Tables(), q, k) && (found.None? || Before(sessions[k], sessions[found.value])) {
          found := Some(k);
        }
        rest := rest - {k};
      }
    }

    /** Take the lease on a selected row and read its batch of mail. */
    method Lease(id: Id, q: Query) returns (act: Activation)
      requires ValidQuery(q) && id in sessions && !Terminal(sessions[id])
      modifies this
      ensures (Tables(), act) == LeaseFirst(old(Tables()), q, id)
    {
      ghost var start := sessions;
      var s := sessions[id];
      if Due(s, q.now) {
        var _ := Deliver(id, TimerEvent(id, s), true);
      }
      var t := WithTimer(id, s, q.now);
      assert sessions == start[id := t];
      var claim := LargestClaim();
      SameClaims(start, sessions);
      var leased := Leased(t, q, nextToken, claim + 1);
      assert sessions[id := leased] == start[id := leased];
      sessions := sessions[id := leased];
      nextToken := nextToken + 1;
      act := Activate(id, t, q, nextToken - 1);
    }

    /** Lease ready work; sessions that used up their attempts are parked on the way. */
    method Claim(q: Query) returns (r: Result<Option<Activation>>)
      requires Valid()
      modifies this
      ensures Valid()
      ensures !ValidQuery(q) ==> r == Err(ValueError) && Tables() == old(Tables())
      ensures ValidQuery(q) ==>
        var (db, act) := ClaimFrom(old(Tables()), q);
        r == Ok(act) && Tables() == db
    {
      if !ValidQuery(q) {
        return Err(ValueError);
      }
      while true
        invariant Valid() && ClaimFrom(old(Tables()), q) == ClaimFrom(Tables(), q)
        decreases ReadyIds(Tables(), q)
      {
        var found := SelectFirst(q);
        if found.None? {
          NothingToClaim(Tables(), q);
          return Ok(None);
        }
        var id := found.value;
        ClaimUnfolds(Tables(), q, id);
        LeaseRows(Tables(), q, id);
        if !Exhausted(sessions[id], q) {
          var act := Lease(id, q);
          return Ok(Some(act));
        }
        sessions := sessions[id := Park(sessions[id])];
      }
    }

    method Release(act: Activation, now: real, message: Option<string>, retryAfter: Option<real>)
      returns (error: Option<Error>)
      requires Valid()
      modifies this
      ensures Valid()
      ensures match ReleaseFrom(old(Tables()), act, now, message, retryAfter)
              case Ok(db) => error == None && Tables() == db
              case Err(e) => error == Some(e) && Tables() == old(Tables())
    {
      if retryAfter.Some? && retryAfter.value < 0.0 {
        return Some(ValueError);
      }
      if !Holds(Tables(), act, now) {
        return Some(StaleActivation);
      }
      sessions := sessions[act.session := Released(sessions[act.session], now, message, retryAfter)];
      return None;
    }

    method Retry(id: Id) returns (r: Result<bool>)
      requires Valid()
      modifies this
      ensures Valid()
      ensures match RetryIn(old(Tables()), id)
              case Ok(next) => r == Ok(next.1) && Tables() == next.0
              case Err(e) => r == Err(e) && Tables() == old(Tables())
    {
      if id !in sessions {
        return Err(KeyError);
      }
      if sessions[id].status != Failed {
        return Ok(false);
      }
      sessions := sessions[id := Retried(sessions[id])];
      return Ok(true);
    }

    method Rollback(db: Store)
      modifies this
      ensures Tables() == db
    {
      sessions, definitions, nextRow, nextToken := db.sessions, db.definitions, db.nextRow, db.nextToken;
    }

    /** The spawn loop of a checkpoint. */
    method SpawnChildren(spawn: seq<Spawn>) returns (error: Option<Error>)
      modifies this
      ensures match SpawnAll(old(Tables()), spawn)
              case Ok(db) => error == None && Tables() == db
              case Err(e) => error == Some(e)
    {
      var i := 0;
      while i < |spawn|
        invariant 0 <= i <= |spawn|
        invariant SpawnAll(old(Tables()), spawn) == SpawnAll(Tables(), spawn[i..])
      {
        var child := spawn[i];
        assert spawn[i..][0] == child && spawn[i..][1..] == spawn[i + 1..];
        if child.executable !in definitions {
          return Some(ValueError);
        }
        error := Insert(child.session, child.executable, child.state);
        if error.Some? {
          return;
        }
        i := i + 1;
      }
      return None;
    }

    /** The incorporation loop of a checkpoint: one update per named input. */
    method MarkIncorporated(id: Id, ids: seq<EventId>)
      requires id in sessions
      modifies this
      ensures Tables() == Incorporate(old(Tables()), id, ids)
    {
      ghost var inbox := sessions[id].inbox;
      assert Mark(inbox, ids[..0]) == inbox;
      var i := 0;
      while i < |ids|
        invariant 0 <= i <= |ids|
        invariant id in sessions
        invariant Tables() == Incorporate(old(Tables()), id, ids[..i])
      {
        var s := sessions[id];
        sessions := sessions[id := s.(inbox := Mark(s.inbox, [ids[i]]))];
        assert ids[..i + 1] == ids[..i] + [ids[i]];
        assert sessions[id].inbox == Mark(inbox, ids[..i + 1]);
        i := i + 1;
      }
      assert ids[..i] == ids;
    }

    /** The publication loop of a checkpoint. */
    method PublishMail(publish: seq<Publication>) returns (error: Option<Error>)
      modifies this
      ensures match PublishAll(old(Tables()), publish)
              case Ok(db) => error == None && Tables() == db
              case Err(e) => error == Some(e)
    {
      var i := 0;
      while i < |publish|
        invariant 0 <= i <= |publish|
        invariant PublishAll(old(Tables()), publish) == PublishAll(Tables(), publish[i..])
      {
        assert publish[i..][0] == publish[i] && publish[i..][1..] == publish[i + 1..];
        var r := Deliver(publish[i].session, publish[i].event, false);
        if r.Err? {
          return Some(r.error);
        }
        i := i + 1;
      }
      return None;
    }

    /** Checkpoint inputs, children, mail and the next wait: all of it, or none of it. */
    method Commit(act: Activation, p: Proposal, now: real) returns (error: Option<Error>)
      requires Valid()
      modifies this
      ensures Valid()
      ensures match CommitTo(old(Tables()), act, p, now)
              case Ok(db) => error == None && Tables() == db
              case Err(e) => error == Some(e) && Tables() == old(Tables())
    {
      if Malformed(act, p) {
        return Some(ValueError);
      }
      ghost var start := Tables();
      if CommitTo(start, act, p, now).Ok? {
        CommitRows(start, act, p, now);
      }
      var sessions0, definitions0, nextRow0, nextToken0 := sessions, definitions, nextRow, nextToken;
      if !Holds(Tables(), act, now) {
        return Some(StaleActivation);
      }
      if p.rebind.Some? && p.rebind.value !in definitions {
        return Some(ValueError);
      }
      error := SpawnChildren(p.spawn);
      if error.Some? {
        Rollback(Store(sessions0, definitions0, nextRow0, nextToken0));
        return;
      }
      MarkIncorporated(act.session, p.incorporated);
      error := PublishMail(p.publish);
      if error.Some? {
        Rollback(Store(sessions0, definitions0, nextRow0, nextToken0));
        return;
      }
      var s := sessions[act.session];
      if p.complete && Pending(s.inbox) != [] {
        Rollback(Store(sessions0, definitions0, nextRow0, nextToken0));
        return Some(ValueError);
      }
      sessions := sessions[act.session := Checkpointed(s, p, now)];
      return None;
    }

    /** Remove the oldest completed sessions, at most `limit` of them. */
    method Purge(before: real, limit: Option<int>) returns (r: Result<nat>, ghost gone: set<Id>)
      requires Valid()
      modifies this
      ensures Valid()
      ensures limit.Some? && limit.value <= 0 ==> r == Err(ValueError) && Tables() == old(Tables())
      ensures limit.None? || limit.value > 0 ==>
        r == Ok(|gone|) && Tables() == PurgeFrom(old(Tables()), gone)
        && PurgesOldest(old(sessions), sessions, before, limit, gone)
    {
      if limit.Some? && limit.value <= 0 {
        return Err(ValueError), {};
      }
      ghost var db := Tables();
      var count;
      count, gone := RemoveOldest(before, limit);
      SameRows(db, Tables());
      hide PurgesOldest;
      r := Ok(count);
    }

    method RemoveOldest(before: real, limit: Option<int>) returns (count: nat, ghost gone: set<Id>)
      requires limit.None? || limit.value > 0
      modifies this`sessions
      ensures count == |gone| && Tables() == PurgeFrom(old(Tables()), gone)
      ensures PurgesOldest(old(sessions), sessions, before, limit, gone)
    {
      gone := {};
      count := 0;
      while limit.None? || count < limit.value
        invariant count == |gone| && (limit.Some? ==> count <= limit.value)
        invariant sessions == old(sessions) - gone && PurgedFirst(old(sessions), sessions, before, gone)
        decreases sessions.Keys
      {
        var candidates := set k | k in sessions && Purgeable(sessions[k], before);
        if candidates == {} {
          break;
        }
        OldestExists(sessions, candidates);
        var id :| id in candidates && forall k | k in candidates :: !CompletedFirst(sessions[k], sessions[id]);
        ghost var keys := sessions.Keys;
        PurgesNext(old(sessions), sessions, before, gone, id);
        sessions := sessions - {id};
        assert sessions.Keys == keys - {id} && id in keys;
        gone := gone + {id};
        count := count + 1;
      }
      PurgedAll(old(sessions), sessions, before, limit, gone);
    }
  }

  /** Every row taken so far is purgeable and completed no later than any purgeable one left. */
  predicate PurgedFirst(was: map<Id, Session>, now: map<Id, Session>, before: real, gone: set<Id>) {
    && (forall id | id in gone :: id in was && Purgeable(was[id], before))
    && (forall a, b | a in gone && b in now && Purgeable(now[b], before) :: !CompletedFirst(now[b], was[a]))
  }

  lemma PurgesNext(was: map<Id, Session>, now: map<Id, Session>, before: real, gone: set<Id>, id: Id)
    requires now == was - gone && PurgedFirst(was, now, before, gone)
    requires id in now && Purgeable(now[id], before)
    requires forall k | k in now && Purgeable(now[k], before) :: !CompletedFirst(now[k], now[id])
    ensures now - {id} == was - (gone + {id}) && PurgedFirst(was, now - {id}, before, gone + {id})
  {
  }

  lemma PurgedAll(was: map<Id, Session>, now: map<Id, Session>, before: real, limit: Option<int>, gone: set<Id>)
    requires PurgedFirst(was, now, before, gone) && (limit.Some? ==> |gone| <= limit.value)
    requires (forall id | id in now :: !Purgeable(now[id], before)) || (limit.Some? && |gone| == limit.value)
    ensures PurgesOldest(was, now, before, limit, gone)
  {
  }

  /** What a purge takes: purgeable rows, no more than the limit, all of them unless the limit is reached, and none that
      completed after one it leaves. */
  predicate PurgesOldest(was: map<Id, Session>, now: map<Id, Session>, before: real, limit: Option<int>, gone: set<Id>)
  {
    && (forall id | id in gone :: id in was && Purgeable(was[id], before))
    && (limit.Some? ==> |gone| <= limit.value)
    && ((forall id | id in now :: !Purgeable(now[id], before)) || (limit.Some? && |gone| == limit.value))
    && (forall a, b | a in gone && b in now && Purgeable(now[b], before) :: a in was && !CompletedFirst(now[b], was[a]))
  }

  lemma SameMax(sessions: map<Id, Session>, m: nat, n: nat)
    requires IsMaxClaim(sessions, m) && IsMaxClaim(sessions, n)
    ensures m == n
  {
  }

  /** A timer input changes no claim counter. */
  lemma SameClaims(a: map<Id, Session>, b: map<Id, Session>)
    requires a.Keys == b.Keys && forall k | k in a :: a[k].lastClaim == b[k].lastClaim
    ensures MaxClaim(a) == MaxClaim(b)
  {
    var m, n := MaxClaim(a), MaxClaim(b);
    assert n != 0 ==> exists k :: k in a && a[k].lastClaim == n;
    assert m != 0 ==> exists k :: k in b && b[k].lastClaim == m;
  }

  predicate CompletedFirst(a: Session, b: Session)
  {
    a.completedAt.Some? && b.completedAt.Some? &&
    (a.completedAt.value < b.completedAt.value
     || (a.completedAt.value == b.completedAt.value && a.rowid < b.rowid))
  }

  lemma {:induction false} OldestExists(sessions: map<Id, Session>, ids: set<Id>)
    requires ids != {} && ids <= sessions.Keys
    ensures exists id :: id in ids && forall k | k in ids :: !CompletedFirst(sessions[k], sessions[id])
    decreases ids
  {
    var a :| a in ids;
    var rest := ids - {a};
    if rest == {} {
      assert ids == {a};
    } else {
      OldestExists(sessions, rest);
      var b :| b in rest && forall k | k in rest :: !CompletedFirst(sessions[k], sessions[b]);
      if CompletedFirst(sessions[a], sessions[b]) {
        assert forall k | k in ids :: !CompletedFirst(sessions[k], sessions[a]);
      } else {
        assert forall k | k in ids :: !CompletedFirst(sessions[k], sessions[b]);
      }
    }
  }
}
