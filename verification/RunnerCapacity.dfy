/** What one runner tick starts: reserved, parallel and pool limits over the shard's members, in manifest order. */
module RunnerCapacity {
  import opened Mail

  /** A member's policy; the manifest raises `parallel` to at least `reserved` and 1. */
  datatype Member = Member(alias: Id, definition: string, eager: bool, reserved: nat, parallel: nat)

  /** What the tick sees of a member: idle workers, ready sessions, and whether its backoff lets it start. */
  datatype Demand = Demand(idle: nat, ready: nat, open: bool)

  datatype Choice = No | Want | Draw(beyond: bool)

  predicate ValidMember(m: Member) { m.reserved <= m.parallel && m.parallel >= 1 }

  function Max(a: int, b: int): int { if a < b then b else a }

  function Wanted(m: Member): nat { if m.eager then Max(m.reserved, 1) else 0 }

  /** Workers beyond the reserved ones, which draw from the pool. */
  function Beyond(m: Member, count: nat): nat { Max(0, count - m.reserved) }

  function Choose(m: Member, count: nat, d: Demand, used: nat, pool: nat): Choice {
    if count < Wanted(m) then Want
    else if d.ready == 0 || d.ready <= d.idle || count >= m.parallel then No
    else if count >= m.reserved && used >= pool then No
    else Draw(count >= m.reserved)
  }

  /** The tick's running totals after some members: worker counts, pool slots it thinks are used, members started. */
  datatype Totals = Totals(counts: seq<nat>, used: nat, started: seq<nat>)

  predicate Shaped(members: seq<Member>, counts: seq<nat>, demands: seq<Demand>) {
    |counts| == |demands| == |members| && forall m | m in members :: ValidMember(m)
  }

  function Visit(members: seq<Member>, demands: seq<Demand>, pool: nat, t: Totals, i: nat): Totals
    requires i < |members| == |demands| == |t.counts|
  {
    var choice := Choose(members[i], t.counts[i], demands[i], t.used, pool);
    if choice == No || !demands[i].open then t
    else Totals(t.counts[i := t.counts[i] + 1], t.used + (if choice == Draw(true) then 1 else 0), t.started + [i])
  }

  function Ticked(members: seq<Member>, counts: seq<nat>, demands: seq<Demand>, pool: nat, n: nat): (t: Totals)
    requires |counts| == |demands| == |members| && n <= |members|
    ensures |t.counts| == |counts|
  {
    if n == 0 then Totals(counts, Shared(members, counts, |members|), [])
    else Visit(members, demands, pool, Ticked(members, counts, demands, pool, n - 1), n - 1)
  }

  /** Pool slots really in use by the first `n` members. */
  function Shared(members: seq<Member>, counts: seq<nat>, n: nat): nat
    requires n <= |members| == |counts|
  {
    if n == 0 then 0 else Shared(members, counts, n - 1) + Beyond(members[n - 1], counts[n - 1])
  }

  /** What the first `n` members could draw from the pool at most, leaving one out. */
  function Room(members: seq<Member>, n: nat, without: nat): nat
    requires n <= |members| && forall m | m in members :: ValidMember(m)
  {
    if n == 0 then 0
    else
      assert members[n - 1] in members;
      Room(members, n - 1, without) + if n - 1 == without then 0 else members[n - 1].parallel - members[n - 1].reserved
  }

  predicate Within(members: seq<Member>, counts: seq<nat>, pool: nat)
    requires |members| == |counts|
  {
    Shared(members, counts, |members|) <= pool && forall i | 0 <= i < |members| :: counts[i] <= members[i].parallel
  }

  // ---- Each member -----------------------------------------------------------

  /** The tick starts at most one worker for each member, lists exactly the members it started one for, in order, and
      touches no other count. */
  lemma {:induction false} OneStartEach(members: seq<Member>, counts: seq<nat>, demands: seq<Demand>, pool: nat, n: nat)
    requires |counts| == |demands| == |members| && n <= |members|
    ensures var t := Ticked(members, counts, demands, pool, n);
      && (forall i | 0 <= i < |counts| :: t.counts[i] == counts[i] + if i in t.started then 1 else 0)
      && (forall i | 0 <= i < |t.started| :: t.started[i] < n)
      && (forall i, j | 0 <= i < j < |t.started| :: t.started[i] < t.started[j])
    decreases n
  {
    if n == 0 {
    } else {
      OneStartEach(members, counts, demands, pool, n - 1);
    }
  }

  /** A later member's visit changes nothing for this one. */
  lemma {:induction false} Settled(members: seq<Member>, counts: seq<nat>, demands: seq<Demand>, pool: nat, i: nat,
                                   n: nat)
    requires |counts| == |demands| == |members| && i < n <= |members|
    ensures var before, t := Ticked(members, counts, demands, pool, i), Ticked(members, counts, demands, pool, n);
      i in t.started <==> Choose(members[i], counts[i], demands[i], before.used, pool) != No && demands[i].open
    decreases n
  {
    OneStartEach(members, counts, demands, pool, n - 1);
    if n - 1 == i {
      OneStartEach(members, counts, demands, pool, i);
    } else {
      Settled(members, counts, demands, pool, i, n - 1);
    }
  }

  /** Below its reserved count a member is never refused for lack of pool: it starts exactly when its backoff allows
      and it is eager or has more ready sessions than idle workers. */
  lemma ReservedNeverRefused(members: seq<Member>, counts: seq<nat>, demands: seq<Demand>, pool: nat, i: nat)
    requires Shaped(members, counts, demands) && i < |members| && counts[i] < members[i].reserved
    ensures i in Ticked(members, counts, demands, pool, |members|).started
      <==> demands[i].open && (members[i].eager || demands[i].ready > demands[i].idle)
  {
    Settled(members, counts, demands, pool, i, |members|);
    assert members[i] in members;
  }

  /** The workers above their members' reserved counts. */
  function AboveReserved(members: seq<Member>, counts: seq<nat>): nat
    requires |members| == |counts|
  {
    if members == [] then 0
    else
      var n := |members| - 1;
      AboveReserved(members[..n], counts[..n])
      + if counts[n] > members[n].reserved then counts[n] - members[n].reserved else 0
  }

  /** Of the first `n` members, those that started a worker out of the pool. */
  function Drew(members: seq<Member>, counts: seq<nat>, started: seq<nat>, n: nat): nat
    requires n <= |members| == |counts|
  {
    if n == 0 then 0
    else
      var m, count := members[n - 1], counts[n - 1];
      Drew(members, counts, started, n - 1)
      + if n - 1 in started && count >= m.reserved && !(m.eager && count == 0) then 1 else 0
  }

  lemma {:induction false} SharedIsAbove(members: seq<Member>, counts: seq<nat>, n: nat)
    requires n <= |members| == |counts|
    ensures Shared(members, counts, n) == AboveReserved(members[..n], counts[..n])
    decreases n
  {
    if n == 0 {
    } else {
      SharedIsAbove(members, counts, n - 1);
      assert members[..n][..n - 1] == members[..n - 1] && counts[..n][..n - 1] == counts[..n - 1];
    }
  }

  /** The slots a member finds taken: those in use, and those drawn by the members before it. */
  lemma {:induction false} SlotsTaken(members: seq<Member>, counts: seq<nat>, demands: seq<Demand>, pool: nat, n: nat)
    requires |counts| == |demands| == |members| && n <= |members|
    ensures var started := Ticked(members, counts, demands, pool, |members|).started;
      Ticked(members, counts, demands, pool, n).used
        == AboveReserved(members, counts) + Drew(members, counts, started, n)
    decreases n
  {
    hide Ticked, Shared, AboveReserved, Choose;
    if n == 0 {
      NoneVisited(members, counts, demands, pool);
    } else {
      SlotsTaken(members, counts, demands, pool, n - 1);
      VisitUses(members, counts, demands, pool, n);
      Settled(members, counts, demands, pool, n - 1, |members|);
    }
  }

  lemma NoneVisited(members: seq<Member>, counts: seq<nat>, demands: seq<Demand>, pool: nat)
    requires |counts| == |demands| == |members|
    ensures Ticked(members, counts, demands, pool, 0).used == AboveReserved(members, counts)
  {
    SharedIsAbove(members, counts, |members|);
    assert members[..|members|] == members && counts[..|members|] == counts;
  }

  lemma VisitUses(members: seq<Member>, counts: seq<nat>, demands: seq<Demand>, pool: nat, n: nat)
    requires |counts| == |demands| == |members| && 0 < n <= |members|
    ensures var before, m, count := Ticked(members, counts, demands, pool, n - 1), members[n - 1], counts[n - 1];
      Ticked(members, counts, demands, pool, n).used == before.used
        + if Choose(m, count, demands[n - 1], before.used, pool) != No && demands[n - 1].open
             && count >= m.reserved && !(m.eager && count == 0) then 1 else 0
  {
    OneStartEach(members, counts, demands, pool, n - 1);
    assert n - 1 !in Ticked(members, counts, demands, pool, n - 1).started;
  }

  /** Who is started: an eager member below what it always keeps, and one with more ready sessions than idle workers,
      below its parallel limit, that is below its reserved count or finds a pool slot left at its turn; each when its
      backoff allows, and nobody else. */
  lemma StartsExactly(members: seq<Member>, counts: seq<nat>, demands: seq<Demand>, pool: nat, i: nat)
    requires |counts| == |demands| == |members| && i < |members|
    ensures var m, count, d := members[i], counts[i], demands[i];
      var started := Ticked(members, counts, demands, pool, |members|).started;
      i in started <==>
        && d.open
        && ((m.eager && (count < m.reserved || count == 0))
            || (d.ready > d.idle && count < m.parallel
                && (count < m.reserved
                    || AboveReserved(members, counts) + Drew(members, counts, started, i) < pool)))
  {
    Settled(members, counts, demands, pool, i, |members|);
    SlotsTaken(members, counts, demands, pool, i);
  }

  /** No member ends above its parallel limit. */
  lemma ParallelKept(members: seq<Member>, counts: seq<nat>, demands: seq<Demand>, pool: nat, i: nat)
    requires Shaped(members, counts, demands) && i < |members| && counts[i] <= members[i].parallel
    ensures Ticked(members, counts, demands, pool, |members|).counts[i] <= members[i].parallel
  {
    Settled(members, counts, demands, pool, i, |members|);
    OneStartEach(members, counts, demands, pool, |members|);
    assert members[i] in members;
  }

  // ---- The pool --------------------------------------------------------------

  /** Eager members with nothing reserved start their first worker past the pool check and are not counted in. */
  predicate Uncounted(m: Member, count: nat, d: Demand) { m.eager && m.reserved == 0 && count == 0 && d.open }

  function Missed(members: seq<Member>, counts: seq<nat>, demands: seq<Demand>, n: nat): nat
    requires |counts| == |demands| == |members| && n <= |members|
  {
    if n == 0 then 0
    else
      Missed(members, counts, demands, n - 1) +
      if Uncounted(members[n - 1], counts[n - 1], demands[n - 1]) then 1 else 0
  }

  lemma {:induction false} SharedFrame(members: seq<Member>, one: seq<nat>, two: seq<nat>, n: nat)
    requires |members| == |one| == |two| && n <= |members| && forall i | 0 <= i < n :: one[i] == two[i]
    ensures Shared(members, one, n) == Shared(members, two, n)
    decreases n
  {
    if n == 0 {
    } else {
      SharedFrame(members, one, two, n - 1);
    }
  }

  /** The slots in use after visiting `n` members are those the tick counted and those it missed. */
  lemma {:induction false} Tally(members: seq<Member>, counts: seq<nat>, demands: seq<Demand>, pool: nat, n: nat)
    requires Shaped(members, counts, demands) && n <= |members|
    ensures var t := Ticked(members, counts, demands, pool, n);
      && Shared(members, t.counts, n) + Shared(members, counts, |members|)
         == Shared(members, counts, n) + t.used + Missed(members, counts, demands, n)
      && t.used <= Max(pool, Shared(members, counts, |members|))
    decreases n
  {
    if n == 0 {
      TallyNone(members, counts, demands, pool);
    } else {
      hide Shared, Missed, Visit, Beyond, Ticked;
      Tally(members, counts, demands, pool, n - 1);
      NotYet(members, counts, demands, pool, n - 1);
      assert members[n - 1] in members;
      TallyOne(members, counts, demands, pool, Ticked(members, counts, demands, pool, n - 1), n - 1);
    }
  }

  lemma TallyNone(members: seq<Member>, counts: seq<nat>, demands: seq<Demand>, pool: nat)
    requires |counts| == |demands| == |members|
    ensures Ticked(members, counts, demands, pool, 0) == Totals(counts, Shared(members, counts, |members|), [])
    ensures Missed(members, counts, demands, 0) == 0
  {
  }

  /** Before its visit a member's count is as it was. */
  lemma NotYet(members: seq<Member>, counts: seq<nat>, demands: seq<Demand>, pool: nat, i: nat)
    requires |counts| == |demands| == |members| && i < |members|
    ensures Ticked(members, counts, demands, pool, i).counts[i] == counts[i]
    ensures Ticked(members, counts, demands, pool, i + 1)
      == Visit(members, demands, pool, Ticked(members, counts, demands, pool, i), i)
  {
    OneStartEach(members, counts, demands, pool, i);
  }

  /** One visit adds to the slots in use what it counts and what it misses. */
  lemma TallyOne(members: seq<Member>, counts: seq<nat>, demands: seq<Demand>, pool: nat, t: Totals, i: nat)
    requires i < |members| == |demands| == |t.counts| == |counts| && t.counts[i] == counts[i] && ValidMember(members[i])
    ensures var u := Visit(members, demands, pool, t, i);
      && Shared(members, u.counts, i + 1) + t.used
         == Shared(members, t.counts, i) + Beyond(members[i], counts[i]) + u.used
            + (if Uncounted(members[i], counts[i], demands[i]) then 1 else 0)
      && u.used <= Max(t.used, pool)
      && Shared(members, counts, i + 1) == Shared(members, counts, i) + Beyond(members[i], counts[i])
      && Missed(members, counts, demands, i + 1)
         == Missed(members, counts, demands, i) + (if Uncounted(members[i], counts[i], demands[i]) then 1 else 0)
  {
    SharedFrame(members, t.counts, Visit(members, demands, pool, t, i).counts, i);
  }

  /** Slots in use are bounded by what the other members could draw and this one's own. */
  lemma {:induction false} SharedBound(members: seq<Member>, counts: seq<nat>, n: nat, a: nat)
    requires n <= |members| == |counts| && (forall m | m in members :: ValidMember(m))
    requires forall i | 0 <= i < |members| :: counts[i] <= members[i].parallel
    ensures Shared(members, counts, n) <= Room(members, n, a) + if a < n then Beyond(members[a], counts[a]) else 0
    decreases n
  {
    if n == 0 {
    } else {
      SharedBound(members, counts, n - 1, a);
      assert members[n - 1] in members;
    }
  }

  /** Fewer workers use no more slots. */
  lemma {:induction false} SharedMonotone(members: seq<Member>, fewer: seq<nat>, more: seq<nat>, n: nat)
    requires n <= |members| == |fewer| == |more| && forall i | 0 <= i < n :: fewer[i] <= more[i]
    ensures Shared(members, fewer, n) <= Shared(members, more, n)
    decreases n
  {
    if n == 0 {
    } else {
      SharedMonotone(members, fewer, more, n - 1);
    }
  }

  lemma {:induction false} SomeMissed(members: seq<Member>, counts: seq<nat>, demands: seq<Demand>, n: nat)
    requires |counts| == |demands| == |members| && n <= |members|
    ensures Missed(members, counts, demands, n) > 0 <==> exists i | 0 <= i < n ::
      Uncounted(members[i], counts[i], demands[i])
    decreases n
  {
    if n == 0 {
    } else {
      SomeMissed(members, counts, demands, n - 1);
    }
  }

  /** The pool has a slot for the first worker of every eager member with nothing reserved, whatever the others draw. */
  predicate Spared(members: seq<Member>, pool: nat)
    requires forall m | m in members :: ValidMember(m)
  {
    forall a | 0 <= a < |members| && members[a].eager && members[a].reserved == 0 ::
      Room(members, |members|, a) + 1 <= pool
  }

  ghost predicate AlwaysWithin(members: seq<Member>, pool: nat) {
    forall counts, demands | Shaped(members, counts, demands) && Within(members, counts, pool) ::
      Within(members, Ticked(members, counts, demands, pool, |members|).counts, pool)
  }

  /** A tick within capacity stays within it. */
  lemma CapacityKept(members: seq<Member>, counts: seq<nat>, demands: seq<Demand>, pool: nat)
    requires Shaped(members, counts, demands) && Within(members, counts, pool) && Spared(members, pool)
    ensures Within(members, Ticked(members, counts, demands, pool, |members|).counts, pool)
  {
    var n := |members|;
    var t := Ticked(members, counts, demands, pool, n);
    forall i | 0 <= i < n ensures t.counts[i] <= members[i].parallel {
      ParallelKept(members, counts, demands, pool, i);
    }
    Tally(members, counts, demands, pool, n);
    SomeMissed(members, counts, demands, n);
    if Missed(members, counts, demands, n) > 0 {
      var a :| 0 <= a < n && Uncounted(members[a], counts[a], demands[a]);
      OneStartEach(members, counts, demands, pool, n);
      SharedBound(members, t.counts, n, a);
    }
  }

  /** Worker counts that fill the pool without the member `a`. */
  function Filled(members: seq<Member>, amount: nat, a: nat, n: nat): (counts: seq<nat>)
    requires n <= |members| && forall m | m in members :: ValidMember(m)
    ensures |counts| == n
  {
    if n == 0 then []
    else
      var m := members[n - 1];
      assert m in members;
      var cap := m.parallel - m.reserved;
      var own := if n - 1 == a then 0 else if amount < cap then amount else cap;
      Filled(members, amount - own, a, n - 1) + [if n - 1 == a then 0 else m.reserved + own]
  }

  lemma {:induction false} FilledUses(members: seq<Member>, amount: nat, a: nat, n: nat, counts: seq<nat>)
    requires n <= |members| == |counts| && (forall m | m in members :: ValidMember(m)) && amount <= Room(members, n, a)
    requires Filled(members, amount, a, n) == counts[..n]
    ensures Shared(members, counts, n) == amount
    ensures forall i | 0 <= i < n :: counts[i] <= members[i].parallel && (i == a ==> counts[i] == 0)
    decreases n
  {
    if n == 0 {
    } else {
      var m := members[n - 1];
      assert m in members;
      var cap := m.parallel - m.reserved;
      var own := if n - 1 == a then 0 else if amount < cap then amount else cap;
      var before := Filled(members, amount - own, a, n - 1);
      assert counts[..n] == before + [if n - 1 == a then 0 else m.reserved + own];
      assert counts[..n - 1] == before && counts[n - 1] == counts[..n][n - 1];
      FilledUses(members, amount - own, a, n - 1, counts);
    }
  }

  /** The pool is full without the member, whose first worker then takes it over the limit. */
  lemma CapacityBroken(members: seq<Member>, pool: nat, a: nat) returns (counts: seq<nat>, demands: seq<Demand>)
    requires (forall m | m in members :: ValidMember(m)) && a < |members| && members[a].eager
    requires members[a].reserved == 0
    requires Room(members, |members|, a) + 1 > pool
    ensures Shaped(members, counts, demands) && Within(members, counts, pool)
    ensures !Within(members, Ticked(members, counts, demands, pool, |members|).counts, pool)
  {
    var n := |members|;
    counts := Filled(members, pool, a, n);
    demands := seq(n, _ => Demand(0, 0, true));
    assert counts[..n] == counts;
    FilledUses(members, pool, a, n, counts);
    Tally(members, counts, demands, pool, n);
    SomeMissed(members, counts, demands, n);
    UsedGrows(members, counts, demands, pool, n);
    assert Uncounted(members[a], counts[a], demands[a]);
  }

  lemma {:induction false} UsedGrows(members: seq<Member>, counts: seq<nat>, demands: seq<Demand>, pool: nat, n: nat)
    requires |counts| == |demands| == |members| && n <= |members|
    ensures Ticked(members, counts, demands, pool, n).used >= Shared(members, counts, |members|)
    decreases n
  {
    if n == 0 {
    } else {
      UsedGrows(members, counts, demands, pool, n - 1);
    }
  }

  /** Every tick keeps the shard within its limits exactly when the pool spares a slot for each eager member that
      reserves none. */
  lemma CapacityExactly(members: seq<Member>, pool: nat)
    requires forall m | m in members :: ValidMember(m)
    ensures AlwaysWithin(members, pool) <==> Spared(members, pool)
  {
    if Spared(members, pool) {
      forall counts, demands | Shaped(members, counts, demands) && Within(members, counts, pool)
        ensures Within(members, Ticked(members, counts, demands, pool, |members|).counts, pool)
      {
        CapacityKept(members, counts, demands, pool);
      }
    } else {
      var a :| 0 <= a < |members| && members[a].eager && members[a].reserved == 0
        && Room(members, |members|, a) + 1 > pool;
      var counts, demands := CapacityBroken(members, pool, a);
    }
  }

  /** In particular, when every eager member reserves a worker. */
  lemma ReservedSpares(members: seq<Member>, pool: nat)
    requires (forall m | m in members :: ValidMember(m)) && forall m | m in members && m.eager :: m.reserved >= 1
    ensures AlwaysWithin(members, pool)
  {
    assert Spared(members, pool);
    CapacityExactly(members, pool);
  }

  // ---- Backoff ---------------------------------------------------------------

  /** The backoff after one more exit. */
  function Backoff(current: real, quick: bool, most: real): real {
    if !quick then 0.0
    else
      var doubled := if current * 2.0 > 1.0 then current * 2.0 else 1.0;
      if doubled < most then doubled else most
  }

  predicate Paced(backoff: real, most: real) { backoff == 0.0 || 1.0 <= backoff <= most }

  function Exits(current: real, k: nat, most: real): real {
    if k == 0 then current else Backoff(Exits(current, k - 1, most), true, most)
  }

  function Power(k: nat): nat { if k == 0 then 1 else 2 * Power(k - 1) }

  /** Quick exits in a row double the wait from one second up to the limit. */
  lemma {:induction false} BackoffDoubles(k: nat, most: real)
    requires most >= 1.0
    ensures Exits(0.0, k + 1, most) == if Power(k) as real < most then Power(k) as real else most
    decreases k
  {
    if k == 0 {
    } else {
      BackoffDoubles(k - 1, most);
      PowerPositive(k - 1);
    }
  }

  lemma {:induction false} PowerPositive(k: nat)
    ensures Power(k) >= 1
  {
    if k == 0 {
    } else {
      PowerPositive(k - 1);
    }
  }
}
