/** The shard runner: one tick observes exits, kills stuck holders and starts what policy wants. */
module LocalRunnerModel {
  import opened Mail
  import opened RunnerCapacity

  datatype Worker = Worker(alias: Id, startedAt: real)

  /** An active session as the store lists it: its holder and when its lease ends. */
  datatype Held = Held(worker: Option<nat>, leaseUntil: Option<real>)

  predicate Stuck(h: Held, name: nat, now: real) {
    h.worker == Some(name) && h.leaseUntil.Some? && h.leaseUntil.value <= now
  }

  /** The workers left once those with an expired lease are killed. */
  function Surviving(workers: map<nat, Worker>, active: seq<Held>, now: real): map<nat, Worker> {
    map name | name in workers && !(exists h :: h in active && Stuck(h, name, now)) :: workers[name]
  }

  function Busy(active: seq<Held>): set<nat> { set h | h in active && h.worker.Some? :: h.worker.value }

  function Named(workers: map<nat, Worker>, names: set<nat>, alias: Id): set<nat> {
    set name | name in names && name in workers && workers[name].alias == alias
  }

  function CountsOf(members: seq<Member>, workers: map<nat, Worker>): (counts: seq<nat>)
    ensures |counts| == |members|
  {
    seq(|members|, i requires 0 <= i < |members| => |Named(workers, workers.Keys, members[i].alias)|)
  }

  function Waiting(waits: map<Id, real>, alias: Id): real { if alias in waits then waits[alias] else 0.0 }

  /** A worker as the last tick saw it. */
  datatype Sighting = Sighting(name: nat, info: Worker)

  /** An alias's backoff and the earliest time of its next start. */
  datatype Pace = Pace(backoff: real, next: real)

  /** An exit seen: a quick one raises the backoff and postpones the next start, any other resets the backoff. */
  function Exited(pace: Pace, ran: real, now: real, limit: real, most: real): Pace {
    var backoff := Backoff(pace.backoff, ran < limit, most);
    Pace(backoff, if ran < limit then now + backoff else pace.next)
  }

  predicate Gone(s: Sighting, workers: map<nat, Worker>, alias: Id) { s.info.alias == alias && s.name !in workers }

  /** The pace of an alias once the workers seen before, in turn, are looked for among the live ones. */
  function Paces(seen: seq<Sighting>, workers: map<nat, Worker>, alias: Id, now: real, limit: real, most: real,
                 start: Pace): Pace
  {
    if seen == [] then start
    else
      var last, before := seen[|seen| - 1], Paces(seen[..|seen| - 1], workers, alias, now, limit, most, start);
      if Gone(last, workers, alias) then Exited(before, now - last.info.startedAt, now, limit, most) else before
  }

  /** With no exit the pace is as before. */
  lemma {:induction false} NoExit(seen: seq<Sighting>, workers: map<nat, Worker>, alias: Id, now: real, limit: real,
                                  most: real, start: Pace)
    requires forall i | 0 <= i < |seen| :: !Gone(seen[i], workers, alias)
    ensures Paces(seen, workers, alias, now, limit, most, start) == start
    decreases |seen|
  {
    if seen == [] {
    } else {
      NoExit(seen[..|seen| - 1], workers, alias, now, limit, most, start);
    }
  }

  /** Otherwise the last worker found gone decides: after a quick exit the next start waits at least a second and no
      longer than the limit, after a long run the backoff is off. */
  lemma {:induction false} LastExitDecides(seen: seq<Sighting>, workers: map<nat, Worker>, alias: Id, now: real,
                                           limit: real, most: real, start: Pace, i: nat)
    requires most >= 1.0 && i < |seen| && Gone(seen[i], workers, alias)
    requires forall j | i < j < |seen| :: !Gone(seen[j], workers, alias)
    ensures var pace := Paces(seen, workers, alias, now, limit, most, start);
      if now - seen[i].info.startedAt < limit then 1.0 <= pace.backoff <= most && pace.next == now + pace.backoff
      else pace.backoff == 0.0
    decreases |seen|
  {
    if i < |seen| - 1 {
      LastExitDecides(seen[..|seen| - 1], workers, alias, now, limit, most, start, i);
    }
  }

  /** The sightings name exactly the live workers, each once. */
  predicate Sights(seen: seq<Sighting>, workers: map<nat, Worker>) {
    && (forall s | s in seen :: s.name in workers && workers[s.name] == s.info)
    && (forall name | name in workers :: Sighting(name, workers[name]) in seen)
    && (forall i, j | 0 <= i < j < |seen| :: seen[i].name != seen[j].name)
  }

  class Runner {
    const members: seq<Member>
    const pool: nat
    const quickExit: real
    const maxBackoff: real
    /** The live workers, as the launcher reports them. */
    var workers: map<nat, Worker>
    var seen: seq<Sighting>
    var backoff: map<Id, real>
    var nextStart: map<Id, real>
    var serial: nat

    ghost predicate Valid()
      reads this
    {
      && maxBackoff >= 1.0
      && (forall m | m in members :: ValidMember(m))
      && (forall i, j | 0 <= i < j < |members| :: members[i].alias != members[j].alias)
      && (forall alias | alias in backoff :: Paced(backoff[alias], maxBackoff))
      && forall name | name in workers :: name < serial
    }

    constructor (members: seq<Member>, pool: nat, quickExit: real, maxBackoff: real)
      requires maxBackoff >= 1.0
      requires forall m | m in members :: ValidMember(m)
      requires forall i, j | 0 <= i < j < |members| :: members[i].alias != members[j].alias
      ensures Valid() && workers == map[]
    {
      this.members, this.pool, this.quickExit, this.maxBackoff := members, pool, quickExit, maxBackoff;
      workers, seen, backoff, nextStart, serial := map[], [], map[], map[], 0;
    }

    /** An alias's pace so far. */
    function PaceOf(alias: Id): Pace
      reads this
    {
      Pace(Waiting(backoff, alias), Waiting(nextStart, alias))
    }

    /** Vanished workers that ran only briefly raise the backoff for their alias; others reset it. */
    method ObserveExits(now: real)
      requires Valid()
      modifies this`seen, this`backoff, this`nextStart
      ensures Valid() && Sights(seen, workers)
      ensures forall alias ::
        PaceOf(alias) == Paces(old(seen), workers, alias, now, quickExit, maxBackoff, old(PaceOf(alias)))
    {
      for i := 0 to |seen|
        invariant seen == old(seen) && Valid()
        invariant forall alias ::
          PaceOf(alias) == Paces(seen[..i], workers, alias, now, quickExit, maxBackoff, old(PaceOf(alias)))
      {
        assert seen[..i + 1][..i] == seen[..i] && seen[..i + 1][i] == seen[i];
        var name, info := seen[i].name, seen[i].info;
        if name !in workers {
          var quick := now - info.startedAt < quickExit;
          backoff := backoff[info.alias := Backoff(Waiting(backoff, info.alias), quick, maxBackoff)];
          if quick {
            nextStart := nextStart[info.alias := now + backoff[info.alias]];
          }
        }
      }
      assert seen[..|seen|] == seen;
      seen := SightAll(workers);
    }

    static method SightAll(workers: map<nat, Worker>) returns (seen: seq<Sighting>)
      ensures Sights(seen, workers)
    {
      seen := [];
      var rest := workers.Keys;
      while rest != {}
        invariant rest <= workers.Keys
        invariant forall s | s in seen :: s.name in workers && s.name !in rest && workers[s.name] == s.info
        invariant forall name | name in workers && name !in rest :: Sighting(name, workers[name]) in seen
        invariant forall i, j | 0 <= i < j < |seen| :: seen[i].name != seen[j].name
        decreases rest
      {
        var name :| name in rest;
        assert forall i | 0 <= i < |seen| :: seen[i] in seen;
        seen := seen + [Sighting(name, workers[name])];
        rest := rest - {name};
      }
    }

    /** Kills the live workers whose lease expired. */
    method KillStuck(active: seq<Held>, now: real)
      requires Valid()
      modifies this`workers
      ensures Valid() && workers == Surviving(old(workers), active, now)
    {
      for i := 0 to |active|
        invariant Valid() && workers == Surviving(old(workers), active[..i], now)
      {
        SurvivingOne(old(workers), active, i, now);
        var h := active[i];
        if h.worker.Some? && h.worker.value in workers && h.leaseUntil.Some? && h.leaseUntil.value <= now {
          workers := workers - {h.worker.value};
        }
      }
      assert active[..|active|] == active;
    }

    /** Starts a worker for the member unless its backoff forbids it. */
    method Start(i: nat, now: real) returns (ok: bool)
      requires Valid() && i < |members|
      modifies this`workers, this`nextStart, this`serial
      ensures Valid() && ok == (now >= Waiting(old(nextStart), members[i].alias))
      ensures !ok ==> workers == old(workers) && nextStart == old(nextStart)
      ensures ok ==> exists name: nat | name !in old(workers) ::
        workers == old(workers)[name := Worker(members[i].alias, now)]
      ensures ok ==> nextStart == old(nextStart)[members[i].alias := now + Waiting(backoff, members[i].alias)]
    {
      var alias := members[i].alias;
      if now < Waiting(nextStart, alias) {
        return false;
      }
      workers := workers[serial := Worker(alias, now)];
      assert serial !in old(workers);
      serial := serial + 1;
      nextStart := nextStart[alias := now + Waiting(backoff, alias)];
      ok := true;
    }

    /** Counts the live workers, and the idle ones, of every member. */
    method Count(active: seq<Held>) returns (counts: map<Id, nat>, idle: map<Id, nat>)
      requires Valid()
      ensures forall m | m in members :: m.alias in counts && m.alias in idle
      ensures forall m | m in members :: counts[m.alias] == |Named(workers, workers.Keys, m.alias)|
      ensures forall m | m in members :: idle[m.alias] == |Named(workers, workers.Keys - Busy(active), m.alias)|
    {
      var busy := Busy(active);
      counts := map m | m in members :: m.alias := 0;
      idle := counts;
      var rest := workers.Keys;
      while rest != {}
        invariant rest <= workers.Keys
        invariant forall m | m in members :: m.alias in counts && m.alias in idle
        invariant forall m | m in members :: counts[m.alias] == |Named(workers, workers.Keys - rest, m.alias)|
        invariant forall m | m in members :: idle[m.alias] == |Named(workers, workers.Keys - rest - busy, m.alias)|
        decreases rest
      {
        var name :| name in rest;
        var alias := workers[name].alias;
        if alias in counts && alias in idle {
          counts := counts[alias := counts[alias] + 1];
          idle := idle[alias := idle[alias] + if name in busy then 0 else 1];
        }
        CountOne(workers, workers.Keys - rest, busy, name);
        assert workers.Keys - rest + {name} == workers.Keys - (rest - {name});
        rest := rest - {name};
      }
      assert workers.Keys - {} == workers.Keys;
    }

    /** What policy wants of one member, and a worker for it if its backoff allows. */
    method Offer(i: nat, now: real, count: nat, idle: nat, ready: nat, used: nat) returns (choice: Choice, ok: bool)
      requires Valid() && i < |members|
      modifies this`workers, this`nextStart, this`serial
      ensures Valid() && choice == Choose(members[i], count, Demand(idle, ready, ok), used, pool)
      ensures ok == (choice != No && now >= Waiting(old(nextStart), members[i].alias))
      ensures !ok ==> workers == old(workers) && nextStart == old(nextStart)
      ensures ok ==> exists name: nat | name !in old(workers) ::
        workers == old(workers)[name := Worker(members[i].alias, now)]
      ensures ok ==> nextStart == old(nextStart)[members[i].alias := now + Waiting(backoff, members[i].alias)]
    {
      var m := members[i];
      var want := if m.eager then Max(m.reserved, 1) else 0;
      if count < want {
        choice := Want;
        ok := Start(i, now);
        return;
      }
      if ready == 0 || ready <= idle || count >= m.parallel {
        return No, false;
      }
      var beyond := count >= m.reserved;
      if beyond && used >= pool {
        return No, false;
      }
      choice := Draw(beyond);
      ok := Start(i, now);
    }

    /** The pool slots in use. */
    method SharedUsed(tally: map<Id, nat>, ghost counts: seq<nat>) returns (used: nat)
      requires |counts| == |members|
      requires forall i | 0 <= i < |members| :: members[i].alias in tally && counts[i] == tally[members[i].alias]
      ensures used == Shared(members, counts, |members|)
    {
      used := 0;
      for i := 0 to |members|
        invariant used == Shared(members, counts, i)
      {
        used := used + Beyond(members[i], tally[members[i].alias]);
      }
    }

    /** The state after visiting `i` members is what the specification says. */
    ghost predicate Going(counts: seq<nat>, demands: seq<Demand>, next: map<Id, real>, now: real, i: nat, used: nat,
                          started: seq<nat>)
      reads this
    {
      && i <= |members| == |counts| == |demands|
      && Ticked(members, counts, demands, pool, i) == Totals(CountsOf(members, workers), used, started)
      && (forall j | 0 <= j < |started| :: started[j] < i)
      && Spaced(members, demands, started, next, nextStart, backoff, now)
    }

    /** Offers one member a worker. */
    method Serve(i: nat, now: real, count: nat, idle: nat, ready: nat, used: nat, started: seq<nat>,
                 ghost counts: seq<nat>, ghost demands: seq<Demand>, ghost next: map<Id, real>)
      returns (more: nat, list: seq<nat>)
      requires Valid() && i < |members| && Going(counts, demands, next, now, i, used, started)
      requires counts[i] == count
        && demands[i] == Demand(idle, ready, now >= Waiting(next, members[i].alias))
      modifies this`workers, this`nextStart, this`serial
      ensures Valid() && Going(counts, demands, next, now, i + 1, more, list)
    {
      more, list := used, started;
      hide Ticked, Choose, CountsOf;
      ghost var before, was := workers, nextStart;
      assert Waiting(was, members[i].alias) == Waiting(next, members[i].alias);
      var choice, ok := Offer(i, now, count, idle, ready, used);
      VisitNext(members, counts, demands, pool, i, choice, ok);
      if ok {
        StartCounts(members, before, workers, i, now);
        SpacedMore(members, demands, started, next, was, backoff, now, i);
        list := started + [i];
        if choice == Draw(true) {
          more := used + 1;
        }
      }
    }

    /** Offers each member a worker in manifest order. */
    method StartWanted(now: real, tally: map<Id, nat>, idle: map<Id, nat>, ready: map<Id, nat>, shared: nat,
                       ghost counts: seq<nat>, ghost demands: seq<Demand>, ghost next: map<Id, real>)
      returns (ghost used: nat, started: seq<nat>)
      requires Valid() && Going(counts, demands, next, now, 0, shared, []) && |counts| == |demands| == |members|
      requires forall i | 0 <= i < |members| ::
        && members[i].alias in tally && members[i].alias in idle && counts[i] == tally[members[i].alias]
        && demands[i] ==
          Demand(idle[members[i].alias], ReadyOf(ready, members[i]), now >= Waiting(next, members[i].alias))
      modifies this`workers, this`nextStart, this`serial
      ensures Valid() && Going(counts, demands, next, now, |members|, used, started)
    {
      hide Going, Valid, ReadyOf, Waiting;
      var slots := shared;
      started := [];
      for i := 0 to |members|
        invariant Valid() && Going(counts, demands, next, now, i, slots, started)
      {
        var m := members[i];
        slots, started :=
          Serve(i, now, tally[m.alias], idle[m.alias], ReadyOf(ready, m), slots, started, counts, demands, next);
      }
      used := slots;
    }

    /** One tick: `started` lists the members it started a worker for. */
    method Tick(now: real, active: seq<Held>, ready: map<Id, nat>)
      returns (started: seq<nat>, ghost counts: seq<nat>, ghost demands: seq<Demand>, ghost next: map<Id, real>)
      requires Valid()
      modifies this
      ensures Valid() && Shaped(members, counts, demands)
      ensures forall alias :: (Pace(Waiting(backoff, alias), Waiting(next, alias))
        == Paces(old(seen), old(workers), alias, now, quickExit, maxBackoff, old(PaceOf(alias))))
      ensures var alive := Surviving(old(workers), active, now);
        && counts == CountsOf(members, alive)
        && forall i | 0 <= i < |members| ::
             demands[i] == DemandOf(members[i], alive, active, ready, now >= Waiting(next, members[i].alias))
      ensures var t := Ticked(members, counts, demands, pool, |members|);
        started == t.started && CountsOf(members, workers) == t.counts
      ensures Spaced(members, demands, started, next, nextStart, backoff, now)
      ensures Within(members, CountsOf(members, old(workers)), pool) && Spared(members, pool) ==>
        Within(members, CountsOf(members, workers), pool)
    {
      ObserveExits(now);
      KillStuck(active, now);
      ghost var alive := workers;
      var tally, idle := Count(active);
      counts, next := CountsOf(members, workers), nextStart;
      demands := seq(|members|, i requires 0 <= i < |members| =>
        DemandOf(members[i], alive, active, ready, now >= Waiting(next, members[i].alias)));
      Kept(members, old(workers), alive, counts, demands, pool);
      var used := SharedUsed(tally, counts);
      assert Going(counts, demands, next, now, 0, used, []);
      hide Paces, Surviving, Named, Within, Spared, Ticked, Shared, Spaced;
      ghost var slots;
      slots, started := StartWanted(now, tally, idle, ready, used, counts, demands, next);
    }
  }

  function ReadyOf(ready: map<Id, nat>, m: Member): nat { if m.definition in ready then ready[m.definition] else 0 }

  /** A member that was started may start again only after its backoff; the others' waits are as before. */
  predicate Spaced(members: seq<Member>, demands: seq<Demand>, started: seq<nat>, next: map<Id, real>,
                   nextStart: map<Id, real>, backoff: map<Id, real>, now: real)
    requires |demands| == |members|
  {
    forall i | 0 <= i < |members| ::
      if i in started
      then demands[i].open && Waiting(nextStart, members[i].alias) == now + Waiting(backoff, members[i].alias)
      else Waiting(nextStart, members[i].alias) == Waiting(next, members[i].alias)
  }

  /** One more visit of the tick, and whether this member can already be in the list of those started. */
  lemma VisitNext(members: seq<Member>, counts: seq<nat>, demands: seq<Demand>, pool: nat, i: nat, choice: Choice,
                  ok: bool)
    requires i < |members| == |counts| == |demands|
    requires var d := demands[i];
      choice ==
        Choose(members[i], counts[i], Demand(d.idle, d.ready, ok), Ticked(members, counts, demands, pool, i).used, pool)
    requires ok == (choice != No && demands[i].open)
    ensures var t := Ticked(members, counts, demands, pool, i);
      && Ticked(members, counts, demands, pool, i + 1)
         == (if !ok then t
             else Totals(t.counts[i := t.counts[i] + 1], t.used + (if choice == Draw(true) then 1 else 0),
                         t.started + [i]))
      && t.counts[i] == counts[i]
  {
    OneStartEach(members, counts, demands, pool, i);
  }

  lemma SpacedMore(members: seq<Member>, demands: seq<Demand>, started: seq<nat>, next: map<Id, real>,
                   nextStart: map<Id, real>, backoff: map<Id, real>, now: real, i: nat)
    requires i < |members| == |demands| && demands[i].open
    requires Spaced(members, demands, started, next, nextStart, backoff, now)
    requires forall j, k | 0 <= j < k < |members| :: members[j].alias != members[k].alias
    ensures Spaced(members, demands, started + [i], next,
                   nextStart[members[i].alias := now + Waiting(backoff, members[i].alias)],
      backoff, now)
  {
  }

  function DemandOf(m: Member, alive: map<nat, Worker>, active: seq<Held>, ready: map<Id, nat>, open: bool): Demand {
    Demand(|Named(alive, alive.Keys - Busy(active), m.alias)|, ReadyOf(ready, m), open)
  }

  lemma SurvivingOne(workers: map<nat, Worker>, active: seq<Held>, i: nat, now: real)
    requires i < |active|
    ensures var h := active[i];
      Surviving(workers, active[..i + 1], now) == Surviving(workers, active[..i], now)
        - if h.worker.Some? && h.leaseUntil.Some? && h.leaseUntil.value <= now then {h.worker.value} else {}
  {
    assert active[..i + 1] == active[..i] + [active[i]];
    var h := active[i];
    assert forall name: nat ::
      Stuck(h, name, now) <==> h.worker == Some(name) && h.leaseUntil.Some? && h.leaseUntil.value <= now;
    forall name: nat ensures (exists h :: h in active[..i + 1] && Stuck(h, name, now))
      <==> (exists h :: h in active[..i] && Stuck(h, name, now)) || Stuck(active[i], name, now)
    {
      if Stuck(active[i], name, now) {
        assert active[i] in active[..i + 1];
      }
    }
  }

  lemma StartCounts(members: seq<Member>, before: map<nat, Worker>, workers: map<nat, Worker>, i: nat, now: real)
    requires i < |members| && forall j, k | 0 <= j < k < |members| :: members[j].alias != members[k].alias
    requires exists name: nat | name !in before :: workers == before[name := Worker(members[i].alias, now)]
    ensures CountsOf(members, workers) == CountsOf(members, before)[i := CountsOf(members, before)[i] + 1]
  {
    var name: nat :| name !in before && workers == before[name := Worker(members[i].alias, now)];
    forall j | 0 <= j < |members|
      ensures |Named(workers, workers.Keys, members[j].alias)| ==
        |Named(before, before.Keys, members[j].alias)| + if j == i then 1 else 0
    {
      assert Named(workers, workers.Keys, members[j].alias)
        == Named(before, before.Keys, members[j].alias) + if j == i then {name} else {};
    }
  }

  /** Killing workers frees slots, so a shard within its limits before the tick is within them after it. */
  lemma Kept(members: seq<Member>, before: map<nat, Worker>, alive: map<nat, Worker>, counts: seq<nat>,
             demands: seq<Demand>, pool: nat)
    requires Shaped(members, counts, demands) && counts == CountsOf(members, alive)
    requires forall name | name in alive :: name in before && before[name] == alive[name]
    ensures Within(members, CountsOf(members, before), pool) && Spared(members, pool) ==>
      Within(members, Ticked(members, counts, demands, pool, |members|).counts, pool)
  {
    var more := CountsOf(members, before);
    forall i | 0 <= i < |members| ensures counts[i] <= more[i] {
      var fewer, all := Named(alive, alive.Keys, members[i].alias), Named(before, before.Keys, members[i].alias);
      SubsetSize(fewer, all);
    }
    SharedMonotone(members, counts, more, |members|);
    if Within(members, more, pool) && Spared(members, pool) {
      CapacityKept(members, counts, demands, pool);
    }
  }

  lemma SubsetSize(a: set<nat>, b: set<nat>)
    requires a <= b
    ensures |a| <= |b|
  {
    assert b == a + (b - a);
  }

  lemma CountOne(workers: map<nat, Worker>, done: set<nat>, busy: set<nat>, name: nat)
    requires name in workers && name !in done
    ensures forall alias ::
      |Named(workers, done + {name}, alias)| ==
        |Named(workers, done, alias)| + if alias == workers[name].alias then 1 else 0
    ensures forall alias :: (|Named(workers, done + {name} - busy, alias)|
      == |Named(workers, done - busy, alias)| + if alias == workers[name].alias && name !in busy then 1 else 0)
  {
    forall alias
      ensures |Named(workers, done + {name}, alias)| ==
        |Named(workers, done, alias)| + if alias == workers[name].alias then 1 else 0
    {
      assert Named(workers, done + {name}, alias)
        == if alias == workers[name].alias then Named(workers, done, alias) + {name} else Named(workers, done, alias);
    }
    forall alias ensures |Named(workers, done + {name} - busy, alias)|
      == |Named(workers, done - busy, alias)| + if alias == workers[name].alias && name !in busy then 1 else 0 {
      assert Named(workers, done + {name} - busy, alias)
        == if alias == workers[name].alias && name !in busy then Named(workers, done - busy, alias) + {name}
           else Named(workers, done - busy, alias);
    }
  }
}
