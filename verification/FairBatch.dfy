/** Claiming a batch: one claim for each active key in every pass. */
module FairBatchModel {
  import opened Mail
  import opened FairQueue

  /** What a batch took from one key, in the order it was claimed. */
  function Of(messages: seq<Envelope>, key: Id): seq<Envelope> {
    if messages == [] then []
    else
      var last := messages[|messages| - 1];
      Of(messages[..|messages| - 1], key) + if last.key == key then [last] else []
  }

  function Least(a: nat, b: nat): nat { if a < b then a else b }

  lemma OfPush(messages: seq<Envelope>, e: Envelope, key: Id)
    ensures Of(messages + [e], key) == Of(messages, key) + if e.key == key then [e] else []
  {
    assert (messages + [e])[..|messages + [e]| - 1] == messages;
  }

  /** Envelopes listed under a key are that key's. */
  predicate Filed(lists: map<Id, seq<Envelope>>) {
    forall key | key in lists :: forall i | 0 <= i < |lists[key]| :: lists[key][i].key == key
  }

  /** Every key has given `n` of its envelopes, or all it had, from the front and in order. */
  predicate Gave(was: map<Id, seq<Envelope>>, lists: map<Id, seq<Envelope>>, messages: seq<Envelope>, key: Id, n: nat) {
    var k := Least(n, |At(was, key)|);
    Of(messages, key) == At(was, key)[..k] && At(lists, key) == At(was, key)[k..]
  }

  lemma GaveAll(was: map<Id, seq<Envelope>>, lists: map<Id, seq<Envelope>>, messages: seq<Envelope>, key: Id, n: nat)
    requires Gave(was, lists, messages, key, n) && At(lists, key) == []
    ensures Gave(was, lists, messages, key, n + 1)
  {
    var k := Least(n, |At(was, key)|);
    assert |At(was, key)[k..]| == |At(was, key)| - k;
  }

  lemma GaveNext(was: map<Id, seq<Envelope>>, lists: map<Id, seq<Envelope>>, messages: seq<Envelope>, key: Id, n: nat)
    requires Gave(was, lists, messages, key, n) && At(lists, key) != [] && At(lists, key)[0].key == key
    ensures var list := At(lists, key);
      Gave(was, lists[key := list[1..]], messages + [list[0]], key, n + 1)
  {
    var list, first := At(lists, key), At(was, key);
    assert n < |first| && list[0] == first[n] && list[1..] == first[n + 1..];
    OfPush(messages, list[0], key);
    assert first[..n + 1] == first[..n] + [first[n]];
  }

  lemma GaveOther(was: map<Id, seq<Envelope>>, lists: map<Id, seq<Envelope>>, messages: seq<Envelope>,
                  key: Id, e: Envelope, list: seq<Envelope>, other: Id, n: nat)
    requires Gave(was, lists, messages, other, n) && other != key && e.key == key
    ensures Gave(was, lists[key := list], messages + [e], other, n)
  {
    OfPush(messages, e, other);
    assert Of(messages, other) + [] == Of(messages, other);
  }

  /** How far each key is in a pass: those still to be visited have had `passes` turns, the others one more. */
  function Turns(all: set<Id>, rest: set<Id>, passes: nat, key: Id): nat {
    if key !in all then 0 else if key in rest then passes else passes + 1
  }

  ghost predicate InPass(was: map<Id, seq<Envelope>>, lists: map<Id, seq<Envelope>>, messages: seq<Envelope>,
                         all: set<Id>, rest: set<Id>, passes: nat) {
    forall key :: Gave(was, lists, messages, key, Turns(all, rest, passes, key))
  }

  lemma PassStarts(was: map<Id, seq<Envelope>>, lists: map<Id, seq<Envelope>>, messages: seq<Envelope>,
                   all: set<Id>, active: set<Id>, passes: nat)
    requires InPass(was, lists, messages, all, all, passes)
    requires forall key | key in all && key !in active :: At(lists, key) == []
    ensures InPass(was, lists, messages, all, active, passes)
  {
    forall key ensures Gave(was, lists, messages, key, Turns(all, active, passes, key)) {
      assert Gave(was, lists, messages, key, Turns(all, all, passes, key));
      if key in all && key !in active {
        GaveAll(was, lists, messages, key, passes);
      }
    }
  }

  lemma PassEnds(was: map<Id, seq<Envelope>>, lists: map<Id, seq<Envelope>>, messages: seq<Envelope>, all: set<Id>,
                 passes: nat)
    requires InPass(was, lists, messages, all, {}, passes)
    ensures InPass(was, lists, messages, all, all, passes + 1)
  {
    var next := passes + 1;
    forall key ensures Gave(was, lists, messages, key, Turns(all, all, next, key)) {
      assert Gave(was, lists, messages, key, Turns(all, {}, passes, key));
    }
  }

  lemma PassClaims(was: map<Id, seq<Envelope>>, lists: map<Id, seq<Envelope>>, messages: seq<Envelope>,
                   all: set<Id>, rest: set<Id>, passes: nat, key: Id)
    requires InPass(was, lists, messages, all, rest, passes) && key in rest && key in all
    requires At(lists, key) != [] && At(lists, key)[0].key == key
    ensures var list := At(lists, key);
      InPass(was, lists[key := list[1..]], messages + [list[0]], all, rest - {key}, passes)
  {
    var list := At(lists, key);
    var left, more, later := lists[key := list[1..]], messages + [list[0]], rest - {key};
    forall other ensures Gave(was, left, more, other, Turns(all, later, passes, other)) {
      assert Gave(was, lists, messages, other, Turns(all, rest, passes, other));
      if other == key {
        GaveNext(was, lists, messages, key, passes);
      } else {
        GaveOther(was, lists, messages, key, list[0], list[1..], other, Turns(all, rest, passes, other));
      }
    }
  }

  lemma PassSkips(was: map<Id, seq<Envelope>>, lists: map<Id, seq<Envelope>>, messages: seq<Envelope>,
                  all: set<Id>, rest: set<Id>, passes: nat, key: Id)
    requires InPass(was, lists, messages, all, rest, passes) && key in rest && key in all && At(lists, key) == []
    ensures InPass(was, lists, messages, all, rest - {key}, passes)
  {
    forall other ensures Gave(was, lists, messages, other, Turns(all, rest - {key}, passes, other)) {
      assert Gave(was, lists, messages, other, Turns(all, rest, passes, other));
      if other == key {
        GaveAll(was, lists, messages, key, passes);
      }
    }
  }

  class LocalFairQueue {
    var lists: map<Id, seq<Envelope>>
    var active: set<Id>
    var inFlight: map<Id, Envelope>

    ghost predicate Valid()
      reads this
    {
      Filed(lists)
    }

    constructor ()
      ensures Valid() && lists == map[] && active == {} && inFlight == map[]
    {
      lists, active, inFlight := map[], {}, map[];
    }

    /** The claim of one key, with nobody else in between: the next envelope, or nothing and the key pruned. */
    method ClaimOne(key: Id) returns (envelope: Option<Envelope>)
      requires Valid()
      modifies this
      ensures Valid()
      ensures At(old(lists), key) == [] ==>
        envelope == None && lists == old(lists) && inFlight == old(inFlight) && active == old(active) - {key}
      ensures At(old(lists), key) != [] ==>
        && envelope == Some(At(old(lists), key)[0])
        && lists == old(lists)[key := At(old(lists), key)[1..]]
        && active == old(active)
        && inFlight == old(inFlight)[envelope.value.id := envelope.value]
    {
      if key !in lists || lists[key] == [] {
        // With nobody pushing in between, the recheck of the list finds it empty still.
        active := active - {key};
        return None;
      }
      var e := lists[key][0];
      lists := lists[key := lists[key][1..]];
      inFlight := inFlight[e.id := e];
      envelope := Some(e);
    }
  
    /** Claims up to `max` envelopes: pass after pass over the active keys, one claim for each key in a pass.
        `passes` is how many passes were completed. */
    method ClaimBatch(max: nat) returns (messages: seq<Envelope>, ghost passes: nat)
      requires Valid()
      modifies this
      ensures Valid() && |messages| <= max
      ensures forall key | key !in old(active) :: Gave(old(lists), lists, messages, key, 0)
      ensures forall key | key in old(active) ::
        Gave(old(lists), lists, messages, key, passes) || Gave(old(lists), lists, messages, key, passes + 1)
      ensures |messages| < max ==> forall key | key in old(active) :: At(lists, key) == []
      ensures active <= old(active) && forall key | key in old(active) && key !in active :: At(lists, key) == []
      ensures forall e | e in messages :: e.id in inFlight
    {
      ghost var was, all := lists, active;
      messages, passes := [], 0;
      while |messages| < max
        invariant Valid() && |messages| <= max && active <= all
        invariant InPass(was, lists, messages, all, all, passes)
        invariant forall key | key in all && key !in active :: At(lists, key) == []
        invariant forall e | e in messages :: e.id in inFlight
        decreases max - |messages|
      {
        if active == {} {
          InPassMeans(was, lists, messages, all, all, passes);
          return;
        }
        PassStarts(was, lists, messages, all, active, passes);
        var rest, claimedThisPass := active, false;
        ghost var before := |messages|;
        while rest != {}
          invariant Valid() && rest <= all && active <= all && before <= |messages| <= max
          invariant InPass(was, lists, messages, all, rest, passes)
          invariant forall key | key in all && key !in active :: At(lists, key) == []
          invariant forall e | e in messages :: e.id in inFlight
          invariant if claimedThisPass then |messages| > before
            else |messages| == before && forall key | key in all && key !in rest :: At(lists, key) == []
          decreases |rest|
        {
          if |messages| >= max {
            InPassMeans(was, lists, messages, all, rest, passes);
            return;
          }
          var key :| key in rest;
          hide InPass, Gave, Turns;
          if At(lists, key) == [] {
            PassSkips(was, lists, messages, all, rest, passes, key);
          } else {
            PassClaims(was, lists, messages, all, rest, passes, key);
          }
          var envelope := ClaimOne(key);
          if envelope.Some? {
            messages := messages + [envelope.value];
            claimedThisPass := true;
          }
          rest := rest - {key};
        }
        PassEnds(was, lists, messages, all, passes);
        passes := passes + 1;
        if !claimedThisPass {
          break;
        }
      }
      InPassMeans(was, lists, messages, all, all, passes);
    }
  }

  lemma InPassMeans(was: map<Id, seq<Envelope>>, lists: map<Id, seq<Envelope>>, messages: seq<Envelope>,
                    all: set<Id>, rest: set<Id>, passes: nat)
    requires InPass(was, lists, messages, all, rest, passes)
    ensures forall key | key !in all :: Gave(was, lists, messages, key, 0)
    ensures forall key | key in all ::
      Gave(was, lists, messages, key, passes) || Gave(was, lists, messages, key, passes + 1)
  {
    forall key ensures if key in all
      then Gave(was, lists, messages, key, passes) || Gave(was, lists, messages, key, passes + 1)
      else Gave(was, lists, messages, key, 0)
    {
      assert Gave(was, lists, messages, key, Turns(all, rest, passes, key));
    }
  }

  /** So two keys that both still have work differ by at most one claim. */
  lemma FairlyShared(was: map<Id, seq<Envelope>>, lists: map<Id, seq<Envelope>>, messages: seq<Envelope>, a: Id, b: Id,
                     passes: nat)
    requires Gave(was, lists, messages, a, passes) || Gave(was, lists, messages, a, passes + 1)
    requires Gave(was, lists, messages, b, passes) || Gave(was, lists, messages, b, passes + 1)
    requires At(lists, a) != [] && At(lists, b) != []
    ensures -1 <= |Of(messages, a)| - |Of(messages, b)| <= 1
  {
    LeftOver(was, lists, messages, a, passes);
    LeftOver(was, lists, messages, b, passes);
  }

  lemma LeftOver(was: map<Id, seq<Envelope>>, lists: map<Id, seq<Envelope>>, messages: seq<Envelope>, key: Id,
                 passes: nat)
    requires Gave(was, lists, messages, key, passes) || Gave(was, lists, messages, key, passes + 1)
    requires At(lists, key) != []
    ensures |Of(messages, key)| == passes || |Of(messages, key)| == passes + 1
  {
    var n := if Gave(was, lists, messages, key, passes) then passes else passes + 1;
    var k := Least(n, |At(was, key)|);
    assert |At(was, key)[k..]| == |At(was, key)| - k;
  }
}
