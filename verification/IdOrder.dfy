/** Identities in the order the Redis store returns them. */
module IdOrder {
  import opened Mail

  /** Character by character, a proper prefix first. */
  predicate Below(a: Id, b: Id) {
    if b == [] then false
    else if a == [] then true
    else a[0] < b[0] || (a[0] == b[0] && Below(a[1..], b[1..]))
  }

  lemma {:induction false} BelowTotal(a: Id, b: Id)
    ensures a == b || Below(a, b) || Below(b, a)
    ensures !(Below(a, b) && Below(b, a)) && (a == b ==> !Below(a, b))
  {
    if a == [] || b == [] {
    } else {
      BelowTotal(a[1..], b[1..]);
      assert a == [a[0]] + a[1..] && b == [b[0]] + b[1..];
    }
  }

  lemma {:induction false} BelowTransitive(a: Id, b: Id, c: Id)
    requires Below(a, b) && Below(b, c)
    ensures Below(a, c)
  {
    if a == [] {
    } else if a[0] == b[0] == c[0] {
      BelowTransitive(a[1..], b[1..], c[1..]);
    }
  }

  predicate First(ids: set<Id>, id: Id) { id in ids && forall other | other in ids && other != id :: Below(id, other) }

  lemma {:induction false} FirstExists(ids: set<Id>)
    requires ids != {}
    ensures exists id :: First(ids, id)
    decreases |ids|
  {
    var x :| x in ids;
    if ids == {x} {
      assert First(ids, x);
    } else {
      FirstExists(ids - {x});
      var y :| First(ids - {x}, y);
      BelowTotal(x, y);
      if Below(x, y) {
        forall other | other in ids && other != x ensures Below(x, other) {
          if other != y {
            BelowTransitive(x, y, other);
          }
        }
        assert First(ids, x);
      } else {
        assert First(ids, y);
      }
    }
  }

  /** Each before the next. */
  predicate Ascending(ids: seq<Id>) { forall i, j | 0 <= i < j < |ids| :: Below(ids[i], ids[j]) }

  /** The identities of a set in order. */
  method Sorted(ids: set<Id>) returns (list: seq<Id>)
    ensures Ascending(list) && forall id :: id in list <==> id in ids
  {
    list := [];
    var rest := ids;
    while rest != {}
      invariant rest <= ids && Ascending(list) && (forall id :: id in list <==> id in ids && id !in rest)
      invariant forall i, id | 0 <= i < |list| && id in rest :: Below(list[i], id)
      decreases rest
    {
      FirstExists(rest);
      var id :| First(rest, id);
      list := list + [id];
      rest := rest - {id};
    }
  }
}
