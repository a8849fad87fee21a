/**
 * The array operations the store is built from, generic in the record type:
 * a record is seen through `key`, the function that reads its id (or, for
 * `Occurs`, one of its foreign keys).
 *
 *   NextId       `items.length > 0 ? Math.max(...items.map(i => i.id)) + 1 : 1`
 *   Occurs       `items.some(x => field(x) === v)`
 *   Remove       `items.filter(x => x.id !== id)`
 *   UpdateWhere  `items.map(x => x.id === id ? merge(x, p) : x)`
 *   Find         `items.find(x => x.id === id)`
 */
module Collections {
  import opened Options

  /** Some element of `items` has `field` equal to `v`. */
  function Occurs<T>(items: seq<T>, field: T -> int, v: int): (b: bool)
    ensures b <==> exists x :: x in items && field(x) == v
  {
    if items == [] then false
    else field(items[0]) == v || Occurs(items[1..], field, v)
  }

  /** The largest key of a non-empty sequence (`Math.max` over the ids). */
  function MaxKey<T>(items: seq<T>, key: T -> int): (m: int)
    requires items != []
    ensures forall x :: x in items ==> key(x) <= m
    ensures exists x :: x in items && key(x) == m
  {
    if |items| == 1 then key(items[0])
    else
      var rest := MaxKey(items[1..], key);
      assert forall x :: x in items[1..] ==> x in items;
      if key(items[0]) >= rest then key(items[0]) else rest
  }

  /** The id given to the next record appended to `items`. */
  function NextId<T>(items: seq<T>, key: T -> int): (r: int)
    ensures items == [] ==> r == 1
    ensures items != [] ==> exists x :: x in items && r == key(x) + 1
    ensures forall x :: x in items ==> key(x) < r
  {
    if |items| > 0 then MaxKey(items, key) + 1 else 1
  }

  /** No two records share an id. */
  predicate UniqueIds<T>(items: seq<T>, key: T -> int)
  {
    forall i, j :: 0 <= i < j < |items| ==> key(items[i]) != key(items[j])
  }

  /** Every record whose id is not `id`, in their original order. */
  function Remove<T>(items: seq<T>, key: T -> int, id: int): (r: seq<T>)
    ensures |r| <= |items|
    ensures forall x :: x in r ==> x in items && key(x) != id
    ensures forall x :: x in items && key(x) != id ==> x in r
    ensures (forall x :: x in items ==> key(x) != id) ==> r == items
  {
    if items == [] then []
    else (if key(items[0]) == id then [] else [items[0]]) + Remove(items[1..], key, id)
  }

  /** Each record whose id is `id` merged with `p`; every other record as it was. */
  function UpdateWhere<T, P>(items: seq<T>, key: T -> int, id: int, merge: (T, P) -> T, p: P): (r: seq<T>)
    ensures |r| == |items|
    ensures forall i :: 0 <= i < |items| ==>
              r[i] == (if key(items[i]) == id then merge(items[i], p) else items[i])
  {
    if items == [] then []
    else [if key(items[0]) == id then merge(items[0], p) else items[0]]
         + UpdateWhere(items[1..], key, id, merge, p)
  }

  /** The first record whose id is `id`, if there is one. */
  function Find<T>(items: seq<T>, key: T -> int, id: int): (r: Option<T>)
    ensures r.None? <==> forall x :: x in items ==> key(x) != id
    ensures r.Some? ==>
              exists i :: 0 <= i < |items| && items[i] == r.value && key(items[i]) == id
                          && forall j :: 0 <= j < i ==> key(items[j]) != id
  {
    if items == [] then None
    else if key(items[0]) == id then Some(items[0])
    else
      var r := Find(items[1..], key, id);
      assert forall x :: x in items[1..] ==> x in items;
      if r.Some? then
        ghost var i :| 0 <= i < |items[1..]| && items[1..][i] == r.value && key(items[1..][i]) == id
                       && forall j :: 0 <= j < i ==> key(items[1..][j]) != id;
        assert items[i + 1] == r.value && forall j :: 0 <= j < i + 1 ==> key(items[j]) != id;
        r
      else r
  }

  // ---------------------------------------------------------------------
  // Properties
  // ---------------------------------------------------------------------

  /** A record appended with an id no earlier record has is what a lookup of that id finds. */
  lemma {:induction false} FindAppendedFresh<T>(items: seq<T>, key: T -> int, x: T)
    requires forall y :: y in items ==> key(y) != key(x)
    ensures Find(items + [x], key, key(x)) == Some(x)
  {
    if items != [] {
      assert (items + [x])[1..] == items[1..] + [x];
      FindAppendedFresh(items[1..], key, x);
    }
  }

  /** Appending a record with the next id keeps ids unique. */
  lemma AppendNextIdKeepsUnique<T>(items: seq<T>, key: T -> int, x: T)
    requires UniqueIds(items, key)
    requires key(x) == NextId(items, key)
    ensures UniqueIds(items + [x], key)
  {
    forall i, j | 0 <= i < j < |items + [x]|
      ensures key((items + [x])[i]) != key((items + [x])[j])
    {
      assert (items + [x])[i] == items[i] && items[i] in items;
    }
  }

  /** Filtering a single record keeps it exactly when its id differs from the target. */
  lemma RemoveSingle<T>(x: T, key: T -> int, id: int)
    ensures Remove([x], key, id) == if key(x) == id then [] else [x]
  {
    assert [x][1..] == [];
  }

  /** Concatenation is associative. */
  lemma AppendAssoc<T>(x: seq<T>, y: seq<T>, z: seq<T>)
    ensures (x + y) + z == x + (y + z)
  {
  }

  /** Filtering a sequence with a known first record. */
  lemma RemoveCons<T>(h: T, t: seq<T>, key: T -> int, id: int)
    ensures Remove([h] + t, key, id) == Remove([h], key, id) + Remove(t, key, id)
  {
    assert ([h] + t)[0] == h && ([h] + t)[1..] == t;
    RemoveSingle(h, key, id);
  }

  /**
   * Filtering distributes over concatenation. With `RemoveSingle` this pins
   * `Remove` down to an order-preserving filter.
   */
  lemma {:induction false} RemoveConcat<T>(a: seq<T>, b: seq<T>, key: T -> int, id: int)
    ensures Remove(a + b, key, id) == Remove(a, key, id) + Remove(b, key, id)
  {
    if a == [] {
      assert a + b == b;
    } else {
      var h, t := a[0], a[1..];
      assert a == [h] + t;
      AppendAssoc([h], t, b);
      RemoveCons(h, t + b, key, id);
      RemoveConcat(t, b, key, id);
      RemoveCons(h, t, key, id);
      AppendAssoc(Remove([h], key, id), Remove(t, key, id), Remove(b, key, id));
    }
  }

  /** The tail of a sequence with unique ids has unique ids, none of them the head's. */
  lemma TailUnique<T>(items: seq<T>, key: T -> int)
    requires items != [] && UniqueIds(items, key)
    ensures UniqueIds(items[1..], key)
    ensures forall x :: x in items[1..] ==> key(x) != key(items[0])
  {
    var rest := items[1..];
    forall i, j | 0 <= i < j < |rest| ensures key(rest[i]) != key(rest[j]) {
      assert rest[i] == items[i + 1] && rest[j] == items[j + 1];
    }
    forall x | x in rest ensures key(x) != key(items[0]) {
      var m :| 0 <= m < |rest| && rest[m] == x;
      assert items[m + 1] == x;
    }
  }

  /** Putting a record in front of records with other ids keeps ids unique. */
  lemma ConsKeepsUnique<T>(h: T, tail: seq<T>, key: T -> int)
    requires UniqueIds(tail, key)
    requires forall x :: x in tail ==> key(x) != key(h)
    ensures UniqueIds([h] + tail, key)
  {
    var r := [h] + tail;
    forall i, j | 0 <= i < j < |r| ensures key(r[i]) != key(r[j]) {
      assert r[j] == tail[j - 1];
      if i > 0 {
        assert r[i] == tail[i - 1];
      }
    }
  }

  /** Removing records keeps ids unique. */
  lemma {:induction false} RemoveKeepsUnique<T>(items: seq<T>, key: T -> int, id: int)
    requires UniqueIds(items, key)
    ensures UniqueIds(Remove(items, key, id), key)
  {
    if items != [] {
      TailUnique(items, key);
      RemoveKeepsUnique(items[1..], key, id);
      var tail := Remove(items[1..], key, id);
      if key(items[0]) != id {
        assert Remove(items, key, id) == [items[0]] + tail;
        ConsKeepsUnique(items[0], tail, key);
      } else {
        assert Remove(items, key, id) == tail;
      }
    }
  }

  /** A surviving id still resolves after a removal exactly when it did before. */
  lemma RemoveKeepsOtherIds<T>(items: seq<T>, key: T -> int, id: int, v: int)
    requires v != id
    ensures Occurs(Remove(items, key, id), key, v) == Occurs(items, key, v)
  {
    if Occurs(items, key, v) {
      var x :| x in items && key(x) == v;
      assert x in Remove(items, key, id);
    }
  }

  /** An update whose merge keeps the matched id keeps ids unique. */
  lemma UpdateKeepsUnique<T, P>(items: seq<T>, key: T -> int, id: int, merge: (T, P) -> T, p: P)
    requires UniqueIds(items, key)
    requires forall x :: key(x) == id ==> key(merge(x, p)) == id
    ensures UniqueIds(UpdateWhere(items, key, id, merge, p), key)
  {
    var r := UpdateWhere(items, key, id, merge, p);
    forall i | 0 <= i < |items| ensures key(r[i]) == key(items[i]) {
    }
  }

  /** Updating an id no record has changes nothing. */
  lemma UpdateAbsentIsNoop<T, P>(items: seq<T>, key: T -> int, id: int, merge: (T, P) -> T, p: P)
    ensures (forall x :: x in items ==> key(x) != id) ==> UpdateWhere(items, key, id, merge, p) == items
  {
    if forall x :: x in items ==> key(x) != id {
      var r := UpdateWhere(items, key, id, merge, p);
      forall i | 0 <= i < |items| ensures r[i] == items[i] {
        assert items[i] in items;
      }
    }
  }

  /** When a second merge overrides everything the first one wrote, the second update alone gives the same collection. */
  lemma UpdateOverridden<T, P>(items: seq<T>, key: T -> int, id: int, merge: (T, P) -> T, p: P, q: P)
    requires forall x :: key(x) == id ==> key(merge(x, p)) == id
    requires forall x :: merge(merge(x, p), q) == merge(x, q)
    ensures UpdateWhere(UpdateWhere(items, key, id, merge, p), key, id, merge, q)
            == UpdateWhere(items, key, id, merge, q)
  {
    var once := UpdateWhere(items, key, id, merge, p);
    var twice := UpdateWhere(once, key, id, merge, q);
    var direct := UpdateWhere(items, key, id, merge, q);
    forall i | 0 <= i < |items| ensures twice[i] == direct[i] {
    }
  }

  /** After an update that keeps the matched id, a lookup finds the merged first match. */
  lemma {:induction false} FindAfterUpdate<T, P>(items: seq<T>, key: T -> int, id: int, merge: (T, P) -> T, p: P)
    requires forall x :: key(x) == id ==> key(merge(x, p)) == id
    ensures Find(UpdateWhere(items, key, id, merge, p), key, id)
            == (match Find(items, key, id)
                case None => None
                case Some(x) => Some(merge(x, p)))
  {
    if items != [] {
      var r := UpdateWhere(items, key, id, merge, p);
      assert r[1..] == UpdateWhere(items[1..], key, id, merge, p);
      FindAfterUpdate(items[1..], key, id, merge, p);
    }
  }

  /** With unique ids, the lookup of a member's id finds that member. */
  lemma FindUnique<T>(items: seq<T>, key: T -> int, x: T)
    requires UniqueIds(items, key)
    requires x in items
    ensures Find(items, key, key(x)) == Some(x)
  {
    var k :| 0 <= k < |items| && items[k] == x;
    var r := Find(items, key, key(x));
    var i :| 0 <= i < |items| && items[i] == r.value && key(items[i]) == key(x)
             && forall j :: 0 <= j < i ==> key(items[j]) != key(x);
    assert i == k;
  }

  /** Removing the id of a freshly appended record gives back the collection before the append. */
  lemma {:induction false} RemoveAppendedFresh<T>(items: seq<T>, key: T -> int, x: T)
    requires forall y :: y in items ==> key(y) != key(x)
    ensures Remove(items + [x], key, key(x)) == items
  {
    if items == [] {
      assert items + [x] == [x];
    } else {
      var h, t := items[0], items[1..];
      assert items + [x] == [h] + (t + [x]);
      assert ([h] + (t + [x]))[0] == h && ([h] + (t + [x]))[1..] == t + [x];
      RemoveAppendedFresh(t, key, x);
      assert items == [h] + t;
    }
  }
}
