/**
 * The list operations every store of the app repeats on its records keyed by `id`:
 * `items.filter(i => i.id !== id)` and `items.map(i => i.id === id ? f(i) : i)`.
 * Generic in the record type; `key` reads a record's id.
 */
module KeyedList {

  /** `items.filter(i => key(i) !== id)`. */
  function RemoveWhere<T(==, !new)>(items: seq<T>, key: T -> string, id: string): (r: seq<T>)
    ensures |r| <= |items|
    ensures forall x :: x in r <==> x in items && key(x) != id
  {
    if items == [] then []
    else
      assert items == [items[0]] + items[1..];
      (if key(items[0]) == id then [] else [items[0]]) + RemoveWhere(items[1..], key, id)
  }

  /** Filtering works piece by piece, so the kept records stay in their original order. */
  lemma {:induction false} RemoveDistributes<T(!new)>(a: seq<T>, b: seq<T>, key: T -> string, id: string)
    ensures RemoveWhere(a + b, key, id) == RemoveWhere(a, key, id) + RemoveWhere(b, key, id)
  {
    if a != [] {
      var head := if key(a[0]) == id then [] else [a[0]];
      assert (a + b)[0] == a[0] && (a + b)[1..] == a[1..] + b;
      calc {
        RemoveWhere(a + b, key, id);
        head + RemoveWhere(a[1..] + b, key, id);
        { RemoveDistributes(a[1..], b, key, id); }
        head + (RemoveWhere(a[1..], key, id) + RemoveWhere(b, key, id));
        RemoveWhere(a, key, id) + RemoveWhere(b, key, id);
      }
    } else {
      assert a + b == b;
    }
  }

  /** Every record without the id keeps its number of copies; none with the id is left. */
  lemma {:induction false} RemoveCounts<T(!new)>(items: seq<T>, key: T -> string, id: string, x: T)
    ensures multiset(RemoveWhere(items, key, id))[x] == if key(x) == id then 0 else multiset(items)[x]
  {
    if items != [] {
      assert items == [items[0]] + items[1..];
      RemoveCounts(items[1..], key, id, x);
    }
  }

  /** Removing an id no record has leaves the list as it was. */
  lemma {:induction false} RemoveAbsent<T(!new)>(items: seq<T>, key: T -> string, id: string)
    requires forall x :: x in items ==> key(x) != id
    ensures RemoveWhere(items, key, id) == items
  {
    if items != [] {
      assert forall x :: x in items[1..] ==> x in items;
      RemoveAbsent(items[1..], key, id);
    }
  }

  /** Removing twice is removing once. */
  lemma RemoveIdempotent<T(!new)>(items: seq<T>, key: T -> string, id: string)
    ensures RemoveWhere(RemoveWhere(items, key, id), key, id) == RemoveWhere(items, key, id)
  {
    RemoveAbsent(RemoveWhere(items, key, id), key, id);
  }

  /** Appending a record and then removing its id is removing that id from the old list:
      append accepts duplicate ids, and remove takes out every copy. */
  lemma RemoveAfterAppend<T(!new)>(items: seq<T>, x: T, key: T -> string)
    ensures RemoveWhere(items + [x], key, key(x)) == RemoveWhere(items, key, key(x))
  {
    RemoveDistributes(items, [x], key, key(x));
    assert RemoveWhere([x], key, key(x)) == [];
  }

  /** `items.map(i => key(i) === id ? merge(i, u) : i)`. */
  function UpdateWhere<T, U>(items: seq<T>, key: T -> string, id: string, merge: (T, U) -> T, u: U): (r: seq<T>)
    ensures |r| == |items|
    ensures forall i :: 0 <= i < |items| ==>
              r[i] == if key(items[i]) == id then merge(items[i], u) else items[i]
  {
    if items == [] then []
    else
      [if key(items[0]) == id then merge(items[0], u) else items[0]]
      + UpdateWhere(items[1..], key, id, merge, u)
  }

  /** Updating an id no record has leaves the list as it was. */
  lemma UpdateAbsent<T, U>(items: seq<T>, key: T -> string, id: string, merge: (T, U) -> T, u: U)
    requires forall i :: 0 <= i < |items| ==> key(items[i]) != id
    ensures UpdateWhere(items, key, id, merge, u) == items
  {
  }

  /** An update that keeps the key and undoes itself when applied twice (the grocery toggle)
      restores the list when applied twice. */
  lemma UpdateTwiceRestores<T, U>(items: seq<T>, key: T -> string, id: string, merge: (T, U) -> T, u: U)
    requires forall x :: key(merge(x, u)) == key(x) && merge(merge(x, u), u) == x
    ensures UpdateWhere(UpdateWhere(items, key, id, merge, u), key, id, merge, u) == items
  {
    var once := UpdateWhere(items, key, id, merge, u);
    var twice := UpdateWhere(once, key, id, merge, u);
    forall i | 0 <= i < |items| ensures twice[i] == items[i] {
      if key(items[i]) == id {
        assert once[i] == merge(items[i], u);
      }
    }
  }
}
