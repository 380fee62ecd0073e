/** The generic helpers and the generic list store of src/16-generics.ts. */
module Generics {
  import opened Wrappers

  /** Returns what it is given. */
  function Identity<T>(value: T): (r: T)
    ensures r == value
  {
    value
  }

  /** `items[0]`, which is `undefined` for an empty list. */
  function First<T>(items: seq<T>): (r: Option<T>)
    ensures r.None? <==> items == []
    ensures r.Some? ==> r.value == items[0]
  {
    if items == [] then None else Some(items[0])
  }

  /** An append-only list of items. */
  class MemoryStore<T> {
    var data: seq<T>

    constructor ()
      ensures data == []
    {
      data := [];
    }

    /** Appends `item` at the end. */
    method Add(item: T)
      modifies this
      ensures data == old(data) + [item]
    {
      data := data + [item];
    }

    /** A new array holding the items in insertion order. */
    method All() returns (items: array<T>)
      ensures fresh(items)
      ensures items[..] == data
    {
      items := new T[|data|](i reads this requires 0 <= i < |data| => data[i]);
    }
  }

  /** Lines 108-111: add 1 and 2, read them back in order; writing into the
      returned copy leaves the store as it was. */
  method NumberStore() returns (first: seq<int>, second: seq<int>)
    ensures first == [1, 2]
    ensures second == [1, 2]
  {
    var store := new MemoryStore<int>();
    store.Add(1);
    store.Add(2);
    var copy := store.All();
    first := copy[..];
    copy[0] := 99;
    var again := store.All();
    second := again[..];
  }
}
