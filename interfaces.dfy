/** The `MemoryStore` of src/13-interfaces.ts: string values by string id,
    behind the `Store` interface's `get` and `set`. */
module Interfaces {
  import opened Wrappers

  /** What `get(id)` returns from the record `data`: the stored value, or
      `undefined` for an id that was never set. */
  function Read(data: map<string, string>, id: string): (r: Option<string>)
    ensures r.Some? <==> id in data
    ensures r.Some? ==> r.value == data[id]
  {
    if id in data then Some(data[id]) else None
  }

  class MemoryStore {
    var data: map<string, string>

    constructor ()
      ensures data == map[]
    {
      data := map[];
    }

    /** A plain lookup; changes nothing. */
    method Get(id: string) returns (r: Option<string>)
      ensures r == Read(data, id)
    {
      if id in data {
        r := Some(data[id]);
      } else {
        r := None;
      }
    }

    /** Stores `value` under `id`, replacing any earlier value. */
    method Set(id: string, value: string)
      modifies this
      ensures data == old(data)[id := value]
    {
      data := data[id := value];
    }
  }

  /** `set(k, v)` followed by `get(k)` gives `v`, whatever was there before. */
  lemma ReadAfterSet(data: map<string, string>, id: string, value: string)
    ensures Read(data[id := value], id) == Some(value)
  {
  }

  /** `set` on one id leaves what every other id gives unchanged. */
  lemma SetLeavesOthers(data: map<string, string>, id: string, value: string, other: string)
    requires other != id
    ensures Read(data[id := value], other) == Read(data, other)
  {
  }

  /** A fresh store answers `undefined` for every id. */
  lemma EmptyReadsUndefined(id: string)
    ensures Read(map[], id) == None
  {
  }

  /** Lines 237-239: set "k1" to "v1", then get it back. */
  method StoreRoundTrip() returns (got: Option<string>, other: Option<string>)
    ensures got == Some("v1")
    ensures other == None
  {
    var store := new MemoryStore();
    store.Set("k1", "v1");
    got := store.Get("k1");
    assert "k2" != "k1" by { assert "k2"[1] != "k1"[1]; }
    other := store.Get("k2");
  }
}
