/** Browser key/value storage (localStorage, sessionStorage) as a map that methods update in place. */
module Storage {
  import opened Wrappers

  function Lookup(m: map<string, string>, key: string): (r: Option<string>)
    ensures r.Some? <==> key in m
    ensures r.Some? ==> r.value == m[key]
  {
    if key in m then Some(m[key]) else None
  }

  class KeyValueStore {
    var items: map<string, string>

    constructor (initial: map<string, string>)
      ensures items == initial
    {
      items := initial;
    }

    /** getItem: the stored string, or null. */
    method GetItem(key: string) returns (v: Option<string>)
      ensures v == Lookup(items, key)
    {
      v := Lookup(items, key);
    }

    /** setItem: stores `value` under `key`; every other key keeps its value. */
    method SetItem(key: string, value: string)
      modifies this
      ensures items == old(items)[key := value]
    {
      items := items[key := value];
    }

    /** removeItem: `key` is gone; every other key keeps its value. Removing a missing key is a no-op. */
    method RemoveItem(key: string)
      modifies this
      ensures items == old(items) - {key}
    {
      items := items - {key};
    }

    /** clear: every key is gone. */
    method Clear()
      modifies this
      ensures items == map[]
    {
      items := map[];
    }
  }
}
