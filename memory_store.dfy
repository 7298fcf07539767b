/**
 * The in-memory key/value store that stands in for localStorage
 * (app.js `MemoryDB`). One object, shared by every view, whose `data`
 * dictionary is written in place.
 */
module MemoryStore {

  class MemoryDB<V> {
    /** The `data` object: every key that has been `set`, with its value. */
    var data: map<string, V>

    /** `data: {}` */
    constructor ()
      ensures data == map[]
    {
      data := map[];
    }

    /**
     * `get(key, fallback)`: the stored value when the key is present,
     * otherwise the fallback. A function of the store, so it changes nothing.
     */
    function Get(key: string, fallback: V): (v: V)
      reads this
      ensures key in data ==> v == data[key]
      ensures key !in data ==> v == fallback
    {
      if key in data then data[key] else fallback
    }

    /** `set(key, val)`: inserts or replaces one mapping, unconditionally. */
    method Set(key: string, val: V)
      modifies this
      ensures data == old(data)[key := val]
      ensures forall fallback :: Get(key, fallback) == val
      ensures forall k, fallback :: k != key ==>
        Get(k, fallback) == if k in old(data) then old(data)[k] else fallback
    {
      data := data[key := val];
    }
  }
}
