/** The device's key/value store (React Native's AsyncStorage), as a
    finite map from keys to string values that the screens read and
    update in place. */
module Storage {
  import opened Base

  /** `getItem(key)` on a snapshot of the store: `null` for a missing key. */
  function Lookup(items: map<string, string>, key: string): (v: Option<string>)
    ensures v.Some? <==> key in items
    ensures v.Some? ==> v.value == items[key]
  {
    if key in items then Some(items[key]) else None
  }

  /** The keys listed in `keys`, as a set. */
  function KeySet(keys: seq<string>): (ks: set<string>)
    ensures forall k :: k in ks <==> k in keys
  {
    set k | k in keys
  }

  class AsyncStore {
    var items: map<string, string>

    constructor (initial: map<string, string>)
      ensures items == initial
    {
      items := initial;
    }

    method GetItem(key: string) returns (v: Option<string>)
      ensures v == Lookup(items, key)
    {
      v := if key in items then Some(items[key]) else None;
    }

    method SetItem(key: string, value: string)
      modifies this
      ensures items == old(items)[key := value]
    {
      items := items[key := value];
    }

    method RemoveItem(key: string)
      modifies this
      ensures items == old(items) - {key}
    {
      items := items - {key};
    }

    /** `multiRemove(keys)`: removes each listed key, one after the other;
        every other entry keeps its value. */
    method MultiRemove(keys: seq<string>)
      modifies this
      ensures items == old(items) - KeySet(keys)
    {
      var i := 0;
      while i < |keys|
        invariant 0 <= i <= |keys|
        invariant items == old(items) - KeySet(keys[..i])
      {
        items := items - {keys[i]};
        assert KeySet(keys[..i + 1]) == KeySet(keys[..i]) + {keys[i]} by {
          assert keys[..i + 1] == keys[..i] + [keys[i]];
        }
        i := i + 1;
      }
      assert keys[..i] == keys;
    }
  }
}
