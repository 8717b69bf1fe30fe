/**
 * The device's key/value store (AsyncStorage), shared by the session manager, the export
 * service and the security screen. One object stands for the one store every component
 * reads and writes, so a `Clear` by one is seen by all.
 */
module Storage {
  import opened Outcomes

  const TokenKey: string := "@token"
  const UserKey: string := "@user"
  const BiometricKey: string := "@biometriaEnabled"

  /** `getItem(key)` on the store's contents: null (None) for a key never set. */
  function Lookup(entries: map<string, string>, key: string): (r: Option<string>)
    ensures r.Some? <==> key in entries
    ensures r.Some? ==> r.value == entries[key]
  {
    if key in entries then Some(entries[key]) else None
  }

  class KeyValueStore {
    var entries: map<string, string>

    constructor (initial: map<string, string>)
      ensures entries == initial
    {
      entries := initial;
    }

    method GetItem(key: string) returns (v: Option<string>)
      ensures v == Lookup(entries, key)
    {
      v := Lookup(entries, key);
    }

    method SetItem(key: string, value: string)
      modifies this
      ensures entries == old(entries)[key := value]
    {
      entries := entries[key := value];
    }

    /** Wipes every key, including keys other components wrote. */
    method Clear()
      modifies this
      ensures entries == map[]
    {
      entries := map[];
    }
  }
}
