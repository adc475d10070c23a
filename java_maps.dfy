/** A `java.util.HashMap<String, Object>` that is changed in place: the Boleto map
    constructor copies the caller's entries into one and drains it. */
module JavaMaps {
  import opened JavaValues

  class HashMap {
    var entries: map<string, Value>

    /** `new HashMap<>(data)`: a fresh map holding the caller's entries. */
    constructor (data: map<string, Value>)
      ensures entries == data
    {
      entries := data;
    }

    /** `remove(key)`: takes the entry out and returns its value, or null when absent. */
    method Remove(key: string) returns (previous: Value)
      modifies this
      ensures entries == old(entries) - {key}
      ensures previous == Lookup(old(entries), key)
    {
      previous := Lookup(entries, key);
      entries := entries - {key};
    }

    /** `isEmpty()`. */
    method IsEmpty() returns (empty: bool)
      ensures empty <==> entries.Keys == {}
    {
      empty := |entries| == 0;
    }

    /** `keySet()`: the keys the map still holds. */
    function KeySet(): (keys: set<string>)
      reads this
      ensures forall k :: k in keys <==> k in entries
    {
      entries.Keys
    }
  }
}
