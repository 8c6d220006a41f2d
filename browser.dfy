/** The two pieces of browser state the client changes in place: local storage and the current location. */
module Browser {
  import opened Util
  import opened ClientTypes

  /** `localStorage`: a key/value store shared by every part of the client. */
  class LocalStorage {
    var entries: map<string, Stored>

    constructor (initial: map<string, Stored>)
      ensures entries == initial
    {
      entries := initial;
    }

    function GetItem(key: string): (r: Option<Stored>)
      reads this
      ensures r.Some? <==> key in entries
      ensures r.Some? ==> r.value == entries[key]
    {
      if key in entries then Some(entries[key]) else None
    }

    method SetItem(key: string, value: Stored)
      modifies this
      ensures entries == old(entries)[key := value]
    {
      entries := entries[key := value];
    }

    method RemoveItem(key: string)
      modifies this
      ensures entries == old(entries) - {key}
    {
      entries := entries - {key};
    }
  }

  /** The router's current location; `setLocation` replaces it. */
  class Location {
    var path: string

    constructor (initial: string)
      ensures path == initial
    {
      path := initial;
    }

    method SetLocation(to: string)
      modifies this
      ensures path == to
    {
      path := to;
    }
  }
}
