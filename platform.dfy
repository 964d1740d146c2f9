/** The two pieces of the device the app's core talks to: the key-value store
    that survives restarts, and the router that replaces the current screen. */
module Platform {
  import opened Values

  /** A stored string. `Json(o)` is the stringified form of the object `o`
      (parsing it gives `o` back); `Text(s)` is any other string. */
  datatype Entry = Text(text: string) | Json(obj: Obj)

  /** `if (stored)`: a stringified object is never the empty string. */
  predicate EntryTruthy(e: Option<Entry>)
  {
    e.Some? && (e.value.Json? || e.value.text != "")
  }

  /** `getItem(key)`: the stored string, or null when the key is absent. */
  function Lookup(entries: map<string, Entry>, key: string): (r: Option<Entry>)
    ensures r.Some? <==> key in entries
    ensures r.Some? ==> r.value == entries[key]
  {
    if key in entries then Some(entries[key]) else None
  }

  /** The device's persistent key-value store. Whether a call throws is decided
      by the caller; these methods are the calls that succeed. */
  class Storage {
    var entries: map<string, Entry>

    constructor (initial: map<string, Entry>)
      ensures entries == initial
    {
      entries := initial;
    }

    method GetItem(key: string) returns (e: Option<Entry>)
      ensures e == Lookup(entries, key)
    {
      e := if key in entries then Some(entries[key]) else None;
    }

    method SetItem(key: string, e: Entry)
      modifies this
      ensures entries == old(entries)[key := e]
    {
      entries := entries[key := e];
    }

    method MultiSet(k1: string, e1: Entry, k2: string, e2: Entry)
      modifies this
      ensures entries == old(entries)[k1 := e1][k2 := e2]
    {
      entries := entries[k1 := e1];
      entries := entries[k2 := e2];
    }

    method MultiRemove(k1: string, k2: string)
      modifies this
      ensures entries == old(entries) - {k1, k2}
    {
      entries := entries - {k1, k2};
    }
  }

  /** What a launch component renders: a loading spinner, nothing, or a
      navigation stack with the named screens registered. */
  datatype View = Spinner | Blank | Stack(screens: seq<string>)

  /** The storage key of the onboarding flag. */
  const ViewedOnboardingKey := "@viewedOnboarding"

  /** The navigator: the paths passed to `router.replace`, oldest first. */
  class Router {
    var replaced: seq<string>

    constructor ()
      ensures replaced == []
    {
      replaced := [];
    }

    method Replace(path: string)
      modifies this
      ensures replaced == old(replaced) + [path]
    {
      replaced := replaced + [path];
    }
  }
}
