/** The device's `localStorage`: one key-value store shared by every part of
    the app. Its operations never fail here; the callers that guard a storage
    call with `try` take the failure as a parameter. */
module BrowserStorage {
  import opened Wrappers

  class LocalStorage<V> {
    var items: map<string, V>

    constructor (initial: map<string, V>)
      ensures items == initial
    {
      items := initial;
    }

    /** `getItem`: null for a missing key. */
    function GetItem(key: string): (r: Option<V>)
      reads this
      ensures r.Some? <==> key in items
      ensures r.Some? ==> r.value == items[key]
    {
      if key in items then Some(items[key]) else None
    }

    method SetItem(key: string, value: V)
      modifies this
      ensures items == old(items)[key := value]
    {
      items := items[key := value];
    }

    method RemoveItem(key: string)
      modifies this
      ensures items == old(items) - {key}
    {
      items := items - {key};
    }

    method Clear()
      modifies this
      ensures items == map[]
    {
      items := map[];
    }
  }
}
