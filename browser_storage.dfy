/**
 * The browser's `localStorage` as the dashboard uses it: a store of text
 * values under text keys, read with `getItem`, written with `setItem` and
 * emptied with `removeItem`.
 */
module BrowserStorage {
  import opened Wrappers

  class LocalStorage {
    var items: map<string, string>

    constructor()
      ensures items == map[]
    {
      items := map[];
    }

    /** `getItem(key)`: the stored text, `null` when nothing is stored. */
    function GetItem(key: string): (r: Option<string>)
      reads this
      ensures r.Some? <==> key in items
      ensures r.Some? ==> r.value == items[key]
    {
      if key in items then Some(items[key]) else None
    }

    /** `setItem(key, value)`: only that key changes. */
    method SetItem(key: string, value: string)
      modifies this
      ensures items == old(items)[key := value]
    {
      items := items[key := value];
    }

    /** `removeItem(key)`: only that key is dropped. */
    method RemoveItem(key: string)
      modifies this
      ensures items == old(items) - {key}
    {
      items := items - {key};
    }
  }
}
