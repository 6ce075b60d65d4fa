/**
 * The browser's `localStorage`: one string-to-string store shared by every
 * page. The token, the theme colour and the font size all live in it.
 */
module Storage {
  import opened Wrappers

  /** The key under which the session token is kept. */
  const TokenKey: string := "token"

  /** The value `getItem(key)` returns: the stored string, or null. */
  function Lookup(items: map<string, string>, key: string): Option<string>
  {
    if key in items then Some(items[key]) else None
  }

  class LocalStorage {
    var items: map<string, string>

    constructor (items: map<string, string>)
      ensures this.items == items
    {
      this.items := items;
    }

    method GetItem(key: string) returns (value: Option<string>)
      ensures value.Some? <==> key in items
      ensures value.Some? ==> value.value == items[key]
    {
      value := Lookup(items, key);
    }

    /** Writes one key; every other key keeps its value. */
    method SetItem(key: string, value: string)
      modifies this
      ensures items == old(items)[key := value]
    {
      items := items[key := value];
    }

    /** Removes one key if it is present; every other key keeps its value. */
    method RemoveItem(key: string)
      modifies this
      ensures items == old(items) - {key}
    {
      items := items - {key};
    }
  }
}
