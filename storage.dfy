/**
 * The browser's local key-value storage, as the application uses it:
 * string keys, string values, and the three calls getItem, setItem and
 * removeItem.
 */
module Storage {
  import opened Wrappers

  type Items = map<string, string>

  /** getItem: the stored value, or None when the key is absent. */
  function Get(items: Items, key: string): (r: Option<string>)
    ensures r.Some? <==> key in items
    ensures r.Some? ==> r.value == items[key]
  {
    if key in items then Some(items[key]) else None
  }

  /** setItem: `key` now holds `value`; every other key is untouched. */
  function Set(items: Items, key: string, value: string): (r: Items)
    ensures Get(r, key) == Some(value)
    ensures forall k :: k != key ==> Get(r, k) == Get(items, k)
    ensures r.Keys == items.Keys + {key}
  {
    items[key := value]
  }

  /** removeItem: `key` is now absent; every other key is untouched. */
  function Remove(items: Items, key: string): (r: Items)
    ensures Get(r, key) == None
    ensures forall k :: k != key ==> Get(r, k) == Get(items, k)
    ensures r.Keys == items.Keys - {key}
  {
    items - {key}
  }

  /** The storage object shared by every component. */
  class LocalStorage {
    var items: Items

    constructor (initial: Items)
      ensures items == initial
    {
      items := initial;
    }

    function GetItem(key: string): (r: Option<string>)
      reads this
      ensures r == Get(items, key)
    {
      Get(items, key)
    }

    method SetItem(key: string, value: string)
      modifies this
      ensures items == Set(old(items), key, value)
    {
      items := Set(items, key, value);
    }

    method RemoveItem(key: string)
      modifies this
      ensures items == Remove(old(items), key)
    {
      items := Remove(items, key);
    }
  }
}
