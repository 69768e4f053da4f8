/**
 * The browser's localStorage as the provider uses it: a key-to-text store
 * with `getItem`, `setItem` and `removeItem`. The text stored under a key is
 * abstracted to what `JSON.parse` makes of it.
 */
module WebStorage {
  import opened Wrappers

  /**
   * A stored value, classified by what parsing it yields:
   * - Record: an object whose `timestamp` is a number (milliseconds);
   * - Untimed: text that parses, but to something without a numeric
   *   `timestamp`, so that `now - timestamp` is NaN;
   * - Text: text that `JSON.parse` rejects; `Text("")` is the empty string,
   *   which the provider treats like a missing entry; a `Text(t)` whose `t`
   *   would parse stands for no value that can be stored.
   */
  datatype Entry = Record(granted: bool, timestamp: int) | Untimed | Text(text: string)

  /** What `getItem` returns for `key`: `null` is None. */
  function Lookup(items: map<string, Entry>, key: string): Option<Entry>
  {
    if key in items then Some(items[key]) else None
  }

  class LocalStorage {
    var items: map<string, Entry>

    constructor (items: map<string, Entry>)
      ensures this.items == items
    {
      this.items := items;
    }

    method GetItem(key: string) returns (r: Option<Entry>)
      ensures r.Some? <==> key in items
      ensures r.Some? ==> r.value == items[key]
    {
      r := Lookup(items, key);
    }

    method SetItem(key: string, value: Entry)
      modifies this
      ensures items == old(items)[key := value]
    {
      items := items[key := value];
    }

    method RemoveItem(key: string)
      modifies this
      ensures items == old(items) - {key}
    {
      items := items - {key};
    }
  }
}
