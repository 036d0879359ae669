/**
 * Device-local key/value storage (AsyncStorage) as a string-to-string map.
 * The app persists one key, `user_id`.
 */
module Storage {
  import opened Wrappers

  const UserIdKey := "user_id"

  /** What an awaited `getItem` yields: the stored string or null, or a rejection. */
  datatype Read = Value(item: Option<string>) | ReadFailed

  /** `!!id` for what `getItem` returned: a stored, non-empty string. */
  predicate Present(item: Option<string>) {
    item.Some? && item.value != ""
  }

  /** The stored identity a cold start would accept. */
  predicate HasToken(entries: map<string, string>) {
    UserIdKey in entries && entries[UserIdKey] != ""
  }

  class KeyValueStore {
    var entries: map<string, string>

    constructor (initial: map<string, string>)
      ensures entries == initial
    {
      entries := initial;
    }

    /** `getItem(key)`; `fails` says whether the storage rejects this read. */
    method GetItem(key: string, fails: bool) returns (r: Read)
      ensures fails ==> r == ReadFailed
      ensures !fails ==> r.Value? && (r.item.Some? <==> key in entries)
      ensures !fails && key in entries ==> r.item.value == entries[key]
    {
      if fails {
        r := ReadFailed;
      } else if key in entries {
        r := Value(Some(entries[key]));
      } else {
        r := Value(None);
      }
    }

    /** `setItem(key, value)` */
    method SetItem(key: string, value: string)
      modifies this
      ensures entries == old(entries)[key := value]
    {
      entries := entries[key := value];
    }

    /** `removeItem(key)`: every other entry stays. */
    method RemoveItem(key: string)
      modifies this
      ensures entries == old(entries) - {key}
    {
      entries := entries - {key};
    }
  }
}
