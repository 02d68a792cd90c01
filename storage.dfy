/** The device key-value stores (expo SecureStore and AsyncStorage): one map from
    key to stored value. A stored value is either plain text or a record that
    `JSON.stringify` wrote; `JSON.parse` of a record's text gives the record
    back. Plain text is read as holding no record; JSON values of other shapes
    are not represented. */
module Storage {
  import opened Wrappers
  import opened Types

  datatype Stored =
    | Text(s: string)
    | WalletJson(wallet: Wallet)
    | UserJson(user: User)
    | UsersJson(users: seq<StoredUser>)
    | CredentialsJson(credentials: Credentials)

  /** `if (value)`: only the empty string is a falsy stored value. */
  predicate Truthy(v: Stored) {
    v != Text("")
  }

  /** One store. `writable` says whether the device accepts writes and deletes;
      when it does not, every write or delete rejects and changes nothing. */
  class KeyValueStore {
    var entries: map<string, Stored>
    var writable: bool

    constructor (initial: map<string, Stored>, acceptsWrites: bool)
      ensures entries == initial && writable == acceptsWrites
    {
      entries := initial;
      writable := acceptsWrites;
    }

    /** `getItem(key)`, `None` for `null`. */
    function Get(key: string): (r: Option<Stored>)
      reads this
      ensures r.Some? <==> key in entries
      ensures r.Some? ==> r.value == entries[key]
    {
      if key in entries then Some(entries[key]) else None
    }

    /** `setItem(key, value)`: resolves (`ok`) and overwrites the key, or rejects. */
    method SetItem(key: string, value: Stored) returns (ok: bool)
      modifies this
      ensures ok == writable && writable == old(writable)
      ensures entries == if ok then old(entries)[key := value] else old(entries)
    {
      ok := writable;
      if ok {
        entries := entries[key := value];
      }
    }

    /** `removeItem(key)` / `deleteItemAsync(key)`. */
    method RemoveItem(key: string) returns (ok: bool)
      modifies this
      ensures ok == writable && writable == old(writable)
      ensures entries == if ok then old(entries) - {key} else old(entries)
    {
      ok := writable;
      if ok {
        entries := entries - {key};
      }
    }
  }
}
