/** The persistent key/value store (AsyncStorage) as the core sees it: string
    keys, string values, and calls that may raise. */
module Storage {
  import opened Wrappers

  const UserEmailKey := "userEmail"
  const ContactEmailKey := "contactEmail"
  const ContactPhoneKey := "contactPhone"
  const IsConfiguredKey := "isConfigured"

  /** Message of the error a failing storage call raises. */
  const StorageFailure := "storage error"

  /** The store's contents, and the keys whose reads and writes raise. */
  datatype Snapshot = Snapshot(items: map<string, string>, failing: set<string>) {

    /** `getItem(key)`: the stored string, `null` when absent, or an error. */
    function Get(key: string): (r: Reply<Option<string>>)
      ensures r.Raise? <==> key in failing
      ensures r == Ok(None) <==> key !in failing && key !in items
      ensures r.Ok? && r.value.Some? ==> key in items && r.value.value == items[key]
    {
      if key in failing then Raise(StorageFailure)
      else if key in items then Ok(Some(items[key]))
      else Ok(None)
    }
  }

  /** JavaScript truthiness of a stored value: present and not the empty
      string. */
  predicate Truthy(v: Option<string>)
  {
    v.Some? && v.value != ""
  }

  /** A read that settled with a truthy value. */
  predicate Present(r: Reply<Option<string>>)
  {
    r.Ok? && Truthy(r.value)
  }

  /** The device's store, shared by every part of the app. */
  class AsyncStorage {
    var state: Snapshot

    constructor (initial: Snapshot)
      ensures state == initial
    {
      state := initial;
    }

    /** `setItem(key, value)`: writes one key, or raises and writes nothing. */
    method SetItem(key: string, value: string) returns (r: Reply<()>)
      modifies this
      ensures state.failing == old(state.failing)
      ensures r.Raise? <==> key in state.failing
      ensures r.Raise? ==> state.items == old(state.items)
      ensures r.Ok? ==> state.items == old(state.items)[key := value]
    {
      if key in state.failing {
        r := Raise(StorageFailure);
      } else {
        state := state.(items := state.items[key := value]);
        r := Ok(());
      }
    }
  }
}
