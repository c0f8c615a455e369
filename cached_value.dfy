// The browser's `localStorage`, shared by reference between the client
// modules, and the pattern src/utils/api.ts (the auth token) and
// src/utils/mockAuth.ts (the current user id) both follow: a module-level
// variable in front of one storage key, written through on set, filled
// lazily on get while it is falsy, and emptied together with the key on clear.

module BrowserStorage {
  import opened Js

  class LocalStorage {
    var items: map<string, string>

    constructor()
      ensures items == map[]
    {
      items := map[];
    }

    /** `localStorage.getItem(key)`: null for a missing key. */
    function GetItem(key: string): (v: Option<string>)
      reads this
      ensures v.Some? <==> key in items
      ensures v.Some? ==> v.value == items[key]
    {
      if key in items then Some(items[key]) else None
    }

    method SetItem(key: string, value: string)
      modifies this
      ensures items == old(items)[key := value]
    {
      items := items[key := value];
    }

    method RemoveItem(key: string)
      modifies this
      ensures items == old(items) - {key}
    {
      items := items - {key};
    }
  }

  /** What a get returns from a cache holding `memory` over storage `items`. */
  function CachedRead(memory: Option<string>, items: map<string, string>, key: string): (v: Option<string>)
    ensures TruthyText(memory) ==> v == memory
    ensures !TruthyText(memory) ==> (v.Some? <==> key in items) && (key in items ==> v == Some(items[key]))
  {
    if TruthyText(memory) then memory else if key in items then Some(items[key]) else None
  }

  /** After a set, a read returns what was set, whether memory or storage answers it. */
  lemma ReadAfterSet(key: string, value: string, items: map<string, string>)
    ensures CachedRead(Some(value), items[key := value], key) == Some(value)
  {
  }

  /** After a clear, a read finds nothing, however the cache was filled before. */
  lemma ReadAfterClear(key: string, items: map<string, string>)
    ensures CachedRead(None, items - {key}, key) == None
  {
  }

  /** A read leaves the cache answering the same value again. */
  lemma ReadIsStable(memory: Option<string>, items: map<string, string>, key: string)
    ensures CachedRead(CachedRead(memory, items, key), items, key) == CachedRead(memory, items, key)
  {
  }

  class CachedValue {
    /** The module-level variable. */
    var memory: Option<string>
    const store: LocalStorage
    const key: string

    constructor(store: LocalStorage, key: string)
      ensures this.store == store && this.key == key && memory == None
    {
      this.store := store;
      this.key := key;
      memory := None;
    }

    /** What `Get` would answer now. */
    function Current(): (v: Option<string>)
      reads this, store
    {
      CachedRead(memory, store.items, key)
    }

    /** Writes memory and storage. */
    method Set(value: string)
      modifies this, store
      ensures memory == Some(value) && store.items == old(store.items)[key := value]
      ensures Current() == Some(value)
    {
      memory := Some(value);
      store.SetItem(key, value);
    }

    /** Answers from memory, loading it from storage while it is falsy. */
    method Get() returns (v: Option<string>)
      modifies this
      ensures v == old(Current()) && memory == v
      ensures store.items == old(store.items)
    {
      if !TruthyText(memory) {
        memory := store.GetItem(key);
      }
      v := memory;
    }

    /** Empties memory and removes the key. */
    method Clear()
      modifies this, store
      ensures memory == None && store.items == old(store.items) - {key}
      ensures Current() == None
    {
      memory := None;
      store.RemoveItem(key);
    }
  }
}
