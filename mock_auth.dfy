// The demo-mode user id of src/utils/mockAuth.ts: the same write-through
// cache as the auth token, over the `currentUserId` storage key.

module MockAuth {
  import opened Js
  import BrowserStorage

  const CurrentUserKey := "currentUserId"

  /** `setCurrentUserId(userId)` */
  method SetCurrentUserId(cache: BrowserStorage.CachedValue, userId: string)
    requires cache.key == CurrentUserKey
    modifies cache, cache.store
    ensures cache.memory == Some(userId) && cache.store.items == old(cache.store.items)[CurrentUserKey := userId]
  {
    cache.Set(userId);
  }

  /** `getCurrentUserId()` */
  method GetCurrentUserId(cache: BrowserStorage.CachedValue) returns (userId: Option<string>)
    requires cache.key == CurrentUserKey
    modifies cache
    ensures userId == BrowserStorage.CachedRead(old(cache.memory), cache.store.items, CurrentUserKey)
    ensures cache.memory == userId && cache.store.items == old(cache.store.items)
  {
    userId := cache.Get();
  }

  /** `clearCurrentUserId()` */
  method ClearCurrentUserId(cache: BrowserStorage.CachedValue)
    requires cache.key == CurrentUserKey
    modifies cache, cache.store
    ensures cache.memory == None && cache.store.items == old(cache.store.items) - {CurrentUserKey}
  {
    cache.Clear();
  }

  /** A set followed by a get returns the id that was set. */
  method SetThenGet(cache: BrowserStorage.CachedValue, userId: string) returns (read: Option<string>)
    requires cache.key == CurrentUserKey
    modifies cache, cache.store
    ensures read == Some(userId)
  {
    SetCurrentUserId(cache, userId);
    read := GetCurrentUserId(cache);
  }

  /** A clear followed by a get finds no id, even one stored before. */
  method ClearThenGet(cache: BrowserStorage.CachedValue) returns (read: Option<string>)
    requires cache.key == CurrentUserKey
    modifies cache, cache.store
    ensures read == None
  {
    ClearCurrentUserId(cache);
    read := GetCurrentUserId(cache);
  }
}
