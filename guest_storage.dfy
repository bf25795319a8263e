// `clearGuestChats`, run when a logged-in identity is detected: the guest
// index and every per-thread guest entry are removed; guest threads are
// discarded, not migrated to the server.
module GuestStorage {
  import opened Text
  import opened LocalStore

  /** A key the guest mode owns: the index or a per-thread entry. */
  predicate IsGuestKey(k: string) {
    k == IndexKey || StartsWith(k, ChatKeyPrefix)
  }

  /** The store with every guest key removed and every other key as it was. */
  function WithoutGuestData(m: map<string, Value>): (r: map<string, Value>)
    ensures IndexKey !in r
    ensures forall k :: k in r ==> !StartsWith(k, ChatKeyPrefix)
    ensures forall k :: k in m && !IsGuestKey(k) ==> k in r && r[k] == m[k]
    ensures r.Keys <= m.Keys
  {
    map k | k in m && !IsGuestKey(k) :: m[k]
  }

  /** Clearing twice is the same as clearing once. */
  lemma ClearIsIdempotent(m: map<string, Value>)
    ensures WithoutGuestData(WithoutGuestData(m)) == WithoutGuestData(m)
  {
  }

  /** After clearing, the guest reads find no threads and no messages. */
  lemma ClearedStoreIsEmptyForGuest(m: map<string, Value>, threadId: string)
    ensures TempThreads(WithoutGuestData(m)) == []
    ensures TempChats(WithoutGuestData(m), threadId) == []
  {
  }

  /** `clearGuestChats()`: drop the index, collect the keys that start with the
      chat prefix while enumerating the store, then remove them one by one.
      The enumeration order is whatever the store yields; the result is the
      same for every order. */
  method ClearGuestChats(ls: Storage)
    modifies ls
    ensures ls.items == WithoutGuestData(old(ls.items))
  {
    ls.RemoveItem(IndexKey);
    ghost var afterIndex := ls.items;
    var keysToRemove: seq<string> := [];
    var pending := ls.items.Keys;
    while pending != {}
      invariant ls.items == afterIndex
      invariant pending <= afterIndex.Keys
      invariant forall k :: k in keysToRemove ==> k in afterIndex && StartsWith(k, ChatKeyPrefix)
      invariant forall k :: k in afterIndex && StartsWith(k, ChatKeyPrefix) ==> k in keysToRemove || k in pending
      decreases pending
    {
      var key :| key in pending;
      if StartsWith(key, ChatKeyPrefix) {
        keysToRemove := keysToRemove + [key];
      }
      pending := pending - {key};
    }
    var i := 0;
    while i < |keysToRemove|
      invariant 0 <= i <= |keysToRemove|
      invariant ls.items == map k | k in afterIndex && k !in keysToRemove[..i] :: afterIndex[k]
    {
      ls.RemoveItem(keysToRemove[i]);
      assert keysToRemove[..i + 1] == keysToRemove[..i] + [keysToRemove[i]];
      i := i + 1;
    }
    assert keysToRemove[..i] == keysToRemove;
  }
}
