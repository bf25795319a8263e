// The browser's key/value store as the guest mode uses it: one index entry
// listing the guest's threads, and one entry per thread holding its
// messages. The helpers are those ChatWindow.jsx and Sidebar.jsx both define.
module LocalStore {
  import opened Text
  import opened Threads

  /** A stored value, already parsed from its JSON text. `Unrecognised` stands for
      any value this application did not write in one of its two shapes. */
  datatype Value = ThreadIndex(threads: seq<Summary>) | ChatLog(messages: seq<Message>) | Unrecognised(text: string)

  /** `window.localStorage`. */
  class Storage {
    var items: map<string, Value>

    constructor ()
      ensures items == map[]
    {
      items := map[];
    }

    method SetItem(key: string, v: Value)
      modifies this
      ensures items == old(items)[key := v]
    {
      items := items[key := v];
    }

    method RemoveItem(key: string)
      modifies this
      ensures items == old(items) - {key}
    {
      items := items - {key};
    }
  }

  const IndexKey: string := "megai_temp_threads"
  const ChatKeyPrefix: string := "megai_temp_chat_"

  /** `tempChatsKey(threadId)`: distinct threads get distinct keys, and no
      chat key is the index key. */
  function ChatKey(threadId: ThreadId): (k: string)
    ensures StartsWith(k, ChatKeyPrefix) && k[|ChatKeyPrefix|..] == threadId
    ensures k != IndexKey
  {
    IndexIsNotAChatKey();
    ChatKeyPrefix + threadId
  }

  lemma IndexIsNotAChatKey()
    ensures !StartsWith(IndexKey, ChatKeyPrefix)
  {
    assert IndexKey[11] == 't' && ChatKeyPrefix[11] == 'c';
    assert IndexKey[..|ChatKeyPrefix|][11] != ChatKeyPrefix[11];
  }

  /** `getTempThreads()`: the guest index, or [] when there is none. */
  function TempThreads(items: map<string, Value>): (r: seq<Summary>)
    ensures IndexKey !in items ==> r == []
    ensures IndexKey in items && items[IndexKey].ThreadIndex? ==> r == items[IndexKey].threads
  {
    if IndexKey in items && items[IndexKey].ThreadIndex? then items[IndexKey].threads else []
  }

  /** `getTempChats(threadId)`: a guest thread's messages; an absent entry
      reads as [] and is never an error. */
  function TempChats(items: map<string, Value>, threadId: ThreadId): (r: seq<Message>)
    ensures ChatKey(threadId) !in items ==> r == []
    ensures ChatKey(threadId) in items && items[ChatKey(threadId)].ChatLog? ==> r == items[ChatKey(threadId)].messages
  {
    var key := ChatKey(threadId);
    if key in items && items[key].ChatLog? then items[key].messages else []
  }

  /** Two stores agree on every key other than `a` and `b`. */
  ghost predicate SameExcept(m: map<string, Value>, m': map<string, Value>, a: string, b: string) {
    forall k :: k != a && k != b ==> (k in m <==> k in m') && (k in m ==> m[k] == m'[k])
  }

  /** `saveTempThreads(threads)`. */
  method SaveTempThreads(ls: Storage, threads: seq<Summary>)
    modifies ls
    ensures ls.items == old(ls.items)[IndexKey := ThreadIndex(threads)]
    ensures TempThreads(ls.items) == threads
  {
    ls.SetItem(IndexKey, ThreadIndex(threads));
  }

  /** `saveTempChats(threadId, chats)`. */
  method SaveTempChats(ls: Storage, threadId: ThreadId, chats: seq<Message>)
    modifies ls
    ensures ls.items == old(ls.items)[ChatKey(threadId) := ChatLog(chats)]
    ensures TempChats(ls.items, threadId) == chats
    ensures TempThreads(ls.items) == TempThreads(old(ls.items))
  {
    ls.SetItem(ChatKey(threadId), ChatLog(chats));
  }

  /** `deleteTempChat(threadId)`: the index loses exactly the entries with
      that id (the rest keep their order), the thread's own entry goes, and
      no other key changes. */
  method DeleteTempChat(ls: Storage, threadId: ThreadId)
    modifies ls
    ensures ls.items == old(ls.items)[IndexKey := ThreadIndex(WithoutThread(TempThreads(old(ls.items)), threadId))] - {ChatKey(threadId)}
    ensures TempThreads(ls.items) == WithoutThread(TempThreads(old(ls.items)), threadId)
    ensures ChatKey(threadId) !in ls.items && TempChats(ls.items, threadId) == []
    ensures SameExcept(ls.items, old(ls.items), IndexKey, ChatKey(threadId))
  {
    var threads := WithoutThread(TempThreads(ls.items), threadId);
    SaveTempThreads(ls, threads);
    ls.RemoveItem(ChatKey(threadId));
  }
}
