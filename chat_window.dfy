// The chat window's handlers over the shared state: sending a prompt
// (`getReply`), finding out who is logged in (`fetchUser`) and logging out
// (`handleLogout`). Each handler is one atomic step; what the network and the
// id generator return arrives as parameters.
module ChatWindow {
  import opened Text
  import opened Threads
  import opened Wire
  import opened LocalStore
  import opened GuestStorage
  import opened AppState

  /** `!threadId || newChat`: the send starts a new thread. */
  predicate NeedsNewId(currThreadId: Option<ThreadId>, newChat: bool) {
    currThreadId.None? || currThreadId.value == "" || newChat
  }

  /** The thread a send from state `u` goes to, given the id minted for it. */
  function TargetId(u: Ui, mint: ThreadId): (id: ThreadId)
    ensures NeedsNewId(u.currThreadId, u.newChat) ==> id == mint
    ensures !NeedsNewId(u.currThreadId, u.newChat) ==> u.currThreadId == Some(id) && id != ""
  {
    if NeedsNewId(u.currThreadId, u.newChat) then mint else u.currThreadId.value
  }

  /** The sidebar list right after the id is settled: a new thread's summary
      at the head, or the list as it was. */
  function Provisional(u: Ui, mint: ThreadId): (r: seq<Summary>)
    ensures NeedsNewId(u.currThreadId, u.newChat) ==>
      |r| == |u.allThreads| + 1 && r[0] == Summary(mint, Title(u.prompt)) && r[1..] == u.allThreads
    ensures !NeedsNewId(u.currThreadId, u.newChat) ==> r == u.allThreads
  {
    if NeedsNewId(u.currThreadId, u.newChat) then [Summary(mint, Title(u.prompt))] + u.allThreads
    else u.allThreads
  }

  /** The browser store after a guest send: the thread's full history under
      its own key, and its summary head-inserted into the index unless the
      index already lists it. */
  function GuestSaved(m: map<string, Value>, threadId: ThreadId, history: seq<Message>, title: string): (r: map<string, Value>)
    ensures TempChats(r, threadId) == history
    ensures TempThreads(r) == AddIfAbsent(TempThreads(m), Summary(threadId, title))
    ensures threadId in Ids(TempThreads(r))
    ensures DistinctIds(TempThreads(m)) ==> DistinctIds(TempThreads(r))
    ensures threadId in Ids(TempThreads(m)) ==> r == m[ChatKey(threadId) := ChatLog(history)]
    ensures SameExcept(r, m, IndexKey, ChatKey(threadId))
  {
    var written := m[ChatKey(threadId) := ChatLog(history)];
    var existing := TempThreads(written);
    assert existing == TempThreads(m);
    if threadId in Ids(existing) then written
    else
      var r := written[IndexKey := ThreadIndex(AddIfAbsent(existing, Summary(threadId, title)))];
      assert TempChats(r, threadId) == history;
      r
  }

  /** `!prompt.trim()`. */
  method IsBlankPrompt(prompt: string) returns (blank: bool)
    ensures blank <==> Blank(prompt)
  {
    TrimEmptyIffBlank(prompt);
    blank := Trim(prompt) == "";
  }

  /** The guest half of `getReply()`: write the history, then head-insert the
      summary into the index if it is missing. Returns the new index when it
      was written. */
  method PersistGuestSend(ls: Storage, threadId: ThreadId, history: seq<Message>, title: string)
    returns (listed: Option<seq<Summary>>)
    modifies ls
    ensures ls.items == GuestSaved(old(ls.items), threadId, history, title)
    ensures listed.None? <==> threadId in Ids(TempThreads(old(ls.items)))
    ensures listed.Some? ==> listed.value == [Summary(threadId, title)] + TempThreads(old(ls.items))
  {
    SaveTempChats(ls, threadId, history);
    var existing := TempThreads(ls.items);
    listed := None;
    if threadId !in Ids(existing) {
      var newTemp := [Summary(threadId, title)] + existing;
      SaveTempThreads(ls, newTemp);
      listed := Some(newTemp);
    }
  }

  /** `getReply()`. The persistence branch is chosen by `data.saved || user`;
      the /chat response never carries `saved`, so the branch is `user`. */
  method Send(ctx: Context, ls: Storage, mint: ThreadId, chat: Fetched<string>, refresh: Fetched<seq<Summary>>)
    modifies ctx, ls
    ensures Blank(old(ctx.prompt)) ==> ctx.Snapshot() == old(ctx.Snapshot()) && ls.items == old(ls.items)
    ensures !Blank(old(ctx.prompt)) ==>
      var u := old(ctx.Snapshot());
      && ctx.user == u.user
      && ctx.currThreadId == Some(TargetId(u, mint))
      && !ctx.newChat && ctx.prompt == "" && !ctx.loading
    ensures !Blank(old(ctx.prompt)) && !chat.Succeeded() ==>
      var u := old(ctx.Snapshot());
      && ctx.prevChats == u.prevChats && ctx.reply == u.reply
      && ctx.allThreads == Provisional(u, mint)
      && ls.items == old(ls.items)
    ensures !Blank(old(ctx.prompt)) && chat.Succeeded() ==>
      ctx.prevChats == old(ctx.prevChats) + Exchange(old(ctx.prompt), chat.body) && ctx.reply == Some(chat.body)
    ensures !Blank(old(ctx.prompt)) && chat.Succeeded() && old(ctx.user).Some? ==>
      && ls.items == old(ls.items)
      && ctx.allThreads == if refresh.Succeeded() then refresh.body else Provisional(old(ctx.Snapshot()), mint)
    ensures !Blank(old(ctx.prompt)) && chat.Succeeded() && old(ctx.user).None? ==>
      var u := old(ctx.Snapshot());
      var id := TargetId(u, mint);
      var index := TempThreads(old(ls.items));
      && ls.items == GuestSaved(old(ls.items), id, ctx.prevChats, Title(u.prompt))
      && ctx.allThreads == if id in Ids(index) then Provisional(u, mint) else [Summary(id, Title(u.prompt))] + index
  {
    var blank := IsBlankPrompt(ctx.prompt);
    if blank {
      return;
    }
    // The handler reads the state as it was when it started.
    var prompt, user, prevChats := ctx.prompt, ctx.user, ctx.prevChats;
    var threadId: ThreadId;
    if NeedsNewId(ctx.currThreadId, ctx.newChat) {
      threadId := mint;
      ctx.currThreadId := Some(threadId);
      ctx.newChat := false;
      ctx.allThreads := [Summary(threadId, Title(prompt))] + ctx.allThreads;
    } else {
      threadId := ctx.currThreadId.value;
    }
    assert threadId == TargetId(old(ctx.Snapshot()), mint);
    assert ctx.allThreads == Provisional(old(ctx.Snapshot()), mint);
    ctx.loading := true;
    ctx.newChat := false;

    if chat.Succeeded() {
      var reply := chat.body;
      var newPrev := prevChats + Exchange(prompt, reply);
      ctx.prevChats := newPrev;
      ctx.reply := Some(reply);
      if user.Some? {
        // Refresh the sidebar from the server; a failed refresh is only logged.
        if refresh.Succeeded() {
          ctx.allThreads := refresh.body;
        }
      } else {
        var listed := PersistGuestSend(ls, threadId, newPrev, Title(prompt));
        if listed.Some? {
          ctx.allThreads := listed.value;
        }
      }
    }
    // A response that is not ok throws; the catch only logs. Either way:
    ctx.prompt := "";
    ctx.loading := false;
  }

  /** `fetchUser()`, run once when the window mounts. `session` is the
      `/user/loggedIn` call (its body's `user` field), `threads` the
      `/api/thread` call made once a user is known. */
  method Hydrate(ctx: Context, ls: Storage, session: Fetched<Option<UserId>>, threads: Fetched<seq<Summary>>)
    modifies ctx, ls
    ensures session.Threw? ==>
      && ctx.Snapshot() == old(ctx.Snapshot()).(user := None, allThreads := TempThreads(old(ls.items)))
      && ls.items == old(ls.items)
    ensures session.Responded? && session.body.None? ==>
      && ctx.Snapshot() == SignedOut(old(ctx.Snapshot()), TempThreads(old(ls.items)))
      && ls.items == old(ls.items)
    ensures session.Responded? && session.body.Some? ==>
      && ls.items == WithoutGuestData(old(ls.items))
      && ctx.Snapshot() ==
           if threads.Threw? then old(ctx.Snapshot()).(user := None, allThreads := [])
           else old(ctx.Snapshot()).(user := session.body, allThreads := threads.body)
  {
    if session.Threw? {
      ctx.user := None;
      ctx.allThreads := TempThreads(ls.items);
      return;
    }
    ctx.user := session.body;
    if session.body.None? {
      ctx.allThreads := TempThreads(ls.items);
      ctx.newChat := true;
      ctx.prevChats := [];
      ctx.currThreadId := None;
      ctx.prompt := "";
      ctx.reply := None;
      ctx.user := None;
    } else {
      ClearGuestChats(ls);
      // The body is used whatever the status: the server sends [] on 401 and 500.
      match threads
      case Responded(_, body) =>
        ctx.allThreads := body;
      case Threw =>
        ctx.user := None;
        ClearedStoreIsEmptyForGuest(old(ls.items), "");
        ctx.allThreads := TempThreads(ls.items);
    }
  }

  /** `handleLogout()`: once the logout request returns, the state is reset to
      signed out with an empty sidebar; if it throws, nothing changes. */
  method Logout(ctx: Context, call: Fetched<()>)
    modifies ctx
    ensures call.Threw? ==> ctx.Snapshot() == old(ctx.Snapshot())
    ensures call.Responded? ==> ctx.Snapshot() == SignedOut(old(ctx.Snapshot()), [])
  {
    if call.Threw? {
      return;
    }
    ctx.user := None;
    ctx.allThreads := [];
    ctx.prevChats := [];
    ctx.currThreadId := None;
    ctx.prompt := "";
    ctx.reply := None;
    ctx.newChat := true;
  }
}
