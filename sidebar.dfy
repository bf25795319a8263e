// The sidebar's handlers over the shared state: loading the thread list from
// the server or the guest index (`getAllThreads`), reacting to a change of
// user, starting a new chat, opening a thread and deleting one.
module Sidebar {
  import opened Threads
  import opened Wire
  import opened LocalStore
  import opened AppState

  /** `getAllThreads()`: a user sees the server's list, or [] when the request
      fails or is refused; a guest sees the browser's index verbatim. */
  method ListThreads(ctx: Context, ls: Storage, response: Fetched<seq<Summary>>)
    modifies ctx
    ensures ctx.Snapshot() == old(ctx.Snapshot()).(allThreads := ctx.allThreads)
    ensures ctx.user.None? ==> ctx.allThreads == TempThreads(ls.items)
    ensures ctx.user.Some? ==> ctx.allThreads == if response.Succeeded() then response.body else []
  {
    if ctx.user.Some? {
      match response
      case Threw =>
        ctx.allThreads := [];
      case Responded(ok, body) =>
        if !ok {
          ctx.allThreads := [];
          return;
        }
        ctx.allThreads := body;
    } else {
      ctx.allThreads := TempThreads(ls.items);
    }
  }

  /** The effect that runs whenever `user` changes: reload the list, and when
      there is no user any more, close the open thread. */
  method OnUserChanged(ctx: Context, ls: Storage, response: Fetched<seq<Summary>>)
    modifies ctx
    ensures ctx.user.None? ==>
      ctx.Snapshot() == old(ctx.Snapshot()).(allThreads := TempThreads(ls.items), prevChats := [], currThreadId := None)
    ensures ctx.user.Some? ==>
      ctx.Snapshot() == old(ctx.Snapshot()).(allThreads := if response.Succeeded() then response.body else [])
  {
    ListThreads(ctx, ls, response);
    if ctx.user.None? {
      ctx.prevChats := [];
      ctx.currThreadId := None;
    }
  }

  /** `createNewChat()` with `threadId` the freshly minted id. */
  method CreateNewChat(ctx: Context, threadId: ThreadId)
    modifies ctx
    ensures ctx.Snapshot() == FreshChat(old(ctx.Snapshot()), threadId)
  {
    ctx.newChat := true;
    ctx.prompt := "";
    ctx.reply := None;
    ctx.currThreadId := Some(threadId);
    ctx.prevChats := [];
  }

  /** `changeThread(threadId)`: the thread becomes current first; then its
      messages come from the server for a user (none when the request fails
      or the thread is missing or not theirs) or from the browser for a guest
      (none when it holds no entry). */
  method ChangeThread(ctx: Context, ls: Storage, threadId: ThreadId, response: Fetched<seq<Message>>)
    modifies ctx
    ensures ctx.user.Some? && response.Succeeded() ==>
      ctx.Snapshot() == old(ctx.Snapshot()).(currThreadId := Some(threadId), prevChats := response.body, newChat := false, reply := None)
    ensures ctx.user.Some? && !response.Succeeded() ==>
      ctx.Snapshot() == old(ctx.Snapshot()).(currThreadId := Some(threadId), prevChats := [])
    ensures ctx.user.None? ==>
      ctx.Snapshot() == old(ctx.Snapshot()).(currThreadId := Some(threadId), prevChats := TempChats(ls.items, threadId), newChat := false, reply := None)
  {
    ctx.currThreadId := Some(threadId);
    if ctx.user.Some? {
      match response
      case Threw =>
        ctx.prevChats := [];
      case Responded(ok, body) =>
        if !ok {
          ctx.prevChats := [];
          return;
        }
        ctx.prevChats := body;
        ctx.newChat := false;
        ctx.reply := None;
    } else {
      ctx.prevChats := TempChats(ls.items, threadId);
      ctx.newChat := false;
      ctx.reply := None;
    }
  }

  /** `deleteThread(threadId)`, with `mint` the id a following new chat gets.
      A user's delete request may fail without consequence for the list; only
      a request that throws leaves everything as it was. */
  method DeleteThread(ctx: Context, ls: Storage, threadId: ThreadId, response: Fetched<()>, mint: ThreadId)
    modifies ctx, ls
    ensures ctx.user.Some? && response.Threw? ==> ctx.Snapshot() == old(ctx.Snapshot())
    ensures ctx.user.None? || response.Responded? ==>
      var u := old(ctx.Snapshot());
      var listed := u.(allThreads := WithoutThread(u.allThreads, threadId));
      ctx.Snapshot() == if u.currThreadId == Some(threadId) then FreshChat(listed, mint) else listed
    ensures ctx.user.Some? ==> ls.items == old(ls.items)
    ensures ctx.user.None? ==>
      ls.items == old(ls.items)[IndexKey := ThreadIndex(WithoutThread(TempThreads(old(ls.items)), threadId))] - {ChatKey(threadId)}
  {
    if ctx.user.Some? {
      if response.Threw? {
        // The catch only logs: the list and the open thread stay as they were.
        return;
      }
      // Whether the server answered ok or not is only logged.
    } else {
      DeleteTempChat(ls, threadId);
    }
    ctx.allThreads := WithoutThread(ctx.allThreads, threadId);
    if ctx.currThreadId == Some(threadId) {
      CreateNewChat(ctx, mint);
    }
  }
}
