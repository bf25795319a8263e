// The client state every view shares (the context App.jsx provides), plus
// the ChatWindow's own `loading` flag.
module AppState {
  import opened Threads
  import opened Wire

  /** A snapshot of the shared state, for stating what a handler leaves behind. */
  datatype Ui = Ui(
    user: Option<UserId>,
    currThreadId: Option<ThreadId>,
    newChat: bool,
    prevChats: seq<Message>,
    allThreads: seq<Summary>,
    prompt: string,
    reply: Option<string>,
    loading: bool)

  class Context {
    var user: Option<UserId>
    var currThreadId: Option<ThreadId>
    var newChat: bool
    var prevChats: seq<Message>
    var allThreads: seq<Summary>
    var prompt: string
    var reply: Option<string>
    var loading: bool

    /** The initial state: no user, no open thread, a new chat. */
    constructor ()
      ensures Snapshot() == Ui(None, None, true, [], [], "", None, false)
    {
      user, currThreadId, newChat := None, None, true;
      prevChats, allThreads := [], [];
      prompt, reply, loading := "", None, false;
    }

    function Snapshot(): Ui
      reads this
    {
      Ui(user, currThreadId, newChat, prevChats, allThreads, prompt, reply, loading)
    }
  }

  /** The state `createNewChat` leaves: a new chat under `threadId`, nothing
      typed, no reply, no messages. */
  function FreshChat(u: Ui, threadId: ThreadId): Ui {
    u.(newChat := true, prompt := "", reply := None, currThreadId := Some(threadId), prevChats := [])
  }

  /** The signed-out state: no user, no open thread, a new chat, and the
      sidebar showing `threads`. */
  function SignedOut(u: Ui, threads: seq<Summary>): Ui {
    u.(user := None, allThreads := threads, prevChats := [], currThreadId := None,
       prompt := "", reply := None, newChat := true)
  }
}
