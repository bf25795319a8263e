# MegAI thread reconciliation, modelled in Dafny

MegAI is a chat application. A guest keeps their conversation threads in the
browser's `localStorage`. A logged-in user keeps them in a server collection
where each thread is addressed by the pair (threadId, owner). This project
models the code that decides where threads live and how they change:

- the guest store helpers and `clearGuestChats`;
- the client's shared state and its handlers:
  - send (`getReply`);
  - identity hydration (`fetchUser`);
  - logout;
  - the sidebar's list, open, new chat and delete;
- the server's owner-scoped list, get and delete handlers, and the `/chat`
  handler that creates or appends to a thread;
- the `isLoggedIn` gate in front of the thread routes.

Layout, one module per file:

- `text.dfy` (`Text`): JavaScript `trim`, `startsWith`, and the 30-character
  sidebar title.
- `threads.dfy` (`Threads`): messages and `{threadId, title}` summaries, the
  filter by id, and the head-insert that never duplicates an id.
- `wire.dfy` (`Wire`): the outcome of a `fetch` (`Threw`, or a response with
  `ok` and a parsed body) and the server's JSON bodies.
- `middleware.dfy` (`Middleware`): the gate, as a pure function returning
  `Next` or a 401 response.
- `chat_routes.dfy` (`ChatRoutes`): the collection queries as functions over a
  sequence of documents (`findOne`, `find`, `sort`, `save`,
  `findOneAndDelete`), and the route handlers as methods of the class
  `ThreadCollection`, which owns the documents.
- `local_store.dfy` (`LocalStore`): the `Storage` class (a map of keys to
  parsed values) and the per-thread guest helpers.
- `guest_storage.dfy` (`GuestStorage`): `clearGuestChats`, with the collect
  loop and the removal loop.
- `app_state.dfy` (`AppState`): the `Context` class holding the shared state,
  and its `Ui` snapshot.
- `chat_window.dfy` (`ChatWindow`) and `sidebar.dfy` (`Sidebar`): the handlers.
  Each runs as one atomic step over a `Context` and a `Storage`.

Inputs from the outside world are parameters:

- every network call is a `Fetched<T>`;
- the uuid minted for a new thread is `mint`;
- the LLM completion is a `Completion` (`Completed(reply)` or
  `CompletionFailed`);
- a database failure is `dbFails`;
- the server clock is `now`.

No property depends on which id is minted. Every property holds for any id,
fresh or not.

Behaviours of the code that the model follows:

- The client picks where to persist with `data.saved || user`
  (Frontend/src/ChatWindow.jsx:180). The `/chat` route never sends `saved`
  (Backend/routes/chat.js:73 and 93), so `ChatWindow.Send` branches on `user`
  alone.
- The server titles a new thread with the whole message
  (Backend/routes/chat.js:78). The client's provisional title is the first 30
  characters (Frontend/src/ChatWindow.jsx:133).
- A user's delete that throws leaves the sidebar list and the open thread
  unchanged. The catch at Frontend/src/Sidebar.jsx:162-164 skips the filter.
  A delete answered with any status, ok or not, removes the thread from the
  list.
- In hydration, a logged-in identity clears the guest store first. If the
  thread-list request then throws, the catch sets `user` back to null and
  loads the now empty guest index. Frontend/src/ChatWindow.jsx:87-90 does
  this. Any response body is used as the list whatever its status: the
  server sends `[]` on 401 and 500.

## Model

| member | source | states |
|---|---|---|
| Text.Trim | Frontend/src/ChatWindow.jsx:121 | the trimmed prompt is a slice `s[a..b]` of the input whose dropped prefix `s[..a]` and suffix `s[b..]` are blank, and it neither starts nor ends with JavaScript white space |
| Text.TrimEmptyIffBlank | Frontend/src/ChatWindow.jsx:121 | `prompt.trim()` is empty exactly when every character of the prompt is white space, in both directions |
| Text.Title | Frontend/src/ChatWindow.jsx:133 | the title is "New Chat" for an empty prompt; otherwise it is the prefix of the prompt whose length is the smaller of 30 and the prompt's length |
| Threads.WithoutThread | Frontend/src/ChatWindow.jsx:24 | a summary survives the filter exactly when it was in the list and its id differs from the deleted one; the list never grows |
| Threads.WithoutThreadDistributes | Frontend/src/Sidebar.jsx:155-157 | the filter distributes over concatenation, so the surviving summaries keep their relative order |
| Threads.WithoutThreadKeepsDistinct | Frontend/src/ChatWindow.jsx:23-25 | filtering an index whose ids are distinct leaves one whose ids are distinct |
| Threads.AddIfAbsent | Frontend/src/ChatWindow.jsx:198-206 | the ids become the old ids plus the new one; an index already listing the id is unchanged; otherwise the summary is at the head and the old index follows in order; distinct ids stay distinct |
| Middleware.IsLoggedIn | Backend/middleware.js:1-19 | a request passes exactly when it is authenticated; a request that is stopped always gets 401; the body is `[]` for a GET under `/api/thread`, `{success: false, message: "Unauthorized"}` for a DELETE under it, and `{error: "Unauthorized"}` for anything else |
| Middleware.ThreadRouteIsGated | Backend/routes/chat.js:21-38 | every `/api/thread/<id>` starts with the gate's prefix, so the per-thread routes get the route-specific 401 bodies |
| ChatRoutes.Lookup | Backend/routes/chat.js:24 | `findOne({threadId, owner})` finds nothing exactly when no document matches the pair; what it finds is a stored document matching both fields |
| ChatRoutes.Owned | Backend/routes/chat.js:11 | `find({owner})` returns exactly the stored documents of that owner |
| ChatRoutes.LookupSeesOnlyOwner | Backend/routes/chat.js:24-28 | a lookup gives the same answer over the whole collection as over the caller's own documents: other owners' threads look exactly like missing ones |
| ChatRoutes.InsertKeepsNewestFirst | Backend/routes/chat.js:11 | inserting into a newest-first sequence keeps it newest first |
| ChatRoutes.InsertAddsOne | Backend/routes/chat.js:11 | the insertion adds exactly the one document: the multiset grows by it |
| ChatRoutes.SortByRecency | Backend/routes/chat.js:11 | `sort({updatedAt: -1})` returns a permutation of its input ordered by `updatedAt`, newest first |
| ChatRoutes.Save | Backend/routes/chat.js:91 | `save` grows the collection by at most one document, the saved document is stored afterwards, and nothing but it is added; what it does to lookups, other owners and key uniqueness is stated by the four Save lemmas below |
| ChatRoutes.SaveThenLookup | Backend/routes/chat.js:91 | after `save`, looking up the document's own (threadId, owner) finds exactly that document |
| ChatRoutes.SaveKeepsOtherKeys | Backend/routes/chat.js:91 | `save` does not change the lookup result for any other (threadId, owner) pair |
| ChatRoutes.SaveKeepsOtherOwners | Backend/routes/chat.js:91 | `save` leaves every other owner's documents unchanged and in order |
| ChatRoutes.SaveKeepsUnique | Backend/routes/chat.js:91 | `save` keeps the (threadId, owner) pairs unique |
| ChatRoutes.RemoveFirst | Backend/routes/chat.js:41 | `findOneAndDelete` never adds a document: every remaining document was stored before |
| ChatRoutes.RemoveFirstDropsMatch | Backend/routes/chat.js:41-45 | with no match the collection is unchanged; otherwise exactly the found document is removed (multiset) |
| ChatRoutes.RemoveFirstClearsKey | Backend/routes/chat.js:41 | when the keys are unique, nothing matches the deleted pair afterwards |
| ChatRoutes.RemoveFirstKeepsOtherOwners | Backend/routes/chat.js:41 | deleting leaves every other owner's documents unchanged and in order |
| ChatRoutes.RemoveFirstKeepsUnique | Backend/routes/chat.js:41 | deleting keeps the (threadId, owner) pairs unique |
| ChatRoutes.Exchanged | Backend/routes/chat.js:76-89 | the document the handler saves carries the requested (threadId, owner) and the new `updatedAt`, and its messages end with exactly [user message, assistant reply]; a new thread is titled with the whole message and holds only those two; a found thread keeps its title and its earlier messages in front |
| ChatRoutes.Missing | Backend/routes/chat.js:58 | a request field counts as missing when it is absent or the empty string (the falsy strings that `!threadId` and `!message` test); Chat's first ensures gives the 400 answer for it |
| ChatRoutes.ThreadCollection.ListThreads | Backend/routes/chat.js:9-18 | a database failure gives 500 `[]`; otherwise 200 with the owner's threads sorted newest first (the properties of Owned and SortByRecency) |
| ChatRoutes.ThreadCollection.GetThread | Backend/routes/chat.js:21-35 | 500 `[]` on failure; 404 `[]` when no document matches (threadId, owner), whoever else owns that id; 200 with the matched thread's messages otherwise |
| ChatRoutes.ThreadCollection.DeleteThread | Backend/routes/chat.js:38-52 | the 500, 404 and 200 bodies with their messages; on 200 exactly the matched document is gone and nothing matches the pair afterwards; other owners' documents never change; the unique-key invariant is kept |
| ChatRoutes.ThreadCollection.Chat | Backend/routes/chat.js:55-98 | a missing or empty field gives 400 and stores nothing; a guest gets the reply and nothing is stored; a failed completion or database call gives 500 and stores nothing; otherwise a new thread titled with the message and holding exactly [user, assistant] is saved, or the owned thread gains exactly those two messages and the new `updatedAt`; other owners' threads are unchanged; keys stay unique |
| ChatRoutes.ThreadCollection.ServeListThreads | Backend/routes/chat.js:9-18 | behind the gate: a guest gets 401 `[]`; an authenticated caller gets 500 `[]` on a database failure and otherwise 200 with their own threads newest first; every non-200 answer has the body `[]` |
| ChatRoutes.ThreadCollection.ServeGetThread | Backend/routes/chat.js:21-35 | behind the gate: a guest gets 401 `[]`; an authenticated caller gets 500 `[]` on a database failure, 404 `[]` for a thread they do not own, and 200 with the messages of the thread they own; every non-200 answer has the body `[]` |
| ChatRoutes.ThreadCollection.ServeDeleteThread | Backend/routes/chat.js:38-52 | behind the gate: a guest gets 401 `{success: false}`; an authenticated caller gets the 500, 404 and 200 outcomes with their messages; on 200 exactly the matched document is removed and nothing matches the pair afterwards; any other status leaves the collection unchanged; other owners' documents never change; the body is always an outcome whose `success` holds exactly when the status is 200 |
| LocalStore.ChatKey | Frontend/src/ChatWindow.jsx:13 | a thread's key is the chat prefix followed by the thread id, and it is never the index key |
| LocalStore.IndexIsNotAChatKey | Frontend/src/ChatWindow.jsx:12-13 | the index key does not start with the chat prefix |
| LocalStore.TempThreads | Frontend/src/ChatWindow.jsx:15-16 | an absent index reads as `[]`; a stored index reads as its summaries |
| LocalStore.TempChats | Frontend/src/ChatWindow.jsx:19-20 | an absent thread entry reads as `[]` and is never an error; a stored entry reads as its messages |
| LocalStore.SaveTempThreads | Frontend/src/ChatWindow.jsx:17-18 | only the index key changes, and reading it back gives the saved list |
| LocalStore.SaveTempChats | Frontend/src/ChatWindow.jsx:21-22 | only the thread's key changes, reading it back gives the saved messages, and the index is unchanged |
| LocalStore.DeleteTempChat | Frontend/src/ChatWindow.jsx:23-27 | the index loses exactly the entries with that id, the rest in order; the thread's key is removed; no other key changes |
| GuestStorage.WithoutGuestData | Frontend/public/utils/guestStorage.js:3-13 | after clearing, the index key is absent and no key starts with `megai_temp_chat_`; every other key keeps its value |
| GuestStorage.ClearIsIdempotent | Frontend/public/utils/guestStorage.js:3-13 | clearing twice is the same as clearing once |
| GuestStorage.ClearedStoreIsEmptyForGuest | Frontend/public/utils/guestStorage.js:3-13 | after clearing, the guest index and every thread's messages read as `[]` |
| GuestStorage.ClearGuestChats | Frontend/public/utils/guestStorage.js:3-13 | the collect loop, over the keys in any order, then the removal loop leave exactly the cleared store |
| AppState.Context.constructor | Frontend/src/App.jsx:14-20 | the initial state: no user, no open thread, `newChat` set, no messages, empty list, empty prompt, no reply |
| ChatWindow.NeedsNewId | Frontend/src/ChatWindow.jsx:126 | a send starts a new thread when there is no current id, the current id is empty, or `newChat` is set |
| ChatWindow.TargetId | Frontend/src/ChatWindow.jsx:125-128 | a send that needs a new id goes to the minted id; any other send goes to the current id, which is then present and not empty |
| ChatWindow.Provisional | Frontend/src/ChatWindow.jsx:126-136 | when a new id is minted, the list gains exactly the new summary, titled from the prompt, at its head, with all previous entries after it in order; otherwise the list is untouched |
| ChatWindow.IsBlankPrompt | Frontend/src/ChatWindow.jsx:121 | the guard answers true exactly when the prompt is blank |
| ChatWindow.GuestSaved | Frontend/src/ChatWindow.jsx:193-207 | after a guest send, the thread's entry holds the full history and the index is the old one with the summary head-inserted only if its id was missing; the id is listed afterwards; distinct ids stay distinct; only the index and that thread's key change |
| ChatWindow.PersistGuestSend | Frontend/src/ChatWindow.jsx:195-207 | the store becomes GuestSaved; a new index is returned for the sidebar exactly when the id was missing, and it is the summary followed by the old index |
| ChatWindow.Send | Frontend/src/ChatWindow.jsx:120-215 | a blank prompt changes neither the state nor the store; otherwise the thread is the minted id when there is no current id or `newChat` is set, and the current id otherwise; `newChat` and `loading` end false and `prompt` empty; a failed request keeps the messages and the store and leaves only the provisional head-inserted summary; success appends exactly [user prompt, assistant reply]; a user's list is replaced only by a successful refresh and the store is untouched; a guest's store becomes GuestSaved |
| ChatWindow.Hydrate | Frontend/src/ChatWindow.jsx:55-95 | a guest session gets the signed-out state with the guest index; a logged-in session clears the guest store and takes the server list, or falls back to no user and an empty list if that request throws; a thrown session request sets no user and loads the guest index |
| ChatWindow.Logout | Frontend/src/ChatWindow.jsx:97-118 | once the request returns: no user, empty list, no messages, no open thread, empty prompt, no reply, `newChat` set; nothing changes when it throws |
| Sidebar.ListThreads | Frontend/src/Sidebar.jsx:42-69 | a user sees the server's list, or `[]` when the request fails or throws; a guest sees the guest index verbatim; nothing else changes |
| Sidebar.OnUserChanged | Frontend/src/Sidebar.jsx:76-86 | the list is reloaded; without a user, the messages are cleared and no thread is open |
| Sidebar.CreateNewChat | Frontend/src/Sidebar.jsx:88-95 | `newChat` set, empty prompt, no reply, the given id current, no messages, nothing else changed |
| Sidebar.ChangeThread | Frontend/src/Sidebar.jsx:97-131 | the target becomes current in every case; a user gets the server's messages, or `[]` on failure; a guest gets the stored messages, `[]` for an absent entry |
| Sidebar.DeleteThread | Frontend/src/Sidebar.jsx:133-165 | unless a user's request throws, the thread leaves the list, ok or not; deleting the open thread gives the new-chat state, and deleting another leaves the open thread and its messages; a guest delete also runs DeleteTempChat, and a user's store is untouched |

## Left out

- Rendering, markup, the profile dropdown, toasts and navigation: these are UI
  with no state beyond the modelled record.
- Speech recognition and synthesis, including `isVoiceInput`: browser APIs
  driven by events.
- Signup, login and the user routes (Backend/routes/user.js): thin wrappers
  over the session library. `/user/loggedIn` appears only as its result, the
  `session` parameter of `ChatWindow.Hydrate`.
- Server bootstrap (Backend/server.js, Backend/api/index.js): configuration
  and the database connection.
- The completion SDK (Backend/utils/groqai.js): it becomes the `Completion`
  parameter, and the "(No content received)" fallback is just some reply
  string.
- The email regex of the user schema: a validator inside a schema library.
- Backend/models/Thread.js is not part of this model. No unique index on
  (threadId, owner) is assumed of the database. Instead, the handlers keep
  `ThreadCollection.Valid` (unique pairs) as an invariant. `updatedAt` is set
  only by the handler, from `now`.
- Async interleavings: late replies, two sends at once (there is no busy
  flag), and React's batched and stale state reads. Each handler is one
  atomic step that reads the state as it was when it started.
- JSON serialisation: the store maps keys to parsed values.
- LocalStore.TempThreads: a value this application did not write in the
  index shape reads as `[]`. In the code, `JSON.parse` would return that
  value, and a later `.filter` or `.find` could throw.
- LocalStore.TempChats: a value not written as a message list reads as `[]`,
  for the same reason.
- The uuid algorithm: the minted id is a parameter, and freshness is not
  assumed.
- JavaScript strings are UTF-16, so `slice(0, 30)` counts code units. The
  model's strings are sequences of characters.
- The server's list sends whole documents. The model returns their
  `{threadId, title}` summaries, the only fields the client reads.
- ChatRoutes.ThreadCollection.Chat: one `dbFails` flag stands for a `findOne`
  or a `save` that throws. Either way the answer is 500 and nothing is
  stored. The model answers before asking for a completion.
- Storage errors (quota exceeded, storage disabled) are not modelled. Neither
  is a guest-side exception in the sidebar's list handler, so a guest's list
  is always the index.
