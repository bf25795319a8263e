// The server's thread routes over the owner-scoped thread collection: list,
// get and delete behind the login gate, and the `/chat` handler that answers
// every caller and, for a logged-in one, creates the thread or appends the
// turn to it.
module ChatRoutes {
  import opened Threads
  import opened Wire
  import opened Middleware

  /** A stored thread document. `updatedAt` is a timestamp in milliseconds. */
  datatype ThreadDoc = ThreadDoc(threadId: ThreadId, title: string, messages: seq<Message>, owner: UserId, updatedAt: int)

  /** What the completion gateway returned: a reply, or it threw. */
  datatype Completion = Completed(reply: string) | CompletionFailed

  /** The query `{ threadId, owner }`. */
  predicate Matches(d: ThreadDoc, threadId: ThreadId, owner: UserId) {
    d.threadId == threadId && d.owner == owner
  }

  /** No two documents share the pair (threadId, owner). */
  predicate UniqueKeys(docs: seq<ThreadDoc>) {
    forall i, j :: 0 <= i < j < |docs| ==> !Matches(docs[j], docs[i].threadId, docs[i].owner)
  }

  // ---- the collection operations the handlers use ----

  /** `Thread.findOne({ threadId, owner })`: the first matching document. */
  function Lookup(docs: seq<ThreadDoc>, threadId: ThreadId, owner: UserId): (r: Option<ThreadDoc>)
    ensures r.None? <==> forall i :: 0 <= i < |docs| ==> !Matches(docs[i], threadId, owner)
    ensures r.Some? ==> r.value in docs && Matches(r.value, threadId, owner)
  {
    if docs == [] then None
    else if Matches(docs[0], threadId, owner) then Some(docs[0])
    else Lookup(docs[1..], threadId, owner)
  }

  /** `Thread.find({ owner })`: the owner's documents in stored order. */
  function Owned(docs: seq<ThreadDoc>, owner: UserId): (r: seq<ThreadDoc>)
    ensures |r| <= |docs|
    ensures forall d :: d in r <==> d in docs && d.owner == owner
  {
    if docs == [] then []
    else (if docs[0].owner == owner then [docs[0]] else []) + Owned(docs[1..], owner)
  }

  /** Other owners' documents are invisible to a lookup: the result depends
      only on the caller's own documents. */
  lemma {:induction false} LookupSeesOnlyOwner(docs: seq<ThreadDoc>, threadId: ThreadId, owner: UserId)
    ensures Lookup(docs, threadId, owner) == Lookup(Owned(docs, owner), threadId, owner)
  {
    if docs != [] {
      var tail := Owned(docs[1..], owner);
      LookupSeesOnlyOwner(docs[1..], threadId, owner);
      if docs[0].owner == owner {
        assert Owned(docs, owner) == [docs[0]] + tail;
        assert ([docs[0]] + tail)[0] == docs[0];
        assert ([docs[0]] + tail)[1..] == tail;
      } else {
        assert Owned(docs, owner) == [] + tail;
        assert [] + tail == tail;
      }
    }
  }

  predicate NewestFirst(ds: seq<ThreadDoc>) {
    forall i, j :: 0 <= i < j < |ds| ==> ds[i].updatedAt >= ds[j].updatedAt
  }

  /** One step of the sort: `d` goes in front of the first document that is
      not newer than it. */
  function InsertByRecency(d: ThreadDoc, ds: seq<ThreadDoc>): (r: seq<ThreadDoc>)
    ensures |r| == |ds| + 1
    ensures r[0] == d || (ds != [] && r[0] == ds[0])
  {
    if ds == [] || d.updatedAt >= ds[0].updatedAt then [d] + ds
    else [ds[0]] + InsertByRecency(d, ds[1..])
  }

  lemma {:induction false} InsertKeepsNewestFirst(d: ThreadDoc, ds: seq<ThreadDoc>)
    requires NewestFirst(ds)
    ensures NewestFirst(InsertByRecency(d, ds))
  {
    if ds != [] && d.updatedAt < ds[0].updatedAt {
      var tail := ds[1..];
      InsertKeepsNewestFirst(d, tail);
      var rest := InsertByRecency(d, tail);
      var r := [ds[0]] + rest;
      assert r == InsertByRecency(d, ds);
      assert ds[0].updatedAt >= rest[0].updatedAt;
      forall i, j | 0 <= i < j < |r| ensures r[i].updatedAt >= r[j].updatedAt {
        assert r[j] == rest[j - 1];
        if i == 0 {
          assert rest[0].updatedAt >= rest[j - 1].updatedAt;
        } else {
          assert r[i] == rest[i - 1];
        }
      }
    }
  }

  lemma {:induction false} InsertAddsOne(d: ThreadDoc, ds: seq<ThreadDoc>)
    ensures multiset(InsertByRecency(d, ds)) == multiset(ds) + multiset{d}
  {
    if ds != [] && d.updatedAt < ds[0].updatedAt {
      InsertAddsOne(d, ds[1..]);
      assert ds == [ds[0]] + ds[1..];
    }
  }

  /** `.sort({ updatedAt: -1 })`: the same documents, newest first. */
  function SortByRecency(ds: seq<ThreadDoc>): (r: seq<ThreadDoc>)
    ensures NewestFirst(r)
    ensures multiset(r) == multiset(ds)
  {
    if ds == [] then []
    else
      var rest := SortByRecency(ds[1..]);
      InsertKeepsNewestFirst(ds[0], rest);
      InsertAddsOne(ds[0], rest);
      assert ds == [ds[0]] + ds[1..];
      InsertByRecency(ds[0], rest)
  }

  /** The `{threadId, title}` view of documents the sidebar reads. */
  function Summaries(ds: seq<ThreadDoc>): seq<Summary> {
    seq(|ds|, i requires 0 <= i < |ds| => Summary(ds[i].threadId, ds[i].title))
  }

  /** `thread.save()`: overwrite the stored document with the same
      (threadId, owner), or insert it when there is none. */
  function Save(docs: seq<ThreadDoc>, d: ThreadDoc): (r: seq<ThreadDoc>)
    ensures |docs| <= |r| <= |docs| + 1
    ensures d in r
    ensures forall x :: x in r ==> x == d || x in docs
  {
    if docs == [] then [d]
    else if Matches(docs[0], d.threadId, d.owner) then [d] + docs[1..]
    else [docs[0]] + Save(docs[1..], d)
  }

  /** After saving, a lookup by the document's own key finds it. */
  lemma {:induction false} SaveThenLookup(docs: seq<ThreadDoc>, d: ThreadDoc)
    ensures Lookup(Save(docs, d), d.threadId, d.owner) == Some(d)
  {
    if docs != [] && !Matches(docs[0], d.threadId, d.owner) {
      SaveThenLookup(docs[1..], d);
      assert ([docs[0]] + Save(docs[1..], d))[1..] == Save(docs[1..], d);
    }
  }

  /** Saving leaves every other (threadId, owner) key as it was. */
  lemma {:induction false} SaveKeepsOtherKeys(docs: seq<ThreadDoc>, d: ThreadDoc, threadId: ThreadId, owner: UserId)
    requires !(threadId == d.threadId && owner == d.owner)
    ensures Lookup(Save(docs, d), threadId, owner) == Lookup(docs, threadId, owner)
  {
    if docs == [] {
      assert Lookup([d][1..], threadId, owner) == None;
    } else if Matches(docs[0], d.threadId, d.owner) {
      assert ([d] + docs[1..])[1..] == docs[1..];
    } else {
      SaveKeepsOtherKeys(docs[1..], d, threadId, owner);
      assert ([docs[0]] + Save(docs[1..], d))[1..] == Save(docs[1..], d);
    }
  }

  /** Saving a document leaves every other owner's documents untouched. */
  lemma {:induction false} SaveKeepsOtherOwners(docs: seq<ThreadDoc>, d: ThreadDoc, other: UserId)
    requires other != d.owner
    ensures Owned(Save(docs, d), other) == Owned(docs, other)
  {
    if docs == [] {
      assert Owned([d], other) == [] + Owned([], other);
    } else if Matches(docs[0], d.threadId, d.owner) {
      assert Owned([d] + docs[1..], other) == [] + Owned(docs[1..], other) by {
        assert ([d] + docs[1..])[1..] == docs[1..];
      }
    } else {
      SaveKeepsOtherOwners(docs[1..], d, other);
      assert ([docs[0]] + Save(docs[1..], d))[1..] == Save(docs[1..], d);
    }
  }

  /** Saving keeps the (threadId, owner) pairs unique. */
  lemma {:induction false} SaveKeepsUnique(docs: seq<ThreadDoc>, d: ThreadDoc)
    requires UniqueKeys(docs)
    ensures UniqueKeys(Save(docs, d))
  {
    if docs == [] {
    } else if Matches(docs[0], d.threadId, d.owner) {
      var r := [d] + docs[1..];
      forall i, j | 0 <= i < j < |r| ensures !Matches(r[j], r[i].threadId, r[i].owner) {
        if i == 0 {
          assert r[j] == docs[j];
        } else {
          assert r[i] == docs[i] && r[j] == docs[j];
        }
      }
    } else {
      var tail := docs[1..];
      assert UniqueKeys(tail) by {
        forall i, j | 0 <= i < j < |tail| ensures !Matches(tail[j], tail[i].threadId, tail[i].owner) {
          assert tail[i] == docs[i + 1] && tail[j] == docs[j + 1];
        }
      }
      SaveKeepsUnique(tail, d);
      var rest := Save(tail, d);
      var r := [docs[0]] + rest;
      assert r == Save(docs, d);
      forall x | x in rest ensures !Matches(x, docs[0].threadId, docs[0].owner) {
        if x != d {
          var k :| 0 <= k < |tail| && tail[k] == x;
          assert docs[k + 1] == x;
        }
      }
      forall i, j | 0 <= i < j < |r| ensures !Matches(r[j], r[i].threadId, r[i].owner) {
        assert r[j] == rest[j - 1];
        if i > 0 {
          assert r[i] == rest[i - 1];
        }
      }
    }
  }

  /** `Thread.findOneAndDelete({ threadId, owner })`: drop the first match. */
  function RemoveFirst(docs: seq<ThreadDoc>, threadId: ThreadId, owner: UserId): (r: seq<ThreadDoc>)
    ensures forall x :: x in r ==> x in docs
  {
    if docs == [] then []
    else if Matches(docs[0], threadId, owner) then docs[1..]
    else [docs[0]] + RemoveFirst(docs[1..], threadId, owner)
  }

  /** Deleting removes exactly the document the lookup finds and nothing else. */
  lemma {:induction false} RemoveFirstDropsMatch(docs: seq<ThreadDoc>, threadId: ThreadId, owner: UserId)
    ensures Lookup(docs, threadId, owner).None? ==> RemoveFirst(docs, threadId, owner) == docs
    ensures Lookup(docs, threadId, owner).Some? ==>
      multiset(RemoveFirst(docs, threadId, owner)) + multiset{Lookup(docs, threadId, owner).value} == multiset(docs)
  {
    if docs != [] {
      assert docs == [docs[0]] + docs[1..];
      if !Matches(docs[0], threadId, owner) {
        RemoveFirstDropsMatch(docs[1..], threadId, owner);
      }
    }
  }

  /** With unique keys, nothing matches the deleted key afterwards. */
  lemma {:induction false} RemoveFirstClearsKey(docs: seq<ThreadDoc>, threadId: ThreadId, owner: UserId)
    requires UniqueKeys(docs)
    ensures Lookup(RemoveFirst(docs, threadId, owner), threadId, owner).None?
  {
    if docs != [] {
      if Matches(docs[0], threadId, owner) {
        forall i | 0 <= i < |docs[1..]| ensures !Matches(docs[1..][i], threadId, owner) {
          assert docs[1..][i] == docs[i + 1];
        }
      } else {
        RemoveFirstClearsKey(docs[1..], threadId, owner);
        assert ([docs[0]] + RemoveFirst(docs[1..], threadId, owner))[1..] == RemoveFirst(docs[1..], threadId, owner);
      }
    }
  }

  /** Deleting leaves every other owner's documents untouched. */
  lemma {:induction false} RemoveFirstKeepsOtherOwners(docs: seq<ThreadDoc>, threadId: ThreadId, owner: UserId, other: UserId)
    requires other != owner
    ensures Owned(RemoveFirst(docs, threadId, owner), other) == Owned(docs, other)
  {
    if docs != [] {
      if Matches(docs[0], threadId, owner) {
        assert Owned(docs, other) == [] + Owned(docs[1..], other);
      } else {
        RemoveFirstKeepsOtherOwners(docs[1..], threadId, owner, other);
        assert ([docs[0]] + RemoveFirst(docs[1..], threadId, owner))[1..] == RemoveFirst(docs[1..], threadId, owner);
      }
    }
  }

  /** The document the chat handler saves: a new thread titled with the
      message, or the found thread with the turn appended. */
  function Exchanged(found: Option<ThreadDoc>, threadId: ThreadId, owner: UserId, message: string, reply: string, now: int): (r: ThreadDoc)
    requires found.Some? ==> Matches(found.value, threadId, owner)
    ensures Matches(r, threadId, owner) && r.updatedAt == now
    ensures |r.messages| >= 2 && r.messages[|r.messages| - 2..] == Exchange(message, reply)
    ensures found.None? ==> r.title == message && |r.messages| == 2
    ensures found.Some? ==> r.title == found.value.title && r.messages[..|r.messages| - 2] == found.value.messages
  {
    match found
    case None => ThreadDoc(threadId, message, Exchange(message, reply), owner, now)
    case Some(d) => d.(messages := d.messages + Exchange(message, reply), updatedAt := now)
  }

  /** `!threadId || !message`: an absent or empty field. */
  predicate Missing(field: Option<string>) {
    field.None? || field.value == ""
  }

  const ChatFailed: string := "Something went wrong"
  const MissingFields: string := "Missing required fields"

  class ThreadCollection {
    var docs: seq<ThreadDoc>

    ghost predicate Valid()
      reads this
    {
      UniqueKeys(docs)
    }

    constructor ()
      ensures Valid() && docs == []
    {
      docs := [];
    }

    /** GET /api/thread for an authenticated owner. */
    method ListThreads(owner: UserId, dbFails: bool) returns (r: Response)
      ensures dbFails ==> r == Response(500, EmptyArray)
      ensures !dbFails ==> r == Response(200, ThreadList(Summaries(SortByRecency(Owned(docs, owner)))))
    {
      if dbFails {
        return Response(500, EmptyArray);
      }
      var threads := SortByRecency(Owned(docs, owner));
      r := Response(200, ThreadList(Summaries(threads)));
    }

    /** GET /api/thread/:threadId for an authenticated owner. */
    method GetThread(threadId: ThreadId, owner: UserId, dbFails: bool) returns (r: Response)
      ensures dbFails ==> r == Response(500, EmptyArray)
      ensures !dbFails && (forall i :: 0 <= i < |docs| ==> !Matches(docs[i], threadId, owner)) ==>
        r == Response(404, EmptyArray)
      ensures !dbFails && Lookup(docs, threadId, owner).Some? ==>
        r == Response(200, MessageList(Lookup(docs, threadId, owner).value.messages))
    {
      if dbFails {
        return Response(500, EmptyArray);
      }
      var thread := Lookup(docs, threadId, owner);
      if thread.None? {
        return Response(404, EmptyArray);
      }
      r := Response(200, MessageList(thread.value.messages));
    }

    /** DELETE /api/thread/:threadId for an authenticated owner. */
    method DeleteThread(threadId: ThreadId, owner: UserId, dbFails: bool) returns (r: Response)
      requires Valid()
      modifies this
      ensures Valid()
      ensures dbFails ==> r == Response(500, Outcome(false, "Failed to delete chat")) && docs == old(docs)
      ensures !dbFails && Lookup(old(docs), threadId, owner).None? ==>
        r == Response(404, Outcome(false, "Thread not found")) && docs == old(docs)
      ensures !dbFails && Lookup(old(docs), threadId, owner).Some? ==>
        r == Response(200, Outcome(true, "Thread successfully deleted"))
        && multiset(docs) + multiset{Lookup(old(docs), threadId, owner).value} == multiset(old(docs))
        && Lookup(docs, threadId, owner).None?
      ensures forall other :: other != owner ==> Owned(docs, other) == Owned(old(docs), other)
    {
      if dbFails {
        return Response(500, Outcome(false, "Failed to delete chat"));
      }
      var thread := Lookup(docs, threadId, owner);
      RemoveFirstDropsMatch(docs, threadId, owner);
      if thread.None? {
        return Response(404, Outcome(false, "Thread not found"));
      }
      RemoveFirstClearsKey(docs, threadId, owner);
      forall other | other != owner
        ensures Owned(RemoveFirst(docs, threadId, owner), other) == Owned(docs, other)
      {
        RemoveFirstKeepsOtherOwners(docs, threadId, owner, other);
      }
      RemoveFirstKeepsUnique(docs, threadId, owner);
      docs := RemoveFirst(docs, threadId, owner);
      r := Response(200, Outcome(true, "Thread successfully deleted"));
    }

    /** POST /api/chat, with or without a logged-in user. */
    method Chat(threadIdField: Option<string>, messageField: Option<string>, user: Option<UserId>,
                completion: Completion, dbFails: bool, now: int) returns (r: Response)
      requires Valid()
      modifies this
      ensures Valid()
      ensures Missing(threadIdField) || Missing(messageField) ==>
        r == Response(400, ErrorBody(MissingFields)) && docs == old(docs)
      ensures user.None? || completion.CompletionFailed? || dbFails ==> docs == old(docs)
      ensures !Missing(threadIdField) && !Missing(messageField) && completion.CompletionFailed? ==>
        r == Response(500, ErrorBody(ChatFailed))
      ensures !Missing(threadIdField) && !Missing(messageField) && user.None? && completion.Completed? ==>
        r == Response(200, ReplyBody(completion.reply))
      ensures !Missing(threadIdField) && !Missing(messageField) && user.Some? && dbFails ==>
        r == Response(500, ErrorBody(ChatFailed))
      ensures !Missing(threadIdField) && !Missing(messageField) && user.Some? && !dbFails && completion.Completed? ==>
        var threadId, owner, message, reply := threadIdField.value, user.value, messageField.value, completion.reply;
        var found := Lookup(old(docs), threadId, owner);
        && r == Response(200, ReplyBody(reply))
        && docs == Save(old(docs), Exchanged(found, threadId, owner, message, reply, now))
        && (found.None? ==>
              Lookup(docs, threadId, owner) == Some(ThreadDoc(threadId, message, Exchange(message, reply), owner, now)))
        && (found.Some? ==>
              Lookup(docs, threadId, owner) ==
                Some(found.value.(messages := found.value.messages + Exchange(message, reply), updatedAt := now)))
        && (forall other :: other != owner ==> Owned(docs, other) == Owned(old(docs), other))
    {
      if Missing(threadIdField) || Missing(messageField) {
        return Response(400, ErrorBody(MissingFields));
      }
      var threadId, message := threadIdField.value, messageField.value;
      var thread: Option<ThreadDoc> := None;
      if user.Some? {
        if dbFails {
          return Response(500, ErrorBody(ChatFailed));
        }
        thread := Lookup(docs, threadId, user.value);
      }
      var doc: ThreadDoc;
      if thread.None? {
        if user.None? {
          // A guest gets a reply and nothing is stored.
          match completion
          case CompletionFailed => return Response(500, ErrorBody(ChatFailed));
          case Completed(reply) => return Response(200, ReplyBody(reply));
        }
        doc := ThreadDoc(threadId, message, [Message(User, message)], user.value, now);
      } else {
        doc := thread.value;
        doc := doc.(messages := doc.messages + [Message(User, message)]);
      }
      if completion.CompletionFailed? {
        // The document built or updated above is never saved.
        return Response(500, ErrorBody(ChatFailed));
      }
      var reply := completion.reply;
      doc := doc.(messages := doc.messages + [Message(Assistant, reply)]);
      doc := doc.(updatedAt := now);
      assert doc == Exchanged(thread, threadId, user.value, message, reply, now);
      SaveThenLookup(docs, doc);
      SaveKeepsUnique(docs, doc);
      forall other | other != user.value
        ensures Owned(Save(docs, doc), other) == Owned(docs, other)
      {
        SaveKeepsOtherOwners(docs, doc, other);
      }
      docs := Save(docs, doc);
      r := Response(200, ReplyBody(reply));
    }

    // ---- the routes as mounted: the gate first, then the handler ----

    /** GET /api/thread as the router runs it. */
    method ServeListThreads(user: Option<UserId>, dbFails: bool) returns (r: Response)
      ensures user.None? ==> r == Response(401, EmptyArray)
      ensures user.Some? && dbFails ==> r == Response(500, EmptyArray)
      ensures user.Some? && !dbFails ==>
        r == Response(200, ThreadList(Summaries(SortByRecency(Owned(docs, user.value)))))
      ensures r.status != 200 ==> r.body == EmptyArray
    {
      assert ThreadRoutes[..|ThreadRoutes|] == ThreadRoutes;
      match IsLoggedIn(user.Some?, ThreadRoutes, "GET")
      case Respond(response) => r := response;
      case Next => r := ListThreads(user.value, dbFails);
    }

    /** GET /api/thread/:threadId as the router runs it. */
    method ServeGetThread(user: Option<UserId>, threadId: ThreadId, dbFails: bool) returns (r: Response)
      ensures user.None? ==> r == Response(401, EmptyArray)
      ensures user.Some? && dbFails ==> r == Response(500, EmptyArray)
      ensures user.Some? && !dbFails && Lookup(docs, threadId, user.value).None? ==> r == Response(404, EmptyArray)
      ensures user.Some? && !dbFails && Lookup(docs, threadId, user.value).Some? ==>
        r == Response(200, MessageList(Lookup(docs, threadId, user.value).value.messages))
      ensures r.status != 200 ==> r.body == EmptyArray
    {
      ThreadRouteIsGated(threadId);
      match IsLoggedIn(user.Some?, ThreadRoutes + "/" + threadId, "GET")
      case Respond(response) => r := response;
      case Next => r := GetThread(threadId, user.value, dbFails);
    }

    /** DELETE /api/thread/:threadId as the router runs it. */
    method ServeDeleteThread(user: Option<UserId>, threadId: ThreadId, dbFails: bool) returns (r: Response)
      requires Valid()
      modifies this
      ensures Valid()
      ensures user.None? ==> r == Response(401, Outcome(false, Unauthorized)) && docs == old(docs)
      ensures user.Some? && dbFails ==> r == Response(500, Outcome(false, "Failed to delete chat"))
      ensures user.Some? && !dbFails && Lookup(old(docs), threadId, user.value).None? ==>
        r == Response(404, Outcome(false, "Thread not found"))
      ensures user.Some? && !dbFails && Lookup(old(docs), threadId, user.value).Some? ==>
        && r == Response(200, Outcome(true, "Thread successfully deleted"))
        && multiset(docs) + multiset{Lookup(old(docs), threadId, user.value).value} == multiset(old(docs))
        && Lookup(docs, threadId, user.value).None?
      ensures r.status != 200 ==> docs == old(docs)
      ensures user.Some? ==> forall other :: other != user.value ==> Owned(docs, other) == Owned(old(docs), other)
      ensures r.body.Outcome? && (r.status == 200 <==> r.body.success)
    {
      ThreadRouteIsGated(threadId);
      match IsLoggedIn(user.Some?, ThreadRoutes + "/" + threadId, "DELETE")
      case Respond(response) => r := response;
      case Next => r := DeleteThread(threadId, user.value, dbFails);
    }
  }

  /** Deleting keeps the (threadId, owner) pairs unique. */
  lemma {:induction false} RemoveFirstKeepsUnique(docs: seq<ThreadDoc>, threadId: ThreadId, owner: UserId)
    requires UniqueKeys(docs)
    ensures UniqueKeys(RemoveFirst(docs, threadId, owner))
  {
    if docs != [] {
      var tail := docs[1..];
      assert UniqueKeys(tail) by {
        forall i, j | 0 <= i < j < |tail| ensures !Matches(tail[j], tail[i].threadId, tail[i].owner) {
          assert tail[i] == docs[i + 1] && tail[j] == docs[j + 1];
        }
      }
      if Matches(docs[0], threadId, owner) {
        assert RemoveFirst(docs, threadId, owner) == tail;
      } else {
        RemoveFirstKeepsUnique(tail, threadId, owner);
        var rest := RemoveFirst(tail, threadId, owner);
        forall x | x in tail ensures !Matches(x, docs[0].threadId, docs[0].owner) {
          var k :| 0 <= k < |tail| && tail[k] == x;
          assert docs[k + 1] == x;
        }
        var r := [docs[0]] + rest;
        forall i, j | 0 <= i < j < |r| ensures !Matches(r[j], r[i].threadId, r[i].owner) {
          assert r[j] == rest[j - 1];
          if i > 0 {
            assert r[i] == rest[i - 1];
          }
        }
      }
    }
  }
}
