// The values both sides exchange: chat messages and the `{threadId, title}`
// summaries the sidebar lists, with the list operations the client performs
// on them (filtering one thread out, head-inserting a new one).
module Threads {

  type ThreadId = string
  type UserId = string

  datatype Role = User | Assistant

  datatype Message = Message(role: Role, content: string)

  datatype Summary = Summary(threadId: ThreadId, title: string)

  /** One turn of a conversation: the user's message and then the reply. */
  function Exchange(prompt: string, reply: string): seq<Message> {
    [Message(User, prompt), Message(Assistant, reply)]
  }

  function Ids(ts: seq<Summary>): set<ThreadId> {
    set i | 0 <= i < |ts| :: ts[i].threadId
  }

  predicate DistinctIds(ts: seq<Summary>) {
    forall i, j :: 0 <= i < j < |ts| ==> ts[i].threadId != ts[j].threadId
  }

  /** `ts.filter(t => t.threadId !== threadId)`. */
  function WithoutThread(ts: seq<Summary>, threadId: ThreadId): (r: seq<Summary>)
    ensures |r| <= |ts|
    ensures forall s :: s in r <==> s in ts && s.threadId != threadId
  {
    if ts == [] then []
    else (if ts[0].threadId == threadId then [] else [ts[0]]) + WithoutThread(ts[1..], threadId)
  }

  /** The filter keeps the surviving summaries in their order: it distributes
      over concatenation. */
  lemma {:induction false} WithoutThreadDistributes(a: seq<Summary>, b: seq<Summary>, threadId: ThreadId)
    ensures WithoutThread(a + b, threadId) == WithoutThread(a, threadId) + WithoutThread(b, threadId)
  {
    if a == [] {
      assert a + b == b;
    } else {
      var head := if a[0].threadId == threadId then [] else [a[0]];
      assert (a + b)[0] == a[0] && (a + b)[1..] == a[1..] + b;
      calc {
        WithoutThread(a + b, threadId);
        head + WithoutThread(a[1..] + b, threadId);
        { WithoutThreadDistributes(a[1..], b, threadId); }
        head + (WithoutThread(a[1..], threadId) + WithoutThread(b, threadId));
        (head + WithoutThread(a[1..], threadId)) + WithoutThread(b, threadId);
        WithoutThread(a, threadId) + WithoutThread(b, threadId);
      }
    }
  }

  /** Filtering never introduces a repeated id. */
  lemma {:induction false} WithoutThreadKeepsDistinct(ts: seq<Summary>, threadId: ThreadId)
    requires DistinctIds(ts)
    ensures DistinctIds(WithoutThread(ts, threadId))
  {
    if ts != [] {
      WithoutThreadKeepsDistinct(ts[1..], threadId);
      var rest := WithoutThread(ts[1..], threadId);
      if ts[0].threadId != threadId {
        forall j | 0 <= j < |rest|
          ensures rest[j].threadId != ts[0].threadId
        {
          assert rest[j] in ts[1..];
        }
      }
    }
  }

  /** Put `s` at the head of `index` unless its id is already listed there. */
  function AddIfAbsent(index: seq<Summary>, s: Summary): (r: seq<Summary>)
    ensures Ids(r) == Ids(index) + {s.threadId}
    ensures DistinctIds(index) ==> DistinctIds(r)
    ensures s.threadId in Ids(index) ==> r == index
    ensures s.threadId !in Ids(index) ==> |r| == |index| + 1 && r[0] == s && r[1..] == index
  {
    if s.threadId in Ids(index) then index
    else
      assert Ids([s] + index) == {s.threadId} + Ids(index) by {
        forall id | id in Ids(index) ensures id in Ids([s] + index) {
          var i :| 0 <= i < |index| && index[i].threadId == id;
          assert ([s] + index)[i + 1] == index[i];
        }
        forall id | id in Ids([s] + index) ensures id == s.threadId || id in Ids(index) {
          var i :| 0 <= i < |index| + 1 && ([s] + index)[i].threadId == id;
          if i > 0 { assert ([s] + index)[i] == index[i - 1]; }
        }
        assert ([s] + index)[0] == s;
      }
      [s] + index
  }
}
