// The `isLoggedIn` gate in front of the thread routes: an authenticated
// request goes on to its handler; any other request is answered with a 401
// whose body has the shape the route's client expects.
module Middleware {
  import opened Text
  import opened Wire

  datatype Decision = Next | Respond(response: Response)

  const ThreadRoutes: string := "/api/thread"
  const Unauthorized: string := "Unauthorized"

  /** The gate's decision for a request with the given authentication state,
      original URL and HTTP method. */
  function IsLoggedIn(authenticated: bool, originalUrl: string, verb: string): (d: Decision)
    ensures d.Next? <==> authenticated
    ensures d.Respond? ==> d.response.status == 401
    ensures !authenticated && StartsWith(originalUrl, ThreadRoutes) && verb == "GET" ==>
      d.response.body == EmptyArray
    ensures !authenticated && StartsWith(originalUrl, ThreadRoutes) && verb == "DELETE" ==>
      d.response.body == Outcome(false, Unauthorized)
    ensures !authenticated && !(StartsWith(originalUrl, ThreadRoutes) && (verb == "GET" || verb == "DELETE")) ==>
      d.response.body == ErrorBody(Unauthorized)
  {
    if authenticated then Next
    else if StartsWith(originalUrl, ThreadRoutes) && verb == "GET" then Respond(Response(401, EmptyArray))
    else if StartsWith(originalUrl, ThreadRoutes) && verb == "DELETE" then Respond(Response(401, Outcome(false, Unauthorized)))
    else Respond(Response(401, ErrorBody(Unauthorized)))
  }

  /** Every per-thread route lies under the gate's prefix. */
  lemma ThreadRouteIsGated(threadId: string)
    ensures StartsWith(ThreadRoutes + "/" + threadId, ThreadRoutes)
  {
    var url := ThreadRoutes + "/" + threadId;
    assert url[..|ThreadRoutes|] == ThreadRoutes;
  }
}
