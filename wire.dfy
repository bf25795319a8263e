// What travels between the browser and the server: optional values, the
// outcome of one `fetch`, and the JSON bodies the server's handlers send.
module Wire {
  import opened Threads

  datatype Option<+T> = None | Some(value: T)

  /** The outcome of one `fetch` as the client sees it: the call threw
      (network failure), or a response arrived with `response.ok` and the
      parsed JSON body. */
  datatype Fetched<+T> = Threw | Responded(ok: bool, body: T) {
    /** A response arrived and `response.ok` holds. */
    predicate Succeeded() {
      Responded? && ok
    }
  }

  /** The JSON bodies of the thread routes, the chat route and the gate.
      `EmptyArray` is the literal `[]` sent on failures. */
  datatype Body =
    | EmptyArray
    | ThreadList(threads: seq<Summary>)
    | MessageList(messages: seq<Message>)
    | Outcome(success: bool, message: string)
    | ErrorBody(error: string)
    | ReplyBody(reply: string)

  datatype Response = Response(status: int, body: Body)
}
