/** The network as the pipeline sees it: the reply to a request, or the kind of failure
    the HTTP client raised, and a trace of the requests and pauses made, in order. */
module Http {
  import opened PyJson

  /** Why a request failed: a timeout, a status or content-type error from the server,
      a refused connection, or any other exception of the HTTP client. */
  datatype Failure = Timeout | HttpStatus(code: int) | ConnectFailed | Unexpected

  datatype Transport<+T> = Reply(body: T) | Failed(failure: Failure)

  /** The three failures the credential step catches and logs; the others escape. */
  predicate Handled(f: Failure) {
    f.Timeout? || f.HttpStatus? || f.ConnectFailed?
  }

  /** What the remote sites answer: the text of a page, and the decoded JSON reply to a
      form posted to an endpoint. */
  datatype Net = Net(
    get: string -> Transport<string>,
    post: (string, map<string, string>) -> Transport<Json>)

  /** Something observable the pipeline does: fetch a page, post a form, or sleep for a
      random time drawn between two bounds. */
  datatype Effect =
    | GetPage(url: string)
    | PostForm(url: string, form: map<string, string>)
    | Pause(low: real, high: real)

  /** A result together with the effects made while computing it. */
  datatype Traced<+T> = Traced(value: T, effects: seq<Effect>)
}
