/**
 * The backend's HTTP surface as the controller sees it. `fetch` is not modelled:
 * a command returns the Request it would send, and the awaited result is
 * passed back in as an Outcome.
 */
module Http {

  /** Base URL the controller prefixes to every path. */
  const ApiBaseUrl: string := "http://localhost:8888"

  datatype Verb = Get | Post

  /** A request body: none, or the JSON object `{speakerName: [...]}`,
      kept as a structured value (its serialisation is not modelled). */
  datatype Body = NoBody | SpeakerNames(names: seq<string>)

  datatype Request = Request(verb: Verb, url: string, body: Body)

  /** What one awaited `fetch` (and the read of its body text) produced:
      a response with its status and text, or a thrown error with its message. */
  datatype Outcome = Response(status: int, text: string) | Thrown(message: string)

  /** `response.ok`: the status lies in 200-299. */
  predicate IsOk(status: int) {
    200 <= status <= 299
  }
}
