/**
 * What the API routes see of the network: each `fetch(url)` settles to a
 * response with a status and a body, or to a rejection with the thrown
 * value; and the diagnostics list the routes append to in place.
 */
module Fetching {

  /** A thrown value: an `Error` with its message, or anything else. */
  datatype Thrown = ErrorObject(message: string) | OtherValue

  /** What one `fetch(url)` settles to. */
  datatype FetchOutcome = Response(status: nat, body: string) | Rejected(reason: Thrown)

  /** The fetch the route performs, as a function of the URL. */
  type Fetcher = string -> FetchOutcome

  /** `response.ok`. */
  predicate IsOkStatus(status: nat) {
    200 <= status <= 299
  }

  predicate Succeeds(outcome: FetchOutcome) {
    outcome.Response? && IsOkStatus(outcome.status)
  }

  /** A diagnostics list that is appended to in place. */
  class DiagnosticLog {
    var entries: seq<string>

    constructor()
      ensures entries == []
    {
      entries := [];
    }

    /** `diagnostics.push(note)`. */
    method Push(note: string)
      modifies this
      ensures entries == old(entries) + [note]
    {
      entries := entries + [note];
    }
  }
}
