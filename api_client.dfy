/**
 * The collaborators of the services: the API client (client/api_client.py)
 * and the export service (services/export_service.py), reduced to what the
 * services can observe of them.
 *
 * The client is a scripted oracle: it holds the decoded responses the API
 * will give, in order, and records every path it is asked for. A request made
 * once the script is exhausted fails, as the real client does once its retries
 * are spent (ApiConnectionError, ApiResponseError). A `204 No Content` answer
 * is already `[]` in the script.
 */
module Client {
  import opened Wrappers
  import opened JsonValue
  import RequestType

  /** Every way a call into the services can end other than with a value. */
  datatype Error =
    | InvalidRequest(reason: RequestType.InvalidReason)  // InvalidRequestError from get_type
    | ProcessNotFound(query: string)                     // ProcessNotFoundError from get_processes
    | NoProcessesInList                                  // the AttributeError of __handle_list_data__
    | MalformedResponse                                  // AttributeError, KeyError or TypeError on a response of an unexpected shape
    | PageNotNumeric                                     // TypeError of `page_number + 1` when the page is not a number
    | ApiFailure                                         // the client gave up on the request

  /**
   * How a run of requests against a script ends: its outcome, the responses
   * left unused, and the paths requested, in order.
   */
  datatype Run<+T> = Run(outcome: Result<T, Error>, rest: seq<Json>, urls: seq<string>)

  /** A run that requested `url` and then went on as `r`. */
  function After<T>(url: string, r: Run<T>): Run<T>
  {
    Run(r.outcome, r.rest, [url] + r.urls)
  }

  /** A run that ends right after requesting `url`. */
  function Ended<T>(url: string, outcome: Result<T, Error>, rest: seq<Json>): Run<T>
  {
    Run(outcome, rest, [url])
  }

  class ApiClient {
    /** The responses still to come, in order. */
    var script: seq<Json>
    /** The paths requested so far, in order. */
    var requested: seq<string>

    constructor (responses: seq<Json>)
      ensures script == responses && requested == []
    {
      script := responses;
      requested := [];
    }

    /** `api_client.get(url)`: the next response, or a failure once none is left. */
    method Get(url: string) returns (r: Result<Json, Error>)
      modifies this
      ensures requested == old(requested) + [url]
      ensures old(script) == [] ==> r == Failure(ApiFailure) && script == []
      ensures old(script) != [] ==> r == Success(old(script)[0]) && script == old(script)[1..]
    {
      requested := requested + [url];
      if script == [] {
        r := Failure(ApiFailure);
      } else {
        r := Success(script[0]);
        script := script[1..];
      }
    }
  }
}
