/**
 * The HTTP transport as a queue of canned responses and a trace of issued requests.
 * Every request takes the next response of the queue; once the queue is exhausted
 * the transport answers like an unmatched fake: status 200 with an empty body.
 */
module Transport {
  import opened Wrappers
  import opened Json
  import opened Exceptions

  datatype Verb = GET | POST

  datatype Request = Request(verb: Verb, url: string, payload: Option<Json>)

  /** A response: its status code and its decoded body (`JNull` for an empty or undecodable body). */
  datatype Response = Response(status: int, body: Json) {
    /** `$response->successful()`. */
    predicate Successful() {
      200 <= status < 300
    }
  }

  const Unstubbed := Response(200, JNull)

  function Next(queue: seq<Response>): Response {
    if queue == [] then Unstubbed else queue[0]
  }

  function Rest(queue: seq<Response>): (r: seq<Response>)
    ensures queue != [] ==> |r| == |queue| - 1
  {
    if queue == [] then [] else queue[1..]
  }

  /** What one operation does: its outcome, the requests it issues in order, and the responses left. */
  datatype Exchange<+T> = Exchange(result: Result<T>, requests: seq<Request>, remaining: seq<Response>)

  /** Requests issued in two steps appear in the trace as the steps' requests in order. */
  lemma TraceAppend(trace: seq<Request>, first: seq<Request>, second: seq<Request>)
    ensures trace + first + second == trace + (first + second)
  {
  }

  /** A request sequence that contains no POST. */
  predicate NoPost(requests: seq<Request>) {
    forall i :: 0 <= i < |requests| ==> requests[i].verb == GET
  }

  class Http {
    var queue: seq<Response>
    var trace: seq<Request>

    constructor (responses: seq<Response>)
      ensures queue == responses && trace == []
    {
      queue := responses;
      trace := [];
    }

    method Get(url: string) returns (response: Response)
      modifies this
      ensures response == Next(old(queue)) && queue == Rest(old(queue))
      ensures trace == old(trace) + [Request(GET, url, None)]
    {
      response := Next(queue);
      queue := Rest(queue);
      trace := trace + [Request(GET, url, None)];
    }

    method Post(url: string, payload: Json) returns (response: Response)
      modifies this
      ensures response == Next(old(queue)) && queue == Rest(old(queue))
      ensures trace == old(trace) + [Request(POST, url, Some(payload))]
    {
      response := Next(queue);
      queue := Rest(queue);
      trace := trace + [Request(POST, url, Some(payload))];
    }
  }
}
