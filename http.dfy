/** The HTTP exchanges the Spotify client performs, seen from the client: the
    requests it sends and the responses it reads. The remote side is a fixed
    function from request to response; the transport records every request
    sent, in order, so that contracts can say which requests were made. */
module Http {
  import opened PyValues

  datatype Verb = GET | POST

  /** A request: verb, URL, query parameters (GET) or form fields (POST),
      and headers. */
  datatype HttpRequest = HttpRequest(verb: Verb, url: string, fields: map<string, string>, headers: map<string, string>)

  /** A response: status code and the JSON value `response.json()` gives. */
  datatype HttpResponse = HttpResponse(status: int, body: Json)

  class Transport {
    /** How the remote side answers each request. */
    const respond: HttpRequest -> HttpResponse
    /** Every request sent so far, oldest first. */
    var log: seq<HttpRequest>

    constructor (respond: HttpRequest -> HttpResponse)
      ensures this.respond == respond && log == []
    {
      this.respond := respond;
      log := [];
    }

    /** `requests.get` / `requests.post`: send one request, read its response. */
    method Send(request: HttpRequest) returns (response: HttpResponse)
      modifies this
      ensures log == old(log) + [request]
      ensures response == respond(request)
    {
      log := log + [request];
      response := respond(request);
    }
  }

  /** Requests sent one batch after another, regrouped. Serves the loop of
      `SpotifyClient.FetchAll`, which appends one fetch at a time. */
  lemma Regroup(log: seq<HttpRequest>, first: seq<HttpRequest>, next: seq<HttpRequest>)
    ensures log + first + next == log + (first + next)
  {
  }
}
