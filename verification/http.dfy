/**
 * The HTTP boundary of the backend. A GET request is its URL plus the
 * basic-auth password (the user name is always empty); the network is an
 * oracle from requests to responses, passed to every operation, and every
 * operation reports the requests it sent, in order. A URL in which no
 * scheme can be found is refused by the HTTP library before anything is
 * sent.
 */
module Http {
  import opened Wrappers
  import Text

  /** A GET with basic authentication `("", password)`. */
  datatype Request = Request(url: string, password: Option<string>)

  /** What the HTTP library hands back: status code, reason phrase, body,
      and the URL the response belongs to as the library reports it (the
      request URL re-quoted and normalised, or the last one after a
      redirect). */
  datatype Response = Response(status: int, reason: string, text: string, url: string)

  /** The network, as a function of the request. */
  type Fetch = Request -> Response

  /** A result together with the requests issued to compute it. */
  datatype Traced<T> = Traced(value: T, requests: seq<Request>)

  /** One traced sequence followed by another: values and requests alike. */
  function Then<T>(x: Traced<seq<T>>, y: Traced<seq<T>>): Traced<seq<T>>
  {
    Traced(x.value + y.value, x.requests + y.requests)
  }

  /** Python truthiness of an optional string: `None` and `""` are false. */
  predicate Truthy(o: Option<string>)
  {
    o.Some? && o.value != ""
  }

  /** Python truthiness of an optional integer: `None` and `0` are false. */
  predicate TruthyInt(o: Option<int>)
  {
    o.Some? && o.value != 0
  }

  /** How an f-string renders an optional string: `None` becomes "None". */
  function PyStr(o: Option<string>): (r: string)
    ensures o.Some? ==> r == o.value
    ensures o.None? ==> r == "None"
  {
    o.GetOr("None")
  }

  /** `raise_for_status()` raises for client and server error codes. */
  predicate RaisesForStatus(status: int)
  {
    400 <= status < 600
  }

  /** The message of the exception `raise_for_status()` raises; it names
      the response's own URL. */
  function HttpErrorText(resp: Response): string
    requires RaisesForStatus(resp.status)
  {
    Text.IntToString(resp.status)
    + (if resp.status < 500 then " Client Error: " else " Server Error: ")
    + resp.reason + " for url: " + resp.url
  }

  /** A URL without any `:` has no scheme: preparing the request raises
      `MissingSchema` and nothing is sent. */
  predicate SchemeMissing(url: string)
  {
    ':' !in url
  }

  /** The message of that `MissingSchema` error. */
  function MissingSchemaText(url: string): string
  {
    "Invalid URL '" + url + "': No scheme supplied. Perhaps you meant https://" + url + "?"
  }

  /** What a tool hands back as a dict: the decoded JSON body of the
      response (its text stands for it), or an `{"error": ...}` object. */
  datatype Json = Body(text: string) | ErrorObject(error: string)

  /** A route's JSON body with its HTTP status. */
  datatype RouteReply = RouteReply(status: int, body: Json)

  /** Every request in the trace authenticates with `password`. */
  ghost predicate AllAuthenticatedWith(requests: seq<Request>, password: Option<string>)
  {
    forall k :: 0 <= k < |requests| ==> requests[k].password == password
  }

  /** The path of a URL and its query parameters: the text before the one
      `?`, and the `&`-separated pieces after it. */
  function QueryParams(url: string): Option<(string, seq<string>)>
  {
    var parts := Text.Split(url, '?');
    if |parts| == 2 then Some((parts[0], Text.Split(parts[1], '&'))) else None
  }

  /** A URL assembled as path, `?`, then `&`-joined parameters, decomposes
      back into that path and those parameters. */
  lemma QueryParamsOfJoin(path: string, params: seq<string>)
    requires '?' !in path
    requires |params| >= 1
    requires forall k :: 0 <= k < |params| ==> '?' !in params[k] && '&' !in params[k]
    ensures QueryParams(path + "?" + Text.Join(params, "&")) == Some((path, params))
  {
    var query := Text.Join(params, "&");
    Text.JoinAvoids(params, "&", '?');
    Text.SplitAtSeparator(path, query, '?');
    Text.SplitPlain(query, '?');
    Text.SplitJoin(params, '&');
  }
}
