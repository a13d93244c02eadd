/**
 * The IPAM REST client (ipamclient/ipamclient.go): how a client is configured, and what
 * `doRequest` adds to every request and makes of every response.
 *
 * The network is an oracle. `DoRequest` takes what the transport did with the request as a
 * parameter. The client operations in the other modules take the result of `doRequest`
 * followed by `json.Unmarshal` as a parameter (an error, or the decoded reply), and return
 * the requests they built together with what they make of those answers.
 */
module IpamClient {
  import opened Wrappers
  import opened GoText
  import opened Json

  /** The round tripper behind the HTTP client. */
  datatype RoundTripper =
    | DefaultTransport             // Go's shared `http.DefaultTransport`, which verifies certificates
    | InsecureSkipVerifyTransport  // a fresh transport whose TLS configuration skips verification

  datatype HttpClient = HttpClient(timeoutSeconds: nat, transport: RoundTripper)

  datatype Client = Client(hostUrl: string, httpClient: HttpClient, token: string)

  const RequestTimeoutSeconds: nat := 10

  /** The transport `NewClient` installs for its `defaultHttpTransport` flag. */
  function SelectTransport(defaultHttpTransport: bool): (t: RoundTripper)
    ensures t == DefaultTransport <==> defaultHttpTransport
  {
    if defaultHttpTransport then DefaultTransport else InsecureSkipVerifyTransport
  }

  /**
   * `NewClient`: host and token are copied only when given; the HTTP client always has a
   * ten-second timeout. It never fails.
   */
  method NewClient(host: Option<string>, authToken: Option<string>, defaultHttpTransport: bool)
    returns (r: Result<Client>)
    ensures r.Ok?
    ensures r.value.hostUrl == host.GetOr("")
    ensures r.value.token == authToken.GetOr("")
    ensures r.value.httpClient.timeoutSeconds == 10
    ensures r.value.httpClient.transport == DefaultTransport <==> defaultHttpTransport
  {
    var transport := SelectTransport(defaultHttpTransport);
    var c := Client("", HttpClient(RequestTimeoutSeconds, transport), "");
    if host.Some? {
      c := c.(hostUrl := host.value);
    }
    if authToken.Some? {
      c := c.(token := authToken.value);
    }
    return Ok(c);
  }

  // ---------------------------------------------------------------------------
  // Requests and doRequest
  // ---------------------------------------------------------------------------

  datatype Method = GET | POST | PUT | PATCH | DELETE

  /** A request as an operation builds it with `http.NewRequest`: no headers yet. */
  datatype Request = Request(verb: Method, url: string, body: Option<Json>)

  type Header = map<string, seq<string>>

  /** A request as `doRequest` hands it to the transport. */
  datatype Outgoing = Outgoing(request: Request, header: Header)

  /** What the transport did: it failed, or it answered with a status and a body it could or could not read. */
  datatype Exchange =
    | TransportError(error: string)
    | Response(statusCode: int, body: Result<string>)

  /** 200 OK, 201 Created, 202 Accepted and 204 No Content. */
  predicate IsSuccessStatus(code: int) {
    code == 200 || code == 201 || code == 202 || code == 204
  }

  /** `http.Header.Add`: append a value to those already under the key. */
  function AddHeader(h: Header, key: string, value: string): Header {
    h[key := (if key in h then h[key] else []) + [value]]
  }

  /** `http.Header.Set`: replace whatever is under the key. */
  function SetHeader(h: Header, key: string, value: string): Header {
    h[key := [value]]
  }

  /**
   * `doRequest`: adds the JSON `Accept` header and the bearer token, sends the request and
   * returns the body of a successful response. Every failure returns no body, only an error:
   * the transport's error, the read error, or the status and body of an unsuccessful answer.
   */
  method DoRequest(c: Client, req: Request, exchange: Exchange) returns (sent: Outgoing, body: Result<string>)
    ensures sent.request == req
    ensures sent.header == map["Accept" := ["application/json"], "Authorization" := ["Bearer " + c.token]]
    ensures body.Ok? <==> exchange.Response? && exchange.body.Ok? && IsSuccessStatus(exchange.statusCode)
    ensures body.Ok? ==> body.value == exchange.body.value
    ensures exchange.TransportError? ==> body == Err(exchange.error)
    ensures exchange.Response? && exchange.body.Err? ==> body == Err(exchange.body.error)
    ensures exchange.Response? && exchange.body.Ok? && !IsSuccessStatus(exchange.statusCode) ==>
              body == Err("status: " + IntText(exchange.statusCode) + ", body: " + exchange.body.value)
  {
    var header: Header := map[];
    assert [] + ["application/json"] == ["application/json"];
    header := AddHeader(header, "Accept", "application/json");
    header := SetHeader(header, "Authorization", "Bearer " + c.token);
    sent := Outgoing(req, header);
    if exchange.TransportError? {
      return sent, Err(exchange.error);
    }
    if exchange.body.Err? {
      return sent, Err(exchange.body.error);
    }
    var text := exchange.body.value;
    if !IsSuccessStatus(exchange.statusCode) {
      return sent, Err("status: " + IntText(exchange.statusCode) + ", body: " + text);
    }
    return sent, Ok(text);
  }

  // ---------------------------------------------------------------------------
  // Shared shapes of the client operations
  // ---------------------------------------------------------------------------

  /** The end of a client operation: the requests it built, and its result or a Go panic. */
  datatype Outcome<T> =
    | Returned(sent: seq<Request>, result: Result<T>)
    | Panicked(sent: seq<Request>, reason: string)

  /**
   * The delete operations: the body of a successful DELETE must be empty; a non-empty body
   * is itself the error.
   */
  function EmptyBodyOrError(reply: Result<string>): (r: Result<()>)
    ensures r.Ok? <==> reply == Ok("")
    ensures reply.Err? ==> r == Err(reply.error)
    ensures reply.Ok? && reply.value != "" ==> r == Err(reply.value)
  {
    match reply
    case Err(e) => Err(e)
    case Ok(b) => if b == "" then Ok(()) else Err(b)
  }

  /**
   * The update operations wrap a failed PUT or PATCH as `string(response) + ";inner error: " + err`.
   * `doRequest` hands back no body together with an error, so the text always starts with
   * ";inner error: ".
   */
  function WrapUpdateError(reply: Result<string>): (r: Result<()>)
    ensures r.Ok? <==> reply.Ok?
    ensures reply.Err? ==> r == Err(";inner error: " + reply.error)
  {
    match reply
    case Err(e) => Err("" + ";inner error: " + e)
    case Ok(_) => Ok(())
  }

  /** `/api/spaces/{space}` under the client's host. */
  function SpaceUrl(c: Client, space: string): string {
    c.hostUrl + "/api/spaces/" + space
  }

  /** `/api/spaces/{space}/blocks/{block}` under the client's host. */
  function BlockUrl(c: Client, space: string, block: string): string {
    SpaceUrl(c, space) + "/blocks/" + block
  }

  /** The text of the Go runtime panic raised by dereferencing a nil pointer. */
  const NilDereference := "runtime error: invalid memory address or nil pointer dereference"

  /** The `?expand=%t&utilization=%t` query of the space and block reads. */
  function ExpandQuery(expand: bool, appendUtilization: bool): string {
    "?expand=" + BoolText(expand) + "&utilization=" + BoolText(appendUtilization)
  }

  /** The body of the DELETE requests that name what to delete: a one-element JSON array of strings. */
  function IdListBody(id: string): Json {
    JArray([JString(id)])
  }
}
