/**
 * The HTTP surface shared by the serverless handlers: the inbound request,
 * the reply, the CORS headers every reply carries, the method gate, the
 * ledger base URL taken from the environment, and the upstream `fetch`
 * modelled as a function from the outgoing request to its outcome.
 */
module Http {
  import opened Wrappers
  import opened Js
  import Text

  /** An inbound request: method, `Authorization` header, parsed body and query-string parameters. */
  datatype Request = Request(
    verb: string,
    authorization: Option<string>,
    body: Value,
    query: map<string, string>)

  datatype Body = NoBody | JsonBody(value: Value)

  /** A reply: status, headers in the order they were set, body (`res.end()` or `res.json(v)`). */
  datatype Response = Response(status: int, headers: seq<(string, string)>, body: Body)

  /** A request the handler sends to an upstream service. */
  datatype UpstreamRequest = UpstreamRequest(
    verb: string,
    url: string,
    authorization: Option<string>,
    body: Value)

  /**
   * What an upstream `fetch` produced: a response (status, `content-type`
   * header, raw text and the outcome of parsing that text as JSON), or a
   * thrown error with its message.
   */
  datatype Upstream =
    | Responded(status: int, contentType: Option<string>, text: string, json: Result<Value, string>)
    | Threw(message: string)

  /** The upstream network: the outcome of each request a handler may send. */
  type Fetch = UpstreamRequest -> Upstream

  /** A handler's reply together with the upstream requests it sent, in order. */
  datatype Exchange = Exchange(response: Response, calls: seq<UpstreamRequest>)

  /** `response.ok`. */
  predicate IsOk(status: int) {
    200 <= status <= 299
  }

  const AllowedHeaders: string :=
    "X-CSRF-Token, X-Requested-With, Accept, Accept-Version, Content-Length, Content-MD5, Content-Type, Date, X-Api-Version, Authorization"

  /** The permissive cross-origin headers, set before anything else in every handler. */
  function CorsHeaders(methods: string, withAllowHeaders: bool): seq<(string, string)> {
    [ ("Access-Control-Allow-Credentials", "true"),
      ("Access-Control-Allow-Origin", "*"),
      ("Access-Control-Allow-Methods", methods) ]
    + (if withAllowHeaders then [("Access-Control-Allow-Headers", AllowedHeaders)] else [])
  }

  const DefaultLedgerUrl: string := "https://participant.dev.canton.wolfedgelabs.com"

  /** `process.env.VITE_LEDGER_URL || default`: an unset or empty variable falls back to the default. */
  function LedgerUrl(env: Option<string>): (url: string)
    ensures env.Some? && env.value != "" ==> url == env.value
    ensures env.None? || env.value == "" ==> url == DefaultLedgerUrl
  {
    if env.Some? && env.value != "" then env.value else DefaultLedgerUrl
  }

  /** `url.replace(/\/$/, '')`. */
  function TrimSlash(url: string): (r: string)
    ensures r == url || r + "/" == url
    ensures |url| > 0 && url[|url| - 1] == '/' ==> r + "/" == url
    ensures |url| == 0 || url[|url| - 1] != '/' ==> r == url
  {
    if |url| > 0 && url[|url| - 1] == '/' then url[..|url| - 1] else url
  }

  /** Only the last slash goes: `"x//"` keeps one of its two trailing slashes. */
  lemma TrimSlashRemovesAtMostOne(url: string)
    requires |url| >= 2 && url[|url| - 1] == '/' && url[|url| - 2] == '/'
    ensures |TrimSlash(url)| == |url| - 1
    ensures TrimSlash(url)[|url| - 2] == '/'
  {
  }

  /** `...(req.headers.authorization && { Authorization: ... })`: only a non-empty header is passed on. */
  function PassAuthorization(auth: Option<string>): (r: Option<string>)
    ensures r.Some? <==> auth.Some? && auth.value != ""
    ensures r.Some? ==> r == auth
  {
    if auth.Some? && auth.value != "" then auth else None
  }

  /**
   * The method gate every handler starts with: `OPTIONS` is answered 200
   * with no body, any other method but `allowed` gets 405 (with the received
   * method echoed when `echoMethod`), and `None` lets the request through.
   */
  function Gate(verb: string, allowed: string, headers: seq<(string, string)>, echoMethod: bool): (r: Option<Response>)
    ensures r.None? <==> verb != "OPTIONS" && verb == allowed
    ensures verb == "OPTIONS" ==> r == Some(Response(200, headers, NoBody))
    ensures verb != "OPTIONS" && verb != allowed ==> r.Some? && r.value.status == 405 && r.value.headers == headers
  {
    if verb == "OPTIONS" then Some(Response(200, headers, NoBody))
    else if verb != allowed then
      var body := if echoMethod then Obj([("error", Str("Method not allowed")), ("received", Str(verb))])
                  else Obj([("error", Str("Method not allowed"))]);
      Some(Response(405, headers, JsonBody(body)))
    else None
  }

  /**
   * The index of the first candidate whose outcome `accept` takes, trying
   * candidates strictly in order from `from`; `|cands|` when none is taken.
   */
  function FirstAccepted(cands: seq<UpstreamRequest>, fetch: Fetch, accept: Upstream -> bool, from: nat): (k: nat)
    requires from <= |cands|
    ensures from <= k <= |cands|
    ensures k < |cands| ==> accept(fetch(cands[k]))
    ensures forall j :: from <= j < k ==> !accept(fetch(cands[j]))
    decreases |cands| - from
  {
    if from == |cands| then from
    else if accept(fetch(cands[from])) then from
    else FirstAccepted(cands, fetch, accept, from + 1)
  }
}
