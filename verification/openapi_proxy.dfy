/**
 * The diagnostic forwarder (`api/openapi.js`): after the method gate it tries
 * four specification paths in order and answers with the first 2xx one, its
 * text cut to 5000 characters, or with 404 listing every path tried.
 */
module OpenApiProxy {
  import opened Wrappers
  import opened Js
  import opened Http
  import Text

  const Cors: seq<(string, string)> := CorsHeaders("GET, OPTIONS", false)

  const Paths: seq<string> := ["/docs/openapi", "/openapi", "/v2/openapi", "/v1/openapi"]

  /** How much of the specification text is returned. */
  const SpecLimit: nat := 5000

  const FoundMessage: string := "OpenAPI spec found. Check the spec to identify correct endpoint paths."
  const NotFoundMessage: string :=
    "Could not find OpenAPI specification. The JSON API might not be enabled or the endpoint path is different."

  function Candidates(base: string): (cands: seq<UpstreamRequest>)
    ensures |cands| == |Paths|
    ensures forall i :: 0 <= i < |cands| ==> cands[i] == UpstreamRequest("GET", base + Paths[i], None, Undefined)
  {
    seq(|Paths|, i requires 0 <= i < |Paths| => UpstreamRequest("GET", base + Paths[i], None, Undefined))
  }

  /** Only a 2xx reply ends the search; any other status or a thrown fetch moves on. */
  predicate Found(u: Upstream) {
    u.Responded? && IsOk(u.status)
  }

  function Urls(cands: seq<UpstreamRequest>): (urls: seq<Value>)
    ensures |urls| == |cands|
    ensures forall i :: 0 <= i < |cands| ==> urls[i] == Str(cands[i].url)
  {
    seq(|cands|, i requires 0 <= i < |cands| => Str(cands[i].url))
  }

  /** The 200 reply for the endpoint that answered. */
  function FoundReply(u: Upstream, endpoint: string): Response
    requires u.Responded?
  {
    Response(200, Cors, JsonBody(Obj([
      ("success", Bool(true)),
      ("endpoint", Str(endpoint)),
      ("contentType", if u.contentType.Some? then Str(u.contentType.value) else Null),
      ("spec", Str(Text.Take(u.text, SpecLimit))),
      ("message", Str(FoundMessage))])))
  }

  /** The 404 reply when no endpoint answered. */
  function NotFoundReply(cands: seq<UpstreamRequest>): Response {
    Response(404, Cors, JsonBody(Obj([
      ("error", Str("OpenAPI spec not found")),
      ("triedEndpoints", Arr(Urls(cands))),
      ("message", Str(NotFoundMessage))])))
  }

  /** `handler(req, res)`: every reply carries the CORS headers and is 200, 404 or 405. */
  function Handle(req: Request, env: Option<string>, fetch: Fetch): (x: Exchange)
    ensures x.response.headers == Cors
    ensures x.response.status in {200, 404, 405}
    ensures |x.calls| <= |Paths|
  {
    match Gate(req.verb, "GET", Cors, false)
    case Some(r) => Exchange(r, [])
    case None =>
      var cands := Candidates(TrimSlash(LedgerUrl(env)));
      var k := FirstAccepted(cands, fetch, Found, 0);
      if k == |cands| then Exchange(NotFoundReply(cands), cands)
      else Exchange(FoundReply(fetch(cands[k]), cands[k].url), cands[..k + 1])
  }

  /** A preflight gets 200 with no body; any other method but GET gets 405; neither calls upstream. */
  lemma MethodGate(req: Request, env: Option<string>, fetch: Fetch)
    requires req.verb != "GET"
    ensures req.verb == "OPTIONS" ==> Handle(req, env, fetch) == Exchange(Response(200, Cors, NoBody), [])
    ensures req.verb != "OPTIONS" ==> Handle(req, env, fetch) == Exchange(
      Response(405, Cors, JsonBody(Obj([("error", Str("Method not allowed"))]))), [])
  {
  }

  /**
   * Candidate `i` answers the request exactly when it is the first whose
   * fetch returned a 2xx status: the reply names it and carries at most 5000
   * characters of its text, which are a prefix of that text.
   */
  lemma SelectsFirstOk(req: Request, env: Option<string>, fetch: Fetch, i: nat)
    requires req.verb == "GET" && i < |Paths|
    requires forall j :: 0 <= j < i ==> !Found(fetch(Candidates(TrimSlash(LedgerUrl(env)))[j]))
    requires Found(fetch(Candidates(TrimSlash(LedgerUrl(env)))[i]))
    ensures var cands := Candidates(TrimSlash(LedgerUrl(env)));
      var x := Handle(req, env, fetch);
      && x.calls == cands[..i + 1]
      && x.response == FoundReply(fetch(cands[i]), TrimSlash(LedgerUrl(env)) + Paths[i])
  {
    var cands := Candidates(TrimSlash(LedgerUrl(env)));
    var k := FirstAccepted(cands, fetch, Found, 0);
    assert k == i;
  }

  /** The returned specification text is the first at most 5000 characters of what the endpoint sent. */
  lemma SpecTruncated(u: Upstream, endpoint: string)
    requires u.Responded?
    ensures var spec := FoundReply(u, endpoint).body.value.fields[3].1.s;
      |spec| <= SpecLimit && spec <= u.text && (|u.text| <= SpecLimit ==> spec == u.text)
  {
  }

  /** When no candidate returns 2xx, all four are tried and the 404 reply lists all four. */
  lemma ExhaustionListsAll(req: Request, env: Option<string>, fetch: Fetch)
    requires req.verb == "GET"
    requires forall j :: 0 <= j < |Paths| ==> !Found(fetch(Candidates(TrimSlash(LedgerUrl(env)))[j]))
    ensures var cands := Candidates(TrimSlash(LedgerUrl(env)));
      var x := Handle(req, env, fetch);
      && x.calls == cands
      && x.response.status == 404
      && x.response.body.value.fields[1] == ("triedEndpoints", Arr(Urls(cands)))
  {
    var cands := Candidates(TrimSlash(LedgerUrl(env)));
    var k := FirstAccepted(cands, fetch, Found, 0);
    assert k == |cands|;
  }
}
