/**
 * The query forwarder (`api/query.js`): after the method gate it normalises
 * the body, tries five ledger query paths in order until one answers with
 * something other than 404, soft-fails to an empty result when none does,
 * wraps non-JSON bodies and forwards the selected status.
 */
module QueryProxy {
  import opened Wrappers
  import opened Js
  import opened Http
  import Text

  const Cors: seq<(string, string)> := CorsHeaders("GET,OPTIONS,PATCH,DELETE,POST,PUT", true)

  /** The candidate paths, in the order they are tried. */
  const Paths: seq<string> := ["/v2/query", "/v1/query", "/query", "/v2/contracts/search", "/v1/contracts/search"]

  /** How much of a non-JSON upstream body is kept. */
  const NonJsonLimit: nat := 500

  const Failed: string := "Failed to query ledger"

  /** The reply when no candidate answers: 200 with an empty result list. */
  const EmptyResult: Value := Obj([("result", Arr([]))])

  /**
   * `{templateIds: body.templateIds || [], query: body.query || {}}`; reading
   * a field of a null or absent body throws.
   */
  function ForwardedBody(body: Value): (r: Result<Value, string>)
    ensures r.Failure? <==> body.Undefined? || body.Null?
    ensures r.Success? ==>
      var ids := Prop(body, "templateIds").value;
      var q := Prop(body, "query").value;
      && r.value.Obj?
      && |r.value.fields| == 2
      && r.value.fields[0] == ("templateIds", if Truthy(ids) then ids else Arr([]))
      && r.value.fields[1] == ("query", if Truthy(q) then q else Obj([]))
  {
    match Prop(body, "templateIds")
    case Failure(e) => Failure(e)
    case Success(ids) =>
      var q := Prop(body, "query").value;
      Success(Obj([("templateIds", Or(ids, Arr([]))), ("query", Or(q, Obj([])))]))
  }

  /** The five upstream requests, one per candidate path, all carrying the same body and header. */
  function Candidates(base: string, auth: Option<string>, body: Value): (cands: seq<UpstreamRequest>)
    ensures |cands| == |Paths|
    ensures forall i :: 0 <= i < |cands| ==> cands[i] == UpstreamRequest("POST", base + Paths[i], auth, body)
  {
    seq(|Paths|, i requires 0 <= i < |Paths| => UpstreamRequest("POST", base + Paths[i], auth, body))
  }

  /** A candidate is selected when its fetch did not throw and its status is not 404. */
  predicate Answers(u: Upstream) {
    u.Responded? && u.status != 404
  }

  /** The body parsed when the content type says JSON, otherwise a wrapper around the first 500 characters of the text. */
  function Data(u: Upstream): Result<Value, string>
    requires u.Responded?
  {
    if u.contentType.Some? && Text.Contains(u.contentType.value, "application/json") then u.json
    else Success(Obj([("error", Str("Non-JSON response")), ("text", Str(Text.Take(u.text, NonJsonLimit)))]))
  }

  /** The reply built from the selected upstream response, including the branch for a 404. */
  function Forward(u: Upstream, endpoint: string): Response
    requires u.Responded?
  {
    match Data(u)
    case Failure(msg) => Response(500, Cors, JsonBody(ErrorBody(Failed, msg)))
    case Success(data) =>
      if !IsOk(u.status) then
        if u.status == 404 then
          Response(404, Cors, JsonBody(Obj([
            ("error", Str("Canton endpoint not found")),
            ("message", Str("The Canton participant JSON API endpoint is not configured or accessible.")),
            ("details", data),
            ("suggestion", Str("Please verify that the Canton participant has the JSON API enabled and the endpoint path is correct.")),
            ("endpoint", Str(endpoint))])))
        else Response(u.status, Cors, JsonBody(data))
      else Response(200, Cors, JsonBody(data))
  }

  /** The requests a POST with a readable body sends, in the order they may be tried. */
  function CandidatesFor(req: Request, env: Option<string>, body: Value): seq<UpstreamRequest> {
    Candidates(TrimSlash(LedgerUrl(env)), PassAuthorization(req.authorization), body)
  }

  /**
   * `handler(req, res)`. Every reply carries the CORS headers, at most the
   * five candidates are tried, and no reply is ever a 404: a 404 from
   * upstream is never selected, so the branch that would build one is dead.
   */
  function Handle(req: Request, env: Option<string>, fetch: Fetch): (x: Exchange)
    ensures x.response.headers == Cors
    ensures x.response.status != 404
    ensures |x.calls| <= |Paths|
  {
    match Gate(req.verb, "POST", Cors, true)
    case Some(r) => Exchange(r, [])
    case None =>
      match ForwardedBody(req.body)
      case Failure(msg) => Exchange(Response(500, Cors, JsonBody(ErrorBody(Failed, msg))), [])
      case Success(body) =>
        var cands := CandidatesFor(req, env, body);
        var k := FirstAccepted(cands, fetch, Answers, 0);
        if k == |cands| then Exchange(Response(200, Cors, JsonBody(EmptyResult)), cands)
        else Exchange(Forward(fetch(cands[k]), cands[k].url), cands[..k + 1])
  }

  /** A preflight is answered 200 with no body before anything else, and nothing is sent upstream. */
  lemma PreflightFirst(req: Request, env: Option<string>, fetch: Fetch)
    requires req.verb == "OPTIONS"
    ensures Handle(req, env, fetch) == Exchange(Response(200, Cors, NoBody), [])
  {
  }

  /** Any method but OPTIONS and POST gets 405 naming the received method, and nothing is sent upstream. */
  lemma OtherMethodsRejected(req: Request, env: Option<string>, fetch: Fetch)
    requires req.verb != "OPTIONS" && req.verb != "POST"
    ensures Handle(req, env, fetch) == Exchange(
      Response(405, Cors, JsonBody(Obj([("error", Str("Method not allowed")), ("received", Str(req.verb))]))), [])
  {
  }

  /**
   * Candidate `i` is selected exactly when every earlier candidate threw or
   * answered 404 and candidate `i` answered otherwise: the candidates up to
   * `i` are tried in order and the reply is built from candidate `i`.
   */
  lemma SelectsFirstAnswer(req: Request, env: Option<string>, fetch: Fetch, body: Value, i: nat)
    requires req.verb == "POST" && ForwardedBody(req.body) == Success(body)
    requires i < |Paths|
    requires forall j :: 0 <= j < i ==> !Answers(fetch(CandidatesFor(req, env, body)[j]))
    requires Answers(fetch(CandidatesFor(req, env, body)[i]))
    ensures var cands := CandidatesFor(req, env, body);
      Handle(req, env, fetch) == Exchange(Forward(fetch(cands[i]), cands[i].url), cands[..i + 1])
  {
    var cands := CandidatesFor(req, env, body);
    var k := FirstAccepted(cands, fetch, Answers, 0);
    assert k == i;
  }

  /** When every candidate throws or answers 404, all five are tried and the reply is 200 with an empty result. */
  lemma SoftFailsToEmpty(req: Request, env: Option<string>, fetch: Fetch, body: Value)
    requires req.verb == "POST" && ForwardedBody(req.body) == Success(body)
    requires forall j :: 0 <= j < |Paths| ==> !Answers(fetch(CandidatesFor(req, env, body)[j]))
    ensures Handle(req, env, fetch) == Exchange(Response(200, Cors, JsonBody(EmptyResult)), CandidatesFor(req, env, body))
  {
    var cands := CandidatesFor(req, env, body);
    var k := FirstAccepted(cands, fetch, Answers, 0);
    assert k == |cands|;
  }

  /** A selected non-2xx JSON reply has its status and parsed body forwarded unchanged. */
  lemma ForwardsErrorStatus(u: Upstream, endpoint: string, data: Value)
    requires Answers(u) && !IsOk(u.status)
    requires u.contentType.Some? && Text.Contains(u.contentType.value, "application/json")
    requires u.json == Success(data)
    ensures Forward(u, endpoint) == Response(u.status, Cors, JsonBody(data))
  {
  }

  /** A selected 2xx JSON reply gives 200 with the parsed body. */
  lemma ForwardsSuccess(u: Upstream, endpoint: string, data: Value)
    requires u.Responded? && IsOk(u.status)
    requires u.contentType.Some? && Text.Contains(u.contentType.value, "application/json")
    requires u.json == Success(data)
    ensures Forward(u, endpoint) == Response(200, Cors, JsonBody(data))
  {
  }

  /**
   * A selected reply whose content type is not JSON is wrapped: the body
   * becomes `{error: "Non-JSON response", text}` where `text` is the first
   * (at most) 500 characters of the upstream text, and the status is
   * 200 for a 2xx reply and the upstream status otherwise.
   */
  lemma WrapsNonJson(u: Upstream, endpoint: string)
    requires Answers(u)
    requires u.contentType.None? || !Text.Contains(u.contentType.value, "application/json")
    ensures var r := Forward(u, endpoint);
      && r.status == (if IsOk(u.status) then 200 else u.status)
      && r.body.JsonBody? && r.body.value.Obj?
      && |r.body.value.fields| == 2
      && r.body.value.fields[0] == ("error", Str("Non-JSON response"))
      && r.body.value.fields[1].0 == "text"
      && r.body.value.fields[1].1.Str?
      && |r.body.value.fields[1].1.s| <= NonJsonLimit
      && r.body.value.fields[1].1.s <= u.text
  {
  }

  /** The forwarded body keeps the caller's template ids and query, and falls back to `[]` and `{}` for missing ones. */
  lemma NormalisesBody(ids: Value, q: Value)
    ensures ForwardedBody(Obj([("templateIds", ids), ("query", q)]))
      == Success(Obj([("templateIds", if Truthy(ids) then ids else Arr([])), ("query", if Truthy(q) then q else Obj([]))]))
    ensures ForwardedBody(Obj([])) == Success(Obj([("templateIds", Arr([])), ("query", Obj([]))]))
  {
    var fields := [("templateIds", ids), ("query", q)];
    assert Lookup(fields, "query") == q;
    assert fields[..1] == [("templateIds", ids)];
    assert Lookup(fields, "templateIds") == ids;
  }
}
