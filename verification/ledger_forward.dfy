/**
 * The single-endpoint forwarders `api/command.js` and `api/query/index.js`:
 * the same decision in both, against `/v1/command` and `/v1/query`. The body
 * goes upstream unchanged to the untrimmed ledger URL; the upstream status is
 * forwarded; any exception, a non-JSON body included, gives 500.
 */
module LedgerForward {
  import opened Wrappers
  import opened Js
  import opened Http

  const Cors: seq<(string, string)> := CorsHeaders("GET,OPTIONS,PATCH,DELETE,POST,PUT", true)

  /** The one upstream request: the body as received, to the ledger URL plus `path`. */
  function Outgoing(req: Request, env: Option<string>, path: string): UpstreamRequest {
    UpstreamRequest("POST", LedgerUrl(env) + path, PassAuthorization(req.authorization), req.body)
  }

  /**
   * The shared handler. A POST sends exactly one request upstream; a thrown
   * fetch or an unparsable body gives 500 `{error: failure, message}`; a
   * parsed reply is forwarded with its own status when not 2xx and with 200
   * otherwise.
   */
  function Forward(req: Request, env: Option<string>, fetch: Fetch, path: string, failure: string): (x: Exchange)
    ensures x.response.headers == Cors
    ensures req.verb == "POST" <==> x.calls == [Outgoing(req, env, path)]
    ensures req.verb != "POST" ==> x.calls == []
    ensures req.verb == "POST" ==>
      match fetch(Outgoing(req, env, path))
      case Threw(msg) => x.response == Response(500, Cors, JsonBody(ErrorBody(failure, msg)))
      case Responded(status, _, _, json) =>
        match json
        case Failure(msg) => x.response == Response(500, Cors, JsonBody(ErrorBody(failure, msg)))
        case Success(data) => x.response == Response(if IsOk(status) then 200 else status, Cors, JsonBody(data))
  {
    match Gate(req.verb, "POST", Cors, true)
    case Some(r) => Exchange(r, [])
    case None =>
      var call := Outgoing(req, env, path);
      var reply :=
        match fetch(call)
        case Threw(msg) => Response(500, Cors, JsonBody(ErrorBody(failure, msg)))
        case Responded(status, _, _, json) =>
          match json
          case Failure(msg) => Response(500, Cors, JsonBody(ErrorBody(failure, msg)))
          case Success(data) =>
            if !IsOk(status) then Response(status, Cors, JsonBody(data))
            else Response(200, Cors, JsonBody(data));
      Exchange(reply, [call])
  }

  /** `api/command.js`. */
  function Command(req: Request, env: Option<string>, fetch: Fetch): Exchange {
    Forward(req, env, fetch, "/v1/command", "Failed to submit command")
  }

  /** `api/query/index.js`. */
  function QueryIndex(req: Request, env: Option<string>, fetch: Fetch): Exchange {
    Forward(req, env, fetch, "/v1/query", "Failed to query ledger")
  }

  /** A preflight gets 200 with no body and any other method but POST gets 405 naming it; neither calls upstream. */
  lemma CommandMethodGate(req: Request, env: Option<string>, fetch: Fetch)
    requires req.verb != "POST"
    ensures req.verb == "OPTIONS" ==> Command(req, env, fetch) == Exchange(Response(200, Cors, NoBody), [])
    ensures req.verb != "OPTIONS" ==> Command(req, env, fetch) == Exchange(
      Response(405, Cors, JsonBody(Obj([("error", Str("Method not allowed")), ("received", Str(req.verb))]))), [])
  {
  }

  /**
   * A command is posted once, body unchanged, to `<ledger URL>/v1/command`,
   * with the caller's Authorization header only when it has a non-empty one.
   */
  lemma CommandForwardsUnchanged(req: Request, env: Option<string>, fetch: Fetch)
    requires req.verb == "POST"
    ensures var calls := Command(req, env, fetch).calls;
      && |calls| == 1
      && calls[0].url == LedgerUrl(env) + "/v1/command"
      && calls[0].body == req.body
      && (calls[0].authorization.Some? <==> req.authorization.Some? && req.authorization.value != "")
      && (calls[0].authorization.Some? ==> calls[0].authorization == req.authorization)
  {
  }

  /** Any exception while submitting a command, a non-JSON upstream body included, gives 500. */
  lemma CommandFailuresAre500(req: Request, env: Option<string>, fetch: Fetch)
    requires req.verb == "POST"
    requires var u := fetch(Outgoing(req, env, "/v1/command")); u.Threw? || u.json.Failure?
    ensures Command(req, env, fetch).response.status == 500
    ensures Command(req, env, fetch).response.body.value.fields[0] == ("error", Str("Failed to submit command"))
  {
  }

  /**
   * A query through `api/query/index.js` is posted once, unchanged, to the
   * ledger URL plus `/v1/query`, with no endpoint search and no slash
   * trimming: a ledger URL ending in `/` yields `//v1/query`.
   */
  lemma QueryIndexForwardsUnchanged(req: Request, env: Option<string>, fetch: Fetch)
    requires req.verb == "POST"
    ensures QueryIndex(req, env, fetch).calls ==
      [UpstreamRequest("POST", LedgerUrl(env) + "/v1/query", PassAuthorization(req.authorization), req.body)]
    ensures QueryIndex(req, Some("https://ledger.example/"), fetch).calls ==
      [UpstreamRequest("POST", "https://ledger.example//v1/query", PassAuthorization(req.authorization), req.body)]
  {
    assert LedgerUrl(Some("https://ledger.example/")) + "/v1/query" == "https://ledger.example//v1/query";
  }

  /** Upstream status is forwarded for a non-2xx JSON reply and 200 is returned for a 2xx one. */
  lemma QueryIndexForwardsStatus(req: Request, env: Option<string>, fetch: Fetch, data: Value)
    requires req.verb == "POST"
    requires var u := fetch(Outgoing(req, env, "/v1/query")); u.Responded? && u.json == Success(data)
    ensures var u := fetch(Outgoing(req, env, "/v1/query"));
      QueryIndex(req, env, fetch).response == Response(if IsOk(u.status) then 200 else u.status, Cors, JsonBody(data))
  {
  }

  /** Any exception while querying gives 500 `{error: "Failed to query ledger", message}`. */
  lemma QueryIndexFailuresAre500(req: Request, env: Option<string>, fetch: Fetch)
    requires req.verb == "POST"
    requires fetch(Outgoing(req, env, "/v1/query")).Threw?
    ensures QueryIndex(req, env, fetch).response == Response(500, Cors,
      JsonBody(ErrorBody("Failed to query ledger", fetch(Outgoing(req, env, "/v1/query")).message)))
  {
  }
}
