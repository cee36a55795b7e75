/**
 * The price forwarder (`api/oracle.js`): after the method gate it requires a
 * non-empty `symbol`, asks the RedStone prices API for it, and turns every
 * failure, an upstream error status included, into a 500.
 */
module OracleProxy {
  import opened Wrappers
  import opened Js
  import opened Http
  import Text
  import Url

  const Cors: seq<(string, string)> := CorsHeaders("GET,OPTIONS", true)

  const PricesUrl: string := "https://api.redstone.finance/prices"

  const Failed: string := "Failed to fetch oracle data"

  /** The upstream URL with the symbol URL-encoded into the query string. */
  function PriceUrl(symbol: string): string {
    PricesUrl + "?symbol=" + Url.Encode(symbol) + "&provider=redstone"
  }

  /** `handler(req, res)`: every reply carries the CORS headers; at most one upstream call is made. */
  function Handle(req: Request, fetch: Fetch): (x: Exchange)
    ensures x.response.headers == Cors
    ensures |x.calls| <= 1
    ensures x.response.status in {200, 400, 405, 500}
  {
    match Gate(req.verb, "GET", Cors, false)
    case Some(r) => Exchange(r, [])
    case None =>
      if "symbol" !in req.query || req.query["symbol"] == "" then
        Exchange(Response(400, Cors, JsonBody(Obj([("error", Str("Symbol parameter is required"))]))), [])
      else
        var call := UpstreamRequest("GET", PriceUrl(req.query["symbol"]), None, Undefined);
        var reply :=
          match fetch(call)
          case Threw(msg) => Response(500, Cors, JsonBody(ErrorBody(Failed, msg)))
          case Responded(status, _, _, json) =>
            if !IsOk(status) then
              Response(500, Cors, JsonBody(ErrorBody(Failed, "RedStone API returned " + Text.IntToString(status))))
            else
              match json
              case Failure(msg) => Response(500, Cors, JsonBody(ErrorBody(Failed, msg)))
              case Success(data) => Response(200, Cors, JsonBody(data));
        Exchange(reply, [call])
  }

  /** A preflight gets 200 with no body; any other method but GET gets 405; neither calls upstream. */
  lemma MethodGate(req: Request, fetch: Fetch)
    requires req.verb != "GET"
    ensures req.verb == "OPTIONS" ==> Handle(req, fetch) == Exchange(Response(200, Cors, NoBody), [])
    ensures req.verb != "OPTIONS" ==> Handle(req, fetch).response.status == 405 && Handle(req, fetch).calls == []
  {
  }

  /** A missing or empty symbol gives 400 before any upstream call. */
  lemma SymbolRequired(req: Request, fetch: Fetch)
    requires req.verb == "GET"
    requires "symbol" !in req.query || req.query["symbol"] == ""
    ensures Handle(req, fetch).response.status == 400 && Handle(req, fetch).calls == []
  {
  }

  /**
   * The symbol reaches upstream only URL-encoded: the encoded text holds no
   * `&`, `=` or `#`, so it cannot add or override a query parameter, and for
   * ASCII symbols it decodes back to the symbol.
   */
  lemma SymbolEncoded(req: Request, fetch: Fetch)
    requires req.verb == "GET" && "symbol" in req.query && req.query["symbol"] != ""
    ensures var calls := Handle(req, fetch).calls;
      && |calls| == 1
      && calls[0].url == PricesUrl + "?symbol=" + Url.Encode(req.query["symbol"]) + "&provider=redstone"
    ensures var e := Url.Encode(req.query["symbol"]); '&' !in e && '=' !in e && '#' !in e
    ensures (forall i :: 0 <= i < |req.query["symbol"]| ==> req.query["symbol"][i] as int < 0x80) ==>
      Url.DecodeAscii(Url.Encode(req.query["symbol"])) == req.query["symbol"]
  {
    Url.EncodeHasNoDelimiters(req.query["symbol"]);
    if forall i :: 0 <= i < |req.query["symbol"]| ==> req.query["symbol"][i] as int < 0x80 {
      Url.DecodeEncodeAscii(req.query["symbol"]);
    }
  }

  /** A non-2xx upstream status is never forwarded: it becomes 500 naming that status. */
  lemma UpstreamErrorBecomes500(req: Request, fetch: Fetch)
    requires req.verb == "GET" && "symbol" in req.query && req.query["symbol"] != ""
    requires var u := fetch(UpstreamRequest("GET", PriceUrl(req.query["symbol"]), None, Undefined));
      u.Responded? && !IsOk(u.status)
    ensures var u := fetch(UpstreamRequest("GET", PriceUrl(req.query["symbol"]), None, Undefined));
      Handle(req, fetch).response == Response(500, Cors,
        JsonBody(ErrorBody(Failed, "RedStone API returned " + Text.IntToString(u.status))))
  {
  }

  /** A 2xx upstream reply with a JSON body gives 200 with that body. */
  lemma OkForwarded(req: Request, fetch: Fetch, data: Value)
    requires req.verb == "GET" && "symbol" in req.query && req.query["symbol"] != ""
    requires var u := fetch(UpstreamRequest("GET", PriceUrl(req.query["symbol"]), None, Undefined));
      u.Responded? && IsOk(u.status) && u.json == Success(data)
    ensures Handle(req, fetch).response == Response(200, Cors, JsonBody(data))
  {
  }
}
