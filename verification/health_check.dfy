/**
 * The health probes (`frontend/src/utils/healthCheck.js`): a verdict from
 * the outcome of one request. The 3-second abort timer is modelled by the
 * time the probe took to settle.
 */
module HealthCheck {
  import opened Wrappers
  import opened Js
  import opened Http

  /** The abort timer of `checkApiHealth`, in milliseconds. */
  const HealthTimeoutMs: nat := 3000

  /** How the health request settled, and after how long, if the timer had not fired first. */
  datatype Probe = Answered(status: int, elapsedMs: nat) | NetworkFailure(elapsedMs: nat)

  /** What `fetch('/api/health')` delivered: a response, the abort, or another error. */
  datatype Settled = Delivered(status: int) | AbortError | OtherError

  /** The timer aborts any request that has not settled before it fires. */
  function Settle(p: Probe): Settled {
    if p.elapsedMs >= HealthTimeoutMs then AbortError
    else match p
      case Answered(status, _) => Delivered(status)
      case NetworkFailure(_) => OtherError
  }

  /**
   * `checkApiHealth()`: healthy exactly when a response arrived in time and
   * was not a 404. A 2xx is healthy, any other non-404 status is healthy too
   * (the routes exist), and a 404, a timeout or a network error is not.
   */
  function CheckApiHealth(p: Probe): (healthy: bool)
    ensures healthy <==> p.Answered? && p.elapsedMs < HealthTimeoutMs && p.status != 404
  {
    match Settle(p)
    case Delivered(status) =>
      if IsOk(status) then true
      else if status != 404 then true
      else false
    case AbortError => false
    case OtherError => false
  }

  /** The request `checkDirectConnection` sends: a query for template `Test`. */
  function DirectProbe(ledgerUrl: string): UpstreamRequest {
    UpstreamRequest("POST", ledgerUrl + "/v1/query", None,
      Obj([("templateIds", Arr([Str("Test")])), ("query", Obj([]))]))
  }

  /** `checkDirectConnection(ledgerUrl)`: reachable exactly when the reply is neither 404 nor 5xx; a thrown fetch is unreachable. */
  function CheckDirectConnection(ledgerUrl: string, fetch: Fetch): (reachable: bool)
    ensures reachable <==> fetch(DirectProbe(ledgerUrl)).Responded?
                           && fetch(DirectProbe(ledgerUrl)).status != 404
                           && fetch(DirectProbe(ledgerUrl)).status < 500
  {
    match fetch(DirectProbe(ledgerUrl))
    case Threw(_) => false
    case Responded(status, _, _, _) => status != 404 && status < 500
  }

  /** Verdicts for single probes: 2xx and 503 are healthy, a 404, a timeout and a network error are not. */
  lemma HealthVerdicts()
    ensures CheckApiHealth(Answered(200, 10))
    ensures CheckApiHealth(Answered(503, 10))
    ensures !CheckApiHealth(Answered(404, 10))
    ensures !CheckApiHealth(Answered(200, 3000))
    ensures !CheckApiHealth(NetworkFailure(10))
  {
  }

  /** Direct reachability implies the health verdict on the same status, but not the converse: a 5xx is healthy yet unreachable. */
  lemma DirectStricterThanHealth(ledgerUrl: string, fetch: Fetch, elapsed: nat)
    requires fetch(DirectProbe(ledgerUrl)).Responded? && elapsed < HealthTimeoutMs
    ensures CheckDirectConnection(ledgerUrl, fetch) ==> CheckApiHealth(Answered(fetch(DirectProbe(ledgerUrl)).status, elapsed))
    ensures fetch(DirectProbe(ledgerUrl)).status >= 500 ==>
      !CheckDirectConnection(ledgerUrl, fetch) && CheckApiHealth(Answered(fetch(DirectProbe(ledgerUrl)).status, elapsed))
  {
  }
}
