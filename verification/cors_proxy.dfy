/**
 * The CORS-proxy fallback (`frontend/src/services/corsProxy.js`). The two
 * module-level variables (`currentProxyIndex`, `proxyFailures`) are threaded
 * through as a `State`; the network is the outcome of each attempt.
 */
module CorsProxy {
  import opened Wrappers
  import Text
  import Url

  /** How a proxy wraps the target URL. */
  datatype Format = Prefix(prefix: string) | EncodedQuery(prefix: string)

  datatype Proxy = Proxy(name: string, format: Format, supportsPost: bool)

  /** `proxy.format(url)`. */
  function Apply(p: Proxy, url: string): string {
    match p.format
    case Prefix(prefix) => prefix + url
    case EncodedQuery(prefix) => prefix + Url.Encode(url)
  }

  const CorsAnywhere: Proxy := Proxy("cors-anywhere", Prefix("https://cors-anywhere.herokuapp.com/"), true)
  const AllOrigins: Proxy := Proxy("allorigins", EncodedQuery("https://api.allorigins.win/raw?url="), false)

  /** `CORS_PROXIES`, in order. */
  const CorsProxies: seq<Proxy> := [CorsAnywhere, AllOrigins]

  const MaxProxyFailures: nat := 3

  const NoProxyMessage: string := "No CORS proxy available for POST requests. Please configure Vercel API routes."

  /**
   * The module-level `currentProxyIndex` and `proxyFailures`. Threading it
   * from call to call takes calls one after another; overlapping calls that
   * share the counter are not modelled.
   */
  datatype State = State(currentIndex: int, failures: nat)

  const Initial: State := State(0, 0)

  /** `rotateProxy()`: the next index, modulo the number of proxies. */
  function Rotate(s: State): (r: State)
    ensures 0 <= r.currentIndex < |CorsProxies|
    ensures r.currentIndex == (s.currentIndex + 1) % |CorsProxies|
    ensures r.failures == s.failures
  {
    s.(currentIndex := (s.currentIndex + 1) % |CorsProxies|)
  }

  /** `options.method || 'GET'`. */
  function MethodOf(m: Option<string>): string {
    if m.Some? && m.value != "" then m.value else "GET"
  }

  /** POST, PUT and PATCH need a proxy that forwards request bodies. */
  predicate NeedsPost(m: string) {
    m == "POST" || m == "PUT" || m == "PATCH"
  }

  /** The position of the first proxy the method may use; `|proxies|` when there is none. */
  function FirstKept(proxies: seq<Proxy>, needsPost: bool): (k: nat)
    ensures k <= |proxies|
    ensures k < |proxies| ==> !needsPost || proxies[k].supportsPost
    ensures forall j :: 0 <= j < k ==> needsPost && !proxies[j].supportsPost
  {
    if |proxies| == 0 || !needsPost || proxies[0].supportsPost then 0
    else 1 + FirstKept(proxies[1..], needsPost)
  }

  /** `CORS_PROXIES.filter(p => !needsPost || p.supportsPost)`: in list order, so `availableProxies[0]` is the first usable proxy. */
  function Available(proxies: seq<Proxy>, needsPost: bool): (r: seq<Proxy>)
    ensures |r| <= |proxies|
    ensures forall p :: p in r <==> p in proxies && (!needsPost || p.supportsPost)
    ensures |r| > 0 <==> FirstKept(proxies, needsPost) < |proxies|
    ensures |r| > 0 ==> r[0] == proxies[FirstKept(proxies, needsPost)]
  {
    if |proxies| == 0 then []
    else (if !needsPost || proxies[0].supportsPost then [proxies[0]] else []) + Available(proxies[1..], needsPost)
  }

  /**
   * The proxies a method may use: with the fixed list, only cors-anywhere for
   * POST, PUT and PATCH and both otherwise, so the list is never empty.
   * `AvailableForIsFilter` proves this is what the filter yields.
   */
  function AvailableFor(m: string): (r: seq<Proxy>)
    ensures NeedsPost(m) ==> r == [CorsAnywhere]
    ensures !NeedsPost(m) ==> r == CorsProxies
  {
    if NeedsPost(m) then [CorsAnywhere] else CorsProxies
  }

  /** The method's proxy list is `CORS_PROXIES` filtered by POST support, in list order. */
  lemma AvailableForIsFilter(m: string)
    ensures AvailableFor(m) == Available(CorsProxies, NeedsPost(m))
    ensures |AvailableFor(m)| >= 1 && AvailableFor(m)[0] == CorsAnywhere
  {
    assert CorsProxies[1..] == [AllOrigins] && CorsProxies[1..][1..] == [];
    assert Available([], NeedsPost(m)) == [];
    assert Available([AllOrigins], NeedsPost(m)) == if NeedsPost(m) then [] else [AllOrigins];
  }

  /** What the proxied `fetch` did on one attempt: a response with its status, or a thrown error. */
  datatype Reply = Reply(status: int) | Fails(message: string)

  /** The two errors a call can throw: no usable proxy, or the last attempt's failure. */
  datatype ProxyError = NoProxy | ProxyFailed(original: string)

  /** The thrown error's message. */
  function Message(e: ProxyError): string {
    match e
    case NoProxy => NoProxyMessage
    case ProxyFailed(original) =>
      "CORS proxy failed. Please configure Vercel API routes or enable CORS on the Canton participant. Original error: " + original
  }

  /** The settled call: the response status returned or the error thrown, the new state, the proxied URLs fetched. */
  datatype ProxyRun = ProxyRun(result: Result<int, ProxyError>, state: State, requested: seq<string>)

  /** Why an attempt counts as failed: a thrown fetch, or a reply with status 500 or above. */
  function AttemptError(reply: Reply): (e: Option<string>)
    ensures e.None? <==> reply.Reply? && reply.status < 500
  {
    match reply
    case Reply(status) => if !(200 <= status <= 299) && status >= 500 then Some("Proxy returned " + Text.IntToString(status)) else None
    case Fails(message) => Some(message)
  }

  /** The most attempts one call can make from a given failure count. */
  function AttemptBound(failures: nat): nat {
    if failures < MaxProxyFailures then MaxProxyFailures - failures else 1
  }

  /**
   * `fetchWithProxy(url, options)`; `fetch(u, n)` is the outcome of the
   * `n`-th attempt of this call. A 5xx reply or a thrown fetch is a failure
   * and increments the counter; anything else (4xx included) is returned and
   * resets it. The call recurses only while the counter is below 3 and more
   * than one proxy is available, which bounds the attempts by the counter.
   */
  function FetchWithProxy(url: string, m: Option<string>, s: State, fetch: (string, nat) -> Reply, attempt: nat): (r: ProxyRun)
    ensures 1 <= |r.requested| <= AttemptBound(s.failures)
    ensures r.result != Failure(NoProxy)
    ensures forall i :: 0 <= i < |r.requested| ==> r.requested[i] == Apply(CorsAnywhere, url)
    ensures r.result.Success? ==> r.state.failures == 0
    ensures r.result.Failure? ==> r.state.failures == s.failures + |r.requested|
    ensures forall n :: attempt <= n < attempt + |r.requested| - 1 ==> AttemptError(fetch(Apply(CorsAnywhere, url), n)).Some?
    ensures var last := fetch(Apply(CorsAnywhere, url), attempt + |r.requested| - 1);
      && (r.result.Success? <==> AttemptError(last).None?)
      && (r.result.Success? ==> r.result.value == last.status)
      && (r.result.Failure? ==> r.result.error == ProxyFailed(AttemptError(last).value))
    decreases if s.failures < MaxProxyFailures then MaxProxyFailures - s.failures else 0
  {
    var available := AvailableFor(MethodOf(m));
    if |available| == 0 then ProxyRun(Failure(NoProxy), s, [])
    else
      var proxied := Apply(available[0], url);
      var error := AttemptError(fetch(proxied, attempt));
      if error.None? then ProxyRun(Success(fetch(proxied, attempt).status), s.(failures := 0), [proxied])
      else
        var failed := s.(failures := s.failures + 1);
        if failed.failures < MaxProxyFailures && |available| > 1 then
          var rest := FetchWithProxy(url, m, Rotate(failed), fetch, attempt + 1);
          ProxyRun(rest.result, rest.state, [proxied] + rest.requested)
        else ProxyRun(Failure(ProxyFailed(error.value)), failed, [proxied])
  }

  /** A POST, PUT or PATCH is tried exactly once, through cors-anywhere. */
  lemma PostLikeNeverRetries(url: string, m: string, s: State, fetch: (string, nat) -> Reply, attempt: nat)
    requires NeedsPost(m)
    ensures FetchWithProxy(url, Some(m), s, fetch, attempt).requested == [Apply(CorsAnywhere, url)]
  {
  }

  /** From a fresh counter no call makes more than three attempts. */
  lemma AtMostThreeAttempts(url: string, m: Option<string>, s: State, fetch: (string, nat) -> Reply, attempt: nat)
    requires s.failures == 0
    ensures |FetchWithProxy(url, m, s, fetch, attempt).requested| <= 3
  {
  }

  /** A 4xx reply is handed back to the caller as a success and clears the failure count. */
  lemma ClientErrorsReturned(url: string, m: Option<string>, s: State, fetch: (string, nat) -> Reply, attempt: nat)
    requires fetch(Apply(CorsAnywhere, url), attempt).Reply?
    requires 400 <= fetch(Apply(CorsAnywhere, url), attempt).status < 500
    ensures FetchWithProxy(url, m, s, fetch, attempt) ==
      ProxyRun(Success(fetch(Apply(CorsAnywhere, url), attempt).status), s.(failures := 0), [Apply(CorsAnywhere, url)])
  {
  }

  /** A GET whose every attempt fails from a fresh counter makes three attempts and leaves the counter at 3. */
  lemma GetExhaustsAfterThree(url: string, s: State, fetch: (string, nat) -> Reply)
    requires s.failures == 0
    requires forall n :: fetch(Apply(CorsAnywhere, url), n).Fails?
    ensures |FetchWithProxy(url, None, s, fetch, 0).requested| == 3
    ensures FetchWithProxy(url, None, s, fetch, 0).state.failures == 3
    ensures FetchWithProxy(url, None, s, fetch, 0).result.Failure?
  {
    var s1 := Rotate(s.(failures := 1));
    var s2 := Rotate(s1.(failures := 2));
    assert FetchWithProxy(url, None, s2, fetch, 2).requested == [Apply(CorsAnywhere, url)];
  }

  /**
   * The counter is not cleared by a failed call: once a call has failed at
   * the limit, the next call gets a single attempt, whatever its method,
   * until some call succeeds.
   */
  lemma AfterExhaustionOneAttempt(url: string, m: Option<string>, s: State, fetch: (string, nat) -> Reply, attempt: nat)
    requires s.failures >= MaxProxyFailures
    ensures |FetchWithProxy(url, m, s, fetch, attempt).requested| == 1
  {
  }

  /**
   * The retries of a failing GET all go to the first proxy: the rotation the
   * failure path performs is never read, so allorigins is never requested.
   */
  lemma RetriesSameProxy(url: string, fetch: (string, nat) -> Reply)
    requires forall n :: fetch(Apply(CorsAnywhere, url), n).Fails?
    ensures var r := FetchWithProxy(url, None, Initial, fetch, 0);
      |r.requested| == 3 && r.requested[0] == r.requested[1] == r.requested[2]
    ensures Apply(AllOrigins, url) !in FetchWithProxy(url, None, Initial, fetch, 0).requested
  {
    GetExhaustsAfterThree(url, Initial, fetch);
    ProxiesDiffer(url);
  }

  /** The two proxies never produce the same URL: their prefixes differ at the ninth character. */
  lemma ProxiesDiffer(url: string)
    ensures Apply(CorsAnywhere, url) != Apply(AllOrigins, url)
  {
    assert Apply(CorsAnywhere, url)[8] == 'c';
    assert Apply(AllOrigins, url)[8] == 'a';
  }

  /**
   * The proxy the corrected fetch uses: the one the rotation index points at
   * when both are available, the only one otherwise.
   */
  function Current(available: seq<Proxy>, s: State): (p: Proxy)
    requires 1 <= |available| <= 2
    ensures p in available
  {
    if |available| == 2 && s.currentIndex % 2 == 1 then available[1] else available[0]
  }

  /** `u` is `url` wrapped by one of the two proxies. */
  predicate ViaProxy(u: string, url: string) {
    u == Apply(CorsAnywhere, url) || u == Apply(AllOrigins, url)
  }

  /** Every request goes through a proxy, and no two consecutive requests use the same one. */
  predicate Alternates(rs: seq<string>, url: string) {
    && (forall i :: 0 <= i < |rs| ==> ViaProxy(rs[i], url))
    && (forall i :: 0 < i < |rs| ==> rs[i] != rs[i - 1])
  }

  lemma PrependAlternates(u: string, rs: seq<string>, url: string)
    requires ViaProxy(u, url) && Alternates(rs, url)
    requires |rs| > 0 ==> rs[0] != u
    ensures Alternates([u] + rs, url)
  {
    var xs := [u] + rs;
    assert forall i :: 0 < i < |xs| ==> xs[i] == rs[i - 1];
  }

  /**
   * `fetchWithProxy` with the rotation taking effect: each attempt uses the
   * proxy at the current index, so after a failure the retry goes to the next
   * proxy. Counting, bounds and error results are those of `FetchWithProxy`.
   */
  function FetchRotating(url: string, m: Option<string>, s: State, fetch: (string, nat) -> Reply, attempt: nat): (r: ProxyRun)
    ensures 1 <= |r.requested| <= AttemptBound(s.failures)
    ensures r.requested[0] == Apply(Current(AvailableFor(MethodOf(m)), s), url)
    ensures r.result.Success? ==> r.state.failures == 0
    ensures r.result.Failure? ==> r.state.failures == s.failures + |r.requested|
    ensures Alternates(r.requested, url)
    decreases if s.failures < MaxProxyFailures then MaxProxyFailures - s.failures else 0
  {
    var available := AvailableFor(MethodOf(m));
    var proxied := Apply(Current(available, s), url);
    var error := AttemptError(fetch(proxied, attempt));
    if error.None? then ProxyRun(Success(fetch(proxied, attempt).status), s.(failures := 0), [proxied])
    else
      var failed := s.(failures := s.failures + 1);
      if failed.failures < MaxProxyFailures && |available| > 1 then
        var rest := FetchRotating(url, m, Rotate(failed), fetch, attempt + 1);
        RetryDiffers(url, s);
        PrependAlternates(proxied, rest.requested, url);
        ProxyRun(rest.result, rest.state, [proxied] + rest.requested)
      else ProxyRun(Failure(ProxyFailed(error.value)), failed, [proxied])
  }

  /** A retry after a failure requests a different URL than the failed attempt. */
  lemma RetryDiffers(url: string, s: State)
    ensures Apply(Current(CorsProxies, Rotate(s.(failures := s.failures + 1))), url) != Apply(Current(CorsProxies, s), url)
  {
    ProxiesDiffer(url);
    assert Rotate(s.(failures := s.failures + 1)).currentIndex % 2 != s.currentIndex % 2;
  }

  /** With the correction, a GET whose first attempt fails from the initial state is retried through allorigins. */
  lemma RotatingTriesNextProxy(url: string, fetch: (string, nat) -> Reply)
    requires fetch(Apply(CorsAnywhere, url), 0).Fails?
    ensures var r := FetchRotating(url, None, Initial, fetch, 0);
      |r.requested| >= 2 && r.requested[0] == Apply(CorsAnywhere, url) && r.requested[1] == Apply(AllOrigins, url)
  {
    ProxiesDiffer(url);
  }

  /** `shouldUseProxy()`: the fallback is always considered available. */
  function ShouldUseProxy(): (r: bool)
    ensures r
  {
    true
  }
}
