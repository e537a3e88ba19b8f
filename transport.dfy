/**
 * The request fallback of chat.js (`makeRequest`): on a local page every
 * request walks an ordered list of CORS relays and ends with a direct fetch,
 * stopping at the first success; a hosted page fetches directly, once.
 * The network is the oracle `Env.net`, from an attempt to its outcome.
 */
module Transport {
  import opened Common
  import opened Text
  import opened Fhir

  /** How an attempt reaches the FHIR server: through one of three public relays, or directly. */
  datatype Relay = Codetabs | CorsProxyIo | AllOrigins | Direct

  /** The URL `${currentServer}/${endpoint}` with `params` appended as query parameters, in order. */
  datatype Target = Target(server: string, endpoint: string, params: seq<(string, string)>)

  /** One fetch: the relay, the target, and whether the `X-Requested-With` header is sent. */
  datatype Attempt = Attempt(relay: Relay, target: Target, requestedWith: bool)

  /**
   * What the page's surroundings decide: whether it runs on localhost
   * (`localhost`, `127.0.0.1` or a `file:` page), and what each fetch returns.
   */
  datatype Env = Env(isLocalhost: bool, net: Attempt -> FetchOutcome)

  /** The URL prefix each relay puts before the URL-encoded target. */
  function RelayPrefix(r: Relay): string {
    match r
    case Codetabs => "https://api.codetabs.com/v1/proxy?quest="
    case CorsProxyIo => "https://corsproxy.io/?"
    case AllOrigins => "https://api.allorigins.win/raw?url="
    case Direct => ""
  }

  /** The relays tried on a local page, in the order they are tried. */
  const LocalRelays: seq<Relay> := [Codetabs, CorsProxyIo, AllOrigins, Direct]

  /** The attempts `makeRequest` may make for a target, in order. */
  function Plan(isLocalhost: bool, t: Target): (plan: seq<Attempt>)
    ensures |plan| == if isLocalhost then 4 else 1
  {
    if isLocalhost then seq(4, k requires 0 <= k < 4 => Attempt(LocalRelays[k], t, k < 3))
    else [Attempt(Direct, t, false)]
  }

  /**
   * On a local page, codetabs, corsproxy.io and allorigins are tried before
   * the direct fetch; a hosted page fetches directly. Every attempt but the
   * last sends the `X-Requested-With` header.
   */
  lemma PlanShape(isLocalhost: bool, t: Target)
    ensures var plan := Plan(isLocalhost, t);
            && (isLocalhost ==> plan[0].relay == Codetabs && plan[1].relay == CorsProxyIo
                                && plan[2].relay == AllOrigins && plan[3].relay == Direct)
            && (!isLocalhost ==> plan == [Attempt(Direct, t, false)])
            && (forall k :: 0 <= k < |plan| ==> plan[k].target == t && (plan[k].requestedWith <==> k < |plan| - 1))
  {
  }

  /** The index of the first attempt, from `from` on, whose fetch succeeds. */
  function FirstFetched(plan: seq<Attempt>, net: Attempt -> FetchOutcome, from: nat): (r: Option<nat>)
    ensures r.Some? ==> from <= r.value < |plan| && net(plan[r.value]).Fetched?
    ensures r.None? && from < |plan| ==> !net(plan[|plan| - 1]).Fetched?
    decreases |plan| - from
  {
    if from >= |plan| then None
    else if net(plan[from]).Fetched? then Some(from)
    else FirstFetched(plan, net, from + 1)
  }

  /** Every attempt before the first successful one fails; when none succeeds, all of them fail. */
  lemma {:induction false} FirstFetchedIsFirst(plan: seq<Attempt>, net: Attempt -> FetchOutcome, from: nat)
    ensures var r := FirstFetched(plan, net, from);
            && (r.Some? ==> forall k :: from <= k < r.value ==> !net(plan[k]).Fetched?)
            && (r.None? ==> forall k :: from <= k < |plan| ==> !net(plan[k]).Fetched?)
    decreases |plan| - from
  {
    if from < |plan| && !net(plan[from]).Fetched? {
      FirstFetchedIsFirst(plan, net, from + 1);
    }
  }

  /** The error thrown when every relay and the direct attempt have failed. */
  function AllFailedMessage(last: string): string {
    "All CORS proxies failed. Last error: " + last
    + ". Try switching to a different FHIR server or running the demo on a hosted server."
  }

  /** What `makeRequest` returns or throws for a target. */
  function Request(env: Env, t: Target): Result<Resource> {
    var plan := Plan(env.isLocalhost, t);
    match FirstFetched(plan, env.net, 0)
    case Some(k) => Ok(env.net(plan[k]).body)
    case None =>
      var last := FailureMessage(env.net(plan[|plan| - 1]));
      Failed(if env.isLocalhost then AllFailedMessage(last) else last)
  }

  /**
   * A request succeeds exactly when some planned attempt succeeds, and then
   * yields the body of the first one that does.
   */
  lemma RequestSucceedsIffSomeAttempt(env: Env, t: Target)
    ensures var plan := Plan(env.isLocalhost, t);
            Request(env, t).Ok? <==> exists k :: 0 <= k < |plan| && env.net(plan[k]).Fetched?
    ensures var plan := Plan(env.isLocalhost, t);
            forall k :: 0 <= k < |plan| && env.net(plan[k]).Fetched?
                        && (forall j :: 0 <= j < k ==> !env.net(plan[j]).Fetched?)
                        ==> Request(env, t) == Ok(env.net(plan[k]).body)
  {
    var plan := Plan(env.isLocalhost, t);
    var r := FirstFetched(plan, env.net, 0);
    FirstFetchedIsFirst(plan, env.net, 0);
    forall k | 0 <= k < |plan| && env.net(plan[k]).Fetched? && (forall j :: 0 <= j < k ==> !env.net(plan[j]).Fetched?)
      ensures Request(env, t) == Ok(env.net(plan[k]).body)
    {
      assert r.Some?;
      assert r.value == k;
    }
  }

  /** A failure on a local page reports the error of the fourth (direct) attempt. */
  lemma LocalFailureNamesLastError(env: Env, t: Target)
    requires env.isLocalhost
    requires Request(env, t).Failed?
    ensures var last := env.net(Attempt(Direct, t, false));
            !last.Fetched? && Contains(Request(env, t).message, FailureMessage(last))
  {
    PlanShape(true, t);
    var last := FailureMessage(env.net(Attempt(Direct, t, false)));
    ContainsMiddle("All CORS proxies failed. Last error: ", last,
      ". Try switching to a different FHIR server or running the demo on a hosted server.");
  }

  /** Off localhost the request is the single direct fetch, its error thrown unchanged. */
  lemma HostedIsDirect(env: Env, t: Target)
    requires !env.isLocalhost
    ensures var o := env.net(Attempt(Direct, t, false));
            Request(env, t) == if o.Fetched? then Ok(o.body) else Failed(FailureMessage(o))
  {
    PlanShape(false, t);
  }
}
