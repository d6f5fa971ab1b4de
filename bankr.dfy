/**
 * The boundary to the Bankr HTTP API (`bankr_post`). The HTTP exchange itself
 * is not modelled: a call's outcome is a `GatewayResult` supplied from outside,
 * and this module says how the bot reads it.
 */
module Bankr {
  import opened Wrappers
  import opened Json
  import opened PyStr

  const DeployEndpoint := "/token-launches/deploy"

  /** A POST the bot sends: endpoint, JSON payload and the `X-API-Key` header (absent when `None`). */
  datatype Request = Post(endpoint: string, payload: Dict, apiKey: Option<string>)

  /**
   * What an HTTP call produced: a decoded 2xx JSON object, or a failure whose
   * text is the server's `message` field, the raw body, or the exception text.
   */
  datatype GatewayResult = Ok(body: Dict) | Err(message: string)

  /**
   * The dictionary `bankr_post` returns: the body as is, or `{"error": message}`.
   * The bot's `"error" in result` tests therefore fire on a failed call and on
   * a 2xx body that itself carries `error`.
   */
  function Response(g: GatewayResult): (r: Dict)
    ensures "error" in r <==> g.Err? || "error" in g.body
    ensures g.Err? ==> r.Keys == {"error"} && r["error"] == Str(g.message)
  {
    match g
    case Ok(body) => body
    case Err(message) => map["error" := Str(message)]
  }

  /** `"error" in result`: the call is reported as failed. */
  predicate Failed(g: GatewayResult) {
    "error" in Response(g)
  }

  /**
   * The onboarding probe's rejection test: the response carries an `error`
   * whose lower-cased text contains `auth`.
   */
  predicate IsAuthRejection(g: GatewayResult)
    ensures IsAuthRejection(g) ==> Failed(g)
  {
    var r := Response(g);
    "error" in r && r["error"].Str? && Contains(Lower(r["error"].s), "auth")
  }

  /** One `feeDistribution` entry renders when it is an object with a numeric `bps` and a sliceable `address`. */
  predicate FeeEntryRenders(info: Value) {
    info.Obj? && "bps" in info.fields && Divisible(info.fields["bps"])
    && "address" in info.fields && Sliceable(info.fields["address"])
  }

  /** `fmt_fee_dist` succeeds on an object whose every entry renders. */
  predicate FeeDistributionRenders(dist: Value) {
    dist.Obj? && forall role :: role in dist.fields ==> FeeEntryRenders(dist.fields[role])
  }

  /**
   * Rendering a deploy result raises (a missing key, or a value of the wrong
   * kind): only on a success envelope that lacks `tokenAddress`, or that is
   * not simulated and lacks a usable `poolId`, `txHash`, `chain` or
   * `feeDistribution`.
   */
  predicate RenderRaises(g: GatewayResult)
    ensures RenderRaises(g) ==> g.Ok? && TruthyAt(g.body, "success")
  {
    var r := Response(g);
    "error" !in r && TruthyAt(r, "success")
    && ("tokenAddress" !in r
        || (!TruthyAt(r, "simulated")
            && !("poolId" in r && Sliceable(r["poolId"])
                 && "txHash" in r && Sliceable(r["txHash"])
                 && "chain" in r
                 && "feeDistribution" in r && FeeDistributionRenders(r["feeDistribution"]))))
  }

  /** A failed call, or a response without a truthy `success`, always renders. */
  lemma FailuresRender(g: GatewayResult)
    requires Failed(g) || !TruthyAt(Response(g), "success")
    ensures !RenderRaises(g)
  {
  }
}
