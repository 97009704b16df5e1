/** The upper cost a finished case is settled at. Money is in dollars per million tokens and in cents; amounts are
    reals, so the rounding of floating-point sums is not represented. */
module Pricing {
  import opened Outcomes
  import opened SafeIntegers

  const MODEL := "claude-sonnet-5"

  datatype Usage = Usage(
    canonicalModel: string, provider: string,
    inputTokens: int, outputTokens: int, cacheReadInputTokens: int, cacheCreationInputTokens: int,
    webSearchRequests: int)

  /** `totalCostUsdEstimate` is `None` when it is missing or not a finite number. */
  datatype NativeResult = NativeResult(
    subtype: string, numTurns: int, modelUsage: map<string, Usage>, totalCostUsdEstimate: Option<real>)

  /** What one request is billed at: a rate per million tokens of each kind, and a factor for geography. */
  datatype Rates = Rates(input: real, cacheRead: real, cacheCreation: real, output: real, geography: real)

  datatype PricingError = NotOneSuccess | UnknownModels | UnknownUsage | OutsideLimits | BadEstimate | ExceedsReservation

  function Ceil(x: real): (n: int)
    ensures x <= n as real < x + 1.0
  {
    -((-x).Floor)
  }

  function Inputs(u: Usage): int {
    u.inputTokens + u.cacheReadInputTokens + u.cacheCreationInputTokens
  }

  /** The documented highest rates: $4 for every input token, $10 for output, ten per cent for geography. */
  function UpperDollars(u: Usage): real {
    UpperTokenDollars(u) * 1.1
  }

  predicate CountsOk(u: Usage) {
    && SafeCount(u.inputTokens) && SafeCount(u.outputTokens) && SafeCount(u.cacheReadInputTokens)
    && SafeCount(u.cacheCreationInputTokens) && SafeCount(u.webSearchRequests)
  }

  /** One forwarded request answered 200, and one successful turn billed to the one known model. */
  predicate OneSuccess(forwarded: int, upstreamStatus: Option<int>, result: Option<NativeResult>) {
    forwarded == 1 && upstreamStatus == Some(200) && result.Some? && result.value.subtype == "success" && result.value.numTurns == 1
  }

  function ConservativeCents(forwarded: int, upstreamStatus: Option<int>, result: Option<NativeResult>): Result<int, PricingError> {
    if !OneSuccess(forwarded, upstreamStatus, result) then Err(NotOneSuccess)
    else
      var models := result.value.modelUsage;
      if |models| != 1 then Err(UnknownModels)
      else if MODEL !in models || models[MODEL].canonicalModel != MODEL || models[MODEL].provider != "firstParty" then Err(UnknownUsage)
      else
        var usage := models[MODEL];
        if !CountsOk(usage) then Err(UnknownUsage)
        else if usage.webSearchRequests != 0 || !(0 < usage.outputTokens <= 512) then Err(OutsideLimits)
        else if !(0 < Inputs(usage) <= 1000000) then Err(OutsideLimits)
        else if result.value.totalCostUsdEstimate.None? || result.value.totalCostUsdEstimate.value < 0.0 then Err(BadEstimate)
        else
          var upper, estimate := UpperDollars(usage), result.value.totalCostUsdEstimate.value;
          var cents := Ceil((if estimate > upper then estimate else upper) * 100.0);
          if 0 < cents <= 600 then Ok(cents) else Err(ExceedsReservation)
  }

  // ---- what the settled amount means ----

  predicate WithinPublishedRates(r: Rates) {
    && 0.0 <= r.input <= 4.0 && 0.0 <= r.cacheRead <= 4.0 && 0.0 <= r.cacheCreation <= 4.0
    && 0.0 <= r.output <= 10.0 && 0.0 <= r.geography <= 1.1
  }

  /** The cents a request really costs. */
  function TrueCents(u: Usage, r: Rates): real {
    TokenDollars(u, r) * r.geography * 100.0
  }

  function Charge(tokens: int, rate: real): real {
    tokens as real * rate
  }

  /** Before geography. */
  function TokenDollars(u: Usage, r: Rates): real {
    (Charge(u.inputTokens, r.input) + Charge(u.cacheReadInputTokens, r.cacheRead)
     + Charge(u.cacheCreationInputTokens, r.cacheCreation) + Charge(u.outputTokens, r.output)) / 1000000.0
  }

  function UpperTokenDollars(u: Usage): real {
    (Inputs(u) as real * 4.0 + u.outputTokens as real * 10.0) / 1000000.0
  }

  lemma NonNegativeProduct(x: real, y: real)
    requires 0.0 <= x && 0.0 <= y
    ensures 0.0 <= x * y
  {
  }

  lemma ChargeAtMost(tokens: int, rate: real, most: real)
    requires 0 <= tokens && 0.0 <= rate <= most
    ensures 0.0 <= Charge(tokens, rate) <= tokens as real * most
  {
    NonNegativeProduct(tokens as real, rate);
    NonNegativeProduct(tokens as real, most - rate);
  }

  lemma ScaledBy(x: real, y: real, g: real)
    requires 0.0 <= x <= y && 0.0 <= g <= 1.1
    ensures 0.0 <= x * g <= y * 1.1
  {
    NonNegativeProduct(y - x, g);
    NonNegativeProduct(y, 1.1 - g);
    NonNegativeProduct(x, g);
    assert y * 1.1 - x * g == (y - x) * g + y * (1.1 - g);
  }

  lemma TokensBelowUpper(u: Usage, r: Rates)
    requires CountsOk(u) && WithinPublishedRates(r)
    ensures 0.0 <= TokenDollars(u, r) <= UpperTokenDollars(u)
  {
    hide Charge;
    ChargeAtMost(u.inputTokens, r.input, 4.0);
    ChargeAtMost(u.cacheReadInputTokens, r.cacheRead, 4.0);
    ChargeAtMost(u.cacheCreationInputTokens, r.cacheCreation, 4.0);
    ChargeAtMost(u.outputTokens, r.output, 10.0);
  }

  /** At any rates up to the published ones, a request costs at most the upper estimate. */
  lemma CostBelowUpper(u: Usage, r: Rates)
    requires CountsOk(u) && WithinPublishedRates(r)
    ensures 0.0 <= TrueCents(u, r) <= UpperDollars(u) * 100.0
  {
    hide TokenDollars, UpperTokenDollars;
    TokensBelowUpper(u, r);
    ScaledBy(TokenDollars(u, r), UpperTokenDollars(u), r.geography);
  }

  /** An accepted proof is settled at a whole number of cents in 1..600 that covers the cost at any published rates,
      and the amount is the smallest such number above both the upper estimate and the reported one. */
  lemma SettledCoversCost(forwarded: int, status: Option<int>, result: Option<NativeResult>, rates: Rates)
    requires ConservativeCents(forwarded, status, result).Ok? && WithinPublishedRates(rates)
    ensures var cents := ConservativeCents(forwarded, status, result).value;
            var usage := result.value.modelUsage[MODEL];
            var estimate := result.value.totalCostUsdEstimate.value;
            && 1 <= cents <= 600
            && TrueCents(usage, rates) <= cents as real
            && estimate * 100.0 <= cents as real
            && ((cents - 1) as real < UpperDollars(usage) * 100.0 || (cents - 1) as real < estimate * 100.0)
  {
    CostBelowUpper(result.value.modelUsage[MODEL], rates);
  }

  /** The token limits alone keep the upper estimate at 441 cents, so once the earlier checks pass, a proof is refused
      for exceeding its reservation exactly when the reported estimate is above six dollars. */
  lemma {:induction false} OnlyTheEstimateExceeds(forwarded: int, status: Option<int>, result: Option<NativeResult>)
    requires ConservativeCents(forwarded, status, result) == Err(ExceedsReservation)
             || ConservativeCents(forwarded, status, result).Ok?
    ensures UpperDollars(result.value.modelUsage[MODEL]) <= 4.405632
    ensures ConservativeCents(forwarded, status, result).Err? <==> result.value.totalCostUsdEstimate.value > 6.0
  {
    var u := result.value.modelUsage[MODEL];
    assert Inputs(u) as real * 4.0 + u.outputTokens as real * 10.0 <= 4005120.0;
    assert UpperDollars(u) <= 4005120.0 / 1000000.0 * 1.1;
    assert UpperDollars(u) > 0.0;
  }

  /** What the model's own limits allow one request: a million input and 128 thousand output tokens. */
  predicate WithinModelLimits(u: Usage) {
    CountsOk(u) && Inputs(u) <= 1000000 && u.outputTokens <= 128000
  }

  /** Even without the output cap, no request can cost more than the 600 cents a case reserves. */
  lemma ModelCeiling(u: Usage, r: Rates)
    requires WithinModelLimits(u) && WithinPublishedRates(r)
    ensures TrueCents(u, r) <= 580.8
  {
    CostBelowUpper(u, r);
    assert Inputs(u) as real * 4.0 + u.outputTokens as real * 10.0 <= 5280000.0;
    assert UpperDollars(u) <= 5280000.0 / 1000000.0 * 1.1;
  }
}
