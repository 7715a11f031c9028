/** Platform and protocol fees: strategies, the minimum fee, volume discounts and the fee breakdown. */
module FeeService {
  import opened Common

  const FEE_DIVISOR := 10000
  const MIN_FEE := 1
  const MAX_PROTOCOL_FEE_BPS := 200
  const SENDER_VOLUME_TIER_THRESHOLD_10K := 10_000
  const SENDER_VOLUME_TIER_FEE_BPS_10K := 150
  const DYNAMIC_TIER_2 := 1000_0000000
  const DYNAMIC_TIER_3 := 10000_0000000

  datatype FeeStrategy =
    | Percentage(bps: nat)
    | Flat(flatFee: int)
    | Dynamic(baseBps: nat)
    | Corridor

  datatype FeeConfig = FeeConfig(
    strategy: FeeStrategy,
    platformBps: nat,
    tokenBps: Option<nat>,
    protocolBps: nat)

  datatype FeeBreakdown = FeeBreakdown(amount: int, platformFee: int, protocolFee: int, netAmount: int) {
    /** The consistency check every breakdown passes before it is returned. */
    function Validate(): Result<()> {
      var a :- Checked(platformFee + protocolFee);
      var total :- Checked(a + netAmount);
      :- Need(total == amount, InvalidAmount);
      :- Need(amount >= 0 && platformFee >= 0 && protocolFee >= 0 && netAmount >= 0, InvalidAmount);
      Ok(())
    }
  }

  /** `amount` at a rate in basis points, rounded down. */
  function RateOf(amount: int, bps: nat): Result<int> {
    var scaled :- Checked(amount * bps);
    Ok(scaled / FEE_DIVISOR)
  }

  function DynamicBps(amount: int, baseBps: nat): Result<nat> {
    if amount < DYNAMIC_TIER_2 then
      Ok(baseBps)
    else if amount < DYNAMIC_TIER_3 then
      if baseBps * 80 > U32_MAX then Err(HostTrap) else Ok(baseBps * 80 / 100)
    else
      if baseBps * 60 > U32_MAX then Err(HostTrap) else Ok(baseBps * 60 / 100)
  }

  function CalculateFeeByStrategy(amount: int, strategy: FeeStrategy): (r: Result<int>)
    ensures r.Ok? ==> r.value >= MIN_FEE
  {
    match strategy
    case Percentage(bps) =>
      var fee :- RateOf(amount, bps);
      Ok(Max(fee, MIN_FEE))
    case Flat(fee) => Ok(Max(fee, MIN_FEE))
    case Dynamic(baseBps) =>
      var bps :- DynamicBps(amount, baseBps);
      var fee :- RateOf(amount, bps);
      Ok(Max(fee, MIN_FEE))
    case Corridor => Ok(MIN_FEE)
  }

  function CalculateProtocolFee(amount: int, protocolBps: nat): Result<int> {
    if protocolBps == 0 then Ok(0) else RateOf(amount, protocolBps)
  }

  /** The percentage a strategy resolves to; a token's own rate replaces the configured one. */
  function EffectiveStrategy(cfg: FeeConfig, strategy: FeeStrategy, forToken: bool): FeeStrategy {
    match strategy
    case Percentage(_) =>
      if forToken then Percentage(TokenRate(cfg)) else strategy
    case Corridor =>
      Percentage(if forToken then TokenRate(cfg) else cfg.platformBps)
    case _ => strategy
  }

  function TokenRate(cfg: FeeConfig): nat {
    match cfg.tokenBps
    case Some(bps) => bps
    case None => cfg.platformBps
  }

  function DiscountedBps(totalVolume: int, baseBps: nat): nat {
    if totalVolume >= SENDER_VOLUME_TIER_THRESHOLD_10K && SENDER_VOLUME_TIER_FEE_BPS_10K < baseBps
    then SENDER_VOLUME_TIER_FEE_BPS_10K
    else baseBps
  }

  /** The tier search: the highest threshold the volume reaches caps the rate. */
  method GetDiscountedFeeBps(totalVolume: int, baseFeeBps: nat) returns (feeBps: nat)
    ensures feeBps == DiscountedBps(totalVolume, baseFeeBps)
  {
    var tiers: seq<(int, nat)> := [(SENDER_VOLUME_TIER_THRESHOLD_10K, SENDER_VOLUME_TIER_FEE_BPS_10K)];
    feeBps := baseFeeBps;
    var i := |tiers|;
    assert tiers[0] == (SENDER_VOLUME_TIER_THRESHOLD_10K, SENDER_VOLUME_TIER_FEE_BPS_10K);
    while i > 0
      invariant 0 <= i <= |tiers|
      invariant feeBps == baseFeeBps
      invariant forall j | i <= j < |tiers| :: totalVolume < tiers[j].0
    {
      i := i - 1;
      var (threshold, tierBps) := tiers[i];
      if totalVolume >= threshold {
        feeBps := if tierBps < feeBps then tierBps else feeBps;
        break;
      }
    }
  }

  function ApplyVolumeDiscount(totalVolume: int, strategy: FeeStrategy): FeeStrategy {
    match strategy
    case Percentage(bps) => Percentage(DiscountedBps(totalVolume, bps))
    case other => other
  }

  /** The fee stored with a new remittance, given the sender's rolling volume including it. */
  function PlatformFeeForVolume(cfg: FeeConfig, amount: int, totalVolume: int): (r: Result<int>)
    ensures r.Ok? ==> r.value >= MIN_FEE
  {
    if amount <= 0 then Err(InvalidAmount) else
    CalculateFeeByStrategy(amount, ApplyVolumeDiscount(totalVolume, EffectiveStrategy(cfg, cfg.strategy, true)))
  }

  function PlatformFeeForSender(cfg: FeeConfig, amount: int, priorVolume: int): (r: Result<int>)
    ensures r.Ok? ==> r.value >= MIN_FEE
  {
    if amount <= 0 then Err(InvalidAmount) else
    var totalVolume :- Checked(priorVolume + amount);
    PlatformFeeForVolume(cfg, amount, totalVolume)
  }

  /** Platform fee, protocol fee and what is left; the three always add up to the amount. */
  function Breakdown(amount: int, strategy: FeeStrategy, protocolBps: nat): (r: Result<FeeBreakdown>)
    ensures r.Ok? ==>
              && r.value.amount == amount
              && r.value.platformFee + r.value.protocolFee + r.value.netAmount == amount
              && r.value.platformFee >= MIN_FEE && r.value.protocolFee >= 0 && r.value.netAmount >= 0
  {
    var platformFee :- CalculateFeeByStrategy(amount, strategy);
    var protocolFee :- CalculateProtocolFee(amount, protocolBps);
    var totalFees :- Checked(platformFee + protocolFee);
    :- Need(totalFees <= amount, Overflow);
    var afterPlatform :- Checked(amount - platformFee);
    var netAmount :- Checked(afterPlatform - protocolFee);
    var breakdown := FeeBreakdown(amount, platformFee, protocolFee, netAmount);
    var _ :- breakdown.Validate();
    Ok(breakdown)
  }

  /** The breakdown computed at payout: no corridor and no sender discount. */
  function FeesWithBreakdown(cfg: FeeConfig, amount: int, forToken: bool): (r: Result<FeeBreakdown>)
    ensures r.Ok? ==>
              && r.value.amount == amount
              && r.value.platformFee + r.value.protocolFee + r.value.netAmount == amount
              && r.value.platformFee >= MIN_FEE && r.value.protocolFee >= 0 && r.value.netAmount >= 0
  {
    if amount <= 0 then Err(InvalidAmount) else
    Breakdown(amount, EffectiveStrategy(cfg, cfg.strategy, forToken), cfg.protocolBps)
  }

  /** A country-to-country route with its own fees. */
  datatype Route = Route(fromCountry: string, toCountry: string, strategy: FeeStrategy, protocolBps: Option<nat>)

  const CORRIDOR_ID_BUFFER: nat := 16

  /** The breakdown for a sender: the route's fees if there is one, and the sender's volume discount. */
  function FeesForSender(cfg: FeeConfig, route: Option<Route>, amount: int, priorVolume: int)
    : (r: Result<FeeBreakdown>)
    ensures r.Ok? ==> r.value.platformFee >= MIN_FEE && r.value.amount == amount
  {
    if amount <= 0 then Err(InvalidAmount) else
    // the corridor id is formatted into a fixed buffer
    :- Need(route.None? || |route.value.fromCountry| + 1 + |route.value.toCountry| <= CORRIDOR_ID_BUFFER, HostTrap);
    var strategy := if route.Some? then route.value.strategy else cfg.strategy;
    var override := if route.Some? then route.value.protocolBps else None;
    var protocolBps := if override.Some? then override.value else cfg.protocolBps;
    var totalVolume :- Checked(priorVolume + amount);
    Breakdown(amount, ApplyVolumeDiscount(totalVolume, EffectiveStrategy(cfg, strategy, true)), protocolBps)
  }

  // ----- laws -----

  /** The largest amount whose product with any rate up to 100% fits an i128. */
  const SAFE_AMOUNT := I128_MAX / FEE_DIVISOR

  /** The percentage fee as a plain number: rounded down, but never below the minimum. */
  function PercentageFee(amount: nat, bps: nat): int {
    Max(amount * bps / FEE_DIVISOR, MIN_FEE)
  }

  lemma TimesMonotone(a: nat, b: nat, c: nat, d: nat)
    requires a <= b && c <= d
    ensures a * c <= b * d
  {
    assert a * c <= a * d;
    assert a * d <= b * d;
  }

  lemma DivMonotone(a: int, b: int)
    requires a <= b
    ensures a / FEE_DIVISOR <= b / FEE_DIVISOR
  {
  }

  lemma DivAdds(a: int, b: int)
    ensures a / FEE_DIVISOR + b / FEE_DIVISOR <= (a + b) / FEE_DIVISOR <= a / FEE_DIVISOR + b / FEE_DIVISOR + 1
  {
  }

  lemma RateDefined(amount: nat, bps: nat)
    requires amount <= SAFE_AMOUNT && bps <= FEE_DIVISOR
    ensures RateOf(amount, bps) == Ok(amount * bps / FEE_DIVISOR)
    ensures 0 <= amount * bps / FEE_DIVISOR <= amount
  {
    TimesMonotone(amount, amount, bps, FEE_DIVISOR);
    RateFits(amount, amount * bps);
  }

  lemma RateFits(amount: nat, scaled: nat)
    requires amount <= SAFE_AMOUNT && scaled <= amount * 10000
    ensures InI128(scaled) && 0 <= scaled / FEE_DIVISOR <= amount
  {
  }

  lemma PercentageDefined(amount: nat, bps: nat)
    requires amount <= SAFE_AMOUNT && bps <= FEE_DIVISOR
    ensures CalculateFeeByStrategy(amount, Percentage(bps)) == Ok(PercentageFee(amount, bps))
  {
    RateDefined(amount, bps);
  }

  lemma SharesFit(amount: nat, b: nat, p: nat)
    requires b + p <= FEE_DIVISOR && p <= MAX_PROTOCOL_FEE_BPS && amount >= 1
    ensures PercentageFee(amount, b) + amount * p / FEE_DIVISOR <= amount
  {
    assert amount * (b + p) == amount * b + amount * p;
    DivAdds(amount * b, amount * p);
    TimesMonotone(amount, amount, b + p, FEE_DIVISOR);
    DivMonotone(amount * (b + p), amount * FEE_DIVISOR);
    TimesMonotone(amount, amount, p, MAX_PROTOCOL_FEE_BPS);
    DivMonotone(amount * p, amount * MAX_PROTOCOL_FEE_BPS);
  }

  /** Within its domain the breakdown never fails. */
  lemma BreakdownSucceeds(cfg: FeeConfig, amount: int)
    requires 1 <= amount <= SAFE_AMOUNT
    requires cfg.strategy.Percentage? && cfg.protocolBps <= MAX_PROTOCOL_FEE_BPS
    requires cfg.strategy.bps + cfg.protocolBps <= FEE_DIVISOR
    ensures FeesWithBreakdown(cfg, amount, false).Ok?
    ensures FeesWithBreakdown(cfg, amount, false).value.platformFee == PercentageFee(amount, cfg.strategy.bps)
    ensures FeesWithBreakdown(cfg, amount, false).value.protocolFee == amount * cfg.protocolBps / FEE_DIVISOR
  {
    PercentageDefined(amount, cfg.strategy.bps);
    RateDefined(amount, cfg.protocolBps);
    SharesFit(amount, cfg.strategy.bps, cfg.protocolBps);
    assert amount * 0 / FEE_DIVISOR == 0;
  }

  /** Percentage fees grow with the amount and with the rate. */
  lemma PercentageMonotone(amount: nat, amount': nat, bps: nat, bps': nat)
    requires amount <= amount' && bps <= bps'
    ensures PercentageFee(amount, bps) <= PercentageFee(amount', bps')
  {
    TimesMonotone(amount, amount', bps, bps');
    DivMonotone(amount * bps, amount' * bps');
  }

  /** The tiered strategy never charges more than its base percentage. */
  lemma DynamicAtMostPercentage(amount: nat, bps: nat)
    requires amount <= SAFE_AMOUNT && bps <= FEE_DIVISOR
    ensures CalculateFeeByStrategy(amount, Dynamic(bps)).Ok?
    ensures CalculateFeeByStrategy(amount, Dynamic(bps)).value <= PercentageFee(amount, bps)
  {
    var effective := DynamicBps(amount, bps).value;
    assert effective <= bps;
    RateDefined(amount, effective);
    PercentageMonotone(amount, amount, effective, bps);
  }

  function Total(parts: seq<nat>): nat {
    if parts == [] then 0 else Total(parts[..|parts| - 1]) + parts[|parts| - 1]
  }

  function TotalFees(parts: seq<nat>, bps: nat): int {
    if parts == [] then 0 else TotalFees(parts[..|parts| - 1], bps) + PercentageFee(parts[|parts| - 1], bps)
  }

  /** The fees before rounding, in units of 1/10,000. */
  function TotalScaled(parts: seq<nat>, bps: nat): int {
    if parts == [] then 0 else TotalScaled(parts[..|parts| - 1], bps) + parts[|parts| - 1] * bps
  }

  lemma Distributes(a: nat, b: nat, m: nat)
    ensures (a + b) * m == a * m + b * m
  {
  }

  lemma {:induction false} ScaledIs(parts: seq<nat>, bps: nat)
    ensures TotalScaled(parts, bps) == Total(parts) * bps
  {
    if parts != [] {
      ScaledIs(parts[..|parts| - 1], bps);
      Distributes(Total(parts[..|parts| - 1]), parts[|parts| - 1], bps);
    }
  }

  /** Rounding takes less than one unit from a fee. */
  lemma FeeAtLeast(amount: nat, bps: nat, scaled: int)
    requires scaled == amount * bps
    ensures FEE_DIVISOR * PercentageFee(amount, bps) >= scaled - (FEE_DIVISOR - 1) && PercentageFee(amount, bps) >= 1
  {
  }

  lemma {:induction false} FeesAtLeast(parts: seq<nat>, bps: nat)
    ensures FEE_DIVISOR * TotalFees(parts, bps) >= TotalScaled(parts, bps) - (FEE_DIVISOR - 1) * |parts|
    ensures TotalFees(parts, bps) >= |parts|
  {
    if parts != [] {
      var last := parts[|parts| - 1];
      FeesAtLeast(parts[..|parts| - 1], bps);
      FeeAtLeast(last, bps, last * bps);
    }
  }

  lemma FloorBound(fees: int, scaled: int, n: nat)
    requires n > 0 && FEE_DIVISOR * fees >= scaled - (FEE_DIVISOR - 1) * n
    ensures fees >= scaled / FEE_DIVISOR - (n - 1)
  {
  }

  /** Splitting an amount into n parts lowers the percentage fee by at most n - 1 stroops. */
  lemma SplittingSavesLittle(parts: seq<nat>, bps: nat)
    requires parts != []
    ensures TotalFees(parts, bps) >= PercentageFee(Total(parts), bps) - (|parts| - 1)
  {
    FeesAtLeast(parts, bps);
    ScaledIs(parts, bps);
    FloorBound(TotalFees(parts, bps), TotalScaled(parts, bps), |parts|);
  }
}
