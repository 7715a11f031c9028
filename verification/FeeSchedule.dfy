/** The two fees of a remittance in closed form: what creation charges and what the payout recomputes. */
module FeeSchedule {
  import opened Common
  import FS = FeeService

  /** From a volume of 10,000 on a sender pays at most 150 basis points. */
  function Discounted(bps: nat, volume: int): nat {
    if volume >= 10_000 && bps > 150 then 150 else bps
  }

  /** The token's own rate, or else the platform's. */
  function TokenRate(cfg: FS.FeeConfig): nat {
    if cfg.tokenBps.Some? then cfg.tokenBps.value else cfg.platformBps
  }

  /** The tiered rate: 80% of the base from 1,000 tokens on, 60% from 10,000 on, in stroops. */
  function TierRate(amount: int, bps: nat): nat {
    if amount < 1_000_0000000 then bps else if amount < 10_000_0000000 then bps * 80 / 100 else bps * 60 / 100
  }

  /** What a strategy charges a sender: the token's rate and the discount, where it goes by rate. */
  function ChargedFee(cfg: FS.FeeConfig, strategy: FS.FeeStrategy, amount: nat, volume: int): int {
    match strategy
    case Percentage(_) => FS.PercentageFee(amount, Discounted(TokenRate(cfg), volume))
    case Corridor => FS.PercentageFee(amount, Discounted(TokenRate(cfg), volume))
    case Flat(fee) => if fee < 1 then 1 else fee
    case Dynamic(bps) => FS.PercentageFee(amount, TierRate(amount, bps))
  }

  /** What the payout recomputes: the global strategy at its own rate, without a discount. */
  function RecomputedFee(cfg: FS.FeeConfig, amount: nat): int {
    match cfg.strategy
    case Percentage(bps) => FS.PercentageFee(amount, bps)
    case Corridor => FS.PercentageFee(amount, cfg.platformBps)
    case Flat(fee) => if fee < 1 then 1 else fee
    case Dynamic(bps) => FS.PercentageFee(amount, TierRate(amount, bps))
  }

  /** What creation computes, given the sender's volume including the new amount. */
  lemma StoredFee(cfg: FS.FeeConfig, amount: int, volume: int)
    requires FS.PlatformFeeForVolume(cfg, amount, volume).Ok?
    ensures amount > 0
    ensures FS.PlatformFeeForVolume(cfg, amount, volume).value == ChargedFee(cfg, cfg.strategy, amount, volume)
  {
  }

  /** What the payout computes: both fees, and the rest as the net amount. */
  lemma PayoutFees(cfg: FS.FeeConfig, amount: int)
    requires FS.FeesWithBreakdown(cfg, amount, false).Ok?
    ensures amount > 0
    ensures var b := FS.FeesWithBreakdown(cfg, amount, false).value;
            && b.platformFee == RecomputedFee(cfg, amount)
            && b.protocolFee == amount * cfg.protocolBps / 10_000
            && b.netAmount == amount - RecomputedFee(cfg, amount) - amount * cfg.protocolBps / 10_000
  {
    BreakdownParts(cfg, amount);
    assert amount * 0 / 10_000 == 0;
  }

  lemma BreakdownParts(cfg: FS.FeeConfig, amount: int)
    requires FS.FeesWithBreakdown(cfg, amount, false).Ok?
    ensures amount > 0
    ensures var b := FS.FeesWithBreakdown(cfg, amount, false).value;
            && FS.CalculateFeeByStrategy(amount, FS.EffectiveStrategy(cfg, cfg.strategy, false)) == Ok(b.platformFee)
            && FS.CalculateProtocolFee(amount, cfg.protocolBps) == Ok(b.protocolFee)
  {
  }

  /** The product that a percentage is taken from fits an i128; tiered rates are computed in 32 bits. */
  predicate RateFits(amount: int, bps: nat) {
    InI128(amount * bps)
  }

  predicate TierFits(amount: int, bps: nat) {
    && (amount >= 10_000_0000000 ==> bps * 60 <= U32_MAX)
    && (1_000_0000000 <= amount < 10_000_0000000 ==> bps * 80 <= U32_MAX)
    && RateFits(amount, TierRate(amount, bps))
  }

  /** Creation has a fee for exactly the positive amounts whose products fit. */
  lemma StoredFeeIff(cfg: FS.FeeConfig, amount: int, volume: int)
    ensures FS.PlatformFeeForVolume(cfg, amount, volume).Ok?
       <==> && amount > 0
            && match cfg.strategy
               case Percentage(_) => RateFits(amount, Discounted(TokenRate(cfg), volume))
               case Corridor => RateFits(amount, Discounted(TokenRate(cfg), volume))
               case Flat(_) => true
               case Dynamic(bps) => TierFits(amount, bps)
  {
  }

  /** A single creation computes the same fee for the sender's volume so far and the new amount. */
  lemma SenderFee(cfg: FS.FeeConfig, amount: int, prior: int)
    ensures FS.PlatformFeeForSender(cfg, amount, prior).Ok?
       <==> amount > 0 && InI128(prior + amount) && FS.PlatformFeeForVolume(cfg, amount, prior + amount).Ok?
    ensures FS.PlatformFeeForSender(cfg, amount, prior).Ok? ==>
              FS.PlatformFeeForSender(cfg, amount, prior).value == ChargedFee(cfg, cfg.strategy, amount, prior + amount)
  {
    if FS.PlatformFeeForSender(cfg, amount, prior).Ok? {
      StoredFee(cfg, amount, prior + amount);
    }
  }

  /** The payout has its fees for exactly those positive amounts whose products fit and that cover both fees. */
  lemma PayoutFeesIff(cfg: FS.FeeConfig, amount: int)
    requires amount <= I128_MAX
    ensures FS.FeesWithBreakdown(cfg, amount, false).Ok?
       <==> && amount > 0 && RateFits(amount, cfg.protocolBps)
            && (match cfg.strategy
                case Percentage(bps) => RateFits(amount, bps)
                case Corridor => RateFits(amount, cfg.platformBps)
                case Flat(_) => true
                case Dynamic(bps) => TierFits(amount, bps))
            && RecomputedFee(cfg, amount) + amount * cfg.protocolBps / 10_000 <= amount
  {
    assert amount * 0 == 0 && 0 / 10_000 == 0;
  }

  /** The strategy of the route, or the global one if none is configured. */
  function StrategyOf(cfg: FS.FeeConfig, route: Option<FS.Route>): FS.FeeStrategy {
    if route.Some? then route.value.strategy else cfg.strategy
  }

  lemma BreakdownFee(amount: int, strategy: FS.FeeStrategy, protocolBps: nat)
    requires FS.Breakdown(amount, strategy, protocolBps).Ok?
    ensures FS.CalculateFeeByStrategy(amount, strategy)
         == Ok(FS.Breakdown(amount, strategy, protocolBps).value.platformFee)
  {
  }

  /** The protocol rate of the route, where it has one, or the global one. */
  function ProtocolRateOf(cfg: FS.FeeConfig, route: Option<FS.Route>): nat {
    if route.Some? && route.value.protocolBps.Some? then route.value.protocolBps.value else cfg.protocolBps
  }

  /** What creation along a route computes. */
  lemma RouteFeeIs(cfg: FS.FeeConfig, route: Option<FS.Route>, amount: int, prior: int)
    requires FS.FeesForSender(cfg, route, amount, prior).Ok?
    ensures amount > 0
    ensures FS.FeesForSender(cfg, route, amount, prior).value.platformFee
         == ChargedFee(cfg, StrategyOf(cfg, route), amount, prior + amount)
  {
    var strategy := FS.ApplyVolumeDiscount(prior + amount, FS.EffectiveStrategy(cfg, StrategyOf(cfg, route), true));
    BreakdownFee(amount, strategy, ProtocolRateOf(cfg, route));
  }

  lemma BreakdownIff(amount: int, strategy: FS.FeeStrategy, protocolBps: nat)
    requires 0 < amount <= I128_MAX
    ensures FS.Breakdown(amount, strategy, protocolBps).Ok?
       <==> && FS.CalculateFeeByStrategy(amount, strategy).Ok? && RateFits(amount, protocolBps)
            && FS.CalculateFeeByStrategy(amount, strategy).value + amount * protocolBps / 10_000 <= amount
  {
    assert amount * 0 == 0 && 0 / 10_000 == 0;
  }

  lemma ChargedIff(cfg: FS.FeeConfig, strategy: FS.FeeStrategy, amount: nat, volume: int)
    ensures var charged := FS.ApplyVolumeDiscount(volume, FS.EffectiveStrategy(cfg, strategy, true));
            && (FS.CalculateFeeByStrategy(amount, charged).Ok?
                <==> match strategy
                     case Percentage(_) => RateFits(amount, Discounted(TokenRate(cfg), volume))
                     case Corridor => RateFits(amount, Discounted(TokenRate(cfg), volume))
                     case Flat(_) => true
                     case Dynamic(bps) => TierFits(amount, bps))
            && (FS.CalculateFeeByStrategy(amount, charged).Ok? ==>
                  FS.CalculateFeeByStrategy(amount, charged).value == ChargedFee(cfg, strategy, amount, volume))
  {
  }

  /**
   A route has a fee for exactly the positive amounts whose products fit and that cover both fees, as long
   as its two country names fit the sixteen bytes of the corridor id with a separator.
   */
  lemma RouteFeeIff(cfg: FS.FeeConfig, route: Option<FS.Route>, amount: int, prior: int)
    requires amount <= I128_MAX
    ensures FS.FeesForSender(cfg, route, amount, prior).Ok?
       <==> && amount > 0 && InI128(prior + amount) && RateFits(amount, ProtocolRateOf(cfg, route))
            && (route.Some? ==> |route.value.fromCountry| + |route.value.toCountry| <= 15)
            && (match StrategyOf(cfg, route)
                case Percentage(_) => RateFits(amount, Discounted(TokenRate(cfg), prior + amount))
                case Corridor => RateFits(amount, Discounted(TokenRate(cfg), prior + amount))
                case Flat(_) => true
                case Dynamic(bps) => TierFits(amount, bps))
            && ChargedFee(cfg, StrategyOf(cfg, route), amount, prior + amount)
               + amount * ProtocolRateOf(cfg, route) / 10_000 <= amount
  {
    if amount > 0 {
      var charged := FS.ApplyVolumeDiscount(prior + amount, FS.EffectiveStrategy(cfg, StrategyOf(cfg, route), true));
      ChargedIff(cfg, StrategyOf(cfg, route), amount, prior + amount);
      BreakdownIff(amount, charged, ProtocolRateOf(cfg, route));
    }
  }

  /** A breakdown is consistent if its parts are not negative and add up. */
  lemma ConsistentIff(b: FS.FeeBreakdown)
    requires InI128(b.platformFee + b.protocolFee) && InI128(b.platformFee + b.protocolFee + b.netAmount)
    ensures b.Validate().Ok?
       <==> && b.platformFee >= 0 && b.protocolFee >= 0 && b.netAmount >= 0
            && b.platformFee + b.protocolFee + b.netAmount == b.amount
  {
  }

  // ----- the tiered strategy -----

  /** Within a tier the fee grows with the amount. */
  lemma TieredWithin(amount: nat, amount': nat, bps: nat)
    requires amount <= amount' && TierRate(amount, bps) <= TierRate(amount', bps)
    ensures FS.PercentageFee(amount, TierRate(amount, bps)) <= FS.PercentageFee(amount', TierRate(amount', bps))
  {
    FS.PercentageMonotone(amount, amount', TierRate(amount, bps), TierRate(amount', bps));
  }

  /** But a larger amount can pay less: one stroop more reaches the next tier. */
  lemma TierDrops()
    ensures FS.CalculateFeeByStrategy(999_9999999, FS.Dynamic(100)) == Ok(99_999_999)
    ensures FS.CalculateFeeByStrategy(1_000_0000000, FS.Dynamic(100)) == Ok(80_000_000)
    ensures FS.CalculateFeeByStrategy(9_999_9999999, FS.Dynamic(100)) == Ok(799_999_999)
    ensures FS.CalculateFeeByStrategy(10_000_0000000, FS.Dynamic(100)) == Ok(600_000_000)
  {
  }
}
