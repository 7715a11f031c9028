/**
 What an adopted fee update changes. Governance writes the platform rate only; creation charges the
 token's own rate where there is one, and the payout recomputes with the rate of the strategy.
 */
module FeeVotes {
  import opened Common
  import opened Confirmability
  import opened FeeSchedule
  import FS = FeeService
  import G = Governance

  /** The fee configuration, whose platform rate is the one that governance stores. */
  function ConfigOf(g: G.Settings, cfg: FS.FeeConfig): FS.FeeConfig {
    cfg.(platformBps := g.feeBps)
  }

  /** Executing an adopted update stores its rate and no other setting. */
  lemma AdoptedRate(s: G.State, now: nat, executor: G.Address, id: nat, bps: nat)
    requires G.Execute(s, now, executor, id).Ok? && s.c.proposals[id].action == G.UpdateFee(bps)
    ensures G.Execute(s, now, executor, id).value.g == s.g.(feeBps := bps)
  {
  }

  /** The strategies that resolve to the token's or the platform's rate at creation. */
  predicate ByRate(strategy: FS.FeeStrategy) {
    strategy.Percentage? || strategy.Corridor?
  }

  /** The discounted fees at two platform rates differ. */
  predicate DiscountedDiffer(amount: nat, volume: int, bps: nat, bps': nat) {
    FS.PercentageFee(amount, Discounted(bps, volume)) != FS.PercentageFee(amount, Discounted(bps', volume))
  }

  /**
   A new platform rate changes the fee stored at creation exactly when the strategy goes by rate, the
   token has no rate of its own, and the discounted fees at the old and the new rate differ.
   */
  lemma StoredFeeChangesIff(cfg: FS.FeeConfig, bps: nat, amount: int, volume: int)
    requires FS.PlatformFeeForVolume(cfg, amount, volume).Ok?
    requires FS.PlatformFeeForVolume(cfg.(platformBps := bps), amount, volume).Ok?
    ensures FS.PlatformFeeForVolume(cfg.(platformBps := bps), amount, volume)
            != FS.PlatformFeeForVolume(cfg, amount, volume)
       <==> amount > 0 && ByRate(cfg.strategy) && cfg.tokenBps.None?
            && DiscountedDiffer(amount, volume, cfg.platformBps, bps)
  {
    StoredFee(cfg, amount, volume);
    StoredFee(cfg.(platformBps := bps), amount, volume);
  }

  /** It changes the fee recomputed at payout exactly when the strategy is the corridor one and the two rates differ. */
  lemma RecomputedFeeChangesIff(cfg: FS.FeeConfig, bps: nat, amount: int)
    requires FS.FeesWithBreakdown(cfg, amount, false).Ok?
    requires FS.FeesWithBreakdown(cfg.(platformBps := bps), amount, false).Ok?
    ensures FS.FeesWithBreakdown(cfg.(platformBps := bps), amount, false).value.platformFee
            != FS.FeesWithBreakdown(cfg, amount, false).value.platformFee
       <==> amount > 0 && cfg.strategy.Corridor?
            && FS.PercentageFee(amount, cfg.platformBps) != FS.PercentageFee(amount, bps)
  {
    PayoutFees(cfg, amount);
    PayoutFees(cfg.(platformBps := bps), amount);
  }

  /**
   With a rate for the token, no creation is charged otherwise after an adopted update: not on its own,
   not in a batch, and not along any route. Under a percentage strategy the payout is not either, so the
   vote changes no fee at all.
   */
  lemma VoteWithoutEffect(s: G.State, now: nat, executor: G.Address, id: nat, bps: nat, cfg: FS.FeeConfig,
                          route: Option<FS.Route>, amount: int, volume: int)
    requires G.Execute(s, now, executor, id).Ok? && s.c.proposals[id].action == G.UpdateFee(bps)
    requires cfg.platformBps == s.g.feeBps && cfg.tokenBps.Some?
    ensures var cfg' := ConfigOf(G.Execute(s, now, executor, id).value.g, cfg);
            && cfg'.platformBps == bps
            && FS.PlatformFeeForVolume(cfg', amount, volume) == FS.PlatformFeeForVolume(cfg, amount, volume)
            && FS.FeesForSender(cfg', route, amount, volume) == FS.FeesForSender(cfg, route, amount, volume)
            && (cfg.strategy.Percentage? ==>
                  FS.FeesWithBreakdown(cfg', amount, false) == FS.FeesWithBreakdown(cfg, amount, false))
  {
    AdoptedRate(s, now, executor, id, bps);
  }

  /**
   Without one, under a percentage strategy, an adopted update reaches creation but not the payout: what
   is created from then on is refused at payout exactly when the new rate, discounted, and the rate of the
   strategy give different fees.
   */
  lemma VoteSplitsFees(s: G.State, now: nat, executor: G.Address, id: nat, bps: nat, cfg: FS.FeeConfig,
                       amount: int, volume: int)
    requires G.Execute(s, now, executor, id).Ok? && s.c.proposals[id].action == G.UpdateFee(bps)
    requires cfg.strategy.Percentage? && cfg.tokenBps.None? && amount > 0
    ensures FeesDiffer(ConfigOf(G.Execute(s, now, executor, id).value.g, cfg), amount, volume)
       <==> FS.PercentageFee(amount, Discounted(bps, volume)) != FS.PercentageFee(amount, cfg.strategy.bps)
  {
    AdoptedRate(s, now, executor, id, bps);
  }
}
