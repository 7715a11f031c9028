/**
 Which remittances a payout can confirm. The fee stored at creation has the sender's volume discount,
 the token's own rate and, along a route, the route's strategy; the fee recomputed at payout has none
 of them, and a full payout is refused when the two differ.
 */
module Confirmability {
  import opened Common
  import opened Types
  import opened Ledger
  import opened LedgerLaws
  import opened LedgerRuns
  import opened BatchCreation
  import opened FeeSchedule
  import DailyLimit
  import FS = FeeService

  // ----- the two fees -----

  /** The plain rate of the strategies that resolve to a percentage. */
  function PlainRate(cfg: FS.FeeConfig): Option<nat> {
    match cfg.strategy
    case Percentage(bps) => Some(bps)
    case Corridor => Some(cfg.platformBps)
    case Flat(_) => None
    case Dynamic(_) => None
  }

  /** The discounted token rate and the plain rate round to different fees; never so for flat and tiered fees. */
  predicate FeesDiffer(cfg: FS.FeeConfig, amount: int, volume: int) {
    && amount > 0 && PlainRate(cfg).Some?
    && FS.PercentageFee(amount, Discounted(TokenRate(cfg), volume)) != FS.PercentageFee(amount, PlainRate(cfg).value)
  }

  lemma StoredAgainstRecomputed(cfg: FS.FeeConfig, amount: int, volume: int)
    requires FS.PlatformFeeForVolume(cfg, amount, volume).Ok? && FS.FeesWithBreakdown(cfg, amount, false).Ok?
    ensures FS.PlatformFeeForVolume(cfg, amount, volume).value
            != FS.FeesWithBreakdown(cfg, amount, false).value.platformFee
       <==> FeesDiffer(cfg, amount, volume)
  {
    StoredFee(cfg, amount, volume);
    PayoutFees(cfg, amount);
  }

  /** A breakdown that fails never fails as an invalid amount, nor as expired. */
  lemma BreakdownError(cfg: FS.FeeConfig, amount: int)
    requires amount > 0
    ensures FS.FeesWithBreakdown(cfg, amount, false) != Err(InvalidAmount)
    ensures FS.FeesWithBreakdown(cfg, amount, false) != Err(SettlementExpired)
  {
  }

  // ----- a payout of a stored remittance -----

  /** Every guard of a payout passes but the comparison of fees. */
  ghost predicate Payable(s: State, env: Env, agent: Address, id: nat) {
    && !s.cfg.migrating && !s.cfg.paused && env.admit
    && id in s.remittances && id !in s.settled
    && var r := s.remittances[id];
       && r.status.Pending? && (r.expiry.Some? ==> env.now <= r.expiry.value)
       && agent == r.agent && agent in s.cfg.agents
       && InI128(s.processingVolume + r.amount)
  }

  lemma CompleteError(s: State, id: nat, r: Remittance)
    requires 0 <= s.fees && r.fee > 0
    ensures Complete(s, id, r) != Err(InvalidAmount) && Complete(s, id, r) != Err(SettlementExpired)
  {
  }

  lemma PayOutError(s: State, id: nat, r: Remittance, netAmount: int, protocolFee: int)
    requires 0 <= s.fees && r.fee > 0
    ensures PayOut(s, id, r, netAmount, protocolFee) != Err(InvalidAmount)
    ensures PayOut(s, id, r, netAmount, protocolFee) != Err(SettlementExpired)
  {
    var paid := Pay(s, r.agent, netAmount);
    if paid.Ok? {
      var treasured := if protocolFee > 0 then Pay(paid.value, s.cfg.treasury, protocolFee) else paid;
      if treasured.Ok? {
        CompleteError(treasured.value, id, r);
      }
    }
  }

  /** What a payout does once its guards have passed and the fee is found to match. */
  lemma MatchingFee(s: State, env: Env, agent: Address, id: nat)
    requires Payable(s, env, agent, id) && 0 <= s.fees && s.remittances[id].fee > 0
    requires Payout(s, id).Ok? && s.remittances[id].fee == Payout(s, id).value.platformFee
    ensures Confirm(s, env, agent, id) != Err(InvalidAmount) && Confirm(s, env, agent, id) != Err(SettlementExpired)
  {
    var r, b := s.remittances[id], Payout(s, id).value;
    PayOutError(StartProcessing(s, r).value, id, r.(status := Processing), b.netAmount, b.protocolFee);
  }

  lemma ConfirmStops(s: State, env: Env, agent: Address, id: nat)
    requires Payable(s, env, agent, id)
    ensures Payout(s, id).Err? ==> Confirm(s, env, agent, id) == Err(Payout(s, id).error)
    ensures Payout(s, id).Ok? && s.remittances[id].fee != Payout(s, id).value.platformFee ==>
              Confirm(s, env, agent, id) == Err(InvalidAmount)
  {
  }

  /**
   The other guards passing, a payout is refused as an invalid amount exactly when the stored fee is
   not the recomputed one.
   */
  lemma RefusedIff(s: State, env: Env, agent: Address, id: nat)
    requires Inv(s) && Payable(s, env, agent, id)
    ensures Confirm(s, env, agent, id) == Err(InvalidAmount)
       <==> Payout(s, id).Ok? && s.remittances[id].fee != Payout(s, id).value.platformFee
  {
    var r := s.remittances[id];
    assert RecordOk(r, id, Disbursed(s.disbursed, id), id in s.settled);
    ConfirmStops(s, env, agent, id);
    BreakdownError(s.cfg.feeConfig, r.amount);
    if Payout(s, id).Ok? && r.fee == Payout(s, id).value.platformFee {
      MatchingFee(s, env, agent, id);
    }
  }

  // ----- when a payout succeeds -----

  lemma CompleteIff(s: State, id: nat, r: Remittance)
    requires 0 <= s.fees <= MAX_FEES && s.fees <= Held(s) && r.fee > 0 && r.status.Processing?
    requires InI128(s.processingVolume - r.amount)
    ensures Complete(s, id, r).Ok? <==> r.fee <= MAX_FEES && InI128(s.completedVolume + r.amount)
  {
    AddFeeIff(s, r.fee);
  }

  lemma AddFeeIff(s: State, fee: int)
    requires 0 <= s.fees <= MAX_FEES && s.fees <= Held(s) && fee > 0
    ensures SafeAddFee(s, fee).Ok? <==> fee <= MAX_FEES
    ensures SafeAddFee(s, fee).Ok? ==>
              var s' := SafeAddFee(s, fee).value;
              s'.processingVolume == s.processingVolume && s'.completedVolume == s.completedVolume
  {
    if s.fees > 0 {
      PayCovered(s, s.cfg.treasury, s.fees);
    }
  }

  lemma PayOutIff(s: State, id: nat, r: Remittance, netAmount: int, protocolFee: int)
    requires 0 <= s.fees <= MAX_FEES && netAmount >= 0 && protocolFee >= 0
    requires netAmount + protocolFee + s.fees <= Held(s)
    requires r.fee > 0 && r.status.Processing? && InI128(s.processingVolume - r.amount)
    ensures PayOut(s, id, r, netAmount, protocolFee).Ok? <==> r.fee <= MAX_FEES && InI128(s.completedVolume + r.amount)
  {
    PayCovered(s, r.agent, netAmount);
    PayLaw(s, r.agent, netAmount);
    var paid := Pay(s, r.agent, netAmount).value;
    if protocolFee > 0 {
      PayCovered(paid, s.cfg.treasury, protocolFee);
      PayLaw(paid, s.cfg.treasury, protocolFee);
    }
    CompleteIff(if protocolFee > 0 then Pay(paid, s.cfg.treasury, protocolFee).value else paid, id, r);
  }

  lemma MatchingFeeIff(s: State, env: Env, agent: Address, id: nat)
    requires Payable(s, env, agent, id) && 0 <= s.fees <= MAX_FEES && s.remittances[id].fee > 0
    requires s.remittances[id].amount + s.fees <= Held(s) && InI128(s.processingVolume)
    requires Payout(s, id).Ok? && s.remittances[id].fee == Payout(s, id).value.platformFee
    ensures Confirm(s, env, agent, id).Ok?
       <==> s.remittances[id].fee <= MAX_FEES && InI128(s.completedVolume + s.remittances[id].amount)
  {
    var r, b := s.remittances[id], Payout(s, id).value;
    PayOutIff(StartProcessing(s, r).value, id, r.(status := Processing), b.netAmount, b.protocolFee);
  }

  /** A payout that a guard other than the comparison of fees stops. */
  lemma NotPayable(s: State, env: Env, agent: Address, id: nat)
    requires !Payable(s, env, agent, id)
    ensures Confirm(s, env, agent, id).Err?
  {
  }

  /**
   In a solvent state a payout goes through exactly when all its guards pass: neither a migration nor a
   pause, a pending and unsettled remittance that has not expired, its own registered agent, the stored
   fee equal to the recomputed one, and neither the fee cap nor a volume counter exceeded. The tokens are
   there.
   */
  lemma ConfirmsIff(s: State, env: Env, agent: Address, id: nat)
    requires Covered(s)
    ensures Confirm(s, env, agent, id).Ok?
       <==> && Payable(s, env, agent, id)
            && Payout(s, id).Ok? && s.remittances[id].fee == Payout(s, id).value.platformFee
            && s.remittances[id].fee <= MAX_FEES && InI128(s.completedVolume + s.remittances[id].amount)
  {
    if Payable(s, env, agent, id) {
      assert RecordOk(s.remittances[id], id, Disbursed(s.disbursed, id), id in s.settled);
      ConfirmStops(s, env, agent, id);
      FeesAndAmountCovered(s, id);
      InFlightCovers(s, id);
      if Payout(s, id).Ok? && s.remittances[id].fee == Payout(s, id).value.platformFee {
        MatchingFeeIff(s, env, agent, id);
      }
    } else {
      NotPayable(s, env, agent, id);
    }
  }

  lemma StoppedAs(s: State, env: Env, agent: Address, id: nat)
    requires !Payable(s, env, agent, id) && id in s.remittances
    requires s.remittances[id].status.Pending? ==> id !in s.settled
    ensures Confirm(s, env, agent, id) == Err(SettlementExpired)
       <==> && !s.cfg.migrating && !s.cfg.paused && s.remittances[id].status.Pending?
            && s.remittances[id].expiry.Some? && s.remittances[id].expiry.value < env.now
  {
  }

  /** A payout is refused as expired exactly when nothing stops it earlier and the expiry has passed. */
  lemma ExpiredIff(s: State, env: Env, agent: Address, id: nat)
    requires Inv(s)
    ensures Confirm(s, env, agent, id) == Err(SettlementExpired)
       <==> && !s.cfg.migrating && !s.cfg.paused && id in s.remittances && s.remittances[id].status.Pending?
            && s.remittances[id].expiry.Some? && s.remittances[id].expiry.value < env.now
  {
    if Payable(s, env, agent, id) {
      var r := s.remittances[id];
      assert RecordOk(r, id, Disbursed(s.disbursed, id), id in s.settled);
      ConfirmStops(s, env, agent, id);
      BreakdownError(s.cfg.feeConfig, r.amount);
      if Payout(s, id).Ok? && r.fee == Payout(s, id).value.platformFee {
        MatchingFee(s, env, agent, id);
      }
    } else if id in s.remittances {
      assert RecordOk(s.remittances[id], id, Disbursed(s.disbursed, id), id in s.settled);
      StoppedAs(s, env, agent, id);
    }
  }

  lemma FeesAndAmountCovered(s: State, id: nat)
    requires Covered(s) && id in s.remittances && s.remittances[id].status.Pending?
    ensures s.remittances[id].amount + s.fees <= Held(s)
  {
    assert RecordOk(s.remittances[id], id, Disbursed(s.disbursed, id), id in s.settled);
    OwedCovers(s, id);
  }

  // ----- partial payouts -----

  /** Every guard of a partial payout passes that does not look at its amount; the volume counters are i128s. */
  predicate PartPayable(s: State, env: Env, id: nat) {
    && env.admit && id in s.remittances && InI128(s.processingVolume)
    && var r := s.remittances[id];
       && r.agent in s.cfg.agents && (r.status.Pending? || r.status.Processing?)
       && (r.status.Pending? ==> InI128(s.processingVolume + r.amount))
  }

  /** The fee cap and the volume counter allow the remittance to be completed. */
  predicate Completable(s: State, r: Remittance) {
    r.fee <= MAX_FEES && InI128(s.completedVolume + r.amount)
  }

  /** The state once a part has been paid and recorded. */
  lemma PartPaid(s: State, id: nat, r: Remittance, amount: int, netAmount: int) returns (recorded: State)
    requires 0 <= amount <= Held(s) && InI128(Disbursed(s.disbursed, id) + amount)
    ensures recorded == s.(balances := recorded.balances, disbursed := recorded.disbursed)
    ensures Held(recorded) >= Held(s) - amount
    ensures var complete := Disbursed(s.disbursed, id) + amount >= netAmount;
            Disburse(s, id, r, amount, netAmount) == StoreOrComplete(recorded, id, r, complete)
  {
    PayCovered(s, r.agent, amount);
    PayLaw(s, r.agent, amount);
    var total := Disbursed(s.disbursed, id) + amount;
    recorded := Pay(s, r.agent, amount).value.(disbursed := s.disbursed[id := total]);
    assert AddDisbursed(Pay(s, r.agent, amount).value, id, amount) == Ok(recorded);
  }

  lemma DisburseIff(s: State, id: nat, r: Remittance, amount: int, netAmount: int)
    requires 0 <= s.fees <= MAX_FEES && 0 <= amount && amount + s.fees <= Held(s)
    requires r.fee > 0 && r.status.Processing? && InI128(s.processingVolume - r.amount)
    requires InI128(Disbursed(s.disbursed, id) + amount)
    ensures Disburse(s, id, r, amount, netAmount).Ok?
       <==> (Disbursed(s.disbursed, id) + amount >= netAmount ==> Completable(s, r))
  {
    var recorded := PartPaid(s, id, r, amount, netAmount);
    CompleteIff(recorded, id, r);
  }

  /** The stages of a partial payout, given the net amount. */
  lemma ConfirmPartialIs(s: State, env: Env, id: nat, amount: int, net: int)
    requires PartPayable(s, env, id) && Payout(s, id).Ok? && net == Payout(s, id).value.netAmount
    ensures ConfirmPartial(s, env, id, amount).Ok?
       <==> && 0 < amount <= net - Disbursed(s.disbursed, id) && InI128(net - Disbursed(s.disbursed, id))
            && Disburse(Begin(s, s.remittances[id]).value, id, s.remittances[id].(status := Processing), amount, net).Ok?
  {
  }

  lemma PartStops(s: State, env: Env, id: nat, amount: int)
    requires PartPayable(s, env, id) && Payout(s, id).Err?
    ensures ConfirmPartial(s, env, id, amount).Err?
  {
  }

  /** What solvency provides for a partial payout. */
  lemma PartCovered(s: State, id: nat)
    requires Covered(s) && id in s.remittances
    requires s.remittances[id].status.Pending? || s.remittances[id].status.Processing?
    ensures s.remittances[id].amount - Disbursed(s.disbursed, id) + s.fees <= Held(s)
    ensures 0 <= Disbursed(s.disbursed, id) && s.remittances[id].fee > 0
    ensures 0 <= InFlightOn(s.remittances, id) <= s.processingVolume
  {
    assert RecordOk(s.remittances[id], id, Disbursed(s.disbursed, id), id in s.settled);
    OwedCovers(s, id);
    InFlightCovers(s, id);
  }

  lemma BreakdownWithin(cfg: FS.FeeConfig, amount: int)
    requires FS.FeesWithBreakdown(cfg, amount, false).Ok?
    ensures 0 <= FS.FeesWithBreakdown(cfg, amount, false).value.netAmount <= amount <= I128_MAX
  {
  }

  lemma PartNotPayable(s: State, env: Env, id: nat, amount: int)
    requires InI128(s.processingVolume) && !PartPayable(s, env, id)
    ensures ConfirmPartial(s, env, id, amount).Err?
  {
  }

  /**
   In a solvent state a partial payout succeeds exactly when its guards pass, its amount is positive and
   within what is left of the net amount and, if it completes the remittance, the fee cap and the volume
   counter allow that: the tokens are there.
   */
  lemma PartialConfirmsIff(s: State, env: Env, id: nat, amount: int)
    requires Covered(s) && InI128(s.processingVolume)
    ensures ConfirmPartial(s, env, id, amount).Ok?
       <==> && PartPayable(s, env, id)
            && Payout(s, id).Ok? && 0 < amount <= Payout(s, id).value.netAmount - Disbursed(s.disbursed, id)
            && (Completes(s, id, amount) ==> Completable(s, s.remittances[id]))
  {
    if !PartPayable(s, env, id) {
      PartNotPayable(s, env, id, amount);
    } else if Payout(s, id).Err? {
      PartStops(s, env, id, amount);
    } else {
      var r, net := s.remittances[id], Payout(s, id).value.netAmount;
      PartCovered(s, id);
      BreakdownWithin(s.cfg.feeConfig, r.amount);
      ConfirmPartialIs(s, env, id, amount, net);
      if 0 < amount <= net - Disbursed(s.disbursed, id) {
        DisburseIff(Begin(s, r).value, id, r.(status := Processing), amount, net);
      }
    }
  }

  // ----- from its creation on -----

  /** The pending remittance `id` carries the fee of this amount for this volume. */
  ghost predicate Priced(s: State, id: nat, cfg: FS.FeeConfig, amount: int, volume: int) {
    && id in s.remittances && s.remittances[id].amount == amount
    && FS.PlatformFeeForVolume(cfg, amount, volume) == Ok(s.remittances[id].fee)
  }

  /** While it is pending nothing about it changes. */
  lemma StaysPending(s: State, log: seq<Event>, id: nat)
    requires Inv(s) && AllExternal(log) && id in s.remittances
    requires id in Run(s, log).remittances && Run(s, log).remittances[id].status.Pending?
    ensures Run(s, log).remittances[id] == s.remittances[id]
  {
    Conservation(s, log);
    assert Advances(s.remittances[id], Run(s, log).remittances[id]);
  }

  /** The payout is refused as an invalid amount exactly when the discounted token rate and the plain rate differ. */
  ghost predicate RefusedByRates(s: State, env: Env, agent: Address, id: nat, amount: int, volume: int) {
    Confirm(s, env, agent, id) == Err(InvalidAmount)
    <==> Payout(s, id).Ok? && FeesDiffer(s.cfg.feeConfig, amount, volume)
  }

  lemma PricedNow(s: State, env: Env, agent: Address, id: nat, amount: int, volume: int)
    requires Inv(s) && Payable(s, env, agent, id) && Priced(s, id, s.cfg.feeConfig, amount, volume)
    ensures RefusedByRates(s, env, agent, id, amount, volume)
  {
    RefusedIff(s, env, agent, id);
    if Payout(s, id).Ok? {
      StoredAgainstRecomputed(s.cfg.feeConfig, amount, volume);
    }
  }

  /** In a solvent state it is otherwise paid out, unless the fee cap or the volume counter is exceeded. */
  lemma PricedConfirmsIff(s: State, env: Env, agent: Address, id: nat, amount: int, volume: int)
    requires Covered(s) && Payable(s, env, agent, id) && Priced(s, id, s.cfg.feeConfig, amount, volume)
    ensures Confirm(s, env, agent, id).Ok?
       <==> && Payout(s, id).Ok? && !FeesDiffer(s.cfg.feeConfig, amount, volume)
            && s.remittances[id].fee <= MAX_FEES && InI128(s.completedVolume + amount)
  {
    ConfirmsIff(s, env, agent, id);
    if Payout(s, id).Ok? {
      StoredAgainstRecomputed(s.cfg.feeConfig, amount, volume);
    }
  }

  /** Whatever has happened since, while it is pending and the fee configuration is the one it was priced under. */
  lemma PricedLater(s: State, log: seq<Event>, id: nat, amount: int, volume: int, env: Env, agent: Address)
    requires Inv(s) && AllExternal(log) && Priced(s, id, s.cfg.feeConfig, amount, volume)
    requires Payable(Run(s, log), env, agent, id) && Run(s, log).cfg.feeConfig == s.cfg.feeConfig
    ensures RefusedByRates(Run(s, log), env, agent, id, amount, volume)
  {
    RunInv(s, log);
    StaysPending(s, log, id);
    PricedNow(Run(s, log), env, agent, id, amount, volume);
  }

  lemma CreatePrices(s: State, env: Env, sender: Address, e: Entry)
    requires Create(s, env, sender, e).Ok?
    ensures var (s', id) := Create(s, env, sender, e).value;
            && s'.cfg == s.cfg
            && Priced(s', id, s.cfg.feeConfig, e.amount, Rolling(s, sender, env.now) + e.amount)
  {
    CreateIs(s, env, sender, e);
    var fee := FS.PlatformFeeForSender(s.cfg.feeConfig, e.amount, Rolling(s, sender, env.now));
    AcceptStores(s, env.now, sender, e, fee);
  }

  lemma AcceptStores(s: State, now: nat, sender: Address, e: Entry, fee: Result<int>)
    requires Accept(s, now, sender, e, GLOBAL, fee).Ok?
    ensures var (s', id) := Accept(s, now, sender, e, GLOBAL, fee).value;
            && s'.cfg == s.cfg && id in s'.remittances && fee == Ok(s'.remittances[id].fee)
            && s'.remittances[id].amount == e.amount
  {
  }

  lemma CreatedPriced(s: State, env: Env, sender: Address, e: Entry, s': State, id: nat)
    requires Inv(s) && sender != SELF && Create(s, env, sender, e) == Ok((s', id))
    ensures Inv(s') && s'.cfg == s.cfg
    ensures Priced(s', id, s.cfg.feeConfig, e.amount, Rolling(s, sender, env.now) + e.amount)
  {
    CreateLaw(s, env, sender, e);
    CreatePrices(s, env, sender, e);
  }

  /** A remittance created on its own, in any state that a later run reaches from there. */
  lemma CreatedRefusedIff(s: State, env: Env, sender: Address, e: Entry, s': State, id: nat, log: seq<Event>, env': Env)
    requires Inv(s) && sender != SELF && Create(s, env, sender, e) == Ok((s', id))
    requires AllExternal(log) && Payable(Run(s', log), env', e.agent, id)
    requires Run(s', log).cfg.feeConfig == s.cfg.feeConfig
    ensures RefusedByRates(Run(s', log), env', e.agent, id, e.amount, Rolling(s, sender, env.now) + e.amount)
  {
    CreatedPriced(s, env, sender, e, s', id);
    PricedLater(s', log, id, e.amount, Rolling(s, sender, env.now) + e.amount, env', e.agent);
  }

  // ----- batches -----

  /** The i-th booked entry is priced for the sender's volume up to and including it. */
  ghost predicate EntryPriced(counter: nat, cfg: FS.FeeConfig, b: Booked, entries: seq<Entry>, prior: int, i: nat)
    requires i < |b.ids| == |entries|
  {
    && b.ids[i] == counter + 1 + i
    && Priced(b.state, b.ids[i], cfg, entries[i].amount, prior + Total(entries[..i + 1]))
  }

  ghost predicate AllPriced(counter: nat, cfg: FS.FeeConfig, b: Booked, entries: seq<Entry>, prior: int) {
    && |b.ids| == |entries| && b.state.counter == counter + |entries| && b.state.cfg.feeConfig == cfg
    && b.volume == prior + Total(entries)
    && forall i | 0 <= i < |entries| :: EntryPriced(counter, cfg, b, entries, prior, i)
  }

  /** `n` is `b` with one more entry, priced for the volume including it. */
  ghost predicate PricedNext(b: Booked, n: Booked, e: Entry) {
    var id := b.state.counter + 1;
    && n.ids == b.ids + [id] && n.state.counter == id && n.state.cfg == b.state.cfg && n.volume == b.volume + e.amount
    && Priced(n.state, id, b.state.cfg.feeConfig, e.amount, n.volume)
    && n.state.remittances == b.state.remittances[id := n.state.remittances[id]]
  }

  lemma BookNextPrices(b: Booked, now: nat, sender: Address, e: Entry)
    requires BookNext(b, now, sender, e).Ok?
    ensures PricedNext(b, BookNext(b, now, sender, e).value, e)
  {
  }

  lemma EarlierPriced(counter: nat, cfg: FS.FeeConfig, b: Booked, n: Booked, entries: seq<Entry>, prior: int,
                      e: Entry, i: nat)
    requires AllPriced(counter, cfg, b, entries, prior) && PricedNext(b, n, e) && i < |entries|
    ensures EntryPriced(counter, cfg, n, entries + [e], prior, i)
  {
    assert (entries + [e])[..i + 1] == entries[..i + 1];
    assert EntryPriced(counter, cfg, b, entries, prior, i);
  }

  lemma LastPriced(counter: nat, cfg: FS.FeeConfig, b: Booked, n: Booked, entries: seq<Entry>, prior: int, e: Entry)
    requires AllPriced(counter, cfg, b, entries, prior) && PricedNext(b, n, e)
    ensures EntryPriced(counter, cfg, n, entries + [e], prior, |entries|)
  {
    TotalSnoc(entries, 0, e);
    assert (entries + [e])[..|entries| + 1] == entries + [e];
  }

  lemma AllPricedNext(counter: nat, cfg: FS.FeeConfig, b: Booked, n: Booked, entries: seq<Entry>, prior: int, e: Entry)
    requires AllPriced(counter, cfg, b, entries, prior) && PricedNext(b, n, e)
    ensures AllPriced(counter, cfg, n, entries + [e], prior)
  {
    TotalSnoc(entries, 0, e);
    forall i | 0 <= i < |entries + [e]|
      ensures EntryPriced(counter, cfg, n, entries + [e], prior, i)
    {
      if i < |entries| {
        EarlierPriced(counter, cfg, b, n, entries, prior, e, i);
      } else {
        LastPriced(counter, cfg, b, n, entries, prior, e);
      }
    }
  }

  lemma {:induction false} BookAllPrices(s: State, now: nat, sender: Address, entries: seq<Entry>, prior: int)
    requires BookAll(s, now, sender, entries, prior).Ok?
    ensures AllPriced(s.counter, s.cfg.feeConfig, BookAll(s, now, sender, entries, prior).value, entries, prior)
  {
    if entries != [] {
      var front, e := entries[..|entries| - 1], entries[|entries| - 1];
      assert entries == front + [e];
      BookAllPrices(s, now, sender, front, prior);
      var before := BookAll(s, now, sender, front, prior).value;
      BookNextPrices(before, now, sender, e);
      AllPricedNext(s.counter, s.cfg.feeConfig, before, BookNext(before, now, sender, e).value, front, prior, e);
    }
  }

  lemma BookedPriced(f: State, now: nat, sender: Address, entries: seq<Entry>, prior: int, s': State, id: nat, i: nat)
    requires BookAll(f, now, sender, entries, prior).Ok? && i < |entries|
    requires var b := BookAll(f, now, sender, entries, prior).value; b.state == s' && i < |b.ids| && b.ids[i] == id
    ensures Priced(s', id, f.cfg.feeConfig, entries[i].amount, prior + Total(entries[..i + 1]))
  {
    BookAllPrices(f, now, sender, entries, prior);
    assert EntryPriced(f.counter, f.cfg.feeConfig, BookAll(f, now, sender, entries, prior).value, entries, prior, i);
  }

  /** Each entry of a batch is priced for the volume up to and including it. */
  lemma BatchEntryPriced(s: State, env: Env, sender: Address, entries: seq<Entry>, s': State, ids: seq<nat>, i: nat)
    requires BatchCreate(s, env, sender, entries) == Ok((s', ids)) && i < |ids| && i < |entries|
    ensures s'.cfg.feeConfig == s.cfg.feeConfig
    ensures Priced(s', ids[i], s.cfg.feeConfig, entries[i].amount, Rolling(s, sender, env.now) + Total(entries[..i + 1]))
  {
    var funded := BatchBooks(s, env, sender, entries);
    BookAllPrices(funded, env.now, sender, entries, Rolling(s, sender, env.now));
    BookedPriced(funded, env.now, sender, entries, Rolling(s, sender, env.now), s', ids[i], i);
  }

  lemma BatchKeepsInv(s: State, env: Env, sender: Address, entries: seq<Entry>, s': State, ids: seq<nat>)
    requires Inv(s) && sender != SELF && BatchCreate(s, env, sender, entries) == Ok((s', ids))
    ensures Inv(s')
  {
    BatchCreateLaw(s, env, sender, entries);
  }

  /** The same of the i-th remittance of a batch: its volume counts the entries before it. */
  lemma BatchRefusedIff(s: State, env: Env, sender: Address, entries: seq<Entry>, s': State, ids: seq<nat>,
                        i: nat, log: seq<Event>, env': Env)
    requires Inv(s) && sender != SELF && BatchCreate(s, env, sender, entries) == Ok((s', ids))
    requires i < |ids| && i < |entries|
    requires AllExternal(log) && Payable(Run(s', log), env', entries[i].agent, ids[i])
    requires Run(s', log).cfg.feeConfig == s.cfg.feeConfig
    ensures RefusedByRates(Run(s', log), env', entries[i].agent, ids[i], entries[i].amount,
                           Rolling(s, sender, env.now) + Total(entries[..i + 1]))
  {
    BatchKeepsInv(s, env, sender, entries, s', ids);
    BatchEntryPriced(s, env, sender, entries, s', ids, i);
    PricedLater(s', log, ids[i], entries[i].amount, Rolling(s, sender, env.now) + Total(entries[..i + 1]),
                env', entries[i].agent);
  }

  // ----- along a route -----

  /** The fee of a strategy, as creation charges it, is not the one that the payout recomputes. */
  predicate ChargesDiffer(cfg: FS.FeeConfig, strategy: FS.FeeStrategy, amount: int, volume: int) {
    amount > 0 && ChargedFee(cfg, strategy, amount, volume) != RecomputedFee(cfg, amount)
  }

  /** Under the global strategy only the two rates can make the difference. */
  lemma GlobalChargesDiffer(cfg: FS.FeeConfig, amount: int, volume: int)
    ensures ChargesDiffer(cfg, cfg.strategy, amount, volume) <==> FeesDiffer(cfg, amount, volume)
  {
  }

  /** The strategy of the route between two countries, if one is configured, or the global one. */
  function RouteStrategy(cfg: Config, from: Option<string>, to: Option<string>): FS.FeeStrategy {
    if from.Some? && to.Some? && (from.value, to.value) in cfg.routes then cfg.routes[(from.value, to.value)].strategy
    else cfg.feeConfig.strategy
  }

  lemma RouteFeeIsCharged(s: State, now: nat, sender: Address, e: Entry, from: Option<string>, to: Option<string>)
    requires RouteFee(s, now, sender, e, from, to).Ok?
    ensures e.amount > 0
    ensures RouteFee(s, now, sender, e, from, to)
         == Ok(ChargedFee(s.cfg.feeConfig, RouteStrategy(s.cfg, from, to), e.amount, Rolling(s, sender, now) + e.amount))
  {
    RouteFeeIs(s.cfg.feeConfig, RouteOf(s, from, to), e.amount, Rolling(s, sender, now));
  }

  lemma RouteStores(s: State, env: Env, sender: Address, e: Entry, from: Option<string>, to: Option<string>,
                    s': State, id: nat)
    requires CreateWithCorridor(s, env, sender, e, from, to) == Ok((s', id))
    ensures id in s'.remittances && s'.remittances[id].amount == e.amount
    ensures RouteFee(s, env.now, sender, e, from, to) == Ok(s'.remittances[id].fee)
  {
    AcceptStored(s, env.now, sender, e, LimitCorridor(to), RouteFee(s, env.now, sender, e, from, to));
  }

  lemma AcceptStored(s: State, now: nat, sender: Address, e: Entry, c: DailyLimit.Corridor, fee: Result<int>)
    requires Accept(s, now, sender, e, c, fee).Ok?
    ensures var (s', id) := Accept(s, now, sender, e, c, fee).value;
            id in s'.remittances && fee == Ok(s'.remittances[id].fee) && s'.remittances[id].amount == e.amount
  {
  }

  /** The pending remittance `id` of this amount carries this fee. */
  ghost predicate ChargedAs(s: State, id: nat, amount: int, fee: int) {
    id in s.remittances && s.remittances[id].amount == amount > 0 && s.remittances[id].fee == fee
  }

  /** The stored fee, whatever strategy it came from, against the recomputed one. */
  lemma ChargedRefusedIff(s: State, env: Env, agent: Address, id: nat, amount: int, fee: int)
    requires Inv(s) && Payable(s, env, agent, id) && ChargedAs(s, id, amount, fee)
    ensures Confirm(s, env, agent, id) == Err(InvalidAmount)
       <==> Payout(s, id).Ok? && fee != RecomputedFee(s.cfg.feeConfig, amount)
  {
    RefusedIff(s, env, agent, id);
    if Payout(s, id).Ok? {
      PayoutFees(s.cfg.feeConfig, amount);
    }
  }

  lemma RouteCharges(s: State, env: Env, sender: Address, e: Entry, from: Option<string>, to: Option<string>,
                     s': State, id: nat)
    requires Inv(s) && sender != SELF && CreateWithCorridor(s, env, sender, e, from, to) == Ok((s', id))
    ensures Inv(s') && e.amount > 0
    ensures ChargedAs(s', id, e.amount, ChargedFee(s.cfg.feeConfig, RouteStrategy(s.cfg, from, to), e.amount,
                                                   Rolling(s, sender, env.now) + e.amount))
  {
    CreateWithCorridorLaw(s, env, sender, e, from, to);
    RouteStores(s, env, sender, e, from, to, s', id);
    RouteFeeIsCharged(s, env.now, sender, e, from, to);
  }

  lemma ChargedLater(s: State, log: seq<Event>, id: nat, amount: int, fee: int, env: Env, agent: Address)
    requires Inv(s) && AllExternal(log) && ChargedAs(s, id, amount, fee) && Payable(Run(s, log), env, agent, id)
    ensures Confirm(Run(s, log), env, agent, id) == Err(InvalidAmount)
       <==> Payout(Run(s, log), id).Ok? && fee != RecomputedFee(Run(s, log).cfg.feeConfig, amount)
  {
    RunInv(s, log);
    StaysPending(s, log, id);
    ChargedRefusedIff(Run(s, log), env, agent, id, amount, fee);
  }

  /**
   A remittance created along a route, in any state that a later run reaches from there: its payout is
   refused as an invalid amount exactly when the fee of the route's strategy, with the token's rate and
   the discount where that goes by rate, is not the fee of the global strategy.
   */
  lemma RouteRefusedIff(s: State, env: Env, sender: Address, e: Entry, from: Option<string>, to: Option<string>,
                        s': State, id: nat, log: seq<Event>, env': Env)
    requires Inv(s) && sender != SELF && CreateWithCorridor(s, env, sender, e, from, to) == Ok((s', id))
    requires AllExternal(log) && Payable(Run(s', log), env', e.agent, id)
    requires Run(s', log).cfg.feeConfig == s.cfg.feeConfig
    ensures Confirm(Run(s', log), env', e.agent, id) == Err(InvalidAmount)
       <==> && Payout(Run(s', log), id).Ok?
            && ChargesDiffer(s.cfg.feeConfig, RouteStrategy(s.cfg, from, to), e.amount,
                             Rolling(s, sender, env.now) + e.amount)
  {
    RouteCharges(s, env, sender, e, from, to, s', id);
    var fee := ChargedFee(s.cfg.feeConfig, RouteStrategy(s.cfg, from, to), e.amount,
                          Rolling(s, sender, env.now) + e.amount);
    ChargedLater(s', log, id, e.amount, fee, env', e.agent);
  }
}
