/** Exactly when a batch can be settled. */
module SettlementSuccess {
  import opened Common
  import opened Types
  import opened Sums
  import opened Ledger
  import opened LedgerLaws
  import opened LedgerRuns
  import opened BatchSettlement
  import opened Netting
  import opened NettingLaws
  import opened NettingOrders

  /** What every pair is left with after netting covers its fees; so no pair is offset completely. */
  ghost predicate EveryPairPays(fs: seq<Flow>) {
    forall k | k in Pairs(fs) :: Abs(Net(fs, k)) >= Fees(fs, k)
  }

  /** Every sum that netting, validation and the running fee total form fits an i128. */
  ghost predicate SettlementFits(s: State, rs: seq<Remittance>) {
    var ts := NetTransfers(PendingFlows(rs));
    && AccumulationFits(PendingFlows(rs)) && ValidationFits(rs, ts)
    && InI128(s.fees + SumBy(ts, TransferFees()))
  }

  // ----- paying the net transfers -----

  function PayoutWeight(): NetTransfer -> int {
    (t: NetTransfer) => PayoutAmount(t)
  }

  /** A transfer that can be paid: its amount covers its fees. */
  predicate Pays(t: NetTransfer) {
    t.netAmount != 0 && Abs(t.netAmount) <= I128_MAX && 0 <= t.totalFees <= Abs(t.netAmount)
  }

  lemma PayoutSum(ts: seq<NetTransfer>)
    ensures SumBy(ts, TransferVolume()) == SumBy(ts, PayoutWeight()) + SumBy(ts, TransferFees())
  {
    SumByPlus(ts, PayoutWeight(), TransferFees(), TransferVolume());
  }

  lemma PayNetSucceeds(s: State, t: NetTransfer, fees: int)
    requires Pays(t) && PayoutAmount(t) <= Held(s) && 0 <= fees && fees + t.totalFees <= I128_MAX
    ensures PayNet(s, t, fees).Ok?
  {
    PayCovered(s, Payee(t), PayoutAmount(t));
  }

  lemma {:induction false} PayNetsSucceed(s: State, ts: seq<NetTransfer>)
    requires 0 <= s.fees && forall t | t in ts :: Pays(t)
    requires SumBy(ts, PayoutWeight()) <= Held(s) && s.fees + SumBy(ts, TransferFees()) <= I128_MAX
    ensures PayNets(s, ts).Ok?
  {
    if ts != [] {
      var front, t := ts[..|ts| - 1], ts[|ts| - 1];
      assert t in ts && forall u | u in front :: u in ts;
      PayNetsSucceed(s, front);
      PaidSoFar(s, front);
      PayNetSucceeds(PayNets(s, front).value.0, t, PayNets(s, front).value.1);
    }
  }

  lemma PaidSoFar(s: State, ts: seq<NetTransfer>)
    requires 0 <= s.fees && (forall t | t in ts :: Pays(t)) && PayNets(s, ts).Ok?
    ensures Held(PayNets(s, ts).value.0) >= Held(s) - SumBy(ts, PayoutWeight())
    ensures PayNets(s, ts).value.1 == s.fees + SumBy(ts, TransferFees()) >= 0
  {
    PayNetsLaw(s, ts);
    PayoutSum(ts);
    SumByNonNegative(ts, KeptWeight());
    SumByNonNegative(ts, TransferFees());
  }

  /** A payment with a negative amount aborts, so whatever was paid covered its fees. */
  lemma {:induction false} PaidTransfersPay(s: State, ts: seq<NetTransfer>)
    requires PayNets(s, ts).Ok?
    ensures forall t | t in ts && t.netAmount != 0 :: Abs(t.netAmount) >= t.totalFees
    ensures InI128(s.fees) ==> InI128(PayNets(s, ts).value.1)
  {
    if ts != [] {
      PaidTransfersPay(s, ts[..|ts| - 1]);
      assert ts == ts[..|ts| - 1] + [ts[|ts| - 1]];
    }
  }

  lemma StoreFeesSucceeds(s: State, total: int)
    requires 0 <= total <= Held(s)
    ensures StoreFees(s, total).Ok?
  {
    PayCovered(s, s.cfg.treasury, total);
  }

  lemma {:induction false} SettleAllSucceeds(s: State, rs: seq<Remittance>)
    requires forall r | r in rs :: InI128(r.amount - r.fee)
    ensures SettleAll(s, rs).Ok?
  {
    if rs != [] {
      assert rs[|rs| - 1] in rs && forall r | r in rs[..|rs| - 1] :: r in rs;
      SettleAllSucceeds(s, rs[..|rs| - 1]);
    }
  }

  // ----- the tokens are there -----

  /** Different ids contribute at most the sum over all of them. */
  lemma {:induction false} SumDistinct(ids: seq<nat>, n: nat, w: nat -> int)
    requires Distinct(ids) && forall id | id in ids :: 1 <= id <= n
    requires forall k: nat | 1 <= k <= n :: w(k) >= 0
    ensures SumBy(ids, w) <= SumIds(n, w)
  {
    if ids == [] {
      SumIdsAtLeast(n, w);
    } else {
      var front, last := ids[..|ids| - 1], ids[|ids| - 1];
      var others := (k: nat) => if k == last then 0 else w(k);
      assert last in ids && forall id | id in front :: id in ids && id != last;
      SumDistinct(front, n, others);
      SumByAgree(front, w, others);
      SumIdsPoint(n, last, w, others);
    }
  }

  lemma {:induction false} LoadedOwed(s: State, ids: seq<nat>, rs: seq<Remittance>)
    requires Inv(s) && Loaded(s, ids, rs)
    ensures SumBy(rs, OfPending(AmountWeight())) == SumBy(ids, OwedWeight(s.remittances, s.disbursed))
    decreases |rs|
  {
    if rs != [] {
      var id, r := ids[|ids| - 1], rs[|rs| - 1];
      LoadedPrefix(s, ids, rs);
      LoadedOwed(s, ids[..|ids| - 1], rs[..|rs| - 1]);
      assert RecordOk(r, id, Disbursed(s.disbursed, id), id in s.settled);
      PendingAmount(r);
    }
  }

  /** In a solvent state the loaded amounts and the accumulated fees are there. */
  lemma LoadedCovered(s: State, ids: seq<nat>, rs: seq<Remittance>)
    requires Covered(s) && Loaded(s, ids, rs)
    ensures SumBy(PendingFlows(rs), AmountWeight()) + s.fees <= Held(s)
  {
    var owed := OwedWeight(s.remittances, s.disbursed);
    forall id | id in ids
      ensures 1 <= id <= s.counter
    {
      var i :| 0 <= i < |ids| && ids[i] == id;
      assert id in s.remittances;
    }
    forall k: nat | 1 <= k <= s.counter
      ensures owed(k) >= 0
    {
      if k in s.remittances {
        assert RecordOk(s.remittances[k], k, Disbursed(s.disbursed, k), k in s.settled);
      }
    }
    SumDistinct(ids, s.counter, owed);
    LoadedOwed(s, ids, rs);
    PendingSum(rs, AmountWeight());
    SumIdsAtLeast(s.escrowCounter, EscrowedWeight(s.escrows));
  }

  // ----- what every pair left with enough means -----

  predicate PositiveFlows(fs: seq<Flow>) {
    forall f | f in fs :: f.amount > 0 && f.fee >= 1
  }

  lemma NothingDropped(fs: seq<Flow>)
    requires PositiveFlows(fs) && EveryPairPays(fs)
    ensures DroppedFees(fs) == 0
  {
    forall f | f in fs
      ensures DroppedWeight(fs)(f) == 0
    {
      var k := PairOf(f);
      assert k in Pairs(fs);
      TermAtMostSum(fs, f, Within(FeeWeight(), k));
    }
    SumByZero(fs, DroppedWeight(fs));
  }

  lemma TransfersPay(fs: seq<Flow>)
    requires PositiveFlows(fs) && EveryPairPays(fs)
    requires SumBy(NetTransfers(fs), TransferVolume()) <= I128_MAX
    ensures forall t | t in NetTransfers(fs) :: Pays(t)
  {
    var ts := NetTransfers(fs);
    TransfersExact(fs);
    TransfersOfPairs(fs);
    forall t | t in ts
      ensures Pays(t)
    {
      TermAtMostSum(ts, t, TransferVolume());
      FeesNonNegative(fs, t.pair);
    }
  }

  lemma TransfersOfPairs(fs: seq<Flow>)
    ensures forall t | t in NetTransfers(fs) :: t.pair in Pairs(fs)
  {
    EmitExact(SortedKeys(Pairs(fs)), fs);
  }

  lemma LoadedFlows(s: State, ids: seq<nat>, rs: seq<Remittance>)
    requires Inv(s) && Loaded(s, ids, rs)
    ensures PositiveFlows(PendingFlows(rs))
  {
    LoadedFees(s, ids, rs);
    FlowsAreRemittances(rs);
    forall f | f in PendingFlows(rs)
      ensures f.amount > 0 && f.fee >= 1
    {
      var r :| r in rs && f == FlowOf(r);
    }
  }

  // ----- settlement succeeds -----

  /** The steps of a settlement of the loaded batch `rs`. */
  ghost predicate StepsSucceed(s: State, rs: seq<Remittance>) {
    var ts := NetTransfers(PendingFlows(rs));
    && Validation(rs, ts).Ok? && PayNets(s, ts).Ok?
    && var (paid, total) := PayNets(s, ts).value;
       StoreFees(paid, total).Ok? && SettleAll(StoreFees(paid, total).value, rs).Ok?
  }

  lemma BatchSettleSteps(s: State, env: Env, ids: seq<nat>)
    ensures BatchSettle(s, env, ids).Ok?
       <==> && !s.cfg.paused && 1 <= |ids| <= MAX_BATCH_SIZE && LoadBatch(s, env.now, ids).Ok?
            && var rs := LoadBatch(s, env.now, ids).value;
               |rs| <= MAX_NETTING_BATCH_SIZE && AccumulationFits(PendingFlows(rs)) && StepsSucceed(s, rs)
  {
  }

  lemma PaymentsSucceed(s: State, ids: seq<nat>, rs: seq<Remittance>)
    requires Covered(s) && Loaded(s, ids, rs) && EveryPairPays(PendingFlows(rs))
    requires var ts := NetTransfers(PendingFlows(rs));
             SumBy(ts, TransferVolume()) <= I128_MAX && s.fees + SumBy(ts, TransferFees()) <= I128_MAX
    ensures var ts := NetTransfers(PendingFlows(rs));
            && PayNets(s, ts).Ok?
            && StoreFees(PayNets(s, ts).value.0, PayNets(s, ts).value.1).Ok?
  {
    var fs, ts := PendingFlows(rs), NetTransfers(PendingFlows(rs));
    LoadedFlows(s, ids, rs);
    LoadedCovered(s, ids, rs);
    TransfersPay(fs);
    VolumeNeverGrows(fs);
    PayoutSum(ts);
    SumByNonNegative(ts, TransferFees());
    PayNetsSucceed(s, ts);
    PaidSoFar(s, ts);
    StoreFeesSucceeds(PayNets(s, ts).value.0, PayNets(s, ts).value.1);
  }

  lemma AmountLessFeeFits(s: State, ids: seq<nat>, rs: seq<Remittance>)
    requires Inv(s) && Loaded(s, ids, rs) && ValidationFits(rs, NetTransfers(PendingFlows(rs)))
    ensures forall r | r in rs :: InI128(r.amount - r.fee)
  {
    LoadedFees(s, ids, rs);
    WholeFits(rs, OfPending(AmountWeight()));
    WholeFits(rs, OfPending(FeeWeight()));
    forall r | r in rs
      ensures 0 <= OfPending(AmountWeight())(r) && 0 <= OfPending(FeeWeight())(r)
    {
      assert AmountWeight()(FlowOf(r)) == r.amount && FeeWeight()(FlowOf(r)) == r.fee;
    }
    forall r | r in rs
      ensures InI128(r.amount - r.fee)
    {
      var i :| 0 <= i < |rs| && rs[i] == r;
      assert AmountWeight()(FlowOf(r)) == r.amount && FeeWeight()(FlowOf(r)) == r.fee;
      TermAtMostSum(rs, r, OfPending(AmountWeight()));
      TermAtMostSum(rs, r, OfPending(FeeWeight()));
    }
  }

  lemma StepsSucceedIfPairsPay(s: State, ids: seq<nat>, rs: seq<Remittance>)
    requires Covered(s) && Loaded(s, ids, rs) && SettlementFits(s, rs) && EveryPairPays(PendingFlows(rs))
    ensures StepsSucceed(s, rs)
  {
    var ts := NetTransfers(PendingFlows(rs));
    LoadedFlows(s, ids, rs);
    NothingDropped(PendingFlows(rs));
    ValidationExact(rs);
    WholeFits(ts, TransferVolume());
    PaymentsSucceed(s, ids, rs);
    AmountLessFeeFits(s, ids, rs);
    SettleAllSucceeds(StoreFees(PayNets(s, ts).value.0, PayNets(s, ts).value.1).value, rs);
  }

  lemma PairsPayIfStepsSucceed(s: State, ids: seq<nat>, rs: seq<Remittance>)
    requires Inv(s) && Loaded(s, ids, rs) && AccumulationFits(PendingFlows(rs)) && StepsSucceed(s, rs)
    ensures SettlementFits(s, rs) && EveryPairPays(PendingFlows(rs))
  {
    var fs, ts := PendingFlows(rs), NetTransfers(PendingFlows(rs));
    LoadedFees(s, ids, rs);
    ValidationMeaning(rs, ts);
    TransfersExact(fs);
    PaidTransfersPay(s, ts);
    PayNetsLaw(s, ts);
    forall k | k in Pairs(fs)
      ensures Abs(Net(fs, k)) >= Fees(fs, k)
    {
      if Net(fs, k) == 0 {
        OffsetFailsValidation(rs, k);
      } else {
        assert NetTransfer(k, Net(fs, k), Fees(fs, k)) in ts;
      }
    }
  }

  /**
   In a solvent state a batch is settled exactly when the contract is not paused, the batch has 1 to 50
   ids and loads, every sum fits, and what each pair is left with after netting covers the pair's fees.
   */
  lemma BatchSettlesIff(s: State, env: Env, ids: seq<nat>)
    requires Covered(s)
    ensures BatchSettle(s, env, ids).Ok?
       <==> && !s.cfg.paused && 1 <= |ids| <= MAX_NETTING_BATCH_SIZE && LoadBatch(s, env.now, ids).Ok?
            && var rs := LoadBatch(s, env.now, ids).value;
               SettlementFits(s, rs) && EveryPairPays(PendingFlows(rs))
  {
    BatchSettleSteps(s, env, ids);
    if LoadBatch(s, env.now, ids).Ok? {
      var rs := LoadBatch(s, env.now, ids).value;
      LoadBatchLaw(s, env.now, ids);
      if SettlementFits(s, rs) && EveryPairPays(PendingFlows(rs)) {
        StepsSucceedIfPairsPay(s, ids, rs);
      }
      if AccumulationFits(PendingFlows(rs)) && StepsSucceed(s, rs) {
        PairsPayIfStepsSucceed(s, ids, rs);
      }
    }
  }

  // ----- within an i128 balance the sums need no mention -----

  lemma FeesWithinVolume(fs: seq<Flow>)
    requires PositiveFlows(fs) && EveryPairPays(fs)
    ensures SumBy(fs, FeeWeight()) == SumBy(NetTransfers(fs), TransferFees())
            <= SumBy(NetTransfers(fs), TransferVolume()) <= SumBy(fs, AmountWeight())
  {
    var ts := NetTransfers(fs);
    NothingDropped(fs);
    FeesAccounted(fs);
    VolumeNeverGrows(fs);
    TransfersExact(fs);
    TransfersOfPairs(fs);
    SumByAtMost(ts, TransferFees(), TransferVolume());
  }

  lemma SumsOfLoadedFit(s: State, ids: seq<nat>, rs: seq<Remittance>)
    requires Covered(s) && Held(s) <= I128_MAX && Loaded(s, ids, rs) && EveryPairPays(PendingFlows(rs))
    ensures SettlementFits(s, rs)
  {
    var fs := PendingFlows(rs);
    LoadedFlows(s, ids, rs);
    LoadedCovered(s, ids, rs);
    FeesWithinVolume(fs);
    forall k | k in Pairs(fs)
      ensures PairFits(fs, k)
    {
      TotalsCoverPairs(fs, k);
    }
    PairsFit(fs);
    NetsFit(fs);
    OriginalSumsFit(s, ids, rs);
    SumByNonNegative(fs, FeeWeight());
  }

  lemma OriginalSumsFit(s: State, ids: seq<nat>, rs: seq<Remittance>)
    requires Inv(s) && Loaded(s, ids, rs)
    requires SumBy(PendingFlows(rs), AmountWeight()) <= I128_MAX && SumBy(PendingFlows(rs), FeeWeight()) <= I128_MAX
    ensures SumsFit(rs, OfPending(AmountWeight())) && SumsFit(rs, OfPending(FeeWeight()))
  {
    LoadedFees(s, ids, rs);
    forall r | r in rs
      ensures 0 <= OfPending(AmountWeight())(r) && 0 <= OfPending(FeeWeight())(r)
    {
      assert AmountWeight()(FlowOf(r)) == r.amount && FeeWeight()(FlowOf(r)) == r.fee;
    }
    PendingSum(rs, AmountWeight());
    PendingSum(rs, FeeWeight());
    NonNegativeFits(rs, OfPending(AmountWeight()));
    NonNegativeFits(rs, OfPending(FeeWeight()));
  }

  /** With a balance that the token can represent, a loaded batch is settled exactly when every pair pays its fees. */
  lemma BatchSettlesIffPairsPay(s: State, env: Env, ids: seq<nat>)
    requires Covered(s) && Held(s) <= I128_MAX
    ensures BatchSettle(s, env, ids).Ok?
       <==> && !s.cfg.paused && 1 <= |ids| <= MAX_NETTING_BATCH_SIZE && LoadBatch(s, env.now, ids).Ok?
            && EveryPairPays(PendingFlows(LoadBatch(s, env.now, ids).value))
  {
    BatchSettlesIff(s, env, ids);
    if LoadBatch(s, env.now, ids).Ok? && EveryPairPays(PendingFlows(LoadBatch(s, env.now, ids).value)) {
      LoadBatchLaw(s, env.now, ids);
      SumsOfLoadedFit(s, ids, LoadBatch(s, env.now, ids).value);
    }
  }

  // ----- and no order of a loaded batch overflows -----

  /** With fees bounded by their amounts, a loaded batch can be accumulated in any order. */
  lemma LoadedInAnyOrder(s: State, ids: seq<nat>, rs: seq<Remittance>, rs': seq<Remittance>)
    requires Covered(s) && Held(s) <= I128_MAX && Loaded(s, ids, rs) && multiset(rs) == multiset(rs')
    requires forall r | r in rs :: r.fee <= r.amount
    ensures AllOrdersFit(PendingFlows(rs)) && AccumulationFits(PendingFlows(rs'))
  {
    var fs := PendingFlows(rs);
    LoadedFlows(s, ids, rs);
    LoadedCovered(s, ids, rs);
    FlowsAreRemittances(rs);
    forall f | f in fs
      ensures FeeWeight()(f) <= AmountWeight()(f)
    {
      var r :| r in rs && f == FlowOf(r);
    }
    SumByAtMost(fs, FeeWeight(), AmountWeight());
    forall k | k in Pairs(fs)
      ensures PairFits(fs, k)
    {
      TotalsCoverPairs(fs, k);
    }
    AllOrdersFitIff(fs);
    FlowsPermute(rs, rs');
  }
}
