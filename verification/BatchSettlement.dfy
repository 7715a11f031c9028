/** What batch settlement with netting does to the ledger. */
module BatchSettlement {
  import opened Common
  import opened Types
  import opened Sums
  import opened Ledger
  import opened LedgerLaws
  import opened Netting
  import opened NettingLaws
  import FeeService

  /** `rs` are the records of `ids`: pending, unsettled, all different. */
  ghost predicate Loaded(s: State, ids: seq<nat>, rs: seq<Remittance>) {
    && |rs| == |ids| && Distinct(ids)
    && forall i | 0 <= i < |rs| ::
         ids[i] in s.remittances && rs[i] == s.remittances[ids[i]] && rs[i].status.Pending? && rs[i].id == ids[i]
  }

  lemma LoadedExtends(s: State, ids: seq<nat>, rs: seq<Remittance>, id: nat)
    requires Loaded(s, ids, rs) && id !in ids && id in s.remittances
    requires s.remittances[id].status.Pending? && s.remittances[id].id == id
    ensures Loaded(s, ids + [id], rs + [s.remittances[id]])
  {
    assert forall i | 0 <= i < |ids| :: ids[i] in ids;
  }

  lemma LoadedPrefix(s: State, ids: seq<nat>, rs: seq<Remittance>)
    requires Loaded(s, ids, rs) && rs != []
    ensures Loaded(s, ids[..|ids| - 1], rs[..|rs| - 1])
    ensures ids[|ids| - 1] !in ids[..|ids| - 1]
  {
    var front := ids[..|ids| - 1];
    assert forall i | 0 <= i < |front| :: front[i] == ids[i] != ids[|ids| - 1];
  }

  lemma {:induction false} LoadBatchLaw(s: State, now: nat, ids: seq<nat>)
    requires Inv(s) && LoadBatch(s, now, ids).Ok?
    ensures Loaded(s, ids, LoadBatch(s, now, ids).value)
  {
    if ids != [] {
      var front, id := ids[..|ids| - 1], ids[|ids| - 1];
      LoadBatchLaw(s, now, front);
      LoadedExtends(s, front, LoadBatch(s, now, front).value, id);
      assert ids == front + [id];
    }
  }

  /** Pending, not settled, and without an expiry that has passed. */
  predicate Settleable(s: State, now: nat, id: nat) {
    && id in s.remittances && s.remittances[id].status.Pending? && id !in s.settled
    && (s.remittances[id].expiry.Some? ==> now <= s.remittances[id].expiry.value)
  }

  lemma DistinctIff(front: seq<nat>, id: nat)
    ensures Distinct(front + [id]) <==> Distinct(front) && id !in front
  {
    var ids := front + [id];
    if Distinct(ids) {
      assert forall i, j | 0 <= i < j < |front| :: front[i] == ids[i] != ids[j] == front[j];
      forall i | 0 <= i < |front|
        ensures front[i] != id
      {
        assert ids[i] != ids[|front|];
      }
    }
  }

  /** A batch loads exactly when its ids are all different and all settleable. */
  lemma {:induction false} LoadsIff(s: State, now: nat, ids: seq<nat>)
    ensures LoadBatch(s, now, ids).Ok? <==> Distinct(ids) && forall id | id in ids :: Settleable(s, now, id)
  {
    if ids != [] {
      var front, id := ids[..|ids| - 1], ids[|ids| - 1];
      LoadsIff(s, now, front);
      DistinctIff(front, id);
      assert ids == front + [id];
      assert LoadBatch(s, now, ids).Ok? <==> LoadBatch(s, now, front).Ok? && id !in front && Settleable(s, now, id);
    }
  }

  /** Nothing stops the k-th id but its expiry, which has passed. */
  predicate StoppedByExpiry(s: State, now: nat, ids: seq<nat>, k: nat)
    requires k < |ids|
  {
    && LoadBatch(s, now, ids[..k]).Ok? && ids[k] !in ids[..k]
    && ids[k] in s.remittances && s.remittances[ids[k]].status.Pending? && ids[k] !in s.settled
    && s.remittances[ids[k]].expiry.Some? && s.remittances[ids[k]].expiry.value < now
  }

  /** A batch is refused as expired exactly when the first id that stops it is past its expiry. */
  lemma {:induction false} ExpiredBatchIff(s: State, now: nat, ids: seq<nat>)
    ensures LoadBatch(s, now, ids) == Err(SettlementExpired)
       <==> exists k | 0 <= k < |ids| :: StoppedByExpiry(s, now, ids, k)
  {
    if ids != [] {
      var front, n := ids[..|ids| - 1], |ids| - 1;
      ExpiredBatchIff(s, now, front);
      assert ids[..n] == front;
      forall k | 0 <= k < n
        ensures StoppedByExpiry(s, now, ids, k) <==> StoppedByExpiry(s, now, front, k)
      {
        assert ids[..k] == front[..k];
      }
      assert LoadBatch(s, now, front).Ok? && LoadBatch(s, now, ids) == Err(SettlementExpired) ==>
          StoppedByExpiry(s, now, ids, n);
      if k :| 0 <= k < |ids| && StoppedByExpiry(s, now, ids, k) {
        assert k < n ==> StoppedByExpiry(s, now, front, k);
      }
      if LoadBatch(s, now, front).Err? && LoadBatch(s, now, ids) == Err(SettlementExpired) {
        var k :| 0 <= k < n && StoppedByExpiry(s, now, front, k);
        assert StoppedByExpiry(s, now, ids, k);
      }
    }
  }

  lemma {:induction false} IdsAre(s: State, ids: seq<nat>, rs: seq<Remittance>)
    requires Loaded(s, ids, rs)
    ensures Ids(rs) == ids
    decreases |rs|
  {
    if rs != [] {
      LoadedPrefix(s, ids, rs);
      IdsAre(s, ids[..|ids| - 1], rs[..|rs| - 1]);
    }
  }

  function PayoutAmount(t: NetTransfer): int {
    Abs(t.netAmount) - t.totalFees
  }

  function KeptWeight(): NetTransfer -> int {
    (t: NetTransfer) => if t.netAmount == 0 then 0 else Kept(Payee(t), PayoutAmount(t))
  }

  /** What a net transfer pays to `p`. */
  function PaidWeight(p: Address): NetTransfer -> int {
    (t: NetTransfer) => if t.netAmount != 0 && Payee(t) == p then PayoutAmount(t) else 0
  }

  lemma PayNetLaw(s: State, t: NetTransfer, fees: int)
    requires t.netAmount != 0 && PayNet(s, t, fees).Ok?
    ensures var (s', total) := PayNet(s, t, fees).value;
            && OnlyBalances(s, s') && total == fees + t.totalFees
            && Held(s') == Held(s) - PayoutAmount(t) + Kept(Payee(t), PayoutAmount(t))
  {
    PayLaw(s, Payee(t), PayoutAmount(t));
  }

  /** A transfer is paid if its amount, which cannot be negated at the least i128, covers its fees and is there. */
  lemma PayNetIff(s: State, t: NetTransfer, fees: int)
    requires t.netAmount != 0
    ensures PayNet(s, t, fees).Ok?
       <==> && t.netAmount != I128_MIN && InI128(PayoutAmount(t)) && 0 <= PayoutAmount(t) <= Held(s)
            && InI128(fees + t.totalFees)
  {
  }

  /** Paying the net transfers out and adding up their fees. */
  lemma {:induction false} PayNetsLaw(s: State, ts: seq<NetTransfer>)
    requires PayNets(s, ts).Ok? && forall t | t in ts :: t.netAmount != 0
    ensures var (s', total) := PayNets(s, ts).value;
            && OnlyBalances(s, s')
            && total == s.fees + SumBy(ts, TransferFees())
            && Held(s') - total == Held(s) - s.fees - SumBy(ts, TransferVolume()) + SumBy(ts, KeptWeight())
  {
    if ts != [] {
      var front, t := ts[..|ts| - 1], ts[|ts| - 1];
      assert t in ts && forall u | u in front :: u in ts;
      PayNetsLaw(s, front);
      PayNetLaw(PayNets(s, front).value.0, t, PayNets(s, front).value.1);
    }
  }

  /** Everybody but the contract receives exactly the payouts addressed to them. */
  lemma {:induction false} PayNetsBalances(s: State, ts: seq<NetTransfer>, p: Address)
    requires PayNets(s, ts).Ok? && p != SELF
    ensures Balance(PayNets(s, ts).value.0.balances, p) == Balance(s.balances, p) + SumBy(ts, PaidWeight(p))
  {
    if ts != [] {
      PayNetsBalances(s, ts[..|ts| - 1], p);
    }
  }

  lemma StoreFeesLaw(s: State, total: int)
    requires total >= 0 && StoreFees(s, total).Ok?
    ensures var s' := StoreFees(s, total).value;
            && s' == s.(balances := s'.balances, fees := s'.fees) && 0 <= s'.fees <= MAX_FEES
            && Held(s') - s'.fees == Held(s) - total + if total > MAX_FEES then Kept(s.cfg.treasury, total) else 0
  {
    if total > MAX_FEES {
      PayLaw(s, s.cfg.treasury, total);
    }
  }

  lemma MarkSettledLaw(s: State, r: Remittance)
    requires Inv(s) && r.id in s.remittances && s.remittances[r.id] == r && r.status.Pending?
    ensures Effect(s, MarkSettled(s, r), r.amount)
  {
    OneRecord(s, MarkSettled(s, r), r.id, r.(status := Completed), 0);
  }

  lemma SettledNext(s: State, before: State, front: seq<nat>, last: nat, id: nat)
    requires id in s.remittances && last in s.remittances && last !in front && s.remittances[last].id == last
    requires id in before.remittances
    requires before.remittances[id] == if id in front then s.remittances[id].(status := Completed) else s.remittances[id]
    ensures var s' := MarkSettled(before, s.remittances[last]);
            && id in s'.remittances
            && s'.remittances[id] ==
               if id in front + [last] then s.remittances[id].(status := Completed) else s.remittances[id]
  {
  }

  /** Exactly the loaded records are completed. */
  lemma {:induction false} SettleAllRecords(s: State, ids: seq<nat>, rs: seq<Remittance>, id: nat)
    requires Loaded(s, ids, rs) && SettleAll(s, rs).Ok? && id in s.remittances
    ensures id in SettleAll(s, rs).value.remittances
    ensures SettleAll(s, rs).value.remittances[id]
         == if id in ids then s.remittances[id].(status := Completed) else s.remittances[id]
    decreases |rs|
  {
    if rs != [] {
      var front, last := ids[..|ids| - 1], ids[|ids| - 1];
      LoadedPrefix(s, ids, rs);
      SettleAllRecords(s, front, rs[..|rs| - 1], id);
      SettledNext(s, SettleAll(s, rs[..|rs| - 1]).value, front, last, id);
      assert ids == front + [last];
    }
  }

  lemma PendingAmount(r: Remittance)
    requires r.status.Pending?
    ensures OfPending(AmountWeight())(r) == r.amount
  {
    assert AmountWeight()(FlowOf(r)) == r.amount;
  }

  lemma {:induction false} SettleAllLaw(s: State, ids: seq<nat>, rs: seq<Remittance>)
    requires Inv(s) && Loaded(s, ids, rs) && SettleAll(s, rs).Ok?
    ensures Effect(s, SettleAll(s, rs).value, SumBy(rs, OfPending(AmountWeight())))
    decreases |rs|
  {
    if rs != [] {
      var front, r := rs[..|rs| - 1], rs[|rs| - 1];
      LoadedPrefix(s, ids, rs);
      SettleAllLaw(s, ids[..|ids| - 1], front);
      SettleAllRecords(s, ids[..|ids| - 1], front, r.id);
      var before := SettleAll(s, front).value;
      assert SettleAll(s, rs) == Ok(MarkSettled(before, r));
      MarkSettledLaw(before, r);
      PendingAmount(r);
      EffectThen(s, before, MarkSettled(before, r), SumBy(front, OfPending(AmountWeight())), r.amount);
    }
  }

  /** Money the contract keeps from a settled batch: offset amounts, and payments to itself. */
  ghost function SettlementGain(s: State, rs: seq<Remittance>): int {
    var fs := PendingFlows(rs);
    var ts := NetTransfers(fs);
    var total := s.fees + SumBy(ts, TransferFees());
    SumBy(fs, AmountWeight()) - SumBy(ts, TransferVolume()) + SumBy(ts, KeptWeight())
    + if total > MAX_FEES then Kept(s.cfg.treasury, total) else 0
  }

  lemma NetsNonZero(rs: seq<Remittance>)
    requires forall r | r in rs :: r.fee >= 0
    ensures forall t | t in NetTransfers(PendingFlows(rs)) :: t.netAmount != 0
    ensures SumBy(NetTransfers(PendingFlows(rs)), TransferFees()) >= 0
  {
    var fs := PendingFlows(rs);
    FlowsAreRemittances(rs);
    forall f | f in fs
      ensures f.fee >= 0
    {
      var r :| r in rs && f == FlowOf(r);
    }
    TransfersExact(fs);
    forall t | t in NetTransfers(fs)
      ensures TransferFees()(t) >= 0
    {
      FeesNonNegative(fs, t.pair);
    }
    SumByNonNegative(NetTransfers(fs), TransferFees());
  }

  lemma LoadedFees(s: State, ids: seq<nat>, rs: seq<Remittance>)
    requires Inv(s) && Loaded(s, ids, rs)
    ensures forall r | r in rs :: r.fee >= FeeService.MIN_FEE && r.amount > 0
  {
    forall r | r in rs
      ensures r.fee >= FeeService.MIN_FEE && r.amount > 0
    {
      var i :| 0 <= i < |rs| && rs[i] == r;
      assert RecordOk(r, ids[i], Disbursed(s.disbursed, ids[i]), ids[i] in s.settled);
    }
  }

  /** Payments and fees of a settlement, before the records are touched. */
  lemma SettlementMoney(s: State, rs: seq<Remittance>, paid: State, total: int, charged: State)
    requires Inv(s) && forall r | r in rs :: r.fee >= 0
    requires PayNets(s, NetTransfers(PendingFlows(rs))) == Ok((paid, total)) && StoreFees(paid, total) == Ok(charged)
    ensures charged == s.(balances := charged.balances, fees := charged.fees)
    ensures Effect(s, charged, SettlementGain(s, rs) - SumBy(PendingFlows(rs), AmountWeight()))
  {
    NetsNonZero(rs);
    PayNetsLaw(s, NetTransfers(PendingFlows(rs)));
    StoreFeesLaw(paid, total);
  }

  lemma BatchSettleLaw(s: State, env: Env, ids: seq<nat>)
    requires Inv(s) && BatchSettle(s, env, ids).Ok?
    ensures LoadBatch(s, env.now, ids).Ok?
    ensures Effect(s, BatchSettle(s, env, ids).value.0, SettlementGain(s, LoadBatch(s, env.now, ids).value))
  {
    var rs := LoadBatch(s, env.now, ids).value;
    var (paid, total) := PayNets(s, NetTransfers(PendingFlows(rs))).value;
    var charged := StoreFees(paid, total).value;
    LoadBatchLaw(s, env.now, ids);
    LoadedFees(s, ids, rs);
    SettlementMoney(s, rs, paid, total, charged);
    assert Loaded(charged, ids, rs);
    SettleAllLaw(charged, ids, rs);
    PendingSum(rs, AmountWeight());
    var amounts := SumBy(rs, OfPending(AmountWeight()));
    EffectThen(s, charged, SettleAll(charged, rs).value, SettlementGain(s, rs) - amounts, amounts);
  }

  lemma SomethingDropped(fs: seq<Flow>, f: Flow)
    requires f in fs && Net(fs, PairOf(f)) == 0 && forall g | g in fs :: g.fee >= 1
    ensures DroppedFees(fs) >= 1
  {
    var j :| 0 <= j < |fs| && fs[j] == f;
    var rest := fs[..j] + fs[j + 1..];
    SumByRemove(fs, j, DroppedWeight(fs));
    assert forall g | g in rest :: g in fs;
    SumByNonNegative(rest, DroppedWeight(fs));
  }

  /**
   A batch in which two parties' flows offset each other completely can never be settled: no
   transfer carries those fees, every stored fee is at least one stroop, and validation compares
   the fee totals.
   */
  lemma FullOffsetRefused(s: State, env: Env, ids: seq<nat>, k: Pair)
    requires Inv(s) && LoadBatch(s, env.now, ids).Ok?
    requires var fs := PendingFlows(LoadBatch(s, env.now, ids).value);
             k in Pairs(fs) && Net(fs, k) == 0
    ensures BatchSettle(s, env, ids).Err?
  {
    var rs := LoadBatch(s, env.now, ids).value;
    LoadBatchLaw(s, env.now, ids);
    LoadedFees(s, ids, rs);
    OffsetFailsValidation(rs, k);
  }

  lemma OffsetFailsValidation(rs: seq<Remittance>, k: Pair)
    requires k in Pairs(PendingFlows(rs)) && Net(PendingFlows(rs), k) == 0
    requires forall r | r in rs :: r.fee >= 1
    ensures Validation(rs, NetTransfers(PendingFlows(rs))).Err?
  {
    var fs := PendingFlows(rs);
    FlowsAreRemittances(rs);
    forall g | g in fs
      ensures g.fee >= 1
    {
      var r :| r in rs && g == FlowOf(r);
    }
    var f :| f in fs && PairOf(f) == k;
    SomethingDropped(fs, f);
    ValidationExact(rs);
  }
}
