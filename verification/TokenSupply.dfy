/** No entry point creates or destroys tokens: over every run all balances add up to what they did at first. */
module TokenSupply {
  import opened Common
  import opened Types
  import opened Ledger
  import opened LedgerRuns
  import opened BatchCreation
  import DailyLimit
  import FS = FeeService
  import Netting
  import NettingLaws

  /** All tokens there are. */
  ghost function Supply(balances: map<Address, nat>): nat {
    if balances == map[] then 0 else
      var who :| who in balances;
      balances[who] + Supply(balances - {who})
  }

  lemma {:induction false} SupplyWithout(balances: map<Address, nat>, p: Address)
    requires p in balances
    ensures Supply(balances) == balances[p] + Supply(balances - {p})
    decreases |balances|
  {
    var who :| who in balances && Supply(balances) == balances[who] + Supply(balances - {who});
    if who != p {
      SupplyWithout(balances - {who}, p);
      SupplyWithout(balances - {p}, who);
      assert balances - {who} - {p} == balances - {p} - {who};
    }
  }

  /** An absent address holds nothing. */
  lemma SupplyUpdated(balances: map<Address, nat>, p: Address, amount: nat)
    ensures Supply(balances[p := amount]) == Supply(balances) - (if p in balances then balances[p] else 0) + amount
  {
    SupplyWithout(balances[p := amount], p);
    if p in balances {
      SupplyWithout(balances, p);
      assert balances[p := amount] - {p} == balances - {p};
    } else {
      assert balances[p := amount] - {p} == balances;
    }
  }

  ghost predicate SameSupply(s: State, s': State) {
    Supply(s'.balances) == Supply(s.balances)
  }

  lemma TransferSupply(s: State, from: Address, to: Address, amount: int)
    requires Transfer(s, from, to, amount).Ok?
    ensures SameSupply(s, Transfer(s, from, to, amount).value)
  {
    if from != to {
      var less := s.balances[from := Balance(s.balances, from) - amount];
      SupplyUpdated(s.balances, from, Balance(s.balances, from) - amount);
      SupplyUpdated(less, to, Balance(less, to) + amount);
    }
  }

  // ----- fees and payouts -----

  lemma FlushSupply(s: State, amount: int)
    requires Flush(s, amount).Ok?
    ensures SameSupply(s, Flush(s, amount).value)
  {
    if amount != 0 {
      TransferSupply(s, SELF, s.cfg.treasury, amount);
    }
  }

  lemma AddFeeSupply(s: State, fee: int)
    requires SafeAddFee(s, fee).Ok?
    ensures SameSupply(s, SafeAddFee(s, fee).value)
  {
    if Flush(s, s.fees).Ok? {
      FlushSupply(s, s.fees);
    }
  }

  lemma CompleteSupply(s: State, id: nat, r: Remittance)
    requires Complete(s, id, r).Ok?
    ensures SameSupply(s, Complete(s, id, r).value)
  {
    AddFeeSupply(s, r.fee);
  }

  lemma PayOutSupply(s: State, id: nat, r: Remittance, netAmount: int, protocolFee: int)
    requires PayOut(s, id, r, netAmount, protocolFee).Ok?
    ensures SameSupply(s, PayOut(s, id, r, netAmount, protocolFee).value)
  {
    TransferSupply(s, SELF, r.agent, netAmount);
    var paid := Pay(s, r.agent, netAmount).value;
    if protocolFee > 0 {
      TransferSupply(paid, SELF, s.cfg.treasury, protocolFee);
    }
    CompleteSupply(if protocolFee > 0 then Pay(paid, s.cfg.treasury, protocolFee).value else paid, id, r);
  }

  lemma ConfirmSupply(s: State, env: Env, agent: Address, id: nat)
    requires Confirm(s, env, agent, id).Ok?
    ensures SameSupply(s, Confirm(s, env, agent, id).value)
  {
    var r := s.remittances[id];
    var b := FS.FeesWithBreakdown(s.cfg.feeConfig, r.amount, false).value;
    PayOutSupply(StartProcessing(s, r).value, id, r.(status := Processing), b.netAmount, b.protocolFee);
  }

  lemma DisburseSupply(s: State, id: nat, r: Remittance, amount: int, netAmount: int)
    requires Disburse(s, id, r, amount, netAmount).Ok?
    ensures SameSupply(s, Disburse(s, id, r, amount, netAmount).value)
  {
    TransferSupply(s, SELF, r.agent, amount);
    var recorded := AddDisbursed(Pay(s, r.agent, amount).value, id, amount).value;
    if Disbursed(recorded.disbursed, id) >= netAmount {
      CompleteSupply(recorded, id, r);
    }
  }

  lemma ConfirmPartialSupply(s: State, env: Env, id: nat, amount: int)
    requires ConfirmPartial(s, env, id, amount).Ok?
    ensures SameSupply(s, ConfirmPartial(s, env, id, amount).value)
  {
    var r := s.remittances[id];
    var b := FS.FeesWithBreakdown(s.cfg.feeConfig, r.amount, false).value;
    DisburseSupply(Begin(s, r).value, id, r.(status := Processing), amount, b.netAmount);
  }

  lemma {:induction false} PayNetsSupply(s: State, ts: seq<Netting.NetTransfer>)
    requires PayNets(s, ts).Ok?
    ensures SameSupply(s, PayNets(s, ts).value.0)
  {
    if ts != [] {
      var front, t := ts[..|ts| - 1], ts[|ts| - 1];
      PayNetsSupply(s, front);
      PayNetSupply(PayNets(s, front).value.0, t, PayNets(s, front).value.1);
    }
  }

  lemma PayNetSupply(s: State, t: Netting.NetTransfer, fees: int)
    requires PayNet(s, t, fees).Ok?
    ensures SameSupply(s, PayNet(s, t, fees).value.0)
  {
    if t.netAmount != 0 {
      TransferSupply(s, SELF, NettingLaws.Payee(t), Abs(t.netAmount) - t.totalFees);
    }
  }

  lemma {:induction false} SettleAllSupply(s: State, rs: seq<Remittance>)
    requires SettleAll(s, rs).Ok?
    ensures SettleAll(s, rs).value.balances == s.balances
  {
    if rs != [] {
      SettleAllSupply(s, rs[..|rs| - 1]);
    }
  }

  lemma StoreFeesSupply(s: State, total: int)
    requires StoreFees(s, total).Ok?
    ensures SameSupply(s, StoreFees(s, total).value)
  {
    if total > MAX_FEES {
      FlushSupply(s, total);
    }
  }

  lemma BatchSettleSupply(s: State, env: Env, ids: seq<nat>)
    requires BatchSettle(s, env, ids).Ok?
    ensures SameSupply(s, BatchSettle(s, env, ids).value.0)
  {
    var rs := LoadBatch(s, env.now, ids).value;
    var ts := ComputeNets(rs).value;
    PayNetsSupply(s, ts);
    var (paid, total) := PayNets(s, ts).value;
    StoreFeesSupply(paid, total);
    SettleAllSupply(StoreFees(paid, total).value, rs);
  }

  lemma PayoutsSupply(s: State, env: Env, step: Step)
    requires PaysOut(step) && Next(s, env, step).Ok?
    ensures SameSupply(s, Next(s, env, step).value)
  {
    match step
    case DoConfirm(agent, id) => ConfirmSupply(s, env, agent, id);
    case DoConfirmPartial(id, amount) => ConfirmPartialSupply(s, env, id, amount);
    case DoBatchSettle(ids) => BatchSettleSupply(s, env, ids);
  }

  // ----- deposits -----

  lemma AcceptSupply(s: State, now: nat, sender: Address, e: Entry, c: DailyLimit.Corridor, fee: Result<int>)
    requires Accept(s, now, sender, e, c, fee).Ok?
    ensures SameSupply(s, Accept(s, now, sender, e, c, fee).value.0)
  {
    TransferSupply(EnforceLimit(s, now, sender, c, e.amount).value, sender, SELF, e.amount);
  }

  lemma {:induction false} BookAllSupply(s: State, now: nat, sender: Address, entries: seq<Entry>, prior: int)
    requires BookAll(s, now, sender, entries, prior).Ok?
    ensures BookAll(s, now, sender, entries, prior).value.state.balances == s.balances
  {
    if entries != [] {
      BookAllSupply(s, now, sender, entries[..|entries| - 1], prior);
    }
  }

  lemma BatchSupply(s: State, env: Env, sender: Address, entries: seq<Entry>)
    requires BatchCreate(s, env, sender, entries).Ok?
    ensures SameSupply(s, BatchCreate(s, env, sender, entries).value.0)
  {
    var total := BatchTotal(s, sender, entries).value;
    var limited := EnforceLimit(s, env.now, sender, GLOBAL, total).value;
    TransferSupply(limited, sender, SELF, total);
    var funded := Transfer(limited, sender, SELF, total).value;
    BookAllSupply(funded, env.now, sender, entries, Rolling(s, sender, env.now));
  }

  lemma CreationsSupply(s: State, env: Env, step: Step)
    requires Creates(step) && Next(s, env, step).Ok?
    ensures SameSupply(s, Next(s, env, step).value)
  {
    match step
    case DoCreate(sender, e) =>
      CreateIs(s, env, sender, e);
      var fee := FS.PlatformFeeForSender(s.cfg.feeConfig, e.amount, Rolling(s, sender, env.now));
      AcceptSupply(s, env.now, sender, e, GLOBAL, fee);
    case DoCreateWithCorridor(sender, e, from, to) =>
      AcceptSupply(s, env.now, sender, e, LimitCorridor(to), RouteFee(s, env.now, sender, e, from, to));
    case DoBatchCreate(sender, entries) => BatchSupply(s, env, sender, entries);
  }

  // ----- refunds -----

  lemma RefundSupply(s: State, env: Env, id: nat)
    ensures MarkFailed(s, env, id).Ok? ==> SameSupply(s, MarkFailed(s, env, id).value)
    ensures Cancel(s, env, id).Ok? ==> SameSupply(s, Cancel(s, env, id).value)
  {
    if id in s.remittances && Pay(s, s.remittances[id].sender, s.remittances[id].amount).Ok? {
      TransferSupply(s, SELF, s.remittances[id].sender, s.remittances[id].amount);
    }
  }

  lemma {:induction false} ExpireAllSupply(s: State, now: nat, ids: seq<nat>)
    requires ExpireAll(s, now, ids).Ok?
    ensures SameSupply(s, ExpireAll(s, now, ids).value.0)
  {
    if ids != [] {
      var front, id := ids[..|ids| - 1], ids[|ids| - 1];
      ExpireAllSupply(s, now, front);
      var before := ExpireAll(s, now, front).value.0;
      if Expirable(before, now, id) {
        TransferSupply(before, SELF, before.remittances[id].sender, before.remittances[id].amount);
      }
    }
  }

  lemma ResolveSupply(s: State, env: Env, id: nat, forSender: bool)
    requires ResolveDispute(s, env, id, forSender).Ok?
    ensures SameSupply(s, ResolveDispute(s, env, id, forSender).value)
  {
    var r := s.remittances[id];
    if forSender {
      TransferSupply(s, SELF, r.sender, r.amount);
    } else {
      TransferSupply(s, SELF, r.agent, FS.FeesWithBreakdown(s.cfg.feeConfig, r.amount, true).value.netAmount);
    }
  }

  lemma RefundsSupply(s: State, env: Env, step: Step)
    requires Refunds(step) && Next(s, env, step).Ok?
    ensures SameSupply(s, Next(s, env, step).value)
  {
    match step
    case DoMarkFailed(id) => RefundSupply(s, env, id);
    case DoCancel(id) => RefundSupply(s, env, id);
    case DoProcessExpired(ids) => ExpireAllSupply(s, env.now, ids);
    case DoRaiseDispute(_) =>
    case DoResolveDispute(id, forSender) => ResolveSupply(s, env, id, forSender);
  }

  // ----- escrows and the rest -----

  lemma {:induction false} ExpireEscrowsSupply(s: State, now: nat, ids: seq<nat>)
    requires ExpireEscrows(s, now, ids).Ok?
    ensures SameSupply(s, ExpireEscrows(s, now, ids).value.0)
  {
    if ids != [] {
      var front, id := ids[..|ids| - 1], ids[|ids| - 1];
      ExpireEscrowsSupply(s, now, front);
      var before := ExpireEscrows(s, now, front).value.0;
      if EscrowExpirable(before, now, id) {
        TransferSupply(before, SELF, before.escrows[id].sender, before.escrows[id].amount);
      }
    }
  }

  lemma EscrowsSupply(s: State, env: Env, step: Step)
    requires OnEscrows(step) && Next(s, env, step).Ok?
    ensures SameSupply(s, Next(s, env, step).value)
  {
    match step
    case DoCreateEscrow(sender, _, amount) => TransferSupply(s, sender, SELF, amount);
    case DoReleaseEscrow(id) => TransferSupply(s, SELF, s.escrows[id].recipient, s.escrows[id].amount);
    case DoRefundEscrow(id) => TransferSupply(s, SELF, s.escrows[id].sender, s.escrows[id].amount);
    case DoProcessExpiredEscrows(ids) => ExpireEscrowsSupply(s, env.now, ids);
  }

  lemma OthersSupply(s: State, env: Env, step: Step)
    requires !Creates(step) && !PaysOut(step) && !Refunds(step) && !OnEscrows(step) && Next(s, env, step).Ok?
    ensures SameSupply(s, Next(s, env, step).value)
  {
    match step
    case DoWithdrawFees(to) => TransferSupply(s, SELF, to, s.fees);
    case DoExecuteWithdrawal(to) => TransferSupply(s, SELF, to.value, s.fees);
    case DoConfigure(_) =>
    case DoTokenTransfer(sender, recipient, amount) => TransferSupply(s, sender, recipient, amount);
  }

  lemma StepSupply(s: State, env: Env, step: Step)
    requires Next(s, env, step).Ok?
    ensures SameSupply(s, Next(s, env, step).value)
  {
    if Creates(step) {
      CreationsSupply(s, env, step);
    } else if PaysOut(step) {
      PayoutsSupply(s, env, step);
    } else if Refunds(step) {
      RefundsSupply(s, env, step);
    } else if OnEscrows(step) {
      EscrowsSupply(s, env, step);
    } else {
      OthersSupply(s, env, step);
    }
  }

  /** Whatever is called, the balances of everybody, the contract included, keep their sum. */
  lemma {:induction false} SupplyConserved(s: State, log: seq<Event>)
    ensures SameSupply(s, Run(s, log))
  {
    if log != [] {
      var front, e := log[..|log| - 1], log[|log| - 1];
      SupplyConserved(s, front);
      if Next(Run(s, front), e.env, e.step).Ok? {
        StepSupply(Run(s, front), e.env, e.step);
      }
    }
  }
}
