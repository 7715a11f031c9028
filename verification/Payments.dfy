/** Where the tokens go: what every step pays to, or takes from, every address outside the contract. */
module Payments {
  import opened Common
  import opened Types
  import opened Sums
  import opened Ledger
  import opened LedgerLaws
  import opened LedgerRuns
  import opened BatchSettlement
  import opened RemittanceLives
  import BatchCreation
  import FeeService
  import Netting
  import NettingLaws

  /** The part of a payment to `to` that `p` receives. */
  function PaidTo(to: Address, amount: int, p: Address): int {
    if to == p then amount else 0
  }

  /** What adding a fee sends to the treasury first. */
  function Flushed(s: State, fee: int): int {
    if fee > 0 && s.fees + fee > MAX_FEES then s.fees else 0
  }

  ghost function Received(s: State, env: Env, step: Step, p: Address): int {
    match step
    case DoCreate(sender, e) => -PaidTo(sender, e.amount, p)
    case DoCreateWithCorridor(sender, e, _, _) => -PaidTo(sender, e.amount, p)
    case DoBatchCreate(sender, entries) => -PaidTo(sender, BatchCreation.Total(entries), p)
    case DoConfirm(agent, id) => ConfirmPays(s, agent, id, p)
    case DoConfirmPartial(id, amount) => PartialPays(s, id, amount, p)
    case DoMarkFailed(id) => RefundPays(s, id, p)
    case DoCancel(id) => RefundPays(s, id, p)
    case DoProcessExpired(ids) => SumBy(Refunded(s, env.now, ids), RefundWeight(s, p))
    case DoRaiseDispute(_) => 0
    case DoResolveDispute(_, _) => 0
    case DoBatchSettle(ids) => SettlementPays(s, env.now, ids, p)
    case DoWithdrawFees(to) => PaidTo(to, s.fees, p)
    case DoExecuteWithdrawal(to) => if to.Some? then PaidTo(to.value, s.fees, p) else 0
    case DoCreateEscrow(sender, _, amount) => -PaidTo(sender, amount, p)
    case DoReleaseEscrow(id) => if id in s.escrows then PaidTo(s.escrows[id].recipient, s.escrows[id].amount, p) else 0
    case DoRefundEscrow(id) => if id in s.escrows then PaidTo(s.escrows[id].sender, s.escrows[id].amount, p) else 0
    case DoProcessExpiredEscrows(ids) => SumBy(RefundedEscrows(s, env.now, ids), EscrowRefundWeight(s, p))
    case DoConfigure(_) => 0
    case DoTokenTransfer(sender, recipient, amount) => PaidTo(recipient, amount, p) - PaidTo(sender, amount, p)
  }

  /** The agent gets the net amount; the treasury the protocol fee and what a flush releases. */
  function ConfirmPays(s: State, agent: Address, id: nat, p: Address): int {
    if Payout(s, id).Ok? then
      var b := Payout(s, id).value;
      PaidTo(agent, b.netAmount, p) + PaidTo(s.cfg.treasury, b.protocolFee + Flushed(s, s.remittances[id].fee), p)
    else 0
  }

  function PartialPays(s: State, id: nat, amount: int, p: Address): int {
    if Payout(s, id).Ok? then
      PaidTo(s.remittances[id].agent, amount, p)
      + if Completes(s, id, amount) then PaidTo(s.cfg.treasury, Flushed(s, s.remittances[id].fee), p) else 0
    else 0
  }

  function RefundPays(s: State, id: nat, p: Address): int {
    if id in s.remittances then PaidTo(s.remittances[id].sender, s.remittances[id].amount, p) else 0
  }

  function Refunded(s: State, now: nat, ids: seq<nat>): seq<nat> {
    if ExpireAll(s, now, ids).Ok? then ExpireAll(s, now, ids).value.1 else []
  }

  function RefundedEscrows(s: State, now: nat, ids: seq<nat>): seq<nat> {
    if ExpireEscrows(s, now, ids).Ok? then ExpireEscrows(s, now, ids).value.1 else []
  }

  function EscrowRefundWeight(s: State, p: Address): nat -> int {
    (id: nat) => if id in s.escrows && s.escrows[id].sender == p then s.escrows[id].amount else 0
  }

  /** The net payouts addressed to `p`, and a flush of the fees if they pass the cap. */
  function NetsPay(s: State, ts: seq<Netting.NetTransfer>, p: Address): int {
    var total := s.fees + SumBy(ts, NettingLaws.TransferFees());
    SumBy(ts, PaidWeight(p)) + if total > MAX_FEES then PaidTo(s.cfg.treasury, total, p) else 0
  }

  ghost function SettlementPays(s: State, now: nat, ids: seq<nat>, p: Address): int {
    if LoadBatch(s, now, ids).Ok? then
      NetsPay(s, Netting.NetTransfers(Netting.PendingFlows(LoadBatch(s, now, ids).value)), p)
    else 0
  }

  // ----- the pieces -----

  lemma PayTo(s: State, to: Address, amount: int, p: Address)
    requires p != SELF && Pay(s, to, amount).Ok?
    ensures Balance(Pay(s, to, amount).value.balances, p) == Balance(s.balances, p) + PaidTo(to, amount, p)
    ensures OnlyBalances(s, Pay(s, to, amount).value)
  {
  }

  lemma DepositFrom(s: State, from: Address, amount: int, p: Address)
    requires p != SELF && from != SELF && Transfer(s, from, SELF, amount).Ok?
    ensures Balance(Transfer(s, from, SELF, amount).value.balances, p) == Balance(s.balances, p) - PaidTo(from, amount, p)
  {
  }

  lemma SafeAddFeeTo(s: State, fee: int, p: Address)
    requires p != SELF && SafeAddFee(s, fee).Ok?
    ensures Balance(SafeAddFee(s, fee).value.balances, p)
         == Balance(s.balances, p) + PaidTo(s.cfg.treasury, Flushed(s, fee), p)
  {
    if fee > 0 && s.fees + fee > MAX_FEES && s.fees != 0 {
      PayTo(s, s.cfg.treasury, s.fees, p);
    }
  }

  lemma CompleteTo(s: State, id: nat, r: Remittance, p: Address)
    requires p != SELF && Complete(s, id, r).Ok?
    ensures Balance(Complete(s, id, r).value.balances, p)
         == Balance(s.balances, p) + PaidTo(s.cfg.treasury, Flushed(s, r.fee), p)
  {
    SafeAddFeeTo(s, r.fee, p);
  }

  lemma PayOutTo(s: State, id: nat, r: Remittance, netAmount: int, protocolFee: int, p: Address)
    requires p != SELF && protocolFee >= 0 && PayOut(s, id, r, netAmount, protocolFee).Ok?
    ensures Balance(PayOut(s, id, r, netAmount, protocolFee).value.balances, p)
         == Balance(s.balances, p) + PaidTo(r.agent, netAmount, p)
            + PaidTo(s.cfg.treasury, protocolFee + Flushed(s, r.fee), p)
  {
    PayTo(s, r.agent, netAmount, p);
    var paid := Pay(s, r.agent, netAmount).value;
    if protocolFee > 0 {
      PayTo(paid, s.cfg.treasury, protocolFee, p);
      CompleteTo(Pay(paid, s.cfg.treasury, protocolFee).value, id, r, p);
    } else {
      CompleteTo(paid, id, r, p);
    }
  }

  lemma ConfirmTo(s: State, env: Env, agent: Address, id: nat, p: Address)
    requires p != SELF && Confirm(s, env, agent, id).Ok?
    ensures Balance(Confirm(s, env, agent, id).value.balances, p) == Balance(s.balances, p) + ConfirmPays(s, agent, id, p)
  {
    var r, b := s.remittances[id], Payout(s, id).value;
    PayOutTo(StartProcessing(s, r).value, id, r.(status := Processing), b.netAmount, b.protocolFee, p);
  }

  lemma DisburseTo(s: State, id: nat, r: Remittance, amount: int, netAmount: int, p: Address)
    requires p != SELF && Disburse(s, id, r, amount, netAmount).Ok?
    ensures Balance(Disburse(s, id, r, amount, netAmount).value.balances, p)
         == Balance(s.balances, p) + PaidTo(r.agent, amount, p)
            + if Disbursed(s.disbursed, id) + amount >= netAmount then PaidTo(s.cfg.treasury, Flushed(s, r.fee), p) else 0
  {
    PayTo(s, r.agent, amount, p);
    var recorded := AddDisbursed(Pay(s, r.agent, amount).value, id, amount).value;
    if Disbursed(s.disbursed, id) + amount >= netAmount {
      CompleteTo(recorded, id, r, p);
    }
  }

  lemma ConfirmPartialTo(s: State, env: Env, id: nat, amount: int, p: Address)
    requires p != SELF && ConfirmPartial(s, env, id, amount).Ok?
    ensures Balance(ConfirmPartial(s, env, id, amount).value.balances, p)
         == Balance(s.balances, p) + PartialPays(s, id, amount, p)
  {
    var r := s.remittances[id];
    DisburseTo(Begin(s, r).value, id, r.(status := Processing), amount, Payout(s, id).value.netAmount, p);
  }

  lemma RefundTo(s: State, env: Env, id: nat, p: Address)
    requires p != SELF
    ensures MarkFailed(s, env, id).Ok? ==>
              Balance(MarkFailed(s, env, id).value.balances, p) == Balance(s.balances, p) + RefundPays(s, id, p)
    ensures Cancel(s, env, id).Ok? ==>
              Balance(Cancel(s, env, id).value.balances, p) == Balance(s.balances, p) + RefundPays(s, id, p)
  {
    if id in s.remittances && Pay(s, s.remittances[id].sender, s.remittances[id].amount).Ok? {
      PayTo(s, s.remittances[id].sender, s.remittances[id].amount, p);
    }
  }

  lemma DepositTo(s: State, now: nat, sender: Address, e: Entry, fee: int, p: Address)
    requires p != SELF && sender != SELF && Deposit(s, now, sender, e, fee).Ok?
    ensures Balance(Deposit(s, now, sender, e, fee).value.0.balances, p)
         == Balance(s.balances, p) - PaidTo(sender, e.amount, p)
  {
    DepositFrom(s, sender, e.amount, p);
  }

  lemma CreateTo(s: State, env: Env, sender: Address, e: Entry, p: Address)
    requires p != SELF && sender != SELF && Create(s, env, sender, e).Ok?
    ensures Balance(Create(s, env, sender, e).value.0.balances, p) == Balance(s.balances, p) - PaidTo(sender, e.amount, p)
  {
    BatchCreation.CreateIs(s, env, sender, e);
    var fee := FeeService.PlatformFeeForSender(s.cfg.feeConfig, e.amount, Rolling(s, sender, env.now));
    DepositTo(EnforceLimit(s, env.now, sender, BatchCreation.GLOBAL, e.amount).value, env.now, sender, e, fee.value, p);
  }

  lemma CreateWithCorridorTo(s: State, env: Env, sender: Address, e: Entry, from: Option<string>, to: Option<string>,
                             p: Address)
    requires p != SELF && sender != SELF && CreateWithCorridor(s, env, sender, e, from, to).Ok?
    ensures Balance(CreateWithCorridor(s, env, sender, e, from, to).value.0.balances, p)
         == Balance(s.balances, p) - PaidTo(sender, e.amount, p)
  {
    var fee := RouteFee(s, env.now, sender, e, from, to);
    DepositTo(EnforceLimit(s, env.now, sender, LimitCorridor(to), e.amount).value, env.now, sender, e, fee.value, p);
  }

  lemma BatchCreateTo(s: State, env: Env, sender: Address, entries: seq<Entry>, p: Address)
    requires p != SELF && sender != SELF && BatchCreate(s, env, sender, entries).Ok?
    ensures Balance(BatchCreate(s, env, sender, entries).value.0.balances, p)
         == Balance(s.balances, p) - PaidTo(sender, BatchCreation.Total(entries), p)
  {
    BatchCreation.BatchTotalIff(s, sender, entries);
    var total := BatchCreation.Total(entries);
    var limited := EnforceLimit(s, env.now, sender, BatchCreation.GLOBAL, total).value;
    DepositFrom(limited, sender, total, p);
    var funded := Transfer(limited, sender, SELF, total).value;
    BatchCreation.BookAllKeeps(funded, env.now, sender, entries, Rolling(s, sender, env.now));
  }

  lemma SettledTo(s: State, rs: seq<Remittance>, ts: seq<Netting.NetTransfer>, p: Address)
    requires p != SELF && (forall t | t in ts :: t.netAmount != 0)
    requires PayNets(s, ts).Ok? && StoreFees(PayNets(s, ts).value.0, PayNets(s, ts).value.1).Ok?
    requires SettleAll(StoreFees(PayNets(s, ts).value.0, PayNets(s, ts).value.1).value, rs).Ok?
    ensures var done := SettleAll(StoreFees(PayNets(s, ts).value.0, PayNets(s, ts).value.1).value, rs).value;
            Balance(done.balances, p) == Balance(s.balances, p) + NetsPay(s, ts, p)
  {
    PayNetsLaw(s, ts);
    PayNetsBalances(s, ts, p);
    var (paid, total) := PayNets(s, ts).value;
    StoreFeesTo(paid, total, p);
    SettleAllBalances(StoreFees(paid, total).value, rs);
  }

  lemma BatchSettleTo(s: State, env: Env, ids: seq<nat>, p: Address)
    requires Inv(s) && p != SELF && BatchSettle(s, env, ids).Ok?
    ensures Balance(BatchSettle(s, env, ids).value.0.balances, p)
         == Balance(s.balances, p) + SettlementPays(s, env.now, ids, p)
  {
    var rs := LoadBatch(s, env.now, ids).value;
    LoadBatchLaw(s, env.now, ids);
    LoadedFees(s, ids, rs);
    NetsNonZero(rs);
    SettledTo(s, rs, Netting.NetTransfers(Netting.PendingFlows(rs)), p);
  }

  lemma StoreFeesTo(s: State, total: int, p: Address)
    requires p != SELF && StoreFees(s, total).Ok?
    ensures Balance(StoreFees(s, total).value.balances, p)
         == Balance(s.balances, p) + if total > MAX_FEES then PaidTo(s.cfg.treasury, total, p) else 0
  {
    if total > MAX_FEES {
      PayTo(s, s.cfg.treasury, total, p);
    }
  }

  lemma {:induction false} SettleAllBalances(s: State, rs: seq<Remittance>)
    requires SettleAll(s, rs).Ok?
    ensures SettleAll(s, rs).value.balances == s.balances
  {
    if rs != [] {
      SettleAllBalances(s, rs[..|rs| - 1]);
    }
  }

  lemma EscrowTo(s: State, env: Env, step: Step, p: Address)
    requires step.DoCreateEscrow? || step.DoReleaseEscrow? || step.DoRefundEscrow?
    requires p != SELF && External(step) && Next(s, env, step).Ok?
    ensures Balance(Next(s, env, step).value.balances, p) == Balance(s.balances, p) + Received(s, env, step, p)
  {
    match step
    case DoCreateEscrow(sender, _, amount) => DepositFrom(s, sender, amount, p);
    case DoReleaseEscrow(id) => PayTo(s, s.escrows[id].recipient, s.escrows[id].amount, p);
    case DoRefundEscrow(id) => PayTo(s, s.escrows[id].sender, s.escrows[id].amount, p);
  }

  lemma {:induction false} ExpireEscrowsFrame(s: State, now: nat, ids: seq<nat>, id: nat)
    requires ExpireEscrows(s, now, ids).Ok?
    ensures var s' := ExpireEscrows(s, now, ids).value.0;
            && (id in s'.escrows <==> id in s.escrows)
            && (id in s.escrows ==> s'.escrows[id] == s.escrows[id].(status := s'.escrows[id].status))
  {
    if ids != [] {
      ExpireEscrowsFrame(s, now, ids[..|ids| - 1], id);
    }
  }

  lemma {:induction false} ExpiredEscrowRefunds(s: State, now: nat, ids: seq<nat>, p: Address)
    requires ExpireEscrows(s, now, ids).Ok? && p != SELF
    ensures var (s', done) := ExpireEscrows(s, now, ids).value;
            Balance(s'.balances, p) == Balance(s.balances, p) + SumBy(done, EscrowRefundWeight(s, p))
  {
    if ids != [] {
      var front, last := ids[..|ids| - 1], ids[|ids| - 1];
      ExpiredEscrowRefunds(s, now, front, p);
      ExpireEscrowsFrame(s, now, front, last);
      var (before, done) := ExpireEscrows(s, now, front).value;
      if EscrowExpirable(before, now, last) {
        PayTo(before, before.escrows[last].sender, before.escrows[last].amount, p);
        SumByConcat(done, [last], EscrowRefundWeight(s, p));
        assert SumBy([last], EscrowRefundWeight(s, p)) == EscrowRefundWeight(s, p)(last) by {
          assert [last][..0] == [];
        }
      }
    }
  }

  lemma TransferTo(s: State, sender: Address, recipient: Address, amount: int, p: Address)
    requires p != SELF && Transfer(s, sender, recipient, amount).Ok?
    ensures Balance(Transfer(s, sender, recipient, amount).value.balances, p)
         == Balance(s.balances, p) + PaidTo(recipient, amount, p) - PaidTo(sender, amount, p)
  {
  }

  lemma WithdrawalsTo(s: State, env: Env, step: Step, p: Address)
    requires step.DoWithdrawFees? || step.DoExecuteWithdrawal?
    requires p != SELF && Next(s, env, step).Ok?
    ensures Balance(Next(s, env, step).value.balances, p) == Balance(s.balances, p) + Received(s, env, step, p)
  {
    match step
    case DoWithdrawFees(to) => PayTo(s, to, s.fees, p);
    case DoExecuteWithdrawal(to) => PayTo(s, to.value, s.fees, p);
  }

  lemma CreationPays(s: State, env: Env, step: Step, p: Address)
    requires External(step) && p != SELF && Next(s, env, step).Ok? && Creates(step)
    ensures Balance(Next(s, env, step).value.balances, p) == Balance(s.balances, p) + Received(s, env, step, p)
  {
    match step
    case DoCreate(sender, e) => CreateTo(s, env, sender, e, p);
    case DoCreateWithCorridor(sender, e, from, to) => CreateWithCorridorTo(s, env, sender, e, from, to, p);
    case DoBatchCreate(sender, entries) => BatchCreateTo(s, env, sender, entries, p);
  }

  lemma PayoutPays(s: State, env: Env, step: Step, p: Address)
    requires Inv(s) && p != SELF && Next(s, env, step).Ok? && PaysOut(step)
    ensures Balance(Next(s, env, step).value.balances, p) == Balance(s.balances, p) + Received(s, env, step, p)
  {
    match step
    case DoConfirm(agent, id) => ConfirmTo(s, env, agent, id, p);
    case DoConfirmPartial(id, amount) => ConfirmPartialTo(s, env, id, amount, p);
    case DoBatchSettle(ids) => BatchSettleTo(s, env, ids, p);
  }

  lemma RefundStepPays(s: State, env: Env, step: Step, p: Address)
    requires Inv(s) && p != SELF && Next(s, env, step).Ok? && Refunds(step)
    ensures Balance(Next(s, env, step).value.balances, p) == Balance(s.balances, p) + Received(s, env, step, p)
  {
    match step
    case DoMarkFailed(id) => RefundTo(s, env, id, p);
    case DoCancel(id) => RefundTo(s, env, id, p);
    case DoProcessExpired(ids) => ExpiredRefunds(s, env.now, ids, p);
    case DoRaiseDispute(id) => DisputesUnreachable(s, env, id, true);
    case DoResolveDispute(id, forSender) => DisputesUnreachable(s, env, id, forSender);
  }

  lemma OtherStepPays(s: State, env: Env, step: Step, p: Address)
    requires External(step) && p != SELF && Next(s, env, step).Ok?
    requires !Creates(step) && !PaysOut(step) && !Refunds(step)
    ensures Balance(Next(s, env, step).value.balances, p) == Balance(s.balances, p) + Received(s, env, step, p)
  {
    match step
    case DoProcessExpiredEscrows(ids) => ExpiredEscrowRefunds(s, env.now, ids, p);
    case DoTokenTransfer(sender, recipient, amount) => TransferTo(s, sender, recipient, amount, p);
    case DoConfigure(_) =>
    case DoWithdrawFees(_) => WithdrawalsTo(s, env, step, p);
    case DoExecuteWithdrawal(_) => WithdrawalsTo(s, env, step, p);
    case _ => EscrowTo(s, env, step, p);
  }

  /** Every successful step changes every outside balance by exactly what it says, and no other. */
  lemma StepPays(s: State, env: Env, step: Step, p: Address)
    requires Inv(s) && External(step) && p != SELF && Next(s, env, step).Ok?
    ensures Balance(Next(s, env, step).value.balances, p) == Balance(s.balances, p) + Received(s, env, step, p)
  {
    if Creates(step) {
      CreationPays(s, env, step, p);
    } else if PaysOut(step) {
      PayoutPays(s, env, step, p);
    } else if Refunds(step) {
      RefundStepPays(s, env, step, p);
    } else {
      OtherStepPays(s, env, step, p);
    }
  }
}
