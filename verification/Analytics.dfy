/** The volume counters that the contract reports about itself. */
module Analytics {
  import opened Common
  import opened Types
  import opened Ledger
  import opened LedgerLaws
  import opened LedgerRuns
  import BatchCreation
  import DailyLimit
  import FeeService
  import Netting

  /**
   What a successful step adds to the completed volume: the full amount of a remittance when a single
   or the last partial payout completes it. Remittances settled in a batch are completed without
   being counted.
   */
  function CompletedBy(s: State, step: Step): int {
    match step
    case DoConfirm(_, id) => if id in s.remittances then s.remittances[id].amount else 0
    case DoConfirmPartial(id, amount) =>
      if Payout(s, id).Ok? && Completes(s, id, amount) then s.remittances[id].amount else 0
    case _ => 0
  }

  lemma SafeAddFeeKeeps(s: State, fee: int)
    requires SafeAddFee(s, fee).Ok?
    ensures SafeAddFee(s, fee).value.completedVolume == s.completedVolume
  {
  }

  lemma CompleteCounts(s: State, id: nat, r: Remittance)
    requires Complete(s, id, r).Ok?
    ensures Complete(s, id, r).value.completedVolume == s.completedVolume + r.amount
  {
    SafeAddFeeKeeps(s, r.fee);
  }

  lemma PayOutCounts(s: State, id: nat, r: Remittance, netAmount: int, protocolFee: int)
    requires PayOut(s, id, r, netAmount, protocolFee).Ok?
    ensures PayOut(s, id, r, netAmount, protocolFee).value.completedVolume == s.completedVolume + r.amount
  {
    var paid := Pay(s, r.agent, netAmount).value;
    CompleteCounts(if protocolFee > 0 then Pay(paid, s.cfg.treasury, protocolFee).value else paid, id, r);
  }

  lemma ConfirmCounts(s: State, env: Env, agent: Address, id: nat)
    requires Confirm(s, env, agent, id).Ok?
    ensures Confirm(s, env, agent, id).value.completedVolume == s.completedVolume + s.remittances[id].amount
  {
    var r, b := s.remittances[id], Payout(s, id).value;
    PayOutCounts(StartProcessing(s, r).value, id, r.(status := Processing), b.netAmount, b.protocolFee);
  }

  lemma DisburseCounts(s: State, id: nat, r: Remittance, amount: int, netAmount: int)
    requires Disburse(s, id, r, amount, netAmount).Ok?
    ensures Disburse(s, id, r, amount, netAmount).value.completedVolume
         == s.completedVolume + if Disbursed(s.disbursed, id) + amount >= netAmount then r.amount else 0
  {
    PayLaw(s, r.agent, amount);
    var recorded := AddDisbursed(Pay(s, r.agent, amount).value, id, amount).value;
    if Disbursed(s.disbursed, id) + amount >= netAmount {
      CompleteCounts(recorded, id, r);
    }
  }

  lemma ConfirmPartialCounts(s: State, env: Env, id: nat, amount: int)
    requires ConfirmPartial(s, env, id, amount).Ok?
    ensures ConfirmPartial(s, env, id, amount).value.completedVolume
         == s.completedVolume + CompletedBy(s, DoConfirmPartial(id, amount))
  {
    var r := s.remittances[id];
    DisburseCounts(Begin(s, r).value, id, r.(status := Processing), amount, Payout(s, id).value.netAmount);
  }

  // ----- nothing else counts -----

  lemma AcceptKeeps(s: State, now: nat, sender: Address, e: Entry, c: DailyLimit.Corridor, fee: Result<int>)
    requires Accept(s, now, sender, e, c, fee).Ok?
    ensures Accept(s, now, sender, e, c, fee).value.0.completedVolume == s.completedVolume
  {
  }

  lemma CreateKeeps(s: State, env: Env, step: Step)
    requires step.DoCreate? || step.DoCreateWithCorridor?
    requires Next(s, env, step).Ok?
    ensures Next(s, env, step).value.completedVolume == s.completedVolume
  {
    match step
    case DoCreate(sender, e) =>
      BatchCreation.CreateIs(s, env, sender, e);
      var fee := FeeService.PlatformFeeForSender(s.cfg.feeConfig, e.amount, Rolling(s, sender, env.now));
      AcceptKeeps(s, env.now, sender, e, BatchCreation.GLOBAL, fee);
    case DoCreateWithCorridor(sender, e, from, to) =>
      AcceptKeeps(s, env.now, sender, e, LimitCorridor(to), RouteFee(s, env.now, sender, e, from, to));
  }

  lemma {:induction false} BookAllKeeps(s: State, now: nat, sender: Address, entries: seq<Entry>, prior: int)
    requires BookAll(s, now, sender, entries, prior).Ok?
    ensures BookAll(s, now, sender, entries, prior).value.state.completedVolume == s.completedVolume
  {
    if entries != [] {
      BookAllKeeps(s, now, sender, entries[..|entries| - 1], prior);
    }
  }

  lemma {:induction false} ExpireAllKeeps(s: State, now: nat, ids: seq<nat>)
    requires ExpireAll(s, now, ids).Ok?
    ensures ExpireAll(s, now, ids).value.0.completedVolume == s.completedVolume
  {
    if ids != [] {
      ExpireAllKeeps(s, now, ids[..|ids| - 1]);
    }
  }

  lemma {:induction false} ExpireEscrowsKeeps(s: State, now: nat, ids: seq<nat>)
    requires ExpireEscrows(s, now, ids).Ok?
    ensures ExpireEscrows(s, now, ids).value.0.completedVolume == s.completedVolume
  {
    if ids != [] {
      ExpireEscrowsKeeps(s, now, ids[..|ids| - 1]);
    }
  }

  lemma {:induction false} PayNetsKeeps(s: State, ts: seq<Netting.NetTransfer>)
    requires PayNets(s, ts).Ok?
    ensures PayNets(s, ts).value.0.completedVolume == s.completedVolume
  {
    if ts != [] {
      PayNetsKeeps(s, ts[..|ts| - 1]);
    }
  }

  lemma {:induction false} SettleAllKeeps(s: State, rs: seq<Remittance>)
    requires SettleAll(s, rs).Ok?
    ensures SettleAll(s, rs).value.completedVolume == s.completedVolume
  {
    if rs != [] {
      SettleAllKeeps(s, rs[..|rs| - 1]);
    }
  }

  lemma BatchCreateKeeps(s: State, env: Env, sender: Address, entries: seq<Entry>)
    requires BatchCreate(s, env, sender, entries).Ok?
    ensures BatchCreate(s, env, sender, entries).value.0.completedVolume == s.completedVolume
  {
    var total := BatchTotal(s, sender, entries).value;
    var limited := EnforceLimit(s, env.now, sender, BatchCreation.GLOBAL, total).value;
    BookAllKeeps(Transfer(limited, sender, SELF, total).value, env.now, sender, entries, Rolling(s, sender, env.now));
  }

  lemma BatchSettleKeeps(s: State, env: Env, ids: seq<nat>)
    requires BatchSettle(s, env, ids).Ok?
    ensures BatchSettle(s, env, ids).value.0.completedVolume == s.completedVolume
  {
    var rs := LoadBatch(s, env.now, ids).value;
    var ts := ComputeNets(rs).value;
    PayNetsKeeps(s, ts);
    SettleAllKeeps(StoreFees(PayNets(s, ts).value.0, PayNets(s, ts).value.1).value, rs);
  }

  lemma RefundsKeep(s: State, env: Env, step: Step)
    requires step.DoMarkFailed? || step.DoCancel? || step.DoRaiseDispute?
    requires Next(s, env, step).Ok?
    ensures Next(s, env, step).value.completedVolume == s.completedVolume
  {
  }

  lemma EscrowsKeep(s: State, env: Env, step: Step)
    requires step.DoCreateEscrow? || step.DoReleaseEscrow? || step.DoRefundEscrow?
    requires Next(s, env, step).Ok?
    ensures Next(s, env, step).value.completedVolume == s.completedVolume
  {
  }

  lemma MoneyKeeps(s: State, env: Env, step: Step)
    requires step.DoWithdrawFees? || step.DoExecuteWithdrawal? || step.DoTokenTransfer? || step.DoConfigure?
    requires Next(s, env, step).Ok?
    ensures Next(s, env, step).value.completedVolume == s.completedVolume
  {
  }

  /** The completed volume counts every remittance completed by a payout, at its full amount, and nothing else. */
  lemma StepCompletes(s: State, env: Env, step: Step)
    requires Inv(s) && Next(s, env, step).Ok?
    ensures Next(s, env, step).value.completedVolume == s.completedVolume + CompletedBy(s, step)
  {
    match step
    case DoCreate(_, _) => CreateKeeps(s, env, step);
    case DoCreateWithCorridor(_, _, _, _) => CreateKeeps(s, env, step);
    case DoBatchCreate(sender, entries) => BatchCreateKeeps(s, env, sender, entries);
    case DoConfirm(agent, id) => ConfirmCounts(s, env, agent, id);
    case DoConfirmPartial(id, amount) => ConfirmPartialCounts(s, env, id, amount);
    case DoMarkFailed(_) => RefundsKeep(s, env, step);
    case DoCancel(_) => RefundsKeep(s, env, step);
    case DoProcessExpired(ids) => ExpireAllKeeps(s, env.now, ids);
    case DoRaiseDispute(_) => RefundsKeep(s, env, step);
    case DoResolveDispute(id, forSender) => DisputesUnreachable(s, env, id, forSender);
    case DoBatchSettle(ids) => BatchSettleKeeps(s, env, ids);
    case DoProcessExpiredEscrows(ids) => ExpireEscrowsKeeps(s, env.now, ids);
    case DoCreateEscrow(_, _, _) => EscrowsKeep(s, env, step);
    case DoReleaseEscrow(_) => EscrowsKeep(s, env, step);
    case DoRefundEscrow(_) => EscrowsKeep(s, env, step);
    case _ => MoneyKeeps(s, env, step);
  }

  // ----- over a run -----

  /** The amounts of the remittances that payouts have completed during the run. */
  ghost function PaidOut(s: State, log: seq<Event>): int {
    if log == [] then 0 else
      var front, e := log[..|log| - 1], log[|log| - 1];
      PaidOut(s, front) + if Next(Run(s, front), e.env, e.step).Ok? then CompletedBy(Run(s, front), e.step) else 0
  }

  lemma {:induction false} CompletedVolumeExact(s: State, log: seq<Event>)
    requires Inv(s) && AllExternal(log)
    ensures Run(s, log).completedVolume == s.completedVolume + PaidOut(s, log)
  {
    if log != [] {
      var front, e := log[..|log| - 1], log[|log| - 1];
      assert e in log && forall d | d in front :: d in log;
      CompletedVolumeExact(s, front);
      RunInv(s, front);
      if Next(Run(s, front), e.env, e.step).Ok? {
        StepCompletes(Run(s, front), e.env, e.step);
      }
    }
  }

  /** The processing volume is always the sum of the amounts of the remittances in processing. */
  lemma ProcessingVolumeExact(cfg: Config, balances: map<Address, nat>, log: seq<Event>)
    requires AllExternal(log)
    ensures var s := Run(Initial(cfg, balances), log);
            s.processingVolume == InFlight(s)
  {
    InitialOk(cfg, balances);
    RunInv(Initial(cfg, balances), log);
  }
}
