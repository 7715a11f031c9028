/** Which entry points look at the migration lock: creation, batch creation and confirmation, and no others. */
module MigrationLock {
  import opened Common
  import opened Types
  import opened Ledger
  import DailyLimit
  import FS = FeeService
  import Netting
  import LedgerRuns

  /** The same state with the lock down. */
  function Unlocked(l: State): State {
    l.(cfg := l.cfg.(migrating := false))
  }

  lemma DepositUnlocked(l: State, now: nat, who: string, e: Entry, fee: int)
    ensures Deposit(Unlocked(l), now, who, e, fee).Ok? <==> Deposit(l, now, who, e, fee).Ok?
  {
    var funded := Transfer(l, who, SELF, e.amount);
    if funded.Ok? {
      assert Transfer(Unlocked(l), who, SELF, e.amount) == Ok(Unlocked(funded.value));
    }
  }

  lemma AcceptUnlocked(l: State, now: nat, who: string, e: Entry, c: DailyLimit.Corridor, fee: Result<int>)
    ensures Accept(Unlocked(l), now, who, e, c, fee).Ok? <==> Accept(l, now, who, e, c, fee).Ok?
  {
    var limited := EnforceLimit(l, now, who, c, e.amount);
    if limited.Ok? && fee.Ok? {
      assert EnforceLimit(Unlocked(l), now, who, c, e.amount) == Ok(Unlocked(limited.value));
      DepositUnlocked(limited.value, now, who, e, fee.value);
    }
  }

  lemma RouteCreationIs(l: State, env: Env, who: string, e: Entry, from: Option<string>, to: Option<string>,
                        fee: Result<int>)
    requires fee == RouteFee(l, env.now, who, e, from, to)
    ensures CreateWithCorridor(l, env, who, e, from, to).Ok?
       <==> ValidateCreate(l, who, e.agent, e.amount).Ok? && env.admit
            && Accept(l, env.now, who, e, LimitCorridor(to), fee).Ok?
  {
  }

  /** Creation along a route does not look at the lock. */
  lemma RouteNotBlocked(l: State, env: Env, who: string, e: Entry, from: Option<string>, to: Option<string>)
    ensures CreateWithCorridor(l, env, who, e, from, to).Ok?
       <==> CreateWithCorridor(Unlocked(l), env, who, e, from, to).Ok?
  {
    var fee := RouteFee(l, env.now, who, e, from, to);
    RouteCreationIs(l, env, who, e, from, to, fee);
    RouteCreationIs(Unlocked(l), env, who, e, from, to, fee);
    AcceptUnlocked(l, env.now, who, e, LimitCorridor(to), fee);
  }

  // ----- the same step on the unlocked state gives the unlocked result -----

  function Lift(r: Result<State>): Result<State> {
    var s :- r;
    Ok(Unlocked(s))
  }

  function LiftPair<T>(r: Result<(State, T)>): Result<(State, T)> {
    var done :- r;
    Ok((Unlocked(done.0), done.1))
  }

  lemma TransferUnlocked(l: State, from: Address, to: Address, amount: int)
    ensures Transfer(Unlocked(l), from, to, amount) == Lift(Transfer(l, from, to, amount))
  {
  }

  lemma FlushUnlocked(l: State, amount: int)
    ensures Flush(Unlocked(l), amount) == Lift(Flush(l, amount))
  {
    TransferUnlocked(l, SELF, l.cfg.treasury, amount);
  }

  lemma AddFeeUnlocked(l: State, fee: int)
    ensures SafeAddFee(Unlocked(l), fee) == Lift(SafeAddFee(l, fee))
  {
    FlushUnlocked(l, l.fees);
  }

  lemma CompleteUnlocked(l: State, id: nat, r: Remittance)
    ensures Complete(Unlocked(l), id, r) == Lift(Complete(l, id, r))
  {
    AddFeeUnlocked(l, r.fee);
  }

  lemma BeginUnlocked(l: State, r: Remittance)
    ensures Begin(Unlocked(l), r) == Lift(Begin(l, r))
  {
  }

  lemma StoreOrCompleteUnlocked(l: State, id: nat, r: Remittance, complete: bool)
    ensures StoreOrComplete(Unlocked(l), id, r, complete) == Lift(StoreOrComplete(l, id, r, complete))
  {
    CompleteUnlocked(l, id, r);
  }

  lemma DisburseUnlocked(l: State, id: nat, r: Remittance, amount: int, netAmount: int)
    ensures Disburse(Unlocked(l), id, r, amount, netAmount) == Lift(Disburse(l, id, r, amount, netAmount))
  {
    TransferUnlocked(l, SELF, r.agent, amount);
    var paid := Pay(l, r.agent, amount);
    if paid.Ok? {
      var recorded := AddDisbursed(paid.value, id, amount);
      assert AddDisbursed(Unlocked(paid.value), id, amount) == Lift(recorded);
      if recorded.Ok? {
        StoreOrCompleteUnlocked(recorded.value, id, r, Disbursed(recorded.value.disbursed, id) >= netAmount);
      }
    }
  }

  lemma ConfirmPartialUnlocked(l: State, env: Env, id: nat, amount: int)
    ensures ConfirmPartial(Unlocked(l), env, id, amount).Ok? <==> ConfirmPartial(l, env, id, amount).Ok?
  {
    if id in l.remittances {
      var r := l.remittances[id];
      BeginUnlocked(l, r);
      var breakdown := FS.FeesWithBreakdown(l.cfg.feeConfig, r.amount, false);
      if breakdown.Ok? && Begin(l, r).Ok? {
        DisburseUnlocked(Begin(l, r).value, id, r.(status := Processing), amount, breakdown.value.netAmount);
      }
    }
  }

  lemma RefundsUnlocked(l: State, env: Env, id: nat)
    ensures MarkFailed(Unlocked(l), env, id).Ok? <==> MarkFailed(l, env, id).Ok?
    ensures Cancel(Unlocked(l), env, id).Ok? <==> Cancel(l, env, id).Ok?
  {
    if id in l.remittances {
      TransferUnlocked(l, SELF, l.remittances[id].sender, l.remittances[id].amount);
    }
  }

  lemma ExpireUnlocked(l: State, id: nat)
    requires id in l.remittances
    ensures Expire(Unlocked(l), id) == Lift(Expire(l, id))
  {
    TransferUnlocked(l, SELF, l.remittances[id].sender, l.remittances[id].amount);
  }

  lemma {:induction false} ExpireAllUnlocked(l: State, now: nat, ids: seq<nat>)
    ensures ExpireAll(Unlocked(l), now, ids) == LiftPair(ExpireAll(l, now, ids))
  {
    if ids != [] {
      var front, id := ids[..|ids| - 1], ids[|ids| - 1];
      ExpireAllUnlocked(l, now, front);
      var before := ExpireAll(l, now, front);
      if before.Ok? && Expirable(before.value.0, now, id) {
        ExpireUnlocked(before.value.0, id);
      }
    }
  }

  lemma DisputesUnlocked(l: State, env: Env, id: nat, forSender: bool)
    ensures RaiseDispute(Unlocked(l), env, id).Ok? <==> RaiseDispute(l, env, id).Ok?
    ensures ResolveDispute(Unlocked(l), env, id, forSender).Ok? <==> ResolveDispute(l, env, id, forSender).Ok?
  {
  }

  lemma {:induction false} LoadBatchUnlocked(l: State, now: nat, ids: seq<nat>)
    ensures LoadBatch(Unlocked(l), now, ids) == LoadBatch(l, now, ids)
  {
    if ids != [] {
      LoadBatchUnlocked(l, now, ids[..|ids| - 1]);
    }
  }

  lemma PayNetUnlocked(l: State, t: Netting.NetTransfer, fees: int)
    ensures PayNet(Unlocked(l), t, fees) == LiftPair(PayNet(l, t, fees))
  {
  }

  lemma {:induction false} PayNetsUnlocked(l: State, ts: seq<Netting.NetTransfer>)
    ensures PayNets(Unlocked(l), ts) == LiftPair(PayNets(l, ts))
  {
    if ts != [] {
      PayNetsUnlocked(l, ts[..|ts| - 1]);
      var before := PayNets(l, ts[..|ts| - 1]);
      if before.Ok? {
        PayNetUnlocked(before.value.0, ts[|ts| - 1], before.value.1);
      }
    }
  }

  lemma StoreFeesUnlocked(l: State, total: int)
    ensures StoreFees(Unlocked(l), total) == Lift(StoreFees(l, total))
  {
    FlushUnlocked(l, total);
  }

  lemma {:induction false} SettleAllUnlocked(l: State, rs: seq<Remittance>)
    ensures SettleAll(Unlocked(l), rs) == Lift(SettleAll(l, rs))
  {
    if rs != [] {
      SettleAllUnlocked(l, rs[..|rs| - 1]);
    }
  }

  lemma BatchSettleUnlocked(l: State, env: Env, ids: seq<nat>)
    ensures BatchSettle(Unlocked(l), env, ids).Ok? <==> BatchSettle(l, env, ids).Ok?
  {
    LoadBatchUnlocked(l, env.now, ids);
    var rs := LoadBatch(l, env.now, ids);
    if rs.Ok? && ComputeNets(rs.value).Ok? {
      var ts := ComputeNets(rs.value).value;
      PayNetsUnlocked(l, ts);
      if PayNets(l, ts).Ok? {
        var (paid, total) := PayNets(l, ts).value;
        StoreFeesUnlocked(paid, total);
        if StoreFees(paid, total).Ok? {
          SettleAllUnlocked(StoreFees(paid, total).value, rs.value);
        }
      }
    }
  }

  lemma WithdrawalsUnlocked(l: State, env: Env, to: Address)
    ensures WithdrawFees(Unlocked(l), env, to).Ok? <==> WithdrawFees(l, env, to).Ok?
    ensures ExecuteWithdrawal(Unlocked(l), env, Some(to)).Ok? <==> ExecuteWithdrawal(l, env, Some(to)).Ok?
  {
    TransferUnlocked(l, SELF, to, l.fees);
  }

  lemma EscrowsUnlocked(l: State, env: Env, id: nat)
    ensures ReleaseEscrow(Unlocked(l), env, id).Ok? <==> ReleaseEscrow(l, env, id).Ok?
    ensures RefundEscrow(Unlocked(l), env, id).Ok? <==> RefundEscrow(l, env, id).Ok?
  {
    if id in l.escrows {
      TransferUnlocked(l, SELF, l.escrows[id].recipient, l.escrows[id].amount);
      TransferUnlocked(l, SELF, l.escrows[id].sender, l.escrows[id].amount);
    }
  }

  lemma CreateEscrowUnlocked(l: State, env: Env, sender: Address, recipient: Address, amount: int)
    ensures CreateEscrow(Unlocked(l), env, sender, recipient, amount).Ok?
       <==> CreateEscrow(l, env, sender, recipient, amount).Ok?
  {
    TransferUnlocked(l, sender, SELF, amount);
  }

  lemma {:induction false} ExpireEscrowsUnlocked(l: State, now: nat, ids: seq<nat>)
    ensures ExpireEscrows(Unlocked(l), now, ids) == LiftPair(ExpireEscrows(l, now, ids))
  {
    if ids != [] {
      var front, id := ids[..|ids| - 1], ids[|ids| - 1];
      ExpireEscrowsUnlocked(l, now, front);
      var before := ExpireEscrows(l, now, front);
      if before.Ok? && EscrowExpirable(before.value.0, now, id) {
        var e := before.value.0.escrows[id];
        TransferUnlocked(before.value.0, SELF, e.sender, e.amount);
      }
    }
  }

  // ----- every other step -----

  predicate LooksAtLock(step: Step) {
    step.DoCreate? || step.DoBatchCreate? || step.DoConfirm?
  }

  predicate OnRemittances(step: Step) {
    || step.DoCreateWithCorridor? || step.DoConfirmPartial? || step.DoMarkFailed? || step.DoCancel?
    || step.DoProcessExpired? || step.DoRaiseDispute? || step.DoResolveDispute?
  }

  lemma RemittanceStepsUnlocked(l: State, env: Env, step: Step)
    requires OnRemittances(step)
    ensures Next(Unlocked(l), env, step).Ok? <==> Next(l, env, step).Ok?
  {
    match step
    case DoCreateWithCorridor(sender, e, from, to) => RouteNotBlocked(l, env, sender, e, from, to);
    case DoConfirmPartial(id, amount) => ConfirmPartialUnlocked(l, env, id, amount);
    case DoMarkFailed(id) => RefundsUnlocked(l, env, id);
    case DoCancel(id) => RefundsUnlocked(l, env, id);
    case DoProcessExpired(ids) => ExpireAllUnlocked(l, env.now, ids);
    case DoRaiseDispute(id) => DisputesUnlocked(l, env, id, true);
    case DoResolveDispute(id, forSender) => DisputesUnlocked(l, env, id, forSender);
  }

  lemma EscrowStepsUnlocked(l: State, env: Env, step: Step)
    requires LedgerRuns.OnEscrows(step)
    ensures Next(Unlocked(l), env, step).Ok? <==> Next(l, env, step).Ok?
  {
    match step
    case DoCreateEscrow(sender, recipient, amount) => CreateEscrowUnlocked(l, env, sender, recipient, amount);
    case DoReleaseEscrow(id) => EscrowsUnlocked(l, env, id);
    case DoRefundEscrow(id) => EscrowsUnlocked(l, env, id);
    case DoProcessExpiredEscrows(ids) => ExpireEscrowsUnlocked(l, env.now, ids);
  }

  lemma OtherStepsUnlocked(l: State, env: Env, step: Step)
    requires !LooksAtLock(step) && !OnRemittances(step) && !LedgerRuns.OnEscrows(step)
    ensures Next(Unlocked(l), env, step).Ok? <==> Next(l, env, step).Ok?
  {
    match step
    case DoBatchSettle(ids) => BatchSettleUnlocked(l, env, ids);
    case DoWithdrawFees(to) => WithdrawalsUnlocked(l, env, to);
    case DoExecuteWithdrawal(to) =>
      if to.Some? {
        WithdrawalsUnlocked(l, env, to.value);
      }
    case DoConfigure(_) =>
    case DoTokenTransfer(sender, recipient, amount) => TransferUnlocked(l, sender, recipient, amount);
  }

  lemma ThreeRefused(l: State, env: Env, step: Step)
    requires LooksAtLock(step) && l.cfg.migrating
    ensures Next(l, env, step) == Err(MigrationInProgress)
  {
  }

  /** Those three are refused while the lock is up; whether any other step succeeds does not depend on it. */
  lemma OnlyThreeBlocked(l: State, env: Env, step: Step)
    ensures LooksAtLock(step) && l.cfg.migrating ==> Next(l, env, step) == Err(MigrationInProgress)
    ensures !LooksAtLock(step) ==> (Next(Unlocked(l), env, step).Ok? <==> Next(l, env, step).Ok?)
  {
    if LooksAtLock(step) {
      if l.cfg.migrating {
        ThreeRefused(l, env, step);
      }
    } else if OnRemittances(step) {
      RemittanceStepsUnlocked(l, env, step);
    } else if LedgerRuns.OnEscrows(step) {
      EscrowStepsUnlocked(l, env, step);
    } else {
      OtherStepsUnlocked(l, env, step);
    }
  }
}
