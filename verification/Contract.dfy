/**
 The contract object: stored fields that the entry points update in place. Each entry point is
 proved against its specification in `Ledger`. When an entry point fails half-way its writes are
 undone by the host; `Invoke` is the host's part.
 */
module Contract {
  import opened Common
  import opened Types
  import opened Ledger
  import DailyLimit
  import FeeService
  import Netting
  import NettingLaws
  import SenderVolume

  // ----- an error in a loop is the error of the whole -----

  lemma {:induction false} BatchTotalFails(s: State, sender: Address, entries: seq<Entry>, i: nat, error: Error)
    requires i <= |entries| && BatchTotal(s, sender, entries[..i]) == Err(error)
    ensures BatchTotal(s, sender, entries) == Err(error)
    decreases |entries| - i
  {
    if i < |entries| {
      assert entries[..i + 1][..i] == entries[..i];
      BatchTotalFails(s, sender, entries, i + 1, error);
    } else {
      assert entries[..i] == entries;
    }
  }

  lemma {:induction false} BookAllFails(s: State, now: nat, sender: Address, entries: seq<Entry>, prior: int,
                                        i: nat, error: Error)
    requires i <= |entries| && BookAll(s, now, sender, entries[..i], prior) == Err(error)
    ensures BookAll(s, now, sender, entries, prior) == Err(error)
    decreases |entries| - i
  {
    if i < |entries| {
      assert entries[..i + 1][..i] == entries[..i];
      BookAllFails(s, now, sender, entries, prior, i + 1, error);
    } else {
      assert entries[..i] == entries;
    }
  }

  lemma {:induction false} ExpireAllFails(s: State, now: nat, ids: seq<nat>, i: nat, error: Error)
    requires i <= |ids| && ExpireAll(s, now, ids[..i]) == Err(error)
    ensures ExpireAll(s, now, ids) == Err(error)
    decreases |ids| - i
  {
    if i < |ids| {
      assert ids[..i + 1][..i] == ids[..i];
      ExpireAllFails(s, now, ids, i + 1, error);
    } else {
      assert ids[..i] == ids;
    }
  }

  lemma {:induction false} ExpireEscrowsFails(s: State, now: nat, ids: seq<nat>, i: nat, error: Error)
    requires i <= |ids| && ExpireEscrows(s, now, ids[..i]) == Err(error)
    ensures ExpireEscrows(s, now, ids) == Err(error)
    decreases |ids| - i
  {
    if i < |ids| {
      assert ids[..i + 1][..i] == ids[..i];
      ExpireEscrowsFails(s, now, ids, i + 1, error);
    } else {
      assert ids[..i] == ids;
    }
  }

  lemma {:induction false} LoadBatchFails(s: State, now: nat, ids: seq<nat>, i: nat, error: Error)
    requires i <= |ids| && LoadBatch(s, now, ids[..i]) == Err(error)
    ensures LoadBatch(s, now, ids) == Err(error)
    decreases |ids| - i
  {
    if i < |ids| {
      assert ids[..i + 1][..i] == ids[..i];
      LoadBatchFails(s, now, ids, i + 1, error);
    } else {
      assert ids[..i] == ids;
    }
  }

  lemma {:induction false} PayNetsFails(s: State, ts: seq<Netting.NetTransfer>, i: nat, error: Error)
    requires i <= |ts| && PayNets(s, ts[..i]) == Err(error)
    ensures PayNets(s, ts) == Err(error)
    decreases |ts| - i
  {
    if i < |ts| {
      assert ts[..i + 1][..i] == ts[..i];
      PayNetsFails(s, ts, i + 1, error);
    } else {
      assert ts[..i] == ts;
    }
  }

  lemma {:induction false} SettleAllFails(s: State, rs: seq<Remittance>, i: nat, error: Error)
    requires i <= |rs| && SettleAll(s, rs[..i]) == Err(error)
    ensures SettleAll(s, rs) == Err(error)
    decreases |rs| - i
  {
    if i < |rs| {
      assert rs[..i + 1][..i] == rs[..i];
      SettleAllFails(s, rs, i + 1, error);
    } else {
      assert rs[..i] == rs;
    }
  }

  predicate IsPayment(step: Step) {
    || step.DoCreate? || step.DoCreateWithCorridor? || step.DoBatchCreate? || step.DoConfirm? || step.DoConfirmPartial?
    || step.DoBatchSettle?
  }

  predicate IsRefund(step: Step) {
    step.DoMarkFailed? || step.DoCancel? || step.DoProcessExpired? || step.DoRaiseDispute? || step.DoResolveDispute?
  }

  class RemittanceContract {
    var cfg: Config
    var balances: map<Address, nat>
    var remittances: map<nat, Remittance>
    var counter: nat
    var disbursed: map<nat, int>
    var settled: set<nat>
    var escrows: map<nat, Escrow>
    var escrowCounter: nat
    var fees: int
    var processingVolume: int
    var completedVolume: int
    var transfers: map<Address, seq<DailyLimit.TransferRecord>>
    var volumes: map<Address, seq<SenderVolume.Bucket>>

    function Snapshot(): State
      reads this
    {
      State(cfg, balances, remittances, counter, disbursed, settled, escrows, escrowCounter, fees,
            processingVolume, completedVolume, transfers, volumes)
    }

    /** On success the stored state is the specified one; on failure the error is. */
    ghost predicate Agrees(answer: Result<()>, spec: Result<State>)
      reads this
    {
      match spec
      case Ok(s') => answer == Ok(()) && Snapshot() == s'
      case Err(error) => answer == Err(error)
    }

    ghost predicate Answers<T(!new)>(answer: Result<T>, spec: Result<(State, T)>)
      reads this
    {
      match spec
      case Ok(done) => answer == Ok(done.1) && Snapshot() == done.0
      case Err(error) => answer == Err(error)
    }

    constructor (cfg: Config, balances: map<Address, nat>)
      ensures Snapshot() == State(cfg, balances, map[], 0, map[], {}, map[], 0, 0, 0, 0, map[], map[])
    {
      this.cfg, this.balances := cfg, balances;
      remittances, counter, disbursed, settled := map[], 0, map[], {};
      escrows, escrowCounter := map[], 0;
      fees, processingVolume, completedVolume := 0, 0, 0;
      transfers, volumes := map[], map[];
    }

    // ----- the token -----

    method TransferTokens(from: Address, to: Address, amount: int) returns (r: Result<()>)
      modifies this`balances
      ensures Agrees(r, Transfer(old(Snapshot()), from, to, amount))
    {
      if amount < 0 || amount > Balance(balances, from) {
        return Err(HostTrap);
      }
      if from != to {
        balances := balances[from := Balance(balances, from) - amount];
        balances := balances[to := Balance(balances, to) + amount];
      }
      r := Ok(());
    }

    // ----- accumulated fees -----

    method TriggerFlush(feesToFlush: int) returns (r: Result<()>)
      modifies this`balances, this`fees
      ensures Agrees(r, Flush(old(Snapshot()), feesToFlush))
    {
      if feesToFlush == 0 {
        return Ok(());
      }
      if feesToFlush < 0 {
        return Err(InvalidAmount);
      }
      var _ :- TransferTokens(SELF, cfg.treasury, feesToFlush);
      fees := 0;
      r := Ok(());
    }

    method SafeAddAccumulatedFee(newFee: int) returns (r: Result<()>)
      modifies this`balances, this`fees
      ensures Agrees(r, SafeAddFee(old(Snapshot()), newFee))
    {
      if newFee < 0 {
        return Err(InvalidAmount);
      }
      if newFee == 0 {
        return Ok(());
      }
      var newTotal :- Checked(fees + newFee);
      if newTotal > MAX_FEES {
        if fees != 0 {
          var _ :- TriggerFlush(fees);
        }
        if newFee > MAX_FEES {
          return Err(Overflow);
        }
        fees := newFee;
      } else {
        fees := newTotal;
      }
      r := Ok(());
    }

    // ----- creation -----

    method ValidateCreateRequest(sender: Address, agent: Address, amount: int) returns (r: Result<()>)
      ensures r == ValidateCreate(Snapshot(), sender, agent, amount)
    {
      if amount <= 0 {
        return Err(InvalidAmount);
      }
      if agent !in cfg.agents {
        return Err(AgentNotRegistered);
      }
      if sender in cfg.blacklisted {
        return Err(UserBlacklisted);
      }
      r := Ok(());
    }

    method EnforceDailySendLimit(now: nat, sender: Address, c: DailyLimit.Corridor, amount: int) returns (r: Result<()>)
      modifies this`transfers
      ensures Agrees(r, EnforceLimit(old(Snapshot()), now, sender, c, amount))
    {
      var stored := if sender in transfers then transfers[sender] else [];
      var pruned :- DailyLimit.EnforceDailySendLimit(stored, cfg.limits, now, c, amount);
      transfers := transfers[sender := pruned];
      r := Ok(());
    }

    method RecordVolume(sender: Address, amount: int, now: nat) returns (r: Result<()>)
      modifies this`volumes
      ensures var spec := SenderVolume.Record(VolumeOf(old(Snapshot()), sender), amount, now);
              if spec.Ok? then r == Ok(()) && volumes == old(volumes)[sender := spec.value] else r == Err(spec.error)
    {
      var stored := if sender in volumes then volumes[sender] else [];
      var history :- SenderVolume.RecordSenderVolume(stored, amount, now);
      volumes := volumes[sender := history];
      r := Ok(());
    }

    /** The deposit, the new record, the counter and the volume history. */
    method AcceptDeposit(now: nat, sender: Address, e: Entry, fee: int) returns (r: Result<nat>)
      modifies this
      ensures Answers(r, Deposit(old(Snapshot()), now, sender, e, fee))
    {
      var _ :- TransferTokens(sender, SELF, e.amount);
      var remittanceId :- NextId(counter);
      var expiresAt := if cfg.expiryWindow > 0 then Some(SaturatingAddU64(now, cfg.expiryWindow)) else None;
      var remittance := Remittance(remittanceId, sender, e.agent, e.amount, fee, Pending, e.expiry, now, None, expiresAt);
      remittances := remittances[remittanceId := remittance];
      counter := remittanceId;
      var _ :- RecordVolume(sender, e.amount, now);
      r := Ok(remittanceId);
    }

    method CreateRemittance(env: Env, sender: Address, e: Entry) returns (r: Result<nat>)
      modifies this
      ensures Answers(r, Create(old(Snapshot()), env, sender, e))
    {
      if cfg.migrating {
        return Err(MigrationInProgress);
      }
      var _ :- ValidateCreateRequest(sender, e.agent, e.amount);
      if !env.admit || !env.screened {
        return Err(Rejected);
      }
      var _ :- EnforceDailySendLimit(env.now, sender, DailyLimit.GLOBAL_CORRIDOR, e.amount);
      var stored := if sender in volumes then volumes[sender] else [];
      var priorVolume := SenderVolume.GetSenderRollingVolume(stored, env.now);
      var fee :- FeeService.PlatformFeeForSender(cfg.feeConfig, e.amount, priorVolume);
      r := AcceptDeposit(env.now, sender, e, fee);
    }

    method CreateRemittanceWithCorridor(env: Env, sender: Address, e: Entry, from: Option<string>, to: Option<string>)
      returns (r: Result<nat>)
      modifies this
      ensures Answers(r, CreateWithCorridor(old(Snapshot()), env, sender, e, from, to))
    {
      var _ :- ValidateCreateRequest(sender, e.agent, e.amount);
      if !env.admit {
        return Err(Rejected);
      }
      var limitCorridor := DailyLimit.GLOBAL_CORRIDOR;
      if to.Some? {
        limitCorridor := limitCorridor.(country := to.value);
      }
      var _ :- EnforceDailySendLimit(env.now, sender, limitCorridor, e.amount);
      var route: Option<FeeService.Route> := None;
      if from.Some? && to.Some? && (from.value, to.value) in cfg.routes {
        route := Some(cfg.routes[(from.value, to.value)]);
      }
      var stored := if sender in volumes then volumes[sender] else [];
      var priorVolume := SenderVolume.GetSenderRollingVolume(stored, env.now);
      var breakdown :- FeeService.FeesForSender(cfg.feeConfig, route, e.amount, priorVolume);
      r := AcceptDeposit(env.now, sender, e, breakdown.platformFee);
    }

    method TotalOfEntries(sender: Address, entries: seq<Entry>) returns (r: Result<int>)
      ensures r == BatchTotal(Snapshot(), sender, entries)
    {
      var totalAmount := 0;
      for i := 0 to |entries|
        invariant BatchTotal(Snapshot(), sender, entries[..i]) == Ok(totalAmount)
      {
        assert entries[..i + 1][..i] == entries[..i];
        var entry := entries[i];
        var valid := ValidateCreateRequest(sender, entry.agent, entry.amount);
        if valid.Err? {
          BatchTotalFails(Snapshot(), sender, entries, i + 1, valid.error);
          return Err(valid.error);
        }
        totalAmount := totalAmount + entry.amount;
        if !InI128(totalAmount) {
          BatchTotalFails(Snapshot(), sender, entries, i + 1, Overflow);
          return Err(Overflow);
        }
      }
      assert entries[..|entries|] == entries;
      r := Ok(totalAmount);
    }

    /** One entry of a batch; the stored counter is left for the end of the batch. */
    method BookEntry(now: nat, sender: Address, e: Entry, next: nat, ids: seq<nat>, cumulative: int)
      returns (r: Result<(nat, int)>)
      modifies this`remittances, this`volumes
      ensures var spec := BookNext(Booked(old(Snapshot()).(counter := next), ids, cumulative), now, sender, e);
              match spec
              case Ok(b) =>
                && r.Ok? && b.ids == ids + [r.value.0] && b.volume == r.value.1
                && b.state == Snapshot().(counter := r.value.0)
              case Err(error) => r == Err(error)
    {
      var remittanceId :- NextId(next);
      var totalVolume :- Checked(cumulative + e.amount);
      var fee :- FeeService.PlatformFeeForVolume(cfg.feeConfig, e.amount, totalVolume);
      var expiresAt := if cfg.expiryWindow > 0 then Some(SaturatingAddU64(now, cfg.expiryWindow)) else None;
      var remittance := Remittance(remittanceId, sender, e.agent, e.amount, fee, Pending, e.expiry, now, None, expiresAt);
      remittances := remittances[remittanceId := remittance];
      var _ :- RecordVolume(sender, e.amount, now);
      r := Ok((remittanceId, totalVolume));
    }

    method BookEntries(now: nat, sender: Address, entries: seq<Entry>) returns (r: Result<seq<nat>>)
      modifies this
      ensures var spec := BookAll(old(Snapshot()), now, sender, entries, Rolling(old(Snapshot()), sender, now));
              match spec
              case Ok(b) => r == Ok(b.ids) && Snapshot() == b.state
              case Err(error) => r == Err(error)
    {
      ghost var before := Snapshot();
      var stored := if sender in volumes then volumes[sender] else [];
      var priorVolume := SenderVolume.GetSenderRollingVolume(stored, now);
      var remittanceIds: seq<nat> := [];
      var next := counter;
      var cumulativeVolume := priorVolume;
      for i := 0 to |entries|
        invariant BookAll(before, now, sender, entries[..i], priorVolume)
               == Ok(Booked(Snapshot().(counter := next), remittanceIds, cumulativeVolume))
      {
        assert entries[..i + 1][..i] == entries[..i];
        var booked := BookEntry(now, sender, entries[i], next, remittanceIds, cumulativeVolume);
        if booked.Err? {
          BookAllFails(before, now, sender, entries, priorVolume, i + 1, booked.error);
          return Err(booked.error);
        }
        next, cumulativeVolume := booked.value.0, booked.value.1;
        remittanceIds := remittanceIds + [next];
      }
      assert entries[..|entries|] == entries;
      counter := next;
      r := Ok(remittanceIds);
    }

    method BatchCreateRemittances(env: Env, sender: Address, entries: seq<Entry>) returns (r: Result<seq<nat>>)
      modifies this
      ensures Answers(r, BatchCreate(old(Snapshot()), env, sender, entries))
    {
      if cfg.migrating {
        return Err(MigrationInProgress);
      }
      if |entries| == 0 || |entries| > MAX_BATCH_SIZE {
        return Err(InvalidBatchSize);
      }
      if !env.admit {
        return Err(Rejected);
      }
      var totalAmount :- TotalOfEntries(sender, entries);
      var _ :- EnforceDailySendLimit(env.now, sender, DailyLimit.GLOBAL_CORRIDOR, totalAmount);
      var _ :- TransferTokens(sender, SELF, totalAmount);
      r := BookEntries(env.now, sender, entries);
    }

    // ----- payout -----

    method TransitionToProcessing(remittance: Remittance) returns (r: Result<Remittance>)
      modifies this`processingVolume
      ensures var spec := StartProcessing(old(Snapshot()), remittance);
              match spec
              case Ok(s') => r == Ok(remittance.(status := Processing)) && Snapshot() == s'
              case Err(error) => r == Err(error)
    {
      if remittance.status != Processing && !remittance.status.CanTransitionTo(Processing) {
        return Err(InvalidStateTransition);
      }
      var volume :- Checked(processingVolume + remittance.amount);
      processingVolume := volume;
      r := Ok(remittance.(status := Processing));
    }

    method CompleteRemittance(id: nat, remittance: Remittance) returns (r: Result<()>)
      modifies this
      ensures Agrees(r, Complete(old(Snapshot()), id, remittance))
    {
      var _ :- SafeAddAccumulatedFee(remittance.fee);
      var processing :- Checked(processingVolume - remittance.amount);
      processingVolume := processing;
      var completed :- Checked(completedVolume + remittance.amount);
      completedVolume := completed;
      if remittance.status != Completed && !remittance.status.CanTransitionTo(Completed) {
        return Err(InvalidStateTransition);
      }
      remittances := remittances[id := remittance.(status := Completed)];
      settled := settled + {id};
      r := Ok(());
    }

    method PayOutAndComplete(id: nat, remittance: Remittance, payoutAmount: int, protocolFee: int) returns (r: Result<()>)
      modifies this
      ensures Agrees(r, PayOut(old(Snapshot()), id, remittance, payoutAmount, protocolFee))
    {
      var _ :- TransferTokens(SELF, remittance.agent, payoutAmount);
      if protocolFee > 0 {
        var _ :- TransferTokens(SELF, cfg.treasury, protocolFee);
      }
      r := CompleteRemittance(id, remittance);
    }

    method ConfirmPayout(env: Env, agent: Address, id: nat) returns (r: Result<()>)
      modifies this
      ensures Agrees(r, Confirm(old(Snapshot()), env, agent, id))
    {
      if cfg.migrating {
        return Err(MigrationInProgress);
      }
      if cfg.paused {
        return Err(ContractPaused);
      }
      if id !in remittances {
        return Err(RemittanceNotFound);
      }
      var remittance := remittances[id];
      if remittance.status != Pending {
        return Err(InvalidStatus);
      }
      if id in settled {
        return Err(DuplicateSettlement);
      }
      if Expired(remittance.expiry, env.now) {
        return Err(SettlementExpired);
      }
      if agent != remittance.agent {
        return Err(Unauthorized);
      }
      if remittance.agent !in cfg.agents {
        return Err(AgentNotRegistered);
      }
      if !env.admit {
        return Err(Rejected);
      }
      remittance :- TransitionToProcessing(remittance);
      var breakdown :- FeeService.FeesWithBreakdown(cfg.feeConfig, remittance.amount, false);
      if remittance.fee != breakdown.platformFee {
        return Err(InvalidAmount);
      }
      r := PayOutAndComplete(id, remittance, breakdown.netAmount, breakdown.protocolFee);
    }

    method StoreOrCompleteRemittance(id: nat, remittance: Remittance, complete: bool) returns (r: Result<()>)
      modifies this
      ensures Agrees(r, StoreOrComplete(old(Snapshot()), id, remittance, complete))
    {
      if complete {
        r := CompleteRemittance(id, remittance);
      } else {
        remittances := remittances[id := remittance];
        r := Ok(());
      }
    }

    method AddDisbursedAmount(id: nat, amount: int) returns (r: Result<()>)
      modifies this`disbursed
      ensures Agrees(r, AddDisbursed(old(Snapshot()), id, amount))
    {
      var newTotal :- Checked((if id in disbursed then disbursed[id] else 0) + amount);
      disbursed := disbursed[id := newTotal];
      r := Ok(());
    }

    method DisbursePart(id: nat, remittance: Remittance, amount: int, netPayout: int) returns (r: Result<()>)
      modifies this
      ensures Agrees(r, Disburse(old(Snapshot()), id, remittance, amount, netPayout))
    {
      var _ :- TransferTokens(SELF, remittance.agent, amount);
      var _ :- AddDisbursedAmount(id, amount);
      r := StoreOrCompleteRemittance(id, remittance, disbursed[id] >= netPayout);
    }

    method ConfirmPartialPayout(env: Env, id: nat, amount: int) returns (r: Result<()>)
      modifies this
      ensures Agrees(r, ConfirmPartial(old(Snapshot()), env, id, amount))
    {
      if amount <= 0 {
        return Err(InvalidAmount);
      }
      if id !in remittances {
        return Err(RemittanceNotFound);
      }
      var remittance := remittances[id];
      if remittance.agent !in cfg.agents {
        return Err(AgentNotRegistered);
      }
      if remittance.status != Pending && remittance.status != Processing {
        return Err(InvalidStatus);
      }
      if !env.admit {
        return Err(Rejected);
      }
      var breakdown :- FeeService.FeesWithBreakdown(cfg.feeConfig, remittance.amount, false);
      var alreadyDisbursed := if id in disbursed then disbursed[id] else 0;
      var remaining := breakdown.netAmount - alreadyDisbursed;
      if !InI128(remaining) {
        return Err(Underflow);
      }
      if amount > remaining {
        return Err(InvalidAmount);
      }
      if remittance.status == Pending {
        remittance :- TransitionToProcessing(remittance);
      }
      r := DisbursePart(id, remittance, amount, breakdown.netAmount);
    }

    // ----- refunds -----

    method MarkRemittanceFailed(env: Env, id: nat) returns (r: Result<()>)
      modifies this
      ensures Agrees(r, MarkFailed(old(Snapshot()), env, id))
    {
      if id !in remittances {
        return Err(RemittanceNotFound);
      }
      var remittance := remittances[id];
      if remittance.agent !in cfg.agents {
        return Err(AgentNotRegistered);
      }
      if !env.admit {
        return Err(Rejected);
      }
      if remittance.status != Pending && remittance.status != Processing {
        return Err(InvalidStatus);
      }
      var _ :- TransferTokens(SELF, remittance.sender, remittance.amount);
      var wasProcessing := remittance.status == Processing;
      var originalAmount := remittance.amount;
      remittance := remittance.(status := Cancelled, amount := 0);
      remittances := remittances[id := remittance];
      if wasProcessing {
        var volume :- Checked(processingVolume - originalAmount);
        processingVolume := volume;
      }
      r := Ok(());
    }

    method CancelRemittance(env: Env, id: nat) returns (r: Result<()>)
      modifies this
      ensures Agrees(r, Cancel(old(Snapshot()), env, id))
    {
      if id !in remittances {
        return Err(RemittanceNotFound);
      }
      var remittance := remittances[id];
      if remittance.status != Pending {
        return Err(InvalidStatus);
      }
      if !env.admit {
        return Err(Rejected);
      }
      var _ :- TransferTokens(SELF, remittance.sender, remittance.amount);
      remittance := remittance.(status := Cancelled, amount := 0);
      remittances := remittances[id := remittance];
      r := Ok(());
    }

    method ExpireRemittance(id: nat) returns (r: Result<()>)
      requires id in remittances
      modifies this`balances, this`remittances
      ensures Agrees(r, Expire(old(Snapshot()), id))
    {
      var remittance := remittances[id];
      var _ :- TransferTokens(SELF, remittance.sender, remittance.amount);
      if remittance.status != Cancelled && !remittance.status.CanTransitionTo(Cancelled) {
        return Err(InvalidStateTransition);
      }
      remittances := remittances[id := remittance.(status := Cancelled)];
      r := Ok(());
    }

    method ProcessExpiredRemittances(env: Env, ids: seq<nat>) returns (r: Result<seq<nat>>)
      modifies this
      ensures Answers(r, ProcessExpired(old(Snapshot()), env, ids))
    {
      if |ids| > cfg.maxExpiredBatch {
        return Err(InvalidBatchSize);
      }
      ghost var before := Snapshot();
      var processedIds: seq<nat> := [];
      for i := 0 to |ids|
        invariant ExpireAll(before, env.now, ids[..i]) == Ok((Snapshot(), processedIds))
      {
        assert ids[..i + 1][..i] == ids[..i];
        var id := ids[i];
        if id !in remittances {
          continue;
        }
        if remittances[id].status != Pending {
          continue;
        }
        if !Expired(remittances[id].expiry, env.now) {
          continue;
        }
        var refunded := ExpireRemittance(id);
        if refunded.Err? {
          ExpireAllFails(before, env.now, ids, i + 1, refunded.error);
          return Err(refunded.error);
        }
        processedIds := processedIds + [id];
      }
      assert ids[..|ids|] == ids;
      r := Ok(processedIds);
    }

    // ----- disputes -----

    method RaiseRemittanceDispute(env: Env, id: nat) returns (r: Result<()>)
      modifies this
      ensures Agrees(r, RaiseDispute(old(Snapshot()), env, id))
    {
      if id !in remittances {
        return Err(RemittanceNotFound);
      }
      if !env.admit {
        return Err(Rejected);
      }
      var remittance := remittances[id];
      if remittance.status != Failed || remittance.failedAt == None {
        return Err(InvalidStatus);
      }
      var deadline := remittance.failedAt.value + cfg.disputeWindow;
      if deadline > U64_MAX {
        return Err(HostTrap);
      }
      if env.now > deadline {
        return Err(DisputeWindowExpired);
      }
      remittances := remittances[id := remittance.(status := Disputed)];
      r := Ok(());
    }

    method ResolveRemittanceDispute(env: Env, id: nat, inFavourOfSender: bool) returns (r: Result<()>)
      modifies this
      ensures Agrees(r, ResolveDispute(old(Snapshot()), env, id, inFavourOfSender))
    {
      if !env.admit {
        return Err(Rejected);
      }
      if id !in remittances {
        return Err(RemittanceNotFound);
      }
      var remittance := remittances[id];
      if remittance.status != Disputed {
        return Err(NotDisputed);
      }
      if inFavourOfSender {
        var _ :- TransferTokens(SELF, remittance.sender, remittance.amount);
        remittance := remittance.(status := Cancelled);
      } else {
        var breakdown :- FeeService.FeesWithBreakdown(cfg.feeConfig, remittance.amount, true);
        var _ :- TransferTokens(SELF, remittance.agent, breakdown.netAmount);
        remittance := remittance.(status := Completed);
      }
      remittances := remittances[id := remittance];
      r := Ok(());
    }

    // ----- batch settlement -----

    method LoadRemittances(now: nat, ids: seq<nat>) returns (r: Result<seq<Remittance>>)
      ensures r == LoadBatch(Snapshot(), now, ids)
    {
      var loaded: seq<Remittance> := [];
      var seenIds: seq<nat> := [];
      for i := 0 to |ids|
        invariant LoadBatch(Snapshot(), now, ids[..i]) == Ok(loaded) && seenIds == ids[..i]
      {
        assert ids[..i + 1][..i] == ids[..i];
        var id := ids[i];
        var problem: Option<Error> := None;
        if id in seenIds {
          problem := Some(DuplicateSettlement);
        } else if id !in remittances {
          problem := Some(RemittanceNotFound);
        } else if remittances[id].status != Pending {
          problem := Some(InvalidStatus);
        } else if id in settled {
          problem := Some(DuplicateSettlement);
        } else if Expired(remittances[id].expiry, now) {
          problem := Some(SettlementExpired);
        }
        if problem.Some? {
          LoadBatchFails(Snapshot(), now, ids, i + 1, problem.value);
          return Err(problem.value);
        }
        seenIds := seenIds + [id];
        loaded := loaded + [remittances[id]];
      }
      assert ids[..|ids|] == ids;
      r := Ok(loaded);
    }

    method ExecuteTransfer(transfer: Netting.NetTransfer, currentFees: int) returns (r: Result<int>)
      modifies this`balances
      ensures var spec := PayNet(old(Snapshot()), transfer, currentFees);
              match spec
              case Ok(done) => r == Ok(done.1) && Snapshot() == done.0
              case Err(error) => r == Err(error)
    {
      var to, amount;
      if transfer.netAmount > 0 {
        to, amount := transfer.pair.b, transfer.netAmount;
      } else if transfer.netAmount < 0 {
        if transfer.netAmount == I128_MIN {
          return Err(HostTrap); // the negation overflows
        }
        to, amount := transfer.pair.a, -transfer.netAmount;
      } else {
        return Ok(currentFees);
      }
      var payoutAmount :- Checked(amount - transfer.totalFees);
      var _ :- TransferTokens(SELF, to, payoutAmount);
      var total :- Checked(currentFees + transfer.totalFees);
      r := Ok(total);
    }

    method ExecuteTransfers(netTransfers: seq<Netting.NetTransfer>) returns (r: Result<int>)
      modifies this`balances
      ensures var spec := PayNets(old(Snapshot()), netTransfers);
              match spec
              case Ok(done) => r == Ok(done.1) && Snapshot() == done.0
              case Err(error) => r == Err(error)
    {
      ghost var before := Snapshot();
      var currentFees := fees;
      for i := 0 to |netTransfers|
        invariant PayNets(before, netTransfers[..i]) == Ok((Snapshot(), currentFees))
      {
        assert netTransfers[..i + 1][..i] == netTransfers[..i];
        var executed := ExecuteTransfer(netTransfers[i], currentFees);
        if executed.Err? {
          PayNetsFails(before, netTransfers, i + 1, executed.error);
          return Err(executed.error);
        }
        currentFees := executed.value;
      }
      assert netTransfers[..|netTransfers|] == netTransfers;
      r := Ok(currentFees);
    }

    method StoreAccumulatedFees(currentFees: int) returns (r: Result<()>)
      modifies this`balances, this`fees
      ensures Agrees(r, StoreFees(old(Snapshot()), currentFees))
    {
      if currentFees > MAX_FEES {
        var _ :- TriggerFlush(currentFees);
        fees := 0;
      } else {
        fees := currentFees;
      }
      r := Ok(());
    }

    method SettleRemittances(batch: seq<Remittance>) returns (r: Result<seq<nat>>)
      modifies this`remittances, this`settled
      ensures var spec := SettleAll(old(Snapshot()), batch);
              match spec
              case Ok(s') => r == Ok(Ids(batch)) && Snapshot() == s'
              case Err(error) => r == Err(error)
    {
      ghost var before := Snapshot();
      var settledIds: seq<nat> := [];
      for i := 0 to |batch|
        invariant SettleAll(before, batch[..i]) == Ok(Snapshot()) && settledIds == Ids(batch[..i])
      {
        assert batch[..i + 1][..i] == batch[..i];
        var remittance := batch[i];
        var payoutAmount := Checked(remittance.amount - remittance.fee);
        if payoutAmount.Err? {
          SettleAllFails(before, batch, i + 1, payoutAmount.error);
          return Err(payoutAmount.error);
        }
        remittances := remittances[remittance.id := remittance.(status := Completed)];
        settled := settled + {remittance.id};
        settledIds := settledIds + [remittance.id];
      }
      assert batch[..|batch|] == batch;
      r := Ok(settledIds);
    }

    method BatchSettleWithNetting(env: Env, ids: seq<nat>) returns (r: Result<seq<nat>>)
      modifies this
      ensures Answers(r, BatchSettle(old(Snapshot()), env, ids))
    {
      if cfg.paused {
        return Err(ContractPaused);
      }
      if |ids| == 0 || |ids| > MAX_BATCH_SIZE {
        return Err(InvalidAmount);
      }
      var batch :- LoadRemittances(env.now, ids);
      var nettingResult :- Netting.ComputeNetSettlements(batch);
      var _ :- NettingLaws.ValidateNetSettlement(batch, nettingResult.netTransfers);
      var currentFees :- ExecuteTransfers(nettingResult.netTransfers);
      var _ :- StoreAccumulatedFees(currentFees);
      r := SettleRemittances(batch);
    }

    // ----- fee withdrawal -----

    method WithdrawAccumulatedFees(env: Env, to: Address) returns (r: Result<()>)
      modifies this
      ensures Agrees(r, WithdrawFees(old(Snapshot()), env, to))
    {
      if to == SELF {
        return Err(InvalidAddress);
      }
      if fees <= 0 {
        return Err(NoFeesToWithdraw);
      }
      if !env.admit {
        return Err(Rejected);
      }
      var _ :- TransferTokens(SELF, to, fees);
      fees := 0;
      r := Ok(());
    }

    method ExecuteFeeWithdrawal(env: Env, withdrawTo: Option<Address>) returns (r: Result<()>)
      modifies this
      ensures Agrees(r, ExecuteWithdrawal(old(Snapshot()), env, withdrawTo))
    {
      if !env.admit {
        return Err(Rejected);
      }
      if fees <= 0 {
        return Err(NoFeesToWithdraw);
      }
      if withdrawTo == None {
        return Err(InvalidAddress);
      }
      var _ :- TransferTokens(SELF, withdrawTo.value, fees);
      fees := 0;
      r := Ok(());
    }

    // ----- escrows -----

    method OpenEscrow(env: Env, sender: Address, recipient: Address, amount: int) returns (r: Result<nat>)
      modifies this
      ensures Answers(r, CreateEscrow(old(Snapshot()), env, sender, recipient, amount))
    {
      if !env.admit {
        return Err(Rejected);
      }
      if amount <= 0 {
        return Err(InvalidAmount);
      }
      var _ :- TransferTokens(sender, SELF, amount);
      var transferId :- NextId(escrowCounter);
      var expiry: Option<nat> := None;
      if cfg.escrowTtl != 0 {
        if env.now + cfg.escrowTtl > U64_MAX {
          return Err(Overflow);
        }
        expiry := Some(env.now + cfg.escrowTtl);
      }
      escrows := escrows[transferId := Escrow(transferId, sender, recipient, amount, expiry, Locked)];
      escrowCounter := transferId;
      r := Ok(transferId);
    }

    method ReleaseLockedEscrow(env: Env, id: nat) returns (r: Result<()>)
      modifies this
      ensures Agrees(r, ReleaseEscrow(old(Snapshot()), env, id))
    {
      if id !in escrows {
        return Err(EscrowNotFound);
      }
      var escrow := escrows[id];
      if !env.admit {
        return Err(Rejected);
      }
      if escrow.status != Locked {
        return Err(InvalidEscrowStatus);
      }
      var _ :- TransferTokens(SELF, escrow.recipient, escrow.amount);
      escrows := escrows[id := escrow.(status := Released)];
      r := Ok(());
    }

    method RefundLockedEscrow(env: Env, id: nat) returns (r: Result<()>)
      modifies this
      ensures Agrees(r, RefundEscrow(old(Snapshot()), env, id))
    {
      if id !in escrows {
        return Err(EscrowNotFound);
      }
      var escrow := escrows[id];
      if !env.admit {
        return Err(Rejected);
      }
      if escrow.status != Locked {
        return Err(InvalidEscrowStatus);
      }
      var _ :- TransferTokens(SELF, escrow.sender, escrow.amount);
      escrows := escrows[id := escrow.(status := Refunded)];
      r := Ok(());
    }

    method RefundExpiredEscrows(env: Env, ids: seq<nat>) returns (r: Result<seq<nat>>)
      modifies this
      ensures Answers(r, ProcessExpiredEscrows(old(Snapshot()), env, ids))
    {
      if |ids| > cfg.maxExpiredBatch {
        return Err(InvalidBatchSize);
      }
      ghost var before := Snapshot();
      var processedIds: seq<nat> := [];
      for i := 0 to |ids|
        invariant ExpireEscrows(before, env.now, ids[..i]) == Ok((Snapshot(), processedIds))
      {
        assert ids[..i + 1][..i] == ids[..i];
        var id := ids[i];
        if id !in escrows {
          continue;
        }
        var escrow := escrows[id];
        if escrow.status != Locked || !Expired(escrow.expiry, env.now) {
          continue;
        }
        var refunded := TransferTokens(SELF, escrow.sender, escrow.amount);
        if refunded.Err? {
          ExpireEscrowsFails(before, env.now, ids, i + 1, refunded.error);
          return Err(refunded.error);
        }
        escrows := escrows[id := escrow.(status := Refunded)];
        processedIds := processedIds + [id];
      }
      assert ids[..|ids|] == ids;
      r := Ok(processedIds);
    }

    // ----- the host -----

    method DispatchPayment(env: Env, step: Step) returns (r: Result<()>)
      requires IsPayment(step)
      modifies this
      ensures Agrees(r, Next(old(Snapshot()), env, step))
    {
      match step {
        case DoCreate(sender, e) =>
          var _ :- CreateRemittance(env, sender, e);
        case DoCreateWithCorridor(sender, e, from, to) =>
          var _ :- CreateRemittanceWithCorridor(env, sender, e, from, to);
        case DoBatchCreate(sender, entries) =>
          var _ :- BatchCreateRemittances(env, sender, entries);
        case DoConfirm(agent, id) =>
          var _ :- ConfirmPayout(env, agent, id);
        case DoConfirmPartial(id, amount) =>
          var _ :- ConfirmPartialPayout(env, id, amount);
        case DoBatchSettle(ids) =>
          var _ :- BatchSettleWithNetting(env, ids);
      }
      r := Ok(());
    }

    method DispatchRefund(env: Env, step: Step) returns (r: Result<()>)
      requires IsRefund(step)
      modifies this
      ensures Agrees(r, Next(old(Snapshot()), env, step))
    {
      match step {
        case DoMarkFailed(id) =>
          var _ :- MarkRemittanceFailed(env, id);
        case DoCancel(id) =>
          var _ :- CancelRemittance(env, id);
        case DoProcessExpired(ids) =>
          var _ :- ProcessExpiredRemittances(env, ids);
        case DoRaiseDispute(id) =>
          var _ :- RaiseRemittanceDispute(env, id);
        case DoResolveDispute(id, forSender) =>
          var _ :- ResolveRemittanceDispute(env, id, forSender);
      }
      r := Ok(());
    }

    method DispatchOther(env: Env, step: Step) returns (r: Result<()>)
      requires !IsPayment(step) && !IsRefund(step)
      modifies this
      ensures Agrees(r, Next(old(Snapshot()), env, step))
    {
      match step {
        case DoWithdrawFees(to) =>
          var _ :- WithdrawAccumulatedFees(env, to);
        case DoExecuteWithdrawal(to) =>
          var _ :- ExecuteFeeWithdrawal(env, to);
        case DoCreateEscrow(sender, recipient, amount) =>
          var _ :- OpenEscrow(env, sender, recipient, amount);
        case DoReleaseEscrow(id) =>
          var _ :- ReleaseLockedEscrow(env, id);
        case DoRefundEscrow(id) =>
          var _ :- RefundLockedEscrow(env, id);
        case DoProcessExpiredEscrows(ids) =>
          var _ :- RefundExpiredEscrows(env, ids);
        case DoConfigure(newCfg) =>
          if !env.admit {
            return Err(Rejected);
          }
          cfg := newCfg;
        case DoTokenTransfer(sender, recipient, amount) =>
          var _ :- TransferTokens(sender, recipient, amount);
      }
      r := Ok(());
    }

    method Dispatch(env: Env, step: Step) returns (r: Result<()>)
      modifies this
      ensures Agrees(r, Next(old(Snapshot()), env, step))
    {
      if IsPayment(step) {
        r := DispatchPayment(env, step);
      } else if IsRefund(step) {
        r := DispatchRefund(env, step);
      } else {
        r := DispatchOther(env, step);
      }
    }

    method RestoreRecords(saved: State)
      modifies this`remittances, this`counter, this`disbursed, this`settled, this`escrows, this`escrowCounter
      ensures remittances == saved.remittances && counter == saved.counter && disbursed == saved.disbursed
      ensures settled == saved.settled && escrows == saved.escrows && escrowCounter == saved.escrowCounter
    {
      remittances, counter, disbursed := saved.remittances, saved.counter, saved.disbursed;
      settled, escrows, escrowCounter := saved.settled, saved.escrows, saved.escrowCounter;
    }

    method Restore(saved: State)
      modifies this
      ensures Snapshot() == saved
    {
      RestoreRecords(saved);
      cfg, balances, transfers, volumes := saved.cfg, saved.balances, saved.transfers, saved.volumes;
      fees, processingVolume, completedVolume := saved.fees, saved.processingVolume, saved.completedVolume;
    }

    /** The host runs one entry point and undoes its writes when it fails. */
    method Invoke(env: Env, step: Step) returns (r: Result<()>)
      modifies this
      ensures Agrees(r, Next(old(Snapshot()), env, step))
      ensures r.Err? ==> Snapshot() == old(Snapshot())
    {
      var saved := Snapshot();
      r := Dispatch(env, step);
      if r.Err? {
        Restore(saved);
      }
    }
  }
}
