/** The senders' histories over runs: what every reachable state stores is what batch creation relies on. */
module Histories {
  import opened Common
  import opened Types
  import opened Ledger
  import opened LedgerRuns
  import opened BatchCreation
  import DailyLimit
  import FS = FeeService
  import LL = LedgerLaws
  import SenderVolume
  import Netting

  ghost predicate VolumeOk(history: seq<SenderVolume.Bucket>, now: nat) {
    exists last: nat :: last <= now && SenderVolume.WellFormed(history, last)
  }

  /** Everybody's stored volume and transfers at a time no earlier than the last step. */
  ghost predicate HistoriesOk(s: State, now: nat) {
    forall who :: VolumeOk(VolumeOf(s, who), now) && NonNegative(TransfersOf(s, who))
  }

  /** What only creations write. */
  predicate SameHistories(s: State, s': State) {
    s'.volumes == s.volumes && s'.transfers == s.transfers && s'.counter == s.counter
  }

  predicate SameEscrows(s: State, s': State) {
    s'.escrows == s.escrows && s'.escrowCounter == s.escrowCounter
  }

  predicate Untouched(s: State, s': State) {
    SameHistories(s, s') && SameEscrows(s, s')
  }

  lemma SameHistoriesOk(s: State, s': State, now: nat, now': nat)
    requires HistoriesOk(s, now) && SameHistories(s, s') && now <= now'
    ensures HistoriesOk(s', now')
  {
    forall who
      ensures VolumeOk(VolumeOf(s', who), now') && NonNegative(TransfersOf(s', who))
    {
      assert VolumeOk(VolumeOf(s, who), now) && NonNegative(TransfersOf(s, who));
      var last: nat :| last <= now && SenderVolume.WellFormed(VolumeOf(s, who), last);
      assert SenderVolume.WellFormed(VolumeOf(s', who), last);
    }
  }

  // ----- creation -----

  lemma RecordOk(history: seq<SenderVolume.Bucket>, now: nat, amount: int)
    requires VolumeOk(history, now) && SenderVolume.Record(history, amount, now).Ok?
    ensures VolumeOk(SenderVolume.Record(history, amount, now).value, now)
  {
    var last: nat :| last <= now && SenderVolume.WellFormed(history, last);
    SenderVolume.RecordLaws(history, last, amount, now, SenderVolume.WindowStart(now));
  }

  lemma OneSender(s: State, s': State, now: nat, sender: Address)
    requires HistoriesOk(s, now)
    requires s'.volumes == s.volumes || s'.volumes == s.volumes[sender := VolumeOf(s', sender)]
    requires s'.transfers == s.transfers || s'.transfers == s.transfers[sender := TransfersOf(s', sender)]
    requires VolumeOk(VolumeOf(s', sender), now) && NonNegative(TransfersOf(s', sender))
    ensures HistoriesOk(s', now)
  {
    forall who
      ensures VolumeOk(VolumeOf(s', who), now) && NonNegative(TransfersOf(s', who))
    {
      assert VolumeOk(VolumeOf(s, who), now) && NonNegative(TransfersOf(s, who));
    }
  }

  lemma BookHistories(s: State, now: nat, id: nat, sender: Address, e: Entry, fee: int)
    requires HistoriesOk(s, now) && Book(s, now, id, sender, e, fee).Ok?
    ensures HistoriesOk(Book(s, now, id, sender, e, fee).value, now)
  {
    assert VolumeOk(VolumeOf(s, sender), now) && NonNegative(TransfersOf(s, sender));
    RecordOk(VolumeOf(s, sender), now, e.amount);
    OneSender(s, Book(s, now, id, sender, e, fee).value, now, sender);
  }

  lemma {:induction false} NewerMembers(records: seq<DailyLimit.TransferRecord>, from: nat)
    requires NonNegative(records)
    ensures NonNegative(DailyLimit.Newer(records, from))
  {
    if records != [] {
      assert records[|records| - 1] in records && forall r | r in records[..|records| - 1] :: r in records;
      NewerMembers(records[..|records| - 1], from);
    }
  }

  lemma LimitHistories(s: State, now: nat, sender: Address, c: DailyLimit.Corridor, amount: int)
    requires HistoriesOk(s, now) && amount >= 0 && EnforceLimit(s, now, sender, c, amount).Ok?
    ensures HistoriesOk(EnforceLimit(s, now, sender, c, amount).value, now)
  {
    assert VolumeOk(VolumeOf(s, sender), now) && NonNegative(TransfersOf(s, sender));
    NewerMembers(TransfersOf(s, sender), SaturatingSub(now, DailyLimit.WINDOW));
    OneSender(s, EnforceLimit(s, now, sender, c, amount).value, now, sender);
  }

  lemma AcceptHistories(s: State, now: nat, sender: Address, e: Entry, c: DailyLimit.Corridor, fee: Result<int>)
    requires HistoriesOk(s, now) && e.amount >= 0 && Accept(s, now, sender, e, c, fee).Ok?
    ensures HistoriesOk(Accept(s, now, sender, e, c, fee).value.0, now)
  {
    LimitHistories(s, now, sender, c, e.amount);
    var limited := EnforceLimit(s, now, sender, c, e.amount).value;
    var funded := Transfer(limited, sender, SELF, e.amount).value;
    SameHistoriesOk(limited, funded, now, now);
    BookHistories(funded, now, s.counter + 1, sender, e, fee.value);
  }

  lemma {:induction false} BookAllHistories(s: State, now: nat, sender: Address, entries: seq<Entry>, prior: int)
    requires HistoriesOk(s, now) && BookAll(s, now, sender, entries, prior).Ok?
    ensures HistoriesOk(BookAll(s, now, sender, entries, prior).value.state, now)
  {
    if entries != [] {
      var front, e := entries[..|entries| - 1], entries[|entries| - 1];
      BookAllHistories(s, now, sender, front, prior);
      BookNextHistories(BookAll(s, now, sender, front, prior).value, now, sender, e);
    }
  }

  lemma BookNextHistories(b: Booked, now: nat, sender: Address, e: Entry)
    requires HistoriesOk(b.state, now) && BookNext(b, now, sender, e).Ok?
    ensures HistoriesOk(BookNext(b, now, sender, e).value.state, now)
  {
    assert e.amount > 0;
    BookNextIs(b, now, sender, e);
    var fee := BatchFee(b, e);
    BookHistories(b.state, now, b.state.counter + 1, sender, e, fee.value);
  }

  function BatchFee(b: Booked, e: Entry): Result<int> {
    FS.PlatformFeeForSender(b.state.cfg.feeConfig, e.amount, b.volume)
  }

  lemma BatchHistories(s: State, env: Env, sender: Address, entries: seq<Entry>)
    requires HistoriesOk(s, env.now) && BatchCreate(s, env, sender, entries).Ok?
    ensures HistoriesOk(BatchCreate(s, env, sender, entries).value.0, env.now)
  {
    BatchTotalIff(s, sender, entries);
    TotalNonNegative(s, sender, entries);
    var total := Total(entries);
    LimitHistories(s, env.now, sender, GLOBAL, total);
    var limited := EnforceLimit(s, env.now, sender, GLOBAL, total).value;
    var funded := Transfer(limited, sender, SELF, total).value;
    SameHistoriesOk(limited, funded, env.now, env.now);
    BookAllHistories(funded, env.now, sender, entries, Rolling(s, sender, env.now));
  }

  // ----- the other entry points do not touch the histories, and only four touch escrows -----

  lemma {:induction false} ExpireAllSame(s: State, now: nat, ids: seq<nat>)
    requires ExpireAll(s, now, ids).Ok?
    ensures Untouched(s, ExpireAll(s, now, ids).value.0)
  {
    if ids != [] {
      ExpireAllSame(s, now, ids[..|ids| - 1]);
    }
  }

  lemma {:induction false} ExpireEscrowsSame(s: State, now: nat, ids: seq<nat>)
    requires ExpireEscrows(s, now, ids).Ok?
    ensures SameHistories(s, ExpireEscrows(s, now, ids).value.0)
  {
    if ids != [] {
      ExpireEscrowsSame(s, now, ids[..|ids| - 1]);
    }
  }

  lemma {:induction false} PayNetsSame(s: State, ts: seq<Netting.NetTransfer>)
    requires PayNets(s, ts).Ok?
    ensures Untouched(s, PayNets(s, ts).value.0)
  {
    if ts != [] {
      PayNetsSame(s, ts[..|ts| - 1]);
    }
  }

  lemma {:induction false} SettleAllSame(s: State, rs: seq<Remittance>)
    requires SettleAll(s, rs).Ok?
    ensures Untouched(s, SettleAll(s, rs).value)
  {
    if rs != [] {
      SettleAllSame(s, rs[..|rs| - 1]);
    }
  }

  lemma BatchSettleSame(s: State, env: Env, ids: seq<nat>)
    requires BatchSettle(s, env, ids).Ok?
    ensures Untouched(s, BatchSettle(s, env, ids).value.0)
  {
    var rs := LoadBatch(s, env.now, ids).value;
    var ts := ComputeNets(rs).value;
    PayNetsSame(s, ts);
    var (paid, total) := PayNets(s, ts).value;
    SettleAllSame(StoreFees(paid, total).value, rs);
  }

  lemma FlushSame(s: State, amount: int)
    requires Flush(s, amount).Ok?
    ensures Untouched(s, Flush(s, amount).value)
  {
  }

  lemma AddFeeSame(s: State, fee: int)
    requires SafeAddFee(s, fee).Ok?
    ensures Untouched(s, SafeAddFee(s, fee).value)
  {
    if Flush(s, s.fees).Ok? {
      FlushSame(s, s.fees);
    }
  }

  lemma CompleteSame(s: State, id: nat, r: Remittance)
    requires Complete(s, id, r).Ok?
    ensures Untouched(s, Complete(s, id, r).value)
  {
    AddFeeSame(s, r.fee);
  }

  lemma ConfirmSame(s: State, env: Env, agent: Address, id: nat)
    requires Confirm(s, env, agent, id).Ok?
    ensures Untouched(s, Confirm(s, env, agent, id).value)
  {
    var started := StartProcessing(s, s.remittances[id]).value;
    var b := FS.FeesWithBreakdown(s.cfg.feeConfig, s.remittances[id].amount, false).value;
    PayOutSame(started, id, s.remittances[id].(status := Processing), b.netAmount, b.protocolFee);
  }

  lemma PayOutSame(s: State, id: nat, r: Remittance, netAmount: int, protocolFee: int)
    requires PayOut(s, id, r, netAmount, protocolFee).Ok?
    ensures Untouched(s, PayOut(s, id, r, netAmount, protocolFee).value)
  {
    var paid := Pay(s, r.agent, netAmount).value;
    var treasured := if protocolFee > 0 then Pay(paid, s.cfg.treasury, protocolFee).value else paid;
    CompleteSame(treasured, id, r);
  }

  lemma ConfirmPartialSame(s: State, env: Env, id: nat, amount: int)
    requires ConfirmPartial(s, env, id, amount).Ok?
    ensures Untouched(s, ConfirmPartial(s, env, id, amount).value)
  {
    var b := FS.FeesWithBreakdown(s.cfg.feeConfig, s.remittances[id].amount, false).value;
    DisburseSame(Begin(s, s.remittances[id]).value, id, s.remittances[id].(status := Processing), amount, b.netAmount);
  }

  lemma DisburseSame(s: State, id: nat, r: Remittance, amount: int, netAmount: int)
    requires Disburse(s, id, r, amount, netAmount).Ok?
    ensures Untouched(s, Disburse(s, id, r, amount, netAmount).value)
  {
    var paid, total := Pay(s, r.agent, amount).value, Disbursed(s.disbursed, id) + amount;
    LL.PayLaw(s, r.agent, amount);
    var recorded := paid.(disbursed := s.disbursed[id := total]);
    if total >= netAmount {
      assert Disburse(s, id, r, amount, netAmount) == Complete(recorded, id, r);
      CompleteSame(recorded, id, r);
    } else {
      assert Disburse(s, id, r, amount, netAmount) == Ok(Put(recorded, id, r));
    }
  }

  lemma RaiseSame(s: State, env: Env, id: nat)
    requires RaiseDispute(s, env, id).Ok?
    ensures Untouched(s, RaiseDispute(s, env, id).value)
  {
  }

  lemma ResolveSame(s: State, env: Env, id: nat, forSender: bool)
    requires ResolveDispute(s, env, id, forSender).Ok?
    ensures Untouched(s, ResolveDispute(s, env, id, forSender).value)
  {
  }

  lemma MarkFailedSame(s: State, env: Env, id: nat)
    requires MarkFailed(s, env, id).Ok?
    ensures Untouched(s, MarkFailed(s, env, id).value)
  {
  }

  lemma CancelSame(s: State, env: Env, id: nat)
    requires Cancel(s, env, id).Ok?
    ensures Untouched(s, Cancel(s, env, id).value)
  {
  }

  lemma CreateEscrowSame(s: State, env: Env, sender: Address, recipient: Address, amount: int)
    requires CreateEscrow(s, env, sender, recipient, amount).Ok?
    ensures SameHistories(s, CreateEscrow(s, env, sender, recipient, amount).value.0)
  {
  }

  lemma EscrowSame(s: State, env: Env, id: nat)
    ensures ReleaseEscrow(s, env, id).Ok? ==> SameHistories(s, ReleaseEscrow(s, env, id).value)
    ensures RefundEscrow(s, env, id).Ok? ==> SameHistories(s, RefundEscrow(s, env, id).value)
  {
  }

  lemma WithdrawSame(s: State, env: Env, to: Address)
    ensures WithdrawFees(s, env, to).Ok? ==> Untouched(s, WithdrawFees(s, env, to).value)
    ensures ExecuteWithdrawal(s, env, Some(to)).Ok? ==> Untouched(s, ExecuteWithdrawal(s, env, Some(to)).value)
  {
  }

  lemma TransferSame(s: State, sender: Address, recipient: Address, amount: int)
    requires Transfer(s, sender, recipient, amount).Ok?
    ensures Untouched(s, Transfer(s, sender, recipient, amount).value)
  {
  }

  lemma PaymentsSame(s: State, env: Env, step: Step)
    requires Next(s, env, step).Ok? && PaysOut(step)
    ensures Untouched(s, Next(s, env, step).value)
  {
    match step
    case DoConfirm(agent, id) => ConfirmSame(s, env, agent, id);
    case DoConfirmPartial(id, amount) => ConfirmPartialSame(s, env, id, amount);
    case DoBatchSettle(ids) => BatchSettleSame(s, env, ids);
  }

  lemma RefundsSame(s: State, env: Env, step: Step)
    requires Next(s, env, step).Ok? && Refunds(step)
    ensures Untouched(s, Next(s, env, step).value)
  {
    match step
    case DoMarkFailed(id) => MarkFailedSame(s, env, id);
    case DoCancel(id) => CancelSame(s, env, id);
    case DoProcessExpired(ids) => ExpireAllSame(s, env.now, ids);
    case DoRaiseDispute(id) => RaiseSame(s, env, id);
    case DoResolveDispute(id, forSender) => ResolveSame(s, env, id, forSender);
  }

  lemma OthersSame(s: State, env: Env, step: Step)
    requires Next(s, env, step).Ok? && !Creates(step)
    ensures SameHistories(s, Next(s, env, step).value)
    ensures !OnEscrows(step) ==> SameEscrows(s, Next(s, env, step).value)
  {
    if PaysOut(step) {
      PaymentsSame(s, env, step);
    } else if Refunds(step) {
      RefundsSame(s, env, step);
    } else {
      match step
      case DoProcessExpiredEscrows(ids) => ExpireEscrowsSame(s, env.now, ids);
      case DoCreateEscrow(sender, recipient, amount) => CreateEscrowSame(s, env, sender, recipient, amount);
      case DoReleaseEscrow(id) => EscrowSame(s, env, id);
      case DoRefundEscrow(id) => EscrowSame(s, env, id);
      case DoWithdrawFees(to) => WithdrawSame(s, env, to);
      case DoExecuteWithdrawal(to) => WithdrawSame(s, env, to.value);
      case DoConfigure(_) =>
      case DoTokenTransfer(sender, recipient, amount) => TransferSame(s, sender, recipient, amount);
    }
  }

  lemma StepHistories(s: State, env: Env, step: Step)
    requires HistoriesOk(s, env.now) && Next(s, env, step).Ok?
    ensures HistoriesOk(Next(s, env, step).value, env.now)
  {
    match step
    case DoCreate(sender, e) =>
      CreateIs(s, env, sender, e);
      var fee := FS.PlatformFeeForSender(s.cfg.feeConfig, e.amount, Rolling(s, sender, env.now));
      AcceptHistories(s, env.now, sender, e, GLOBAL, fee);
    case DoCreateWithCorridor(sender, e, from, to) =>
      AcceptHistories(s, env.now, sender, e, LimitCorridor(to), RouteFee(s, env.now, sender, e, from, to));
    case DoBatchCreate(sender, entries) => BatchHistories(s, env, sender, entries);
    case _ =>
      OthersSame(s, env, step);
      SameHistoriesOk(s, Next(s, env, step).value, env.now, env.now);
  }

  // ----- runs -----

  /** Ledger time never decreases. */
  ghost predicate InTimeOrder(log: seq<Event>) {
    forall i, j | 0 <= i < j < |log| :: log[i].env.now <= log[j].env.now
  }

  function LastTime(log: seq<Event>): nat {
    if log == [] then 0 else log[|log| - 1].env.now
  }

  lemma EventHistories(s: State, e: Event, now: nat)
    requires HistoriesOk(s, now) && now <= e.env.now
    ensures HistoriesOk(Apply(s, e), e.env.now)
  {
    SameHistoriesOk(s, s, now, e.env.now);
    if Next(s, e.env, e.step).Ok? {
      StepHistories(s, e.env, e.step);
    }
  }

  lemma {:induction false} RunHistories(cfg: Config, balances: map<Address, nat>, log: seq<Event>)
    requires InTimeOrder(log)
    ensures HistoriesOk(Run(Initial(cfg, balances), log), LastTime(log))
  {
    var s := Initial(cfg, balances);
    if log == [] {
      assert forall who :: SenderVolume.WellFormed(VolumeOf(s, who), 0);
    } else {
      var front := log[..|log| - 1];
      assert front != [] ==> front[|front| - 1] == log[|log| - 2];
      RunHistories(cfg, balances, front);
      EventHistories(Run(s, front), log[|log| - 1], LastTime(front));
    }
  }

  /**
   In every reachable state, at any time but zero, the entries of a batch can be created one by one
   exactly when the batch can be created, every entry passes the checks that only single creation
   makes and, without a configured limit, the window total fits; and then with the same effect.
   */
  lemma BatchRefinesInRuns(cfg: Config, balances: map<Address, nat>, log: seq<Event>, env: Env,
                           sender: Address, entries: seq<Entry>, verdicts: seq<bool>)
    requires InTimeOrder(log) && LastTime(log) <= env.now && env.now > 0
    requires sender != SELF && 1 <= |entries| <= MAX_BATCH_SIZE && |verdicts| == |entries|
    requires LimitFits(Run(Initial(cfg, balances), log))
    ensures var s := Run(Initial(cfg, balances), log);
            var batch, singles := BatchCreate(s, env, sender, entries), CreateEach(s, env, sender, entries, verdicts);
            && (singles.Ok? <==> batch.Ok? && SumsFit(s, env.now, sender, entries) && false !in verdicts)
            && (singles.Ok? ==> SameEffect(s, env.now, sender, entries, batch.value, singles.value))
  {
    var s := Run(Initial(cfg, balances), log);
    RunHistories(cfg, balances, log);
    assert VolumeOk(VolumeOf(s, sender), LastTime(log)) && NonNegative(TransfersOf(s, sender));
    var last: nat :| last <= LastTime(log) && SenderVolume.WellFormed(VolumeOf(s, sender), last);
    BatchRefinesSingles(s, env, sender, entries, verdicts, last);
  }
}
