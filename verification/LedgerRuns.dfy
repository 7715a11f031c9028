/**
 Runs of the ledger: conservation of money, solvency, and what can happen to a remittance over any
 sequence of entry points.
 */
module LedgerRuns {
  import opened Common
  import opened Types
  import opened Sums
  import opened Ledger
  import opened LedgerLaws
  import opened BatchSettlement
  import opened Netting
  import opened NettingLaws

  // ----- one step -----

  /** The contract never authorizes a transfer out of its own balance on somebody's request. */
  predicate External(step: Step) {
    match step
    case DoCreate(sender, _) => sender != SELF
    case DoCreateWithCorridor(sender, _, _, _) => sender != SELF
    case DoBatchCreate(sender, _) => sender != SELF
    case DoCreateEscrow(sender, _, _) => sender != SELF
    case DoTokenTransfer(sender, _, _) => sender != SELF
    case _ => true
  }

  /** What a successful step adds to the residue. */
  ghost function Gain(s: State, env: Env, step: Step): int {
    match step
    case DoConfirm(agent, id) => ConfirmGain(s, agent, id)
    case DoConfirmPartial(id, amount) => PartialGain(s, id, amount)
    case DoMarkFailed(id) => -Disbursed(s.disbursed, id)
    case DoBatchSettle(ids) => BatchGain(s, env.now, ids)
    case DoExecuteWithdrawal(to) => if to.Some? then Kept(to.value, s.fees) else 0
    case DoReleaseEscrow(id) => if id in s.escrows then Kept(s.escrows[id].recipient, s.escrows[id].amount) else 0
    case DoTokenTransfer(_, recipient, amount) => Kept(recipient, amount)
    case _ => 0
  }

  function ConfirmGain(s: State, agent: Address, id: nat): int {
    if Payout(s, id).Ok? then
      var b := Payout(s, id).value;
      Kept(agent, b.netAmount) + Kept(s.cfg.treasury, b.protocolFee) + FlushKept(s, s.remittances[id].fee)
    else 0
  }

  function PartialGain(s: State, id: nat, amount: int): int {
    if Payout(s, id).Ok? then
      Kept(s.remittances[id].agent, amount)
      + if Completes(s, id, amount) then Leftover(s, id) + FlushKept(s, s.remittances[id].fee) else 0
    else 0
  }

  ghost function BatchGain(s: State, now: nat, ids: seq<nat>): int {
    if LoadBatch(s, now, ids).Ok? then SettlementGain(s, LoadBatch(s, now, ids).value) else 0
  }

  lemma TokenTransferLaw(s: State, sender: Address, recipient: Address, amount: int)
    requires Inv(s) && sender != SELF && Transfer(s, sender, recipient, amount).Ok?
    ensures Effect(s, Transfer(s, sender, recipient, amount).value, Kept(recipient, amount))
  {
    SameRecords(s, Transfer(s, sender, recipient, amount).value);
  }

  predicate Creates(step: Step) {
    step.DoCreate? || step.DoCreateWithCorridor? || step.DoBatchCreate?
  }

  predicate PaysOut(step: Step) {
    step.DoConfirm? || step.DoConfirmPartial? || step.DoBatchSettle?
  }

  predicate Refunds(step: Step) {
    || step.DoMarkFailed? || step.DoCancel? || step.DoProcessExpired? || step.DoRaiseDispute? || step.DoResolveDispute?
  }

  predicate OnEscrows(step: Step) {
    step.DoCreateEscrow? || step.DoReleaseEscrow? || step.DoRefundEscrow? || step.DoProcessExpiredEscrows?
  }

  lemma CreationEffect(s: State, env: Env, step: Step)
    requires Inv(s) && External(step) && Next(s, env, step).Ok? && Creates(step)
    ensures Effect(s, Next(s, env, step).value, Gain(s, env, step))
  {
    match step
    case DoCreate(sender, e) => CreateLaw(s, env, sender, e);
    case DoCreateWithCorridor(sender, e, from, to) => CreateWithCorridorLaw(s, env, sender, e, from, to);
    case DoBatchCreate(sender, entries) => BatchCreateLaw(s, env, sender, entries);
  }

  lemma PayoutEffect(s: State, env: Env, step: Step)
    requires Inv(s) && Next(s, env, step).Ok? && PaysOut(step)
    ensures Effect(s, Next(s, env, step).value, Gain(s, env, step))
  {
    match step
    case DoConfirm(agent, id) => ConfirmLaw(s, env, agent, id);
    case DoConfirmPartial(id, amount) => ConfirmPartialLaw(s, env, id, amount);
    case DoBatchSettle(ids) => BatchSettleLaw(s, env, ids);
  }

  lemma RefundEffect(s: State, env: Env, step: Step)
    requires Inv(s) && Next(s, env, step).Ok? && Refunds(step)
    ensures Effect(s, Next(s, env, step).value, Gain(s, env, step))
  {
    match step
    case DoMarkFailed(id) => MarkFailedLaw(s, env, id);
    case DoCancel(id) => CancelLaw(s, env, id);
    case DoProcessExpired(ids) => ExpireAllLaw(s, env.now, ids);
    case DoRaiseDispute(id) => DisputesUnreachable(s, env, id, true);
    case DoResolveDispute(id, forSender) => DisputesUnreachable(s, env, id, forSender);
  }

  lemma OtherStepEffect(s: State, env: Env, step: Step)
    requires Inv(s) && External(step) && Next(s, env, step).Ok?
    requires !Creates(step) && !PaysOut(step) && !Refunds(step)
    ensures Effect(s, Next(s, env, step).value, Gain(s, env, step))
  {
    match step
    case DoWithdrawFees(to) => WithdrawFeesLaw(s, env, to);
    case DoExecuteWithdrawal(to) => ExecuteWithdrawalLaw(s, env, to);
    case DoCreateEscrow(sender, recipient, amount) => CreateEscrowLaw(s, env, sender, recipient, amount);
    case DoReleaseEscrow(id) => ReleaseEscrowLaw(s, env, id);
    case DoRefundEscrow(id) => RefundEscrowLaw(s, env, id);
    case DoProcessExpiredEscrows(ids) => ExpireEscrowsLaw(s, env.now, ids);
    case DoConfigure(cfg) => SameRecords(s, s.(cfg := cfg));
    case DoTokenTransfer(sender, recipient, amount) => TokenTransferLaw(s, sender, recipient, amount);
  }

  /** Every entry point keeps the invariant, moves records only forward, and accounts for every token. */
  lemma StepEffect(s: State, env: Env, step: Step)
    requires Inv(s) && External(step) && Next(s, env, step).Ok?
    ensures Effect(s, Next(s, env, step).value, Gain(s, env, step))
  {
    if Creates(step) {
      CreationEffect(s, env, step);
    } else if PaysOut(step) {
      PayoutEffect(s, env, step);
    } else if Refunds(step) {
      RefundEffect(s, env, step);
    } else {
      OtherStepEffect(s, env, step);
    }
  }

  // ----- runs -----

  datatype Event = Event(env: Env, step: Step)

  /** An entry point that fails leaves the state as it was. */
  ghost function Apply(s: State, e: Event): State {
    match Next(s, e.env, e.step)
    case Ok(s') => s'
    case Err(_) => s
  }

  ghost function Run(s: State, log: seq<Event>): State {
    if log == [] then s else Apply(Run(s, log[..|log| - 1]), log[|log| - 1])
  }

  predicate AllExternal(log: seq<Event>) {
    forall e | e in log :: External(e.step)
  }

  ghost function EventGain(s: State, e: Event): int {
    if Next(s, e.env, e.step).Ok? then Gain(s, e.env, e.step) else 0
  }

  ghost function TotalGain(s: State, log: seq<Event>): int {
    if log == [] then 0 else
      var front := log[..|log| - 1];
      TotalGain(s, front) + EventGain(Run(s, front), log[|log| - 1])
  }

  lemma NoEffect(s: State)
    requires Inv(s)
    ensures Effect(s, s, 0)
  {
  }

  lemma EventEffect(s: State, e: Event)
    requires Inv(s) && External(e.step)
    ensures Effect(s, Apply(s, e), EventGain(s, e))
  {
    if Next(s, e.env, e.step).Ok? {
      StepEffect(s, e.env, e.step);
    } else {
      NoEffect(s);
    }
  }

  /** Conservation over every run: the residue is exactly what it was plus the gains of the successful steps. */
  lemma {:induction false} Conservation(s: State, log: seq<Event>)
    requires Inv(s) && AllExternal(log)
    ensures Effect(s, Run(s, log), TotalGain(s, log))
  {
    if log == [] {
      NoEffect(s);
    } else {
      var front, e := log[..|log| - 1], log[|log| - 1];
      assert e in log && forall d | d in front :: d in log;
      Conservation(s, front);
      EventEffect(Run(s, front), e);
      EffectThen(s, Run(s, front), Run(s, log), TotalGain(s, front), EventGain(Run(s, front), e));
    }
  }

  lemma RunInv(s: State, log: seq<Event>)
    requires Inv(s) && AllExternal(log)
    ensures Inv(Run(s, log))
  {
    Conservation(s, log);
  }

  /** A freshly initialized contract: nothing recorded yet, whatever tokens it may already hold. */
  function Initial(cfg: Config, balances: map<Address, nat>): State {
    State(cfg, balances, map[], 0, map[], {}, map[], 0, 0, 0, 0, map[], map[])
  }

  lemma InitialOk(cfg: Config, balances: map<Address, nat>)
    ensures Inv(Initial(cfg, balances))
    ensures Residue(Initial(cfg, balances)) == Balance(balances, SELF)
  {
  }

  // ----- when does a step lose money -----

  /**
   The two entry points that can pay out more than a remittance holds: a failure report after a
   partial payout, and a completing partial payout whose stored fee exceeds the recomputed fees.
   */
  predicate Shortfall(s: State, step: Step) {
    match step
    case DoMarkFailed(id) => Disbursed(s.disbursed, id) > 0
    case DoConfirmPartial(id, amount) =>
      Payout(s, id).Ok? && Completes(s, id, amount)
      && s.remittances[id].fee > Payout(s, id).value.platformFee + Payout(s, id).value.protocolFee
    case _ => false
  }

  lemma {:induction false} KeptNonNegative(s: State, ts: seq<NetTransfer>)
    requires PayNets(s, ts).Ok?
    ensures SumBy(ts, KeptWeight()) >= 0
  {
    if ts != [] {
      KeptNonNegative(s, ts[..|ts| - 1]);
    }
  }

  lemma SettlementGainNonNegative(s: State, rs: seq<Remittance>)
    requires 0 <= s.fees && forall r | r in rs :: r.amount >= 0 && r.fee >= 0
    requires PayNets(s, NetTransfers(PendingFlows(rs))).Ok?
    ensures SettlementGain(s, rs) >= 0
  {
    var fs := PendingFlows(rs);
    FlowsAreRemittances(rs);
    forall f | f in fs
      ensures f.amount >= 0
    {
      var r :| r in rs && f == FlowOf(r);
    }
    VolumeNeverGrows(fs);
    KeptNonNegative(s, NetTransfers(fs));
    NetsNonZero(rs);
  }

  lemma BatchGainNonNegative(s: State, env: Env, ids: seq<nat>)
    requires Inv(s) && BatchSettle(s, env, ids).Ok?
    ensures BatchGain(s, env.now, ids) >= 0
  {
    var rs := LoadBatch(s, env.now, ids).value;
    LoadBatchLaw(s, env.now, ids);
    LoadedFees(s, ids, rs);
    SettlementGainNonNegative(s, rs);
  }

  lemma ConfirmGainNonNegative(s: State, agent: Address, id: nat)
    requires 0 <= s.fees
    ensures ConfirmGain(s, agent, id) >= 0
  {
  }

  lemma PartialGainNonNegative(s: State, id: nat, amount: int)
    requires 0 <= s.fees && amount > 0 && !Shortfall(s, DoConfirmPartial(id, amount))
    ensures PartialGain(s, id, amount) >= 0
  {
  }

  /** Every step but those two adds to the residue or leaves it unchanged. */
  lemma GainNonNegative(s: State, env: Env, step: Step)
    requires Inv(s) && External(step) && Next(s, env, step).Ok? && !Shortfall(s, step)
    ensures Gain(s, env, step) >= 0
  {
    match step
    case DoBatchSettle(ids) => BatchGainNonNegative(s, env, ids);
    case DoMarkFailed(id) =>
      assert RecordOk(s.remittances[id], id, Disbursed(s.disbursed, id), id in s.settled);
    case DoConfirm(agent, id) => ConfirmGainNonNegative(s, agent, id);
    case DoConfirmPartial(id, amount) => PartialGainNonNegative(s, id, amount);
    case _ =>
  }

  /** Exactly those two lose money, provided that the contract is neither the agent nor the treasury. */
  lemma LosesIffShortfall(s: State, env: Env, step: Step)
    requires Inv(s) && External(step) && Next(s, env, step).Ok?
    requires SELF !in s.cfg.agents && s.cfg.treasury != SELF
    ensures Gain(s, env, step) < 0 <==> Shortfall(s, step)
  {
    if !Shortfall(s, step) {
      GainNonNegative(s, env, step);
    }
  }

  /** No successful step of the run is a shortfall. */
  ghost predicate Careful(s: State, log: seq<Event>) {
    log == []
    || (var front, e := log[..|log| - 1], log[|log| - 1];
        Careful(s, front) && (Next(Run(s, front), e.env, e.step).Ok? ==> !Shortfall(Run(s, front), e.step)))
  }

  lemma {:induction false} GainsAddUp(s: State, log: seq<Event>)
    requires Inv(s) && AllExternal(log) && Careful(s, log)
    ensures TotalGain(s, log) >= 0
  {
    if log != [] {
      var front, e := log[..|log| - 1], log[|log| - 1];
      assert e in log && forall d | d in front :: d in log;
      GainsAddUp(s, front);
      Conservation(s, front);
      if Next(Run(s, front), e.env, e.step).Ok? {
        GainNonNegative(Run(s, front), e.env, e.step);
      }
    }
  }

  /**
   Without shortfalls the residue never shrinks: in every reachable state the contract holds at
   least what it owes on open remittances, locked escrows and accumulated fees.
   */
  lemma Solvent(cfg: Config, balances: map<Address, nat>, log: seq<Event>)
    requires AllExternal(log) && Careful(Initial(cfg, balances), log)
    ensures var s := Run(Initial(cfg, balances), log);
            && Inv(s)
            && Residue(s) >= Balance(balances, SELF)
            && Held(s) >= Owed(s) + Escrowed(s) + s.fees
            && 0 <= s.fees <= MAX_FEES
  {
    var s0 := Initial(cfg, balances);
    InitialOk(cfg, balances);
    Conservation(s0, log);
    GainsAddUp(s0, log);
  }

  // ----- what solvency is worth -----

  /** What is owed on one remittance is part of what is owed in all. */
  lemma OwedCovers(s: State, id: nat)
    requires Inv(s) && id in s.remittances
    ensures Held(s) >= Residue(s) + OwedOn(s.remittances, s.disbursed, id) + s.fees
  {
    var owed, escrowed := OwedWeight(s.remittances, s.disbursed), EscrowedWeight(s.escrows);
    forall k: nat | 1 <= k <= s.counter
      ensures owed(k) >= 0
    {
      if k in s.remittances {
        assert RecordOk(s.remittances[k], k, Disbursed(s.disbursed, k), k in s.settled);
      }
    }
    SumIdsAtLeast(s.counter, owed);
    SumIdsAtLeast(s.escrowCounter, escrowed);
    assert SumIds(s.counter, owed) >= owed(id);
  }

  lemma InFlightCovers(s: State, id: nat)
    requires Inv(s) && id in s.remittances
    ensures s.processingVolume >= InFlightOn(s.remittances, id)
  {
    var w := InFlightWeight(s.remittances);
    forall k: nat | 1 <= k <= s.counter
      ensures w(k) >= 0
    {
      if k in s.remittances {
        assert RecordOk(s.remittances[k], k, Disbursed(s.disbursed, k), k in s.settled);
      }
    }
    SumIdsAtLeast(s.counter, w);
    assert SumIds(s.counter, w) >= w(id);
  }

  lemma ObligationsCover(s: State)
    requires Inv(s) && Residue(s) >= 0
    ensures Held(s) >= s.fees
    ensures forall id | id in s.remittances :: Held(s) >= OwedOn(s.remittances, s.disbursed, id)
    ensures forall id | id in s.escrows :: Held(s) >= EscrowedOn(s.escrows, id)
  {
    var owed, escrowed := OwedWeight(s.remittances, s.disbursed), EscrowedWeight(s.escrows);
    forall id: nat | 1 <= id <= s.counter
      ensures owed(id) >= 0
    {
      if id in s.remittances {
        assert RecordOk(s.remittances[id], id, Disbursed(s.disbursed, id), id in s.settled);
      }
    }
    SumIdsAtLeast(s.counter, owed);
    SumIdsAtLeast(s.escrowCounter, escrowed);
    forall id | id in s.remittances
      ensures Held(s) >= OwedOn(s.remittances, s.disbursed, id)
    {
      assert SumIds(s.counter, owed) >= owed(id);
    }
    forall id | id in s.escrows
      ensures Held(s) >= EscrowedOn(s.escrows, id)
    {
      assert SumIds(s.escrowCounter, escrowed) >= escrowed(id);
    }
  }

  /** A solvent state: the invariant holds and the residue is not negative. */
  ghost predicate Covered(s: State) {
    Inv(s) && Residue(s) >= 0
  }

  /** The amount of a pending remittance is there, for whoever it is to be paid to. */
  lemma PendingCovered(s: State, id: nat)
    requires Covered(s) && id in s.remittances && s.remittances[id].status.Pending?
    ensures 0 < s.remittances[id].amount <= Held(s) && id !in s.settled
  {
    ObligationsCover(s);
    assert RecordOk(s.remittances[id], id, Disbursed(s.disbursed, id), id in s.settled);
    assert Held(s) >= OwedOn(s.remittances, s.disbursed, id);
  }

  lemma LockedCovered(s: State, id: nat)
    requires Covered(s) && id in s.escrows && s.escrows[id].status.Locked?
    ensures 0 < s.escrows[id].amount <= Held(s)
  {
    ObligationsCover(s);
    assert Held(s) >= EscrowedOn(s.escrows, id);
  }

  lemma PayCovered(s: State, to: Address, amount: int)
    requires 0 <= amount <= Held(s)
    ensures Pay(s, to, amount).Ok?
  {
  }

  /** In a solvent state the tokens for every refund and withdrawal are there: none of these can fail for lack of them. */
  lemma RefundsSucceed(s: State, env: Env)
    requires Covered(s) && env.admit
    ensures forall id | id in s.remittances && s.remittances[id].status.Pending? :: Cancel(s, env, id).Ok?
    ensures forall id | id in s.escrows && s.escrows[id].status.Locked? :: RefundEscrow(s, env, id).Ok?
    ensures forall to | to != SELF && s.fees > 0 :: WithdrawFees(s, env, to).Ok?
  {
    ObligationsCover(s);
    forall id | id in s.remittances && s.remittances[id].status.Pending?
      ensures Cancel(s, env, id).Ok?
    {
      PendingCovered(s, id);
    }
    forall id | id in s.escrows && s.escrows[id].status.Locked?
      ensures RefundEscrow(s, env, id).Ok?
    {
      LockedCovered(s, id);
    }
  }

  /** Nor can an escrow release, or the report of a failure of a remittance that is still pending. */
  lemma ReleasesSucceed(s: State, env: Env, id: nat)
    requires Covered(s) && env.admit
    ensures id in s.escrows && s.escrows[id].status.Locked? ==> ReleaseEscrow(s, env, id).Ok?
    ensures id in s.remittances && s.remittances[id].status.Pending? && s.remittances[id].agent in s.cfg.agents ==>
              MarkFailed(s, env, id).Ok?
  {
    if id in s.escrows && s.escrows[id].status.Locked? {
      LockedCovered(s, id);
    }
    if id in s.remittances && s.remittances[id].status.Pending? {
      PendingCovered(s, id);
    }
  }

  /** A failure reported after partial payouts succeeds if the residue covers what has been disbursed. */
  lemma LateFailureSucceeds(s: State, env: Env, id: nat)
    requires Inv(s) && env.admit && InI128(s.processingVolume)
    requires id in s.remittances && s.remittances[id].status.Processing? && s.remittances[id].agent in s.cfg.agents
    requires Residue(s) >= Disbursed(s.disbursed, id)
    ensures MarkFailed(s, env, id).Ok?
  {
    ObligationsCover(s);
    ProcessingCovered(s, id);
  }

  lemma ProcessingCovered(s: State, id: nat)
    requires Inv(s) && id in s.remittances && s.remittances[id].status.Processing?
    requires Residue(s) >= Disbursed(s.disbursed, id)
    ensures 0 <= s.remittances[id].amount <= Held(s) && s.remittances[id].amount <= s.processingVolume
  {
    assert RecordOk(s.remittances[id], id, Disbursed(s.disbursed, id), id in s.settled);
    OwedCovers(s, id);
    InFlightCovers(s, id);
  }

  lemma ExpireSucceeds(s: State, id: nat)
    requires Covered(s) && id in s.remittances && s.remittances[id].status.Pending?
    ensures Expire(s, id).Ok?
  {
    PendingCovered(s, id);
    PayCovered(s, s.remittances[id].sender, s.remittances[id].amount);
  }

  /** An expiry batch never fails: every refund in it can be paid, whatever was refunded before it. */
  lemma {:induction false} ExpirySucceeds(s: State, now: nat, ids: seq<nat>)
    requires Covered(s)
    ensures ExpireAll(s, now, ids).Ok? && Covered(ExpireAll(s, now, ids).value.0)
  {
    if ids != [] {
      var front, id := ids[..|ids| - 1], ids[|ids| - 1];
      ExpirySucceeds(s, now, front);
      var before := ExpireAll(s, now, front).value.0;
      if Expirable(before, now, id) {
        ExpireSucceeds(before, id);
        ExpireLaw(before, id);
      }
    }
  }

  lemma EscrowExpires(s: State, now: nat, id: nat)
    requires Covered(s) && EscrowExpirable(s, now, id)
    ensures Pay(s, s.escrows[id].sender, s.escrows[id].amount).Ok?
  {
    LockedCovered(s, id);
    PayCovered(s, s.escrows[id].sender, s.escrows[id].amount);
  }

  /** The same for escrows. */
  lemma {:induction false} EscrowExpirySucceeds(s: State, now: nat, ids: seq<nat>)
    requires Covered(s)
    ensures ExpireEscrows(s, now, ids).Ok? && Covered(ExpireEscrows(s, now, ids).value.0)
  {
    if ids != [] {
      var front, id := ids[..|ids| - 1], ids[|ids| - 1];
      EscrowExpirySucceeds(s, now, front);
      var before := ExpireEscrows(s, now, front).value.0;
      if EscrowExpirable(before, now, id) {
        EscrowExpires(before, now, id);
      }
      ExpireEscrowsLaw(s, now, ids);
    }
  }

  /** A batch within the size limit is only refused for its size. */
  lemma ExpiryBatchesSucceed(s: State, env: Env, ids: seq<nat>)
    requires Covered(s)
    ensures ProcessExpired(s, env, ids).Ok? <==> |ids| <= s.cfg.maxExpiredBatch
    ensures ProcessExpiredEscrows(s, env, ids).Ok? <==> |ids| <= s.cfg.maxExpiredBatch
  {
    ExpirySucceeds(s, env.now, ids);
    EscrowExpirySucceeds(s, env.now, ids);
  }
}
