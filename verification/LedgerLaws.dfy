/**
 What every step of the ledger keeps, and the exact effect of every step on the money that the
 contract holds beyond its obligations.
 */
module LedgerLaws {
  import opened Common
  import opened Types
  import opened Sums
  import opened Ledger
  import DailyLimit
  import FeeService

  // ----- obligations -----

  /** What the contract still owes on a remittance. */
  function OwedOn(rs: map<nat, Remittance>, disbursed: map<nat, int>, id: nat): int {
    if id in rs && !rs[id].status.IsTerminal() then rs[id].amount - Disbursed(disbursed, id) else 0
  }

  function OwedWeight(rs: map<nat, Remittance>, disbursed: map<nat, int>): nat -> int {
    (id: nat) => OwedOn(rs, disbursed, id)
  }

  function Owed(s: State): int {
    SumIds(s.counter, OwedWeight(s.remittances, s.disbursed))
  }

  function InFlightOn(rs: map<nat, Remittance>, id: nat): int {
    if id in rs && rs[id].status.Processing? then rs[id].amount else 0
  }

  function InFlightWeight(rs: map<nat, Remittance>): nat -> int {
    (id: nat) => InFlightOn(rs, id)
  }

  function InFlight(s: State): int {
    SumIds(s.counter, InFlightWeight(s.remittances))
  }

  function EscrowedOn(es: map<nat, Escrow>, id: nat): int {
    if id in es && es[id].status.Locked? then es[id].amount else 0
  }

  function EscrowedWeight(es: map<nat, Escrow>): nat -> int {
    (id: nat) => EscrowedOn(es, id)
  }

  function Escrowed(s: State): int {
    SumIds(s.escrowCounter, EscrowedWeight(s.escrows))
  }

  function Held(s: State): int {
    Balance(s.balances, SELF)
  }

  /** What the contract holds beyond open remittances, locked escrows and accumulated fees. */
  function Residue(s: State): int {
    Held(s) - Owed(s) - Escrowed(s) - s.fees
  }

  // ----- the invariant -----

  ghost predicate RecordOk(r: Remittance, id: nat, paid: int, settled: bool) {
    && r.id == id
    && r.sender != SELF
    && r.amount >= 0 && r.fee >= FeeService.MIN_FEE
    && (settled <==> r.status.Completed?)
    && match r.status
       case Pending => r.amount > 0 && paid == 0
       case Processing => 0 < paid < r.amount
       case Completed => paid >= 0
       case Cancelled => paid >= 0
       case Failed => false
       case Disputed => false
  }

  ghost predicate RecordsOk(s: State) {
    forall id | id in s.remittances ::
      && 1 <= id <= s.counter
      && RecordOk(s.remittances[id], id, Disbursed(s.disbursed, id), id in s.settled)
  }

  ghost predicate NoOrphans(s: State) {
    && (forall id | id in s.settled :: id in s.remittances)
    && (forall id | id in s.disbursed :: id in s.remittances)
  }

  ghost predicate EscrowsOk(s: State) {
    forall id | id in s.escrows ::
      1 <= id <= s.escrowCounter && s.escrows[id].id == id && s.escrows[id].sender != SELF && s.escrows[id].amount > 0
  }

  ghost predicate TotalsOk(s: State) {
    0 <= s.fees <= MAX_FEES && s.processingVolume == InFlight(s)
  }

  ghost predicate Inv(s: State) {
    RecordsOk(s) && NoOrphans(s) && EscrowsOk(s) && TotalsOk(s)
  }

  // ----- what may happen to a record -----

  /** Either nothing changed, or the status rose; parties, fee and dates never change. */
  ghost predicate Advances(r: Remittance, r': Remittance) {
    r' == r
    || (&& r'.status.Rank() > r.status.Rank() && !r.status.IsTerminal()
        && (r'.amount == r.amount || (r'.amount == 0 && r'.status.Cancelled?))
        && r' == r.(status := r'.status, amount := r'.amount))
  }

  ghost predicate Progress(s: State, s': State) {
    forall id | id in s.remittances ::
      && id in s'.remittances
      && Advances(s.remittances[id], s'.remittances[id])
      && Disbursed(s.disbursed, id) <= Disbursed(s'.disbursed, id)
      && (id in s.settled ==> id in s'.settled)
      && (s.remittances[id].status.IsTerminal() ==>
            Disbursed(s'.disbursed, id) == Disbursed(s.disbursed, id) && (id in s'.settled <==> id in s.settled))
  }

  lemma ProgressTransitive(s: State, s': State, s'': State)
    requires Progress(s, s') && Progress(s', s'')
    ensures Progress(s, s'')
  {
  }

  /** A step that keeps the invariant, only moves records forward, and adds exactly `gain` to the residue. */
  ghost predicate Effect(s: State, s': State, gain: int) {
    Inv(s') && Progress(s, s') && Residue(s') == Residue(s) + gain
  }

  lemma EffectThen(s: State, s': State, s'': State, gain: int, gain': int)
    requires Effect(s, s', gain) && Effect(s', s'', gain')
    ensures Effect(s, s'', gain + gain')
  {
    ProgressTransitive(s, s', s'');
  }

  lemma SameRecords(s: State, s': State)
    requires Inv(s) && s' == s.(cfg := s'.cfg, balances := s'.balances, transfers := s'.transfers, volumes := s'.volumes)
    ensures Inv(s') && Progress(s, s')
    ensures Owed(s') == Owed(s) && Escrowed(s') == Escrowed(s)
  {
  }

  /**
   The state with the open record `id` replaced by `r'` and `paid'` disbursed on it in all; only
   balances and totals may differ besides.
   */
  function Changed(s: State, s': State, id: nat, r': Remittance, paid': int): State {
    s.(remittances := s.remittances[id := r'],
       disbursed := if paid' == Disbursed(s.disbursed, id) then s.disbursed else s.disbursed[id := paid'],
       settled := if r'.status.Completed? then s.settled + {id} else s.settled,
       balances := s'.balances, fees := s'.fees,
       processingVolume := s'.processingVolume, completedVolume := s'.completedVolume)
  }

  /** The changed record is well formed and has only moved forward. */
  ghost predicate GoodChange(s: State, id: nat, r': Remittance, paid': int) {
    && id in s.remittances && !s.remittances[id].status.IsTerminal()
    && RecordOk(r', id, paid', r'.status.Completed?) && Advances(s.remittances[id], r')
    && paid' >= Disbursed(s.disbursed, id)
  }

  function OwedBy(r: Remittance, paid: int): int {
    if r.status.IsTerminal() then 0 else r.amount - paid
  }

  function InFlightBy(r: Remittance): int {
    if r.status.Processing? then r.amount else 0
  }

  /** One open record changes. */
  lemma OneRecord(s: State, s': State, id: nat, r': Remittance, paid': int)
    requires Inv(s) && GoodChange(s, id, r', paid') && s' == Changed(s, s', id, r', paid')
    requires 0 <= s'.fees <= MAX_FEES
    requires s'.processingVolume == s.processingVolume + InFlightBy(r') - InFlightBy(s.remittances[id])
    ensures var gain := Held(s') - Held(s) - s'.fees + s.fees
                        - OwedBy(r', paid') + OwedBy(s.remittances[id], Disbursed(s.disbursed, id));
            Effect(s, s', gain)
  {
    OneKeepsRecords(s, s', id, r', paid');
    OneProgress(s, s', id, r', paid');
    OneInSums(s, s', id, r', paid');
  }

  lemma OneKeepsRecords(s: State, s': State, id: nat, r': Remittance, paid': int)
    requires Inv(s) && GoodChange(s, id, r', paid') && s' == Changed(s, s', id, r', paid')
    ensures RecordsOk(s') && NoOrphans(s') && EscrowsOk(s')
  {
  }

  lemma OneProgress(s: State, s': State, id: nat, r': Remittance, paid': int)
    requires Inv(s) && GoodChange(s, id, r', paid') && s' == Changed(s, s', id, r', paid')
    ensures Progress(s, s')
  {
  }

  lemma OneInSums(s: State, s': State, id: nat, r': Remittance, paid': int)
    requires Inv(s) && id in s.remittances && s' == Changed(s, s', id, r', paid')
    ensures Owed(s') == Owed(s) + OwedBy(r', paid') - OwedBy(s.remittances[id], Disbursed(s.disbursed, id))
    ensures InFlight(s') == InFlight(s) + InFlightBy(r') - InFlightBy(s.remittances[id])
    ensures Escrowed(s') == Escrowed(s)
  {
    SumIdsPoint(s.counter, id, OwedWeight(s.remittances, s.disbursed), OwedWeight(s'.remittances, s'.disbursed));
    SumIdsPoint(s.counter, id, InFlightWeight(s.remittances), InFlightWeight(s'.remittances));
  }

  /** A new pending record appears. */
  lemma NewRecord(s: State, s': State, id: nat)
    requires Inv(s) && id == s.counter + 1 && id in s'.remittances
    requires s'.remittances == s.remittances[id := s'.remittances[id]] && s'.counter == id
    requires s'.escrows == s.escrows && s'.escrowCounter == s.escrowCounter
    requires s'.disbursed == s.disbursed && s'.settled == s.settled
    requires s'.fees == s.fees && s'.processingVolume == s.processingVolume
    requires s'.remittances[id].status.Pending? && s'.remittances[id].amount > 0
    requires RecordOk(s'.remittances[id], id, 0, false)
    ensures Inv(s') && Progress(s, s')
    ensures Owed(s') == Owed(s) + s'.remittances[id].amount && Escrowed(s') == Escrowed(s)
  {
    assert id !in s.remittances;
    NewInSums(s, s', id);
  }

  lemma NewInSums(s: State, s': State, id: nat)
    requires id == s.counter + 1 == s'.counter && id in s'.remittances && s'.disbursed == s.disbursed
    requires s'.remittances == s.remittances[id := s'.remittances[id]]
    ensures Owed(s') == Owed(s) + OwedOn(s'.remittances, s'.disbursed, id)
    ensures InFlight(s') == InFlight(s) + InFlightOn(s'.remittances, id)
  {
    SumIdsAgree(s.counter, OwedWeight(s.remittances, s.disbursed), OwedWeight(s'.remittances, s'.disbursed));
    SumIdsAgree(s.counter, InFlightWeight(s.remittances), InFlightWeight(s'.remittances));
  }

  // ----- payments -----

  /** What a payment out of the contract leaves with the contract after all. */
  function Kept(to: Address, amount: int): int {
    if to == SELF then amount else 0
  }

  ghost predicate OnlyBalances(s: State, s': State) {
    s' == s.(balances := s'.balances)
  }

  lemma PayLaw(s: State, to: Address, amount: int)
    requires Pay(s, to, amount).Ok?
    ensures OnlyBalances(s, Pay(s, to, amount).value)
    ensures Held(Pay(s, to, amount).value) == Held(s) - amount + Kept(to, amount)
  {
  }

  lemma ReceiveLaw(s: State, from: Address, amount: int)
    requires from != SELF && Transfer(s, from, SELF, amount).Ok?
    ensures OnlyBalances(s, Transfer(s, from, SELF, amount).value)
    ensures Held(Transfer(s, from, SELF, amount).value) == Held(s) + amount
  {
  }

  /** A fee that makes the total pass the cap sends what was collected so far to the treasury. */
  function FlushKept(s: State, fee: int): int {
    if fee > 0 && s.fees + fee > MAX_FEES then Kept(s.cfg.treasury, s.fees) else 0
  }

  lemma SafeAddFeeLaw(s: State, fee: int)
    requires 0 <= s.fees <= MAX_FEES && SafeAddFee(s, fee).Ok?
    ensures var s' := SafeAddFee(s, fee).value;
            && s' == s.(balances := s'.balances, fees := s'.fees)
            && 0 <= s'.fees <= MAX_FEES
            && Held(s') - s'.fees == Held(s) - s.fees - fee + FlushKept(s, fee)
  {
    if fee > 0 && s.fees + fee > MAX_FEES && s.fees != 0 {
      PayLaw(s, s.cfg.treasury, s.fees);
    }
  }

  /** The preview offered to callers before they add a fee. */
  predicate WouldTriggerFlush(fees: int, newFee: int) {
    newFee > 0 && (fees > MAX_FEES - newFee || fees + newFee > MAX_FEES)
  }

  /** The preview is exact: it announces a flush exactly when adding the fee sends the collected fees away. */
  lemma PreviewExact(s: State, fee: int)
    requires 0 <= s.fees <= MAX_FEES && SafeAddFee(s, fee).Ok?
    ensures var s' := SafeAddFee(s, fee).value;
            if WouldTriggerFlush(s.fees, fee)
            then s'.fees == fee && Held(s') == Held(s) - s.fees + Kept(s.cfg.treasury, s.fees)
            else s'.fees == s.fees + fee && s'.balances == s.balances
  {
    SafeAddFeeLaw(s, fee);
  }

  // ----- creation -----

  lemma InsertLaw(s: State, now: nat, id: nat, sender: Address, e: Entry, fee: int)
    requires Inv(s) && id == s.counter + 1 && sender != SELF && fee >= FeeService.MIN_FEE && e.amount > 0
    ensures var s' := Insert(s, id, NewRemittance(s, now, id, sender, e, fee));
            && Inv(s') && Progress(s, s')
            && Owed(s') == Owed(s) + e.amount && Escrowed(s') == Escrowed(s)
  {
    var s' := Insert(s, id, NewRemittance(s, now, id, sender, e, fee));
    assert id !in s.settled && id !in s.disbursed;
    NewRecord(s, s', id);
  }

  lemma BookLaw(s: State, now: nat, id: nat, sender: Address, e: Entry, fee: int)
    requires Inv(s) && id == s.counter + 1 && sender != SELF && fee >= FeeService.MIN_FEE
    requires Book(s, now, id, sender, e, fee).Ok?
    ensures var s' := Book(s, now, id, sender, e, fee).value;
            && Inv(s') && Progress(s, s')
            && s'.counter == id && s'.balances == s.balances && s'.fees == s.fees
            && Owed(s') == Owed(s) + e.amount && Escrowed(s') == Escrowed(s)
  {
    InsertLaw(s, now, id, sender, e, fee);
  }

  lemma DepositLaw(s: State, now: nat, sender: Address, e: Entry, fee: int)
    requires Inv(s) && sender != SELF && fee >= FeeService.MIN_FEE
    requires Deposit(s, now, sender, e, fee).Ok?
    ensures var s' := Deposit(s, now, sender, e, fee).value.0;
            Effect(s, s', 0)
  {
    ReceiveLaw(s, sender, e.amount);
    var funded := Transfer(s, sender, SELF, e.amount).value;
    SameRecords(s, funded);
    BookLaw(funded, now, s.counter + 1, sender, e, fee);
    ProgressTransitive(s, funded, Book(funded, now, s.counter + 1, sender, e, fee).value);
  }

  lemma LimitLaw(s: State, now: nat, sender: Address, c: DailyLimit.Corridor, amount: int)
    requires Inv(s) && EnforceLimit(s, now, sender, c, amount).Ok?
    ensures var s' := EnforceLimit(s, now, sender, c, amount).value;
            Inv(s') && s' == s.(transfers := s'.transfers)
  {
  }

  lemma AcceptLaw(s: State, now: nat, sender: Address, e: Entry, c: DailyLimit.Corridor, fee: Result<int>)
    requires Inv(s) && sender != SELF && (fee.Ok? ==> fee.value >= FeeService.MIN_FEE)
    requires Accept(s, now, sender, e, c, fee).Ok?
    ensures var s' := Accept(s, now, sender, e, c, fee).value.0;
            Effect(s, s', 0)
  {
    LimitLaw(s, now, sender, c, e.amount);
    DepositLaw(EnforceLimit(s, now, sender, c, e.amount).value, now, sender, e, fee.value);
  }

  /** Creating a remittance books exactly what it brings in. */
  lemma CreateLaw(s: State, env: Env, sender: Address, e: Entry)
    requires Inv(s) && sender != SELF && Create(s, env, sender, e).Ok?
    ensures var s' := Create(s, env, sender, e).value.0;
            Effect(s, s', 0)
  {
    var fee := FeeService.PlatformFeeForSender(s.cfg.feeConfig, e.amount, Rolling(s, sender, env.now));
    AcceptLaw(s, env.now, sender, e, DailyLimit.GLOBAL_CORRIDOR, fee);
  }

  lemma CreateWithCorridorLaw(s: State, env: Env, sender: Address, e: Entry, from: Option<string>, to: Option<string>)
    requires Inv(s) && sender != SELF && CreateWithCorridor(s, env, sender, e, from, to).Ok?
    ensures var s' := CreateWithCorridor(s, env, sender, e, from, to).value.0;
            Effect(s, s', 0)
  {
    AcceptLaw(s, env.now, sender, e, LimitCorridor(to), RouteFee(s, env.now, sender, e, from, to));
  }

  /** What storing one more entry of a batch does. */
  ghost predicate Adds(s: State, s': State, amount: int) {
    && Inv(s') && Progress(s, s') && s'.balances == s.balances && s'.fees == s.fees
    && Owed(s') == Owed(s) + amount && Escrowed(s') == Escrowed(s)
  }

  lemma BookPricedLaw(b: Booked, now: nat, id: nat, sender: Address, e: Entry, volume: int, fee: int)
    requires Inv(b.state) && sender != SELF && id == b.state.counter + 1 && fee >= FeeService.MIN_FEE
    requires BookPriced(b, now, id, sender, e, volume, fee).Ok?
    ensures Adds(b.state, BookPriced(b, now, id, sender, e, volume, fee).value.state, e.amount)
  {
    BookLaw(b.state, now, id, sender, e, fee);
  }

  /** The fee at which the next entry is booked. */
  lemma PriceOf(b: Booked, now: nat, sender: Address, e: Entry) returns (fee: int)
    requires BookNext(b, now, sender, e).Ok?
    ensures fee >= FeeService.MIN_FEE
    ensures BookNext(b, now, sender, e) == BookPriced(b, now, b.state.counter + 1, sender, e, b.volume + e.amount, fee)
  {
    fee := FeeService.PlatformFeeForVolume(b.state.cfg.feeConfig, e.amount, b.volume + e.amount).value;
  }

  lemma BookNextLaw(b: Booked, now: nat, sender: Address, e: Entry)
    requires Inv(b.state) && sender != SELF && BookNext(b, now, sender, e).Ok?
    ensures Adds(b.state, BookNext(b, now, sender, e).value.state, e.amount)
  {
    var fee := PriceOf(b, now, sender, e);
    BookPricedLaw(b, now, b.state.counter + 1, sender, e, b.volume + e.amount, fee);
  }

  lemma {:induction false} BookAllLaw(s: State, now: nat, sender: Address, entries: seq<Entry>, prior: int)
    requires Inv(s) && sender != SELF && BookAll(s, now, sender, entries, prior).Ok?
    ensures Adds(s, BookAll(s, now, sender, entries, prior).value.state, SumBy(entries, EntryAmount()))
  {
    if entries != [] {
      var front, e := entries[..|entries| - 1], entries[|entries| - 1];
      BookAllLaw(s, now, sender, front, prior);
      var before := BookAll(s, now, sender, front, prior).value;
      BookNextLaw(before, now, sender, e);
      ProgressTransitive(s, before.state, BookNext(before, now, sender, e).value.state);
    }
  }

  function EntryAmount(): Entry -> int {
    (e: Entry) => e.amount
  }

  lemma {:induction false} BatchTotalIsSum(s: State, sender: Address, entries: seq<Entry>)
    requires BatchTotal(s, sender, entries).Ok?
    ensures BatchTotal(s, sender, entries).value == SumBy(entries, EntryAmount())
  {
    if entries != [] {
      BatchTotalIsSum(s, sender, entries[..|entries| - 1]);
    }
  }

  lemma BatchCreateLaw(s: State, env: Env, sender: Address, entries: seq<Entry>)
    requires Inv(s) && sender != SELF && BatchCreate(s, env, sender, entries).Ok?
    ensures var s' := BatchCreate(s, env, sender, entries).value.0;
            Effect(s, s', 0)
  {
    var total := BatchTotal(s, sender, entries).value;
    var limited := EnforceLimit(s, env.now, sender, DailyLimit.GLOBAL_CORRIDOR, total).value;
    var funded := Transfer(limited, sender, SELF, total).value;
    BatchTotalIsSum(s, sender, entries);
    ReceiveLaw(limited, sender, total);
    BookAllLaw(funded, env.now, sender, entries, Rolling(s, sender, env.now));
  }

  // ----- payout -----

  function Payout(s: State, id: nat): Result<FeeService.FeeBreakdown> {
    var r :- Get(s, id);
    FeeService.FeesWithBreakdown(s.cfg.feeConfig, r.amount, false)
  }

  /** The record is completed and flagged, and its fee leaves the free balance for the accumulated fees. */
  ghost predicate Completion(s: State, s': State, id: nat, r: Remittance) {
    && s' == s.(remittances := s.remittances[id := r.(status := Completed)], settled := s.settled + {id},
                processingVolume := s.processingVolume - r.amount,
                balances := s'.balances, fees := s'.fees, completedVolume := s'.completedVolume)
    && 0 <= s'.fees <= MAX_FEES
    && Held(s') - s'.fees == Held(s) - s.fees - r.fee + FlushKept(s, r.fee)
  }

  lemma CompleteLaw(s: State, id: nat, r: Remittance)
    requires 0 <= s.fees <= MAX_FEES && Complete(s, id, r).Ok?
    ensures Completion(s, Complete(s, id, r).value, id, r)
  {
    SafeAddFeeLaw(s, r.fee);
  }

  lemma PayOutLaw(s: State, id: nat, r: Remittance, netAmount: int, protocolFee: int)
    requires 0 <= s.fees <= MAX_FEES && protocolFee >= 0 && PayOut(s, id, r, netAmount, protocolFee).Ok?
    ensures var s' := PayOut(s, id, r, netAmount, protocolFee).value;
            && s' == s.(remittances := s.remittances[id := r.(status := Completed)], settled := s.settled + {id},
                        processingVolume := s.processingVolume - r.amount,
                        balances := s'.balances, fees := s'.fees, completedVolume := s'.completedVolume)
            && 0 <= s'.fees <= MAX_FEES
            && Held(s') - s'.fees == Held(s) - s.fees - netAmount - protocolFee - r.fee
                                     + Kept(r.agent, netAmount) + Kept(s.cfg.treasury, protocolFee) + FlushKept(s, r.fee)
  {
    PayLaw(s, r.agent, netAmount);
    var paid := Pay(s, r.agent, netAmount).value;
    if protocolFee > 0 {
      PayLaw(paid, s.cfg.treasury, protocolFee);
    }
    CompleteLaw(if protocolFee > 0 then Pay(paid, s.cfg.treasury, protocolFee).value else paid, id, r);
  }

  /** A full payout: the amount leaves as net amount and protocol fee, the rest joins the accumulated fees. */
  lemma ConfirmLaw(s: State, env: Env, agent: Address, id: nat)
    requires Inv(s) && Confirm(s, env, agent, id).Ok?
    ensures id in s.remittances && Payout(s, id).Ok?
    ensures var s', b := Confirm(s, env, agent, id).value, Payout(s, id).value;
            && Effect(s, s', Kept(agent, b.netAmount) + Kept(s.cfg.treasury, b.protocolFee)
                             + FlushKept(s, s.remittances[id].fee))
            && s'.remittances == s.remittances[id := s.remittances[id].(status := Completed)]
  {
    var s', r, b := Confirm(s, env, agent, id).value, s.remittances[id], Payout(s, id).value;
    PayOutLaw(StartProcessing(s, r).value, id, r.(status := Processing), b.netAmount, b.protocolFee);
    OneRecord(s, s', id, r.(status := Completed), 0);
  }

  /** What a completing partial payout leaves behind: the recomputed fees less the fee it books. */
  function Leftover(s: State, id: nat): int
    requires id in s.remittances && Payout(s, id).Ok?
  {
    Payout(s, id).value.platformFee + Payout(s, id).value.protocolFee - s.remittances[id].fee
  }

  predicate Completes(s: State, id: nat, amount: int)
    requires Payout(s, id).Ok?
  {
    Disbursed(s.disbursed, id) + amount >= Payout(s, id).value.netAmount
  }

  /** One partial payout that leaves the remittance open. */
  ghost predicate Disbursement(s: State, s': State, id: nat, r: Remittance, amount: int) {
    && s' == s.(remittances := s.remittances[id := r],
                disbursed := s.disbursed[id := Disbursed(s.disbursed, id) + amount],
                balances := s'.balances)
    && Held(s') == Held(s) - amount + Kept(r.agent, amount)
  }

  /** The partial payout that completes it. */
  ghost predicate LastDisbursement(s: State, s': State, id: nat, r: Remittance, amount: int) {
    && s' == s.(remittances := s.remittances[id := r.(status := Completed)], settled := s.settled + {id},
                disbursed := s.disbursed[id := Disbursed(s.disbursed, id) + amount],
                processingVolume := s.processingVolume - r.amount,
                balances := s'.balances, fees := s'.fees, completedVolume := s'.completedVolume)
    && 0 <= s'.fees <= MAX_FEES
    && Held(s') - s'.fees == Held(s) - s.fees - amount - r.fee + Kept(r.agent, amount) + FlushKept(s, r.fee)
  }

  lemma DisburseStays(s: State, id: nat, r: Remittance, amount: int, netAmount: int)
    requires Disburse(s, id, r, amount, netAmount).Ok? && Disbursed(s.disbursed, id) + amount < netAmount
    ensures Disbursement(s, Disburse(s, id, r, amount, netAmount).value, id, r, amount)
  {
    PayLaw(s, r.agent, amount);
  }

  lemma CompletionAfterPayment(s: State, paid: State, s': State, id: nat, r: Remittance, amount: int)
    requires OnlyBalances(s, paid) && Held(paid) == Held(s) - amount + Kept(r.agent, amount)
    requires Completion(paid.(disbursed := s.disbursed[id := Disbursed(s.disbursed, id) + amount]), s', id, r)
    ensures LastDisbursement(s, s', id, r, amount)
  {
  }

  /** The state in which the last disbursement completes the remittance: the payment has been made. */
  lemma PaidBeforeCompletion(s: State, id: nat, r: Remittance, amount: int, netAmount: int) returns (paid: State)
    requires Disburse(s, id, r, amount, netAmount).Ok? && Disbursed(s.disbursed, id) + amount >= netAmount
    ensures OnlyBalances(s, paid) && Held(paid) == Held(s) - amount + Kept(r.agent, amount)
    ensures var total := Disbursed(s.disbursed, id) + amount;
            Disburse(s, id, r, amount, netAmount) == Complete(paid.(disbursed := s.disbursed[id := total]), id, r)
  {
    PayLaw(s, r.agent, amount);
    paid := Pay(s, r.agent, amount).value;
  }

  lemma DisburseCompletes(s: State, id: nat, r: Remittance, amount: int, netAmount: int)
    requires 0 <= s.fees <= MAX_FEES
    requires Disburse(s, id, r, amount, netAmount).Ok? && Disbursed(s.disbursed, id) + amount >= netAmount
    ensures LastDisbursement(s, Disburse(s, id, r, amount, netAmount).value, id, r, amount)
  {
    var paid := PaidBeforeCompletion(s, id, r, amount, netAmount);
    var recorded := paid.(disbursed := s.disbursed[id := Disbursed(s.disbursed, id) + amount]);
    CompleteLaw(recorded, id, r);
    CompletionAfterPayment(s, paid, Complete(recorded, id, r).value, id, r, amount);
  }

  /** The remittance counts as in flight from here on. */
  ghost predicate InProgress(s: State, started: State, id: nat)
    requires id in s.remittances
  {
    && started == s.(processingVolume := started.processingVolume)
    && started.processingVolume == s.processingVolume + s.remittances[id].amount - InFlightBy(s.remittances[id])
  }

  lemma BeginLaw(s: State, id: nat)
    requires id in s.remittances && (s.remittances[id].status.Pending? || s.remittances[id].status.Processing?)
    requires Begin(s, s.remittances[id]).Ok?
    ensures InProgress(s, Begin(s, s.remittances[id]).value, id)
  {
  }

  lemma PartialStays(s: State, started: State, s': State, id: nat, amount: int)
    requires Inv(s) && id in s.remittances && !s.remittances[id].status.IsTerminal() && InProgress(s, started, id)
    requires 0 < amount < s.remittances[id].amount - Disbursed(s.disbursed, id)
    requires Disbursement(started, s', id, s.remittances[id].(status := Processing), amount)
    ensures Effect(s, s', Kept(s.remittances[id].agent, amount))
  {
    var r', paid' := s.remittances[id].(status := Processing), Disbursed(s.disbursed, id) + amount;
    assert GoodChange(s, id, r', paid');
    OneRecord(s, s', id, r', paid');
  }

  lemma PartialCompletes(s: State, started: State, s': State, id: nat, amount: int)
    requires Inv(s) && id in s.remittances && !s.remittances[id].status.IsTerminal() && InProgress(s, started, id)
    requires amount > 0
    requires LastDisbursement(started, s', id, s.remittances[id].(status := Processing), amount)
    ensures var r := s.remittances[id];
            Effect(s, s', Kept(r.agent, amount) + FlushKept(s, r.fee)
                          + r.amount - r.fee - (Disbursed(s.disbursed, id) + amount))
  {
    var r', paid' := s.remittances[id].(status := Completed), Disbursed(s.disbursed, id) + amount;
    assert GoodChange(s, id, r', paid');
    OneRecord(s, s', id, r', paid');
  }

  lemma PartialEffect(s: State, started: State, id: nat, amount: int, b: FeeService.FeeBreakdown)
    requires Inv(s) && id in s.remittances && !s.remittances[id].status.IsTerminal() && InProgress(s, started, id)
    requires 0 < amount <= b.netAmount - Disbursed(s.disbursed, id)
    requires b.netAmount + b.platformFee + b.protocolFee == s.remittances[id].amount
    requires b.platformFee >= FeeService.MIN_FEE && b.protocolFee >= 0
    requires Disburse(started, id, s.remittances[id].(status := Processing), amount, b.netAmount).Ok?
    ensures var r, total := s.remittances[id], Disbursed(s.disbursed, id) + amount;
            var s' := Disburse(started, id, r.(status := Processing), amount, b.netAmount).value;
            && Disbursed(s'.disbursed, id) == total
            && s'.remittances == s.remittances[id := r.(status := if total >= b.netAmount then Completed else Processing)]
            && Effect(s, s', Kept(r.agent, amount)
                             + if total >= b.netAmount
                               then b.platformFee + b.protocolFee - r.fee + FlushKept(s, r.fee) else 0)
  {
    var r := s.remittances[id].(status := Processing);
    var s' := Disburse(started, id, r, amount, b.netAmount).value;
    if Disbursed(s.disbursed, id) + amount >= b.netAmount {
      DisburseCompletes(started, id, r, amount, b.netAmount);
      PartialCompletes(s, started, s', id, amount);
    } else {
      DisburseStays(started, id, r, amount, b.netAmount);
      PartialStays(s, started, s', id, amount);
    }
  }

  /** A partial payout, and what the one that completes the remittance leaves behind. */
  lemma ConfirmPartialLaw(s: State, env: Env, id: nat, amount: int)
    requires Inv(s) && ConfirmPartial(s, env, id, amount).Ok?
    ensures id in s.remittances && Payout(s, id).Ok?
    ensures var s', r := ConfirmPartial(s, env, id, amount).value, s.remittances[id];
            && Effect(s, s', Kept(r.agent, amount)
                             + if Completes(s, id, amount) then Leftover(s, id) + FlushKept(s, r.fee) else 0)
            && Disbursed(s'.disbursed, id) == Disbursed(s.disbursed, id) + amount
            && var status := if Completes(s, id, amount) then Completed else Processing;
               s'.remittances == s.remittances[id := r.(status := status)]
  {
    BeginLaw(s, id);
    PartialEffect(s, Begin(s, s.remittances[id]).value, id, amount, Payout(s, id).value);
  }

  // ----- refunds -----

  lemma MarkFailedLaw(s: State, env: Env, id: nat)
    requires Inv(s) && MarkFailed(s, env, id).Ok?
    ensures var s' := MarkFailed(s, env, id).value;
            && Effect(s, s', -Disbursed(s.disbursed, id))
            && s'.remittances == s.remittances[id := s.remittances[id].(status := Cancelled, amount := 0)]
  {
    var s', r := MarkFailed(s, env, id).value, s.remittances[id];
    PayLaw(s, r.sender, r.amount);
    OneRecord(s, s', id, r.(status := Cancelled, amount := 0), Disbursed(s.disbursed, id));
  }

  lemma CancelLaw(s: State, env: Env, id: nat)
    requires Inv(s) && Cancel(s, env, id).Ok?
    ensures var s' := Cancel(s, env, id).value;
            && Effect(s, s', 0)
            && s'.remittances == s.remittances[id := s.remittances[id].(status := Cancelled, amount := 0)]
  {
    var s', r := Cancel(s, env, id).value, s.remittances[id];
    PayLaw(s, r.sender, r.amount);
    OneRecord(s, s', id, r.(status := Cancelled, amount := 0), 0);
  }

  lemma ExpireLaw(s: State, id: nat)
    requires Inv(s) && id in s.remittances && s.remittances[id].status.Pending? && Expire(s, id).Ok?
    ensures var s' := Expire(s, id).value;
            && Effect(s, s', 0)
            && s'.remittances == s.remittances[id := s.remittances[id].(status := Cancelled)]
  {
    var s', r := Expire(s, id).value, s.remittances[id];
    PayLaw(s, r.sender, r.amount);
    OneRecord(s, s', id, r.(status := Cancelled), 0);
  }

  lemma {:induction false} ExpireAllLaw(s: State, now: nat, ids: seq<nat>)
    requires Inv(s) && ExpireAll(s, now, ids).Ok?
    ensures var s' := ExpireAll(s, now, ids).value.0;
            Effect(s, s', 0)
  {
    if ids != [] {
      var front := ids[..|ids| - 1];
      ExpireAllLaw(s, now, front);
      var before := ExpireAll(s, now, front).value.0;
      var id := ids[|ids| - 1];
      if Expirable(before, now, id) {
        ExpireLaw(before, id);
        EffectThen(s, before, Expire(before, id).value, 0, 0);
      }
    }
  }

  // ----- fee withdrawal -----

  lemma WithdrawFeesLaw(s: State, env: Env, to: Address)
    requires Inv(s) && WithdrawFees(s, env, to).Ok?
    ensures var s' := WithdrawFees(s, env, to).value;
            Effect(s, s', 0) && s'.fees == 0
  {
    PayLaw(s, to, s.fees);
  }

  /** The multi-signature withdrawal does not refuse the contract's own address: the fees then stay, unaccounted. */
  lemma ExecuteWithdrawalLaw(s: State, env: Env, to: Option<Address>)
    requires Inv(s) && ExecuteWithdrawal(s, env, to).Ok?
    ensures var s' := ExecuteWithdrawal(s, env, to).value;
            Effect(s, s', Kept(to.value, s.fees)) && s'.fees == 0
  {
    PayLaw(s, to.value, s.fees);
  }

  // ----- escrows -----

  /** The state with escrow `id` replaced; only balances may differ besides. */
  function EscrowChanged(s: State, s': State, id: nat, e': Escrow): State {
    s.(escrows := s.escrows[id := e'], balances := s'.balances)
  }

  lemma OneEscrow(s: State, s': State, id: nat, e': Escrow)
    requires Inv(s) && id in s.escrows && s' == EscrowChanged(s, s', id, e')
    requires s.escrows[id].status.Locked? && e' == s.escrows[id].(status := e'.status) && !e'.status.Locked?
    ensures Effect(s, s', Held(s') - Held(s) + e'.amount)
  {
    SumIdsPoint(s.escrowCounter, id, EscrowedWeight(s.escrows), EscrowedWeight(s'.escrows));
  }

  /** The escrow that a creation stores. */
  function CreatedEscrow(s: State, env: Env, sender: Address, recipient: Address, amount: int): Escrow {
    Escrow(s.escrowCounter + 1, sender, recipient, amount,
           if s.cfg.escrowTtl == 0 then None else Some(env.now + s.cfg.escrowTtl), Locked)
  }

  lemma CreateEscrowStores(s: State, env: Env, sender: Address, recipient: Address, amount: int)
    requires CreateEscrow(s, env, sender, recipient, amount).Ok?
    ensures var (s', id) := CreateEscrow(s, env, sender, recipient, amount).value;
            && id == s.escrowCounter + 1 == s'.escrowCounter
            && s'.escrows == s.escrows[id := CreatedEscrow(s, env, sender, recipient, amount)]
  {
  }

  lemma CreateEscrowLaw(s: State, env: Env, sender: Address, recipient: Address, amount: int)
    requires Inv(s) && sender != SELF && CreateEscrow(s, env, sender, recipient, amount).Ok?
    ensures var (s', id) := CreateEscrow(s, env, sender, recipient, amount).value;
            Effect(s, s', 0) && s'.escrows == s.escrows[id := CreatedEscrow(s, env, sender, recipient, amount)]
  {
    var s' := CreateEscrow(s, env, sender, recipient, amount).value.0;
    ReceiveLaw(s, sender, amount);
    SumIdsAgree(s.escrowCounter, EscrowedWeight(s.escrows), EscrowedWeight(s'.escrows));
  }

  lemma ReleaseEscrowLaw(s: State, env: Env, id: nat)
    requires Inv(s) && ReleaseEscrow(s, env, id).Ok?
    ensures var s', e := ReleaseEscrow(s, env, id).value, s.escrows[id];
            Effect(s, s', Kept(e.recipient, e.amount))
  {
    var s', e := ReleaseEscrow(s, env, id).value, s.escrows[id];
    PayLaw(s, e.recipient, e.amount);
    OneEscrow(s, s', id, e.(status := Released));
  }

  lemma RefundEscrowLaw(s: State, env: Env, id: nat)
    requires Inv(s) && RefundEscrow(s, env, id).Ok?
    ensures var s' := RefundEscrow(s, env, id).value;
            Effect(s, s', 0)
  {
    var s', e := RefundEscrow(s, env, id).value, s.escrows[id];
    PayLaw(s, e.sender, e.amount);
    OneEscrow(s, s', id, e.(status := Refunded));
  }

  lemma {:induction false} ExpireEscrowsLaw(s: State, now: nat, ids: seq<nat>)
    requires Inv(s) && ExpireEscrows(s, now, ids).Ok?
    ensures var s' := ExpireEscrows(s, now, ids).value.0;
            Effect(s, s', 0)
  {
    if ids != [] {
      var front, id := ids[..|ids| - 1], ids[|ids| - 1];
      ExpireEscrowsLaw(s, now, front);
      var before, s' := ExpireEscrows(s, now, front).value.0, ExpireEscrows(s, now, ids).value.0;
      if EscrowExpirable(before, now, id) {
        var e := before.escrows[id];
        PayLaw(before, e.sender, e.amount);
        OneEscrow(before, s', id, e.(status := Refunded));
        EffectThen(s, before, s', 0, 0);
      }
    }
  }

  // ----- disputes -----

  /** No entry point makes a remittance Failed, so every dispute step fails in a reachable state. */
  lemma DisputesUnreachable(s: State, env: Env, id: nat, forSender: bool)
    requires Inv(s)
    ensures RaiseDispute(s, env, id).Err? && ResolveDispute(s, env, id, forSender).Err?
  {
    if id in s.remittances {
      assert RecordOk(s.remittances[id], id, Disbursed(s.disbursed, id), id in s.settled);
    }
  }
}
