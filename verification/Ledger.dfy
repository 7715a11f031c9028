/**
 The remittance contract's ledger: every entry point that moves tokens or changes the status of a
 remittance, as a function from the stored state to the next one. An `Err` keeps the old state.

 There is one token. `Env.admit` stands for the checks of the entry point that this model does not
 describe (authorization, roles, KYC, agent caps, cooldowns, proofs), and `Env.screened` for those that only the
 creation of a single remittance makes (the agent's reputation, the token whitelist, the corridor
 cap, the settlement configuration); when they refuse, the step is `Err(Rejected)`.
 */
module Ledger {
  import opened Common
  import opened Types
  import FeeService
  import SenderVolume
  import DailyLimit
  import Netting
  import NettingLaws

  /** The contract's own address. */
  const SELF: Address := "SELF"

  const MAX_BATCH_SIZE: nat := 100
  const MAX_FEES: int := 0x0666_6666_6666_6666_6666_6666_6666_6666 // I128_MAX / 20

  datatype Env = Env(now: nat, admit: bool, screened: bool)

  /** What administrators can set; any change of it is a step of its own. */
  datatype Config = Config(
    feeConfig: FeeService.FeeConfig,
    routes: map<(string, string), FeeService.Route>,
    limits: DailyLimit.Limits,
    treasury: Address,
    agents: set<Address>,
    blacklisted: set<Address>,
    paused: bool,
    migrating: bool,
    expiryWindow: nat,
    escrowTtl: nat,
    disputeWindow: nat,
    maxExpiredBatch: nat)

  datatype State = State(
    cfg: Config,
    balances: map<Address, nat>,
    remittances: map<nat, Remittance>,
    counter: nat,
    disbursed: map<nat, int>,
    settled: set<nat>,
    escrows: map<nat, Escrow>,
    escrowCounter: nat,
    fees: int,
    processingVolume: int,
    completedVolume: int,
    transfers: map<Address, seq<DailyLimit.TransferRecord>>,
    volumes: map<Address, seq<SenderVolume.Bucket>>)

  // ----- the token -----

  function Balance(balances: map<Address, nat>, who: Address): nat {
    if who in balances then balances[who] else 0
  }

  function Transfer(s: State, from: Address, to: Address, amount: int): Result<State> {
    if amount < 0 || amount > Balance(s.balances, from) then Err(HostTrap) else
    if from == to then Ok(s) else
      var less := s.balances[from := Balance(s.balances, from) - amount];
      Ok(s.(balances := less[to := Balance(less, to) + amount]))
  }

  function Pay(s: State, to: Address, amount: int): Result<State> {
    Transfer(s, SELF, to, amount)
  }

  // ----- lookups with their defaults -----

  function Disbursed(disbursed: map<nat, int>, id: nat): int {
    if id in disbursed then disbursed[id] else 0
  }

  function TransfersOf(s: State, who: Address): seq<DailyLimit.TransferRecord> {
    if who in s.transfers then s.transfers[who] else []
  }

  function VolumeOf(s: State, who: Address): seq<SenderVolume.Bucket> {
    if who in s.volumes then s.volumes[who] else []
  }

  function Get(s: State, id: nat): Result<Remittance> {
    if id in s.remittances then Ok(s.remittances[id]) else Err(RemittanceNotFound)
  }

  function Put(s: State, id: nat, r: Remittance): State {
    s.(remittances := s.remittances[id := r])
  }

  function NextId(counter: nat): Result<nat> {
    if counter + 1 > U64_MAX then Err(Overflow) else Ok(counter + 1)
  }

  // ----- accumulated fees -----

  /** Sends fees to the treasury and resets the accumulated total. */
  function Flush(s: State, amount: int): Result<State> {
    if amount == 0 then Ok(s) else
      :- Need(amount > 0, InvalidAmount);
      var paid :- Pay(s, s.cfg.treasury, amount);
      Ok(paid.(fees := 0))
  }

  /** Adds a fee; when the total would pass the cap the fees collected so far are flushed first. */
  function SafeAddFee(s: State, fee: int): Result<State> {
    if fee < 0 then Err(InvalidAmount) else
    if fee == 0 then Ok(s) else
      var total :- Checked(s.fees + fee);
      if total > MAX_FEES then
        var flushed :- Flush(s, s.fees);
        :- Need(fee <= MAX_FEES, Overflow);
        Ok(flushed.(fees := fee))
      else
        Ok(s.(fees := total))
  }

  // ----- creation -----

  function ValidateCreate(s: State, sender: Address, agent: Address, amount: int): Result<()> {
    if amount <= 0 then Err(InvalidAmount) else
    :- Need(agent in s.cfg.agents, AgentNotRegistered);
    :- Need(sender !in s.cfg.blacklisted, UserBlacklisted);
    Ok(())
  }

  function ExpiresAt(now: nat, window: nat): Option<nat> {
    if window > 0 then Some(SaturatingAddU64(now, window)) else None
  }

  datatype Entry = Entry(agent: Address, amount: int, expiry: Option<nat>)

  function NewRemittance(s: State, now: nat, id: nat, sender: Address, e: Entry, fee: int): Remittance {
    Remittance(id, sender, e.agent, e.amount, fee, Pending, e.expiry, now, None, ExpiresAt(now, s.cfg.expiryWindow))
  }

  /** Stores a new pending remittance and the sender's volume history. */
  function Book(s: State, now: nat, id: nat, sender: Address, e: Entry, fee: int): Result<State> {
    var history :- SenderVolume.Record(VolumeOf(s, sender), e.amount, now);
    Ok(Insert(s, id, NewRemittance(s, now, id, sender, e, fee)).(volumes := s.volumes[sender := history]))
  }

  function Insert(s: State, id: nat, r: Remittance): State {
    Put(s, id, r).(counter := id)
  }

  function EnforceLimit(s: State, now: nat, sender: Address, c: DailyLimit.Corridor, amount: int): Result<State> {
    var records :- DailyLimit.Enforce(TransfersOf(s, sender), s.cfg.limits, now, c, amount);
    Ok(s.(transfers := s.transfers[sender := records]))
  }

  function Rolling(s: State, sender: Address, now: nat): int {
    SenderVolume.Rolling(VolumeOf(s, sender), now)
  }

  /** An admitted creation: the daily limit, the fee, the deposit, then the record. */
  function Accept(s: State, now: nat, sender: Address, e: Entry, c: DailyLimit.Corridor, feeOrError: Result<int>)
    : Result<(State, nat)>
  {
    var limited :- EnforceLimit(s, now, sender, c, e.amount);
    var fee :- feeOrError;
    Deposit(limited, now, sender, e, fee)
  }

  function Deposit(s: State, now: nat, sender: Address, e: Entry, fee: int): Result<(State, nat)> {
    var funded :- Transfer(s, sender, SELF, e.amount);
    var id :- NextId(s.counter);
    var booked :- Book(funded, now, id, sender, e, fee);
    Ok((booked, id))
  }

  function Create(s: State, env: Env, sender: Address, e: Entry): Result<(State, nat)> {
    if s.cfg.migrating then Err(MigrationInProgress) else
    var _ :- ValidateCreate(s, sender, e.agent, e.amount);
    :- Need(env.admit && env.screened, Rejected);
    var fee := FeeService.PlatformFeeForSender(s.cfg.feeConfig, e.amount, Rolling(s, sender, env.now));
    Accept(s, env.now, sender, e, DailyLimit.GLOBAL_CORRIDOR, fee)
  }

  /** Creation along a country route: its own daily limit and, when configured, its own fees. */
  function CreateWithCorridor(s: State, env: Env, sender: Address, e: Entry, from: Option<string>, to: Option<string>)
    : Result<(State, nat)>
  {
    var _ :- ValidateCreate(s, sender, e.agent, e.amount);
    :- Need(env.admit, Rejected);
    Accept(s, env.now, sender, e, LimitCorridor(to), RouteFee(s, env.now, sender, e, from, to))
  }

  function RouteFee(s: State, now: nat, sender: Address, e: Entry, from: Option<string>, to: Option<string>)
    : (r: Result<int>)
    ensures r.Ok? ==> r.value >= FeeService.MIN_FEE
  {
    var route := RouteOf(s, from, to);
    var breakdown :- FeeService.FeesForSender(s.cfg.feeConfig, route, e.amount, Rolling(s, sender, now));
    Ok(breakdown.platformFee)
  }

  function LimitCorridor(to: Option<string>): DailyLimit.Corridor {
    if to.Some? then DailyLimit.GLOBAL_CORRIDOR.(country := to.value) else DailyLimit.GLOBAL_CORRIDOR
  }

  function RouteOf(s: State, from: Option<string>, to: Option<string>): Option<FeeService.Route> {
    if from.Some? && to.Some? && (from.value, to.value) in s.cfg.routes
    then Some(s.cfg.routes[(from.value, to.value)]) else None
  }

  /** Validates every entry and adds up the amounts. */
  function BatchTotal(s: State, sender: Address, entries: seq<Entry>): Result<int> {
    if entries == [] then Ok(0) else
      var total :- BatchTotal(s, sender, entries[..|entries| - 1]);
      var e := entries[|entries| - 1];
      var _ :- ValidateCreate(s, sender, e.agent, e.amount);
      Checked(total + e.amount)
  }

  /** What the batch loop carries: the state, the ids so far and the sender's volume so far. */
  datatype Booked = Booked(state: State, ids: seq<nat>, volume: int)

  function BookNext(b: Booked, now: nat, sender: Address, e: Entry): Result<Booked> {
    var id :- NextId(b.state.counter);
    var volume :- Checked(b.volume + e.amount);
    var fee :- FeeService.PlatformFeeForVolume(b.state.cfg.feeConfig, e.amount, volume);
    BookPriced(b, now, id, sender, e, volume, fee)
  }

  function BookPriced(b: Booked, now: nat, id: nat, sender: Address, e: Entry, volume: int, fee: int): Result<Booked> {
    var booked :- Book(b.state, now, id, sender, e, fee);
    Ok(Booked(booked, b.ids + [id], volume))
  }

  /** The entries stored one by one; the fee of each sees the volume of all before it. */
  function BookAll(s: State, now: nat, sender: Address, entries: seq<Entry>, prior: int): Result<Booked> {
    if entries == [] then Ok(Booked(s, [], prior)) else
      var before :- BookAll(s, now, sender, entries[..|entries| - 1], prior);
      BookNext(before, now, sender, entries[|entries| - 1])
  }

  function BatchCreate(s: State, env: Env, sender: Address, entries: seq<Entry>): Result<(State, seq<nat>)> {
    if s.cfg.migrating then Err(MigrationInProgress) else
    :- Need(1 <= |entries| <= MAX_BATCH_SIZE, InvalidBatchSize);
    :- Need(env.admit, Rejected);
    var total :- BatchTotal(s, sender, entries);
    var limited :- EnforceLimit(s, env.now, sender, DailyLimit.GLOBAL_CORRIDOR, total);
    var funded :- Transfer(limited, sender, SELF, total);
    var booked :- BookAll(funded, env.now, sender, entries, Rolling(s, sender, env.now));
    Ok((booked.state, booked.ids))
  }

  // ----- payout -----

  /** What becomes of the analytics and the record once a remittance is fully paid out. */
  function Complete(s: State, id: nat, r: Remittance): Result<State> {
    var charged :- SafeAddFee(s, r.fee);
    var processing :- Checked(charged.processingVolume - r.amount);
    var completed :- Checked(charged.completedVolume + r.amount);
    :- ValidateTransition(r.status, Completed);
    Ok(Put(charged, id, r.(status := Completed)).(
         processingVolume := processing, completedVolume := completed, settled := charged.settled + {id}))
  }

  /** A pending remittance starts processing. */
  function StartProcessing(s: State, r: Remittance): Result<State> {
    if ValidateTransition(r.status, Processing).Fail? then Err(InvalidStateTransition) else
    var volume :- Checked(s.processingVolume + r.amount);
    Ok(s.(processingVolume := volume))
  }

  function Confirm(s: State, env: Env, agent: Address, id: nat): Result<State> {
    if s.cfg.migrating then Err(MigrationInProgress) else
    :- Need(!s.cfg.paused, ContractPaused);
    var r :- Get(s, id);
    :- Need(r.status.Pending?, InvalidStatus);
    :- Need(id !in s.settled, DuplicateSettlement);
    :- Need(!Expired(r.expiry, env.now), SettlementExpired);
    :- Need(agent == r.agent, Unauthorized);
    :- Need(r.agent in s.cfg.agents, AgentNotRegistered);
    :- Need(env.admit, Rejected);
    var started :- StartProcessing(s, r);
    var breakdown :- FeeService.FeesWithBreakdown(s.cfg.feeConfig, r.amount, false);
    :- Need(r.fee == breakdown.platformFee, InvalidAmount);
    PayOut(started, id, r.(status := Processing), breakdown.netAmount, breakdown.protocolFee)
  }

  /** The agent's payout, the treasury's protocol fee, and the platform fee. */
  function PayOut(s: State, id: nat, r: Remittance, netAmount: int, protocolFee: int): Result<State> {
    var paid :- Pay(s, r.agent, netAmount);
    var treasured :- if protocolFee > 0 then Pay(paid, s.cfg.treasury, protocolFee) else Ok(paid);
    Complete(treasured, id, r)
  }

  function ConfirmPartial(s: State, env: Env, id: nat, amount: int): Result<State> {
    if amount <= 0 then Err(InvalidAmount) else
    var r :- Get(s, id);
    :- Need(r.agent in s.cfg.agents, AgentNotRegistered);
    :- Need(r.status.Pending? || r.status.Processing?, InvalidStatus);
    :- Need(env.admit, Rejected);
    var breakdown :- FeeService.FeesWithBreakdown(s.cfg.feeConfig, r.amount, false);
    var before := Disbursed(s.disbursed, id);
    :- Need(InI128(breakdown.netAmount - before), Underflow);
    :- Need(amount <= breakdown.netAmount - before, InvalidAmount);
    var started :- Begin(s, r);
    Disburse(started, id, r.(status := Processing), amount, breakdown.netAmount)
  }

  function Begin(s: State, r: Remittance): Result<State> {
    if r.status.Pending? then StartProcessing(s, r) else Ok(s)
  }

  /** One partial payout; the one that reaches the net amount completes the remittance. */
  function Disburse(s: State, id: nat, r: Remittance, amount: int, netAmount: int): Result<State> {
    var paid :- Pay(s, r.agent, amount);
    var recorded :- AddDisbursed(paid, id, amount);
    StoreOrComplete(recorded, id, r, Disbursed(recorded.disbursed, id) >= netAmount)
  }

  function AddDisbursed(s: State, id: nat, amount: int): Result<State> {
    var total :- Checked(Disbursed(s.disbursed, id) + amount);
    Ok(s.(disbursed := s.disbursed[id := total]))
  }

  function StoreOrComplete(s: State, id: nat, r: Remittance, complete: bool): Result<State> {
    if complete then Complete(s, id, r) else Ok(Put(s, id, r))
  }

  // ----- refunds -----

  function MarkFailed(s: State, env: Env, id: nat): Result<State> {
    var r :- Get(s, id);
    :- Need(r.agent in s.cfg.agents, AgentNotRegistered);
    :- Need(env.admit, Rejected);
    :- Need(r.status.Pending? || r.status.Processing?, InvalidStatus);
    var paid :- Pay(s, r.sender, r.amount);
    var volume :- if r.status.Processing? then Checked(s.processingVolume - r.amount) else Ok(s.processingVolume);
    Ok(Put(paid, id, r.(status := Cancelled, amount := 0)).(processingVolume := volume))
  }

  function Cancel(s: State, env: Env, id: nat): Result<State> {
    var r :- Get(s, id);
    :- Need(r.status.Pending?, InvalidStatus);
    :- Need(env.admit, Rejected);
    var paid :- Pay(s, r.sender, r.amount);
    Ok(Put(paid, id, r.(status := Cancelled, amount := 0)))
  }

  /** The expired, still pending remittances are refunded; every other id is skipped. */
  predicate Expirable(s: State, now: nat, id: nat) {
    id in s.remittances && s.remittances[id].status.Pending? && Expired(s.remittances[id].expiry, now)
  }

  function Expire(s: State, id: nat): Result<State>
    requires id in s.remittances
  {
    var r := s.remittances[id];
    var paid :- Pay(s, r.sender, r.amount);
    :- ValidateTransition(r.status, Cancelled);
    Ok(Put(paid, id, r.(status := Cancelled)))
  }

  function ExpireAll(s: State, now: nat, ids: seq<nat>): Result<(State, seq<nat>)> {
    if ids == [] then Ok((s, [])) else
      var before :- ExpireAll(s, now, ids[..|ids| - 1]);
      var id := ids[|ids| - 1];
      if !Expirable(before.0, now, id) then Ok(before) else
        var expired :- Expire(before.0, id);
        Ok((expired, before.1 + [id]))
  }

  function ProcessExpired(s: State, env: Env, ids: seq<nat>): Result<(State, seq<nat>)> {
    if |ids| > s.cfg.maxExpiredBatch then Err(InvalidBatchSize) else
    ExpireAll(s, env.now, ids)
  }

  // ----- disputes -----

  function RaiseDispute(s: State, env: Env, id: nat): Result<State> {
    var r :- Get(s, id);
    :- Need(env.admit, Rejected);
    :- Need(r.status.Failed?, InvalidStatus);
    :- Need(r.failedAt.Some?, InvalidStatus);
    :- Need(r.failedAt.value + s.cfg.disputeWindow <= U64_MAX, HostTrap);
    :- Need(env.now <= r.failedAt.value + s.cfg.disputeWindow, DisputeWindowExpired);
    Ok(Put(s, id, r.(status := Disputed)))
  }

  function ResolveDispute(s: State, env: Env, id: nat, forSender: bool): Result<State> {
    if !env.admit then Err(Rejected) else
    var r :- Get(s, id);
    :- Need(r.status.Disputed?, NotDisputed);
    if forSender then
      var paid :- Pay(s, r.sender, r.amount);
      Ok(Put(paid, id, r.(status := Cancelled)))
    else
      var breakdown :- FeeService.FeesWithBreakdown(s.cfg.feeConfig, r.amount, true);
      var paid :- Pay(s, r.agent, breakdown.netAmount);
      Ok(Put(paid, id, r.(status := Completed)))
  }

  // ----- batch settlement with netting -----

  /** Loads the batch: ids all different, pending, not settled and not expired. */
  function LoadBatch(s: State, now: nat, ids: seq<nat>): Result<seq<Remittance>> {
    if ids == [] then Ok([]) else
      var front := ids[..|ids| - 1];
      var loaded :- LoadBatch(s, now, front);
      var id := ids[|ids| - 1];
      :- Need(id !in front, DuplicateSettlement);
      var r :- Get(s, id);
      :- Need(r.status.Pending?, InvalidStatus);
      :- Need(id !in s.settled, DuplicateSettlement);
      :- Need(!Expired(r.expiry, now), SettlementExpired);
      Ok(loaded + [r])
  }

  ghost function ComputeNets(rs: seq<Remittance>): Result<seq<Netting.NetTransfer>> {
    if |rs| > Netting.MAX_NETTING_BATCH_SIZE then Err(InvalidBatchSize) else
    :- Need(Netting.AccumulationFits(Netting.PendingFlows(rs)), HostTrap);
    Ok(Netting.NetTransfers(Netting.PendingFlows(rs)))
  }

  /** Pays one net transfer, less its fees, which join the running total. */
  function PayNet(s: State, t: Netting.NetTransfer, fees: int): Result<(State, int)> {
    if t.netAmount == 0 then Ok((s, fees)) else
      :- Need(t.netAmount != I128_MIN, HostTrap);
      var payout :- Checked(Abs(t.netAmount) - t.totalFees);
      var paid :- Pay(s, NettingLaws.Payee(t), payout);
      var total :- Checked(fees + t.totalFees);
      Ok((paid, total))
  }

  function PayNets(s: State, ts: seq<Netting.NetTransfer>): Result<(State, int)> {
    if ts == [] then Ok((s, s.fees)) else
      var before :- PayNets(s, ts[..|ts| - 1]);
      PayNet(before.0, ts[|ts| - 1], before.1)
  }

  function StoreFees(s: State, total: int): Result<State> {
    if total > MAX_FEES then
      var flushed :- Flush(s, total);
      Ok(flushed.(fees := 0))
    else
      Ok(s.(fees := total))
  }

  function SettleAll(s: State, rs: seq<Remittance>): Result<State> {
    if rs == [] then Ok(s) else
      var before :- SettleAll(s, rs[..|rs| - 1]);
      var r := rs[|rs| - 1];
      var _ :- Checked(r.amount - r.fee);
      Ok(MarkSettled(before, r))
  }

  function MarkSettled(s: State, r: Remittance): State {
    Put(s, r.id, r.(status := Completed)).(settled := s.settled + {r.id})
  }

  function Ids(rs: seq<Remittance>): seq<nat> {
    if rs == [] then [] else Ids(rs[..|rs| - 1]) + [rs[|rs| - 1].id]
  }

  ghost function BatchSettle(s: State, env: Env, ids: seq<nat>): Result<(State, seq<nat>)> {
    if s.cfg.paused then Err(ContractPaused) else
    :- Need(1 <= |ids| <= MAX_BATCH_SIZE, InvalidAmount);
    var rs :- LoadBatch(s, env.now, ids);
    var ts :- ComputeNets(rs);
    var _ :- NettingLaws.Validation(rs, ts);
    var paid :- PayNets(s, ts);
    var charged :- StoreFees(paid.0, paid.1);
    var done :- SettleAll(charged, rs);
    Ok((done, Ids(rs)))
  }

  // ----- fee withdrawal -----

  function WithdrawFees(s: State, env: Env, to: Address): Result<State> {
    if to == SELF then Err(InvalidAddress) else
    :- Need(s.fees > 0, NoFeesToWithdraw);
    :- Need(env.admit, Rejected);
    var paid :- Pay(s, to, s.fees);
    Ok(paid.(fees := 0))
  }

  /** A withdrawal executed by the multi-signature module; it does not compare `to` with the contract. */
  function ExecuteWithdrawal(s: State, env: Env, to: Option<Address>): Result<State> {
    if !env.admit then Err(Rejected) else
    :- Need(s.fees > 0, NoFeesToWithdraw);
    :- Need(to.Some?, InvalidAddress);
    var paid :- Pay(s, to.value, s.fees);
    Ok(paid.(fees := 0))
  }

  // ----- escrows -----

  function GetEscrow(s: State, id: nat): Result<Escrow> {
    if id in s.escrows then Ok(s.escrows[id]) else Err(EscrowNotFound)
  }

  function PutEscrow(s: State, id: nat, e: Escrow): State {
    s.(escrows := s.escrows[id := e])
  }

  function EscrowExpiry(s: State, now: nat): Result<Option<nat>> {
    if s.cfg.escrowTtl == 0 then Ok(None)
    else if now + s.cfg.escrowTtl > U64_MAX then Err(Overflow)
    else Ok(Some(now + s.cfg.escrowTtl))
  }

  function CreateEscrow(s: State, env: Env, sender: Address, recipient: Address, amount: int): Result<(State, nat)> {
    if !env.admit then Err(Rejected) else
    :- Need(amount > 0, InvalidAmount);
    var funded :- Transfer(s, sender, SELF, amount);
    var id :- NextId(s.escrowCounter);
    var expiry :- EscrowExpiry(s, env.now);
    Ok((PutEscrow(funded, id, Escrow(id, sender, recipient, amount, expiry, Locked)).(escrowCounter := id), id))
  }

  function ReleaseEscrow(s: State, env: Env, id: nat): Result<State> {
    var e :- GetEscrow(s, id);
    :- Need(env.admit, Rejected);
    :- Need(e.status.Locked?, InvalidEscrowStatus);
    var paid :- Pay(s, e.recipient, e.amount);
    Ok(PutEscrow(paid, id, e.(status := Released)))
  }

  function RefundEscrow(s: State, env: Env, id: nat): Result<State> {
    var e :- GetEscrow(s, id);
    :- Need(env.admit, Rejected);
    :- Need(e.status.Locked?, InvalidEscrowStatus);
    var paid :- Pay(s, e.sender, e.amount);
    Ok(PutEscrow(paid, id, e.(status := Refunded)))
  }

  predicate EscrowExpirable(s: State, now: nat, id: nat) {
    id in s.escrows && s.escrows[id].status.Locked? && Expired(s.escrows[id].expiry, now)
  }

  function ExpireEscrows(s: State, now: nat, ids: seq<nat>): Result<(State, seq<nat>)> {
    if ids == [] then Ok((s, [])) else
      var before :- ExpireEscrows(s, now, ids[..|ids| - 1]);
      var id := ids[|ids| - 1];
      if !EscrowExpirable(before.0, now, id) then Ok(before) else
        var e := before.0.escrows[id];
        var paid :- Pay(before.0, e.sender, e.amount);
        Ok((PutEscrow(paid, id, e.(status := Refunded)), before.1 + [id]))
  }

  function ProcessExpiredEscrows(s: State, env: Env, ids: seq<nat>): Result<(State, seq<nat>)> {
    if |ids| > s.cfg.maxExpiredBatch then Err(InvalidBatchSize) else
    ExpireEscrows(s, env.now, ids)
  }

  // ----- all steps -----

  datatype Step =
    | DoCreate(sender: Address, entry: Entry)
    | DoCreateWithCorridor(sender: Address, entry: Entry, from: Option<string>, to: Option<string>)
    | DoBatchCreate(sender: Address, entries: seq<Entry>)
    | DoConfirm(agent: Address, id: nat)
    | DoConfirmPartial(id: nat, amount: int)
    | DoMarkFailed(id: nat)
    | DoCancel(id: nat)
    | DoProcessExpired(ids: seq<nat>)
    | DoRaiseDispute(id: nat)
    | DoResolveDispute(id: nat, forSender: bool)
    | DoBatchSettle(ids: seq<nat>)
    | DoWithdrawFees(recipient: Address)
    | DoExecuteWithdrawal(withdrawTo: Option<Address>)
    | DoCreateEscrow(sender: Address, recipient: Address, amount: int)
    | DoReleaseEscrow(id: nat)
    | DoRefundEscrow(id: nat)
    | DoProcessExpiredEscrows(ids: seq<nat>)
    | DoConfigure(cfg: Config)
    | DoTokenTransfer(sender: Address, recipient: Address, amount: int) // by someone else, outside the contract

  function StateOf<T>(r: Result<(State, T)>): Result<State> {
    var done :- r;
    Ok(done.0)
  }

  ghost function Next(s: State, env: Env, step: Step): Result<State> {
    match step
    case DoCreate(sender, e) => StateOf(Create(s, env, sender, e))
    case DoCreateWithCorridor(sender, e, from, to) => StateOf(CreateWithCorridor(s, env, sender, e, from, to))
    case DoBatchCreate(sender, entries) => StateOf(BatchCreate(s, env, sender, entries))
    case DoConfirm(agent, id) => Confirm(s, env, agent, id)
    case DoConfirmPartial(id, amount) => ConfirmPartial(s, env, id, amount)
    case DoMarkFailed(id) => MarkFailed(s, env, id)
    case DoCancel(id) => Cancel(s, env, id)
    case DoProcessExpired(ids) => StateOf(ProcessExpired(s, env, ids))
    case DoRaiseDispute(id) => RaiseDispute(s, env, id)
    case DoResolveDispute(id, forSender) => ResolveDispute(s, env, id, forSender)
    case DoBatchSettle(ids) => StateOf(BatchSettle(s, env, ids))
    case DoWithdrawFees(to) => WithdrawFees(s, env, to)
    case DoExecuteWithdrawal(to) => ExecuteWithdrawal(s, env, to)
    case DoCreateEscrow(sender, recipient, amount) => StateOf(CreateEscrow(s, env, sender, recipient, amount))
    case DoReleaseEscrow(id) => ReleaseEscrow(s, env, id)
    case DoRefundEscrow(id) => RefundEscrow(s, env, id)
    case DoProcessExpiredEscrows(ids) => StateOf(ProcessExpiredEscrows(s, env, ids))
    case DoConfigure(cfg) => if env.admit then Ok(s.(cfg := cfg)) else Err(Rejected)
    case DoTokenTransfer(sender, recipient, amount) => Transfer(s, sender, recipient, amount)
  }
}
