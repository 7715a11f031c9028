/**
 When each entry point accepts a call, in terms of what its caller and the stored state show: the guards
 themselves, and never the tokens, where the state is solvent.
 */
module Admission {
  import opened Common
  import opened Types
  import opened Ledger
  import opened LedgerLaws
  import opened LedgerRuns
  import opened BatchCreation
  import opened SendLimits
  import DL = DailyLimit
  import FS = FeeService
  import SV = SenderVolume

  // ----- refunds and withdrawals -----

  /** A cancellation needs a pending remittance, nothing else. */
  lemma CancelIff(s: State, env: Env, id: nat)
    requires Covered(s)
    ensures Cancel(s, env, id).Ok? <==> env.admit && id in s.remittances && s.remittances[id].status.Pending?
  {
    if id in s.remittances && s.remittances[id].status.Pending? {
      PendingCovered(s, id);
    }
  }

  /** A failure report needs a registered agent and an open remittance; after partial payouts also the tokens. */
  lemma MarkFailedIff(s: State, env: Env, id: nat)
    requires Covered(s)
    ensures MarkFailed(s, env, id).Ok?
       <==> && env.admit && id in s.remittances
            && var r := s.remittances[id];
               && r.agent in s.cfg.agents
               && (|| r.status.Pending?
                   || (r.status.Processing? && r.amount <= Held(s) && InI128(s.processingVolume - r.amount)))
  {
    if id in s.remittances {
      assert RecordOk(s.remittances[id], id, Disbursed(s.disbursed, id), id in s.settled);
      if s.remittances[id].status.Pending? {
        PendingCovered(s, id);
      }
    }
  }

  /** Fees are withdrawn whenever there are any, and not to the contract itself by the entry point that checks it. */
  lemma WithdrawalIff(s: State, env: Env, to: Address)
    requires Covered(s)
    ensures WithdrawFees(s, env, to).Ok? <==> env.admit && s.fees > 0 && to != SELF
    ensures ExecuteWithdrawal(s, env, Some(to)).Ok? <==> env.admit && s.fees > 0
    ensures ExecuteWithdrawal(s, env, None).Err?
  {
    ObligationsCover(s);
  }

  /** A flush refuses a negative amount as such, does nothing for zero, and otherwise needs the tokens. */
  lemma FlushIff(s: State, amount: int)
    ensures Flush(s, amount) == Err(InvalidAmount) <==> amount < 0
    ensures Flush(s, amount).Ok? <==> amount == 0 || 0 < amount <= Held(s)
    ensures Flush(s, 0) == Ok(s)
    ensures 0 < amount <= Held(s) ==> Flush(s, amount).value.fees == 0
  {
  }

  /**
   A fee is booked on top of those collected, up to the cap; one that passes it takes their place once they
   have been flushed, and no single fee may be above the cap.
   */
  lemma AddFeeExactly(s: State, fee: int)
    requires 0 <= s.fees <= MAX_FEES && s.fees <= Held(s)
    ensures SafeAddFee(s, fee).Ok? <==> 0 <= fee <= MAX_FEES
    ensures SafeAddFee(s, 0) == Ok(s)
    ensures 0 < fee <= MAX_FEES ==>
              SafeAddFee(s, fee).value.fees == if s.fees + fee <= MAX_FEES then s.fees + fee else fee
  {
    FlushIff(s, s.fees);
  }

  // ----- escrows -----

  /** An escrow needs a positive amount that the sender has, and an id and an expiry that fit 64 bits. */
  lemma CreateEscrowIff(s: State, env: Env, sender: Address, recipient: Address, amount: int)
    ensures CreateEscrow(s, env, sender, recipient, amount).Ok?
       <==> && env.admit && 0 < amount <= Balance(s.balances, sender)
            && s.escrowCounter < U64_MAX && (s.cfg.escrowTtl > 0 ==> env.now + s.cfg.escrowTtl <= U64_MAX)
  {
  }

  /** Releases and refunds need a locked escrow. */
  lemma EscrowEndsIff(s: State, env: Env, id: nat)
    requires Covered(s)
    ensures ReleaseEscrow(s, env, id).Ok? <==> env.admit && id in s.escrows && s.escrows[id].status.Locked?
    ensures RefundEscrow(s, env, id).Ok? <==> env.admit && id in s.escrows && s.escrows[id].status.Locked?
  {
    if id in s.escrows && s.escrows[id].status.Locked? {
      LockedCovered(s, id);
    }
  }

  // ----- creation -----

  /** The window of the sender adds up, and the limit of the corridor, if there is one, allows the amount as well. */
  predicate WithinLimit(s: State, sender: Address, c: DL.Corridor, now: nat, amount: int) {
    && DL.RollingTotal(TransfersOf(s, sender), WindowStart(now), c).Ok?
    && (c in s.cfg.limits ==>
          && InI128(SentAlong(s, sender, c, now) + amount)
          && SentAlong(s, sender, c, now) + amount <= s.cfg.limits[c])
  }

  lemma EnforceExactly(s: State, now: nat, sender: Address, c: DL.Corridor, amount: int)
    ensures EnforceLimit(s, now, sender, c, amount).Ok? <==> WithinLimit(s, sender, c, now, amount)
  {
    DL.RollingIsSum(TransfersOf(s, sender), WindowStart(now), c);
  }

  /** The parties are acceptable: a positive amount, a registered agent, a sender who is not blacklisted. */
  predicate Parties(s: State, sender: Address, e: Entry) {
    e.amount > 0 && e.agent in s.cfg.agents && sender !in s.cfg.blacklisted
  }

  /** The deposit can be made and recorded. */
  predicate Payable(s: State, now: nat, sender: Address, e: Entry) {
    && e.amount <= Balance(s.balances, sender) && s.counter < U64_MAX
    && SV.Record(VolumeOf(s, sender), e.amount, now).Ok?
  }

  lemma AcceptIff(s: State, now: nat, sender: Address, e: Entry, c: DL.Corridor, fee: Result<int>)
    requires e.amount > 0
    ensures Accept(s, now, sender, e, c, fee).Ok?
       <==> WithinLimit(s, sender, c, now, e.amount) && fee.Ok? && Payable(s, now, sender, e)
  {
    EnforceExactly(s, now, sender, c, e.amount);
    if EnforceLimit(s, now, sender, c, e.amount).Ok? && fee.Ok? {
      DepositIff(EnforceLimit(s, now, sender, c, e.amount).value, now, sender, e, fee.value);
    }
  }

  lemma DepositIff(s: State, now: nat, sender: Address, e: Entry, fee: int)
    requires e.amount > 0
    ensures Deposit(s, now, sender, e, fee).Ok? <==> Payable(s, now, sender, e)
  {
  }

  /** A single creation is stopped by a migration, unlike one along a route, and uses the global limit. */
  lemma CreateIff(s: State, env: Env, sender: Address, e: Entry)
    ensures Create(s, env, sender, e).Ok?
       <==> && !s.cfg.migrating && env.admit && env.screened && Parties(s, sender, e)
            && WithinLimit(s, sender, DL.Corridor("USDC", "GLOBAL"), env.now, e.amount)
            && FS.PlatformFeeForSender(s.cfg.feeConfig, e.amount, Rolling(s, sender, env.now)).Ok?
            && Payable(s, env.now, sender, e)
  {
    if !s.cfg.migrating && env.admit && env.screened && ValidateCreate(s, sender, e.agent, e.amount).Ok? {
      CreateIs(s, env, sender, e);
      var fee := FS.PlatformFeeForSender(s.cfg.feeConfig, e.amount, Rolling(s, sender, env.now));
      AcceptIff(s, env.now, sender, e, GLOBAL, fee);
    }
  }

  /** A creation along a route uses the limit of the destination country. */
  lemma CreateWithCorridorIff(s: State, env: Env, sender: Address, e: Entry, from: Option<string>, to: Option<string>)
    ensures CreateWithCorridor(s, env, sender, e, from, to).Ok?
       <==> && env.admit && Parties(s, sender, e) && WithinLimit(s, sender, CorridorTo(to), env.now, e.amount)
            && RouteFee(s, env.now, sender, e, from, to).Ok? && Payable(s, env.now, sender, e)
  {
    if e.amount > 0 {
      AcceptIff(s, env.now, sender, e, CorridorTo(to), RouteFee(s, env.now, sender, e, from, to));
    }
  }

  predicate AllParties(s: State, sender: Address, entries: seq<Entry>) {
    forall e | e in entries :: Parties(s, sender, e)
  }

  lemma AllPartiesAreValid(s: State, sender: Address, entries: seq<Entry>)
    ensures AllParties(s, sender, entries) <==> Valid(s, sender, entries)
  {
    if AllParties(s, sender, entries) {
      forall e | e in entries
        ensures ValidateCreate(s, sender, e.agent, e.amount).Ok?
      {
        assert Parties(s, sender, e);
      }
    }
  }

  lemma TotalIff(s: State, sender: Address, entries: seq<Entry>)
    ensures BatchTotal(s, sender, entries).Ok? <==> AllParties(s, sender, entries) && Total(entries) <= I128_MAX
    ensures BatchTotal(s, sender, entries).Ok? ==> 0 <= Total(entries) == BatchTotal(s, sender, entries).value
  {
    AllPartiesAreValid(s, sender, entries);
    BatchTotalIff(s, sender, entries);
    if Valid(s, sender, entries) {
      TotalNonNegative(s, sender, entries);
    }
  }

  /** The state in which a batch books its entries: the limit recorded and the deposit made, as far as they succeed. */
  function Funded(s: State, sender: Address, now: nat, total: int): State {
    var limited := EnforceLimit(s, now, sender, GLOBAL, total);
    if limited.Err? then s else
      var funded := Transfer(limited.value, sender, SELF, total);
      if funded.Err? then s else funded.value
  }

  lemma BatchStages(s: State, env: Env, sender: Address, entries: seq<Entry>)
    ensures BatchCreate(s, env, sender, entries).Ok?
       <==> && !s.cfg.migrating && env.admit && 1 <= |entries| <= 100
            && BatchTotal(s, sender, entries).Ok?
            && var total := BatchTotal(s, sender, entries).value;
               && EnforceLimit(s, env.now, sender, GLOBAL, total).Ok?
               && 0 <= total <= Balance(s.balances, sender)
               && BookAll(Funded(s, sender, env.now, total), env.now, sender, entries, Rolling(s, sender, env.now)).Ok?
  {
  }

  /** A batch has 1 to 100 acceptable entries, whose total is within the global limit and the sender's balance. */
  lemma BatchCreateIff(s: State, env: Env, sender: Address, entries: seq<Entry>)
    ensures BatchCreate(s, env, sender, entries).Ok?
       <==> && !s.cfg.migrating && env.admit && 1 <= |entries| <= 100
            && AllParties(s, sender, entries) && Total(entries) <= I128_MAX
            && WithinLimit(s, sender, DL.Corridor("USDC", "GLOBAL"), env.now, Total(entries))
            && Total(entries) <= Balance(s.balances, sender)
            && BookAll(Funded(s, sender, env.now, Total(entries)), env.now, sender, entries,
                       Rolling(s, sender, env.now)).Ok?
  {
    TotalIff(s, sender, entries);
    EnforceExactly(s, env.now, sender, GLOBAL, Total(entries));
    BatchStages(s, env, sender, entries);
  }

  // ----- disputes, of records that an import may have brought -----

  /** A dispute is raised on a failed remittance within the window after the failure. */
  lemma RaiseIff(s: State, env: Env, id: nat)
    ensures RaiseDispute(s, env, id).Ok?
       <==> && env.admit && id in s.remittances
            && var r := s.remittances[id];
               && r.status.Failed? && r.failedAt.Some?
               && r.failedAt.value + s.cfg.disputeWindow <= U64_MAX && env.now <= r.failedAt.value + s.cfg.disputeWindow
    ensures RaiseDispute(s, env, id).Ok? ==>
              RaiseDispute(s, env, id).value
              == s.(remittances := s.remittances[id := s.remittances[id].(status := Disputed)])
  {
  }

  lemma PaysOne(s: State, to: Address, amount: int, p: Address)
    requires Pay(s, to, amount).Ok? && p != SELF
    ensures Balance(Pay(s, to, amount).value.balances, p) == Balance(s.balances, p) + if p == to then amount else 0
  {
  }

  /** A dispute resolved for the sender is refunded in full. */
  lemma ResolvePaysSender(s: State, env: Env, id: nat, p: Address)
    requires ResolveDispute(s, env, id, true).Ok? && p != SELF
    ensures env.admit && id in s.remittances && s.remittances[id].status.Disputed?
    ensures var s', r := ResolveDispute(s, env, id, true).value, s.remittances[id];
            && s'.remittances == s.remittances[id := r.(status := Cancelled)]
            && Balance(s'.balances, p) == Balance(s.balances, p) + if p == r.sender then r.amount else 0
  {
    PaysOne(s, s.remittances[id].sender, s.remittances[id].amount, p);
  }

  /** One resolved for the agent is paid out, net of the fees of the token. */
  lemma ResolvePaysAgent(s: State, env: Env, id: nat, p: Address)
    requires ResolveDispute(s, env, id, false).Ok? && p != SELF
    ensures env.admit && id in s.remittances && s.remittances[id].status.Disputed?
    ensures FS.FeesWithBreakdown(s.cfg.feeConfig, s.remittances[id].amount, true).Ok?
    ensures var s', r := ResolveDispute(s, env, id, false).value, s.remittances[id];
            var net := FS.FeesWithBreakdown(s.cfg.feeConfig, r.amount, true).value.netAmount;
            && s'.remittances == s.remittances[id := r.(status := Completed)]
            && Balance(s'.balances, p) == Balance(s.balances, p) + if p == r.agent then net else 0
  {
    var r := s.remittances[id];
    PaysOne(s, r.agent, FS.FeesWithBreakdown(s.cfg.feeConfig, r.amount, true).value.netAmount, p);
  }
}
