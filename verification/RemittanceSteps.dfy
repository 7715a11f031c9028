/** What every step makes of every stored remittance, and who is paid on it in the terms of its creation. */
module RemittanceSteps {
  import opened Common
  import opened Types
  import opened Ledger
  import opened LedgerLaws
  import opened LedgerRuns
  import opened BatchSettlement
  import opened RemittanceLives
  import opened Payments
  import BatchCreation
  import DailyLimit
  import FS = FeeService
  import Origins

  // ----- one step -----

  /** The status that a successful step leaves, from what the caller names and what is stored. */
  function StatusAfter(s: State, env: Env, step: Step, id: nat): RemittanceStatus
    requires id in s.remittances
  {
    var r := s.remittances[id];
    match step
    case DoConfirm(_, i) => if i == id then Completed else r.status
    case DoConfirmPartial(i, amount) =>
      if i != id then r.status
      else if Payout(s, id).Ok? && Disbursed(s.disbursed, id) + amount >= Payout(s, id).value.netAmount then Completed
      else Processing
    case DoMarkFailed(i) => if i == id then Cancelled else r.status
    case DoCancel(i) => if i == id then Cancelled else r.status
    case DoProcessExpired(ids) => if id in ids && Overdue(s, env.now, id) then Cancelled else r.status
    case DoBatchSettle(ids) => if id in ids then Completed else r.status
    case _ => r.status
  }

  /** A cancellation and a failure report zero the amount. */
  function AmountAfter(s: State, step: Step, id: nat): int
    requires id in s.remittances
  {
    if step == DoMarkFailed(id) || step == DoCancel(id) then 0 else s.remittances[id].amount
  }

  predicate Leaves(s: State, s': State, env: Env, step: Step, id: nat)
    requires id in s.remittances
  {
    && id in s'.remittances
    && s'.remittances[id]
       == s.remittances[id].(status := StatusAfter(s, env, step, id), amount := AmountAfter(s, step, id))
  }

  lemma {:induction false} BookAllLeaves(s: State, now: nat, sender: Address, entries: seq<Entry>, prior: int, id: nat)
    requires BookAll(s, now, sender, entries, prior).Ok? && id in s.remittances && id <= s.counter
    ensures var s' := BookAll(s, now, sender, entries, prior).value.state;
            id in s'.remittances && s'.remittances[id] == s.remittances[id] && s'.counter >= s.counter
  {
    if entries != [] {
      BookAllLeaves(s, now, sender, entries[..|entries| - 1], prior, id);
    }
  }

  lemma AcceptLeaves(s: State, now: nat, sender: Address, e: Entry, c: DailyLimit.Corridor, fee: Result<int>, id: nat)
    requires Accept(s, now, sender, e, c, fee).Ok? && id in s.remittances && id <= s.counter
    ensures var s' := Accept(s, now, sender, e, c, fee).value.0;
            id in s'.remittances && s'.remittances[id] == s.remittances[id]
  {
    var _ := BatchCreation.AcceptBooks(s, now, sender, e, c, fee);
  }

  /** One record is replaced, as the step prescribes. */
  lemma OneLeaves(s: State, s': State, env: Env, step: Step, i: nat, id: nat)
    requires id in s.remittances && i in s.remittances
    requires i != id ==> StatusAfter(s, env, step, id) == s.remittances[id].status
    requires i != id ==> AmountAfter(s, step, id) == s.remittances[id].amount
    requires var r := s.remittances[i].(status := StatusAfter(s, env, step, i), amount := AmountAfter(s, step, i));
             s'.remittances == s.remittances[i := r]
    ensures Leaves(s, s', env, step, id)
  {
  }

  lemma CreateLeaves(s: State, env: Env, sender: Address, e: Entry, id: nat)
    requires RecordsOk(s) && Create(s, env, sender, e).Ok? && id in s.remittances
    ensures Leaves(s, Create(s, env, sender, e).value.0, env, DoCreate(sender, e), id)
  {
    BatchCreation.CreateIs(s, env, sender, e);
    var fee := FS.PlatformFeeForSender(s.cfg.feeConfig, e.amount, Rolling(s, sender, env.now));
    AcceptLeaves(s, env.now, sender, e, BatchCreation.GLOBAL, fee, id);
  }

  lemma RouteLeaves(s: State, env: Env, sender: Address, e: Entry, from: Option<string>, to: Option<string>, id: nat)
    requires RecordsOk(s) && CreateWithCorridor(s, env, sender, e, from, to).Ok? && id in s.remittances
    ensures Leaves(s, CreateWithCorridor(s, env, sender, e, from, to).value.0, env,
                   DoCreateWithCorridor(sender, e, from, to), id)
  {
    AcceptLeaves(s, env.now, sender, e, LimitCorridor(to), RouteFee(s, env.now, sender, e, from, to), id);
  }

  lemma BatchLeaves(s: State, env: Env, sender: Address, entries: seq<Entry>, id: nat)
    requires RecordsOk(s) && BatchCreate(s, env, sender, entries).Ok? && id in s.remittances
    ensures Leaves(s, BatchCreate(s, env, sender, entries).value.0, env, DoBatchCreate(sender, entries), id)
  {
    var funded := BatchCreation.BatchBooks(s, env, sender, entries);
    BookAllLeaves(funded, env.now, sender, entries, Rolling(s, sender, env.now), id);
  }

  lemma CreationLeaves(s: State, env: Env, step: Step, id: nat)
    requires RecordsOk(s) && Creates(step) && Next(s, env, step).Ok? && id in s.remittances
    ensures Leaves(s, Next(s, env, step).value, env, step, id)
  {
    match step
    case DoCreate(sender, e) => CreateLeaves(s, env, sender, e, id);
    case DoCreateWithCorridor(sender, e, from, to) => RouteLeaves(s, env, sender, e, from, to, id);
    case DoBatchCreate(sender, entries) => BatchLeaves(s, env, sender, entries, id);
  }

  lemma ConfirmLeaves(s: State, env: Env, agent: Address, i: nat, id: nat)
    requires Inv(s) && Confirm(s, env, agent, i).Ok? && id in s.remittances
    ensures Leaves(s, Confirm(s, env, agent, i).value, env, DoConfirm(agent, i), id)
  {
    ConfirmLaw(s, env, agent, i);
    OneLeaves(s, Confirm(s, env, agent, i).value, env, DoConfirm(agent, i), i, id);
  }

  lemma PartLeaves(s: State, s': State, env: Env, i: nat, amount: int, id: nat)
    requires id in s.remittances && i in s.remittances && Payout(s, i).Ok?
    requires var status := if Completes(s, i, amount) then Completed else Processing;
             s'.remittances == s.remittances[i := s.remittances[i].(status := status)]
    ensures Leaves(s, s', env, DoConfirmPartial(i, amount), id)
  {
  }

  lemma ConfirmPartialLeaves(s: State, env: Env, i: nat, amount: int, id: nat)
    requires Inv(s) && ConfirmPartial(s, env, i, amount).Ok? && id in s.remittances
    ensures Leaves(s, ConfirmPartial(s, env, i, amount).value, env, DoConfirmPartial(i, amount), id)
  {
    ConfirmPartialLaw(s, env, i, amount);
    PartLeaves(s, ConfirmPartial(s, env, i, amount).value, env, i, amount, id);
  }

  lemma SettledLeaves(s: State, s': State, env: Env, ids: seq<nat>, id: nat)
    requires id in s.remittances && id in s'.remittances
    requires s'.remittances[id] == if id in ids then s.remittances[id].(status := Completed) else s.remittances[id]
    ensures Leaves(s, s', env, DoBatchSettle(ids), id)
  {
  }

  lemma SettlementLeaves(s: State, env: Env, ids: seq<nat>, id: nat)
    requires Inv(s) && BatchSettle(s, env, ids).Ok? && id in s.remittances
    ensures Leaves(s, BatchSettle(s, env, ids).value.0, env, DoBatchSettle(ids), id)
  {
    var rs := LoadBatch(s, env.now, ids).value;
    LoadBatchLaw(s, env.now, ids);
    LoadedFees(s, ids, rs);
    var (paid, total) := PayNets(s, ComputeNets(rs).value).value;
    var charged := StoreFees(paid, total).value;
    SettlementMoney(s, rs, paid, total, charged);
    SettleAllRecords(charged, ids, rs, id);
    SettledLeaves(s, BatchSettle(s, env, ids).value.0, env, ids, id);
  }

  lemma PayoutLeaves(s: State, env: Env, step: Step, id: nat)
    requires Inv(s) && PaysOut(step) && Next(s, env, step).Ok? && id in s.remittances
    ensures Leaves(s, Next(s, env, step).value, env, step, id)
  {
    match step
    case DoConfirm(agent, i) => ConfirmLeaves(s, env, agent, i, id);
    case DoConfirmPartial(i, amount) => ConfirmPartialLeaves(s, env, i, amount, id);
    case DoBatchSettle(ids) => SettlementLeaves(s, env, ids, id);
  }

  lemma MarkFailedLeaves(s: State, env: Env, i: nat, id: nat)
    requires Inv(s) && MarkFailed(s, env, i).Ok? && id in s.remittances
    ensures Leaves(s, MarkFailed(s, env, i).value, env, DoMarkFailed(i), id)
  {
    MarkFailedLaw(s, env, i);
    OneLeaves(s, MarkFailed(s, env, i).value, env, DoMarkFailed(i), i, id);
  }

  lemma CancelLeaves(s: State, env: Env, i: nat, id: nat)
    requires Inv(s) && Cancel(s, env, i).Ok? && id in s.remittances
    ensures Leaves(s, Cancel(s, env, i).value, env, DoCancel(i), id)
  {
    CancelLaw(s, env, i);
    OneLeaves(s, Cancel(s, env, i).value, env, DoCancel(i), i, id);
  }

  lemma ExpiryLeaves(s: State, env: Env, ids: seq<nat>, id: nat)
    requires ProcessExpired(s, env, ids).Ok? && id in s.remittances
    ensures Leaves(s, ProcessExpired(s, env, ids).value.0, env, DoProcessExpired(ids), id)
  {
    ExpiryExact(s, env, ids, id);
  }

  lemma NoDispute(s: State, env: Env, step: Step)
    requires Inv(s) && (step.DoRaiseDispute? || step.DoResolveDispute?)
    ensures Next(s, env, step).Err?
  {
    match step
    case DoRaiseDispute(i) => DisputesUnreachable(s, env, i, true);
    case DoResolveDispute(i, forSender) => DisputesUnreachable(s, env, i, forSender);
  }

  lemma RefundLeaves(s: State, env: Env, step: Step, id: nat)
    requires Inv(s) && (step.DoMarkFailed? || step.DoCancel? || step.DoProcessExpired?)
    requires Next(s, env, step).Ok? && id in s.remittances
    ensures Leaves(s, Next(s, env, step).value, env, step, id)
  {
    match step
    case DoMarkFailed(i) => MarkFailedLeaves(s, env, i, id);
    case DoCancel(i) => CancelLeaves(s, env, i, id);
    case DoProcessExpired(ids) => ExpiryLeaves(s, env, ids, id);
  }

  lemma {:induction false} ExpireEscrowsLeaves(s: State, now: nat, ids: seq<nat>)
    requires ExpireEscrows(s, now, ids).Ok?
    ensures ExpireEscrows(s, now, ids).value.0.remittances == s.remittances
  {
    if ids != [] {
      ExpireEscrowsLeaves(s, now, ids[..|ids| - 1]);
    }
  }

  lemma OtherLeaves(s: State, env: Env, step: Step)
    requires !Creates(step) && !PaysOut(step) && !Refunds(step) && Next(s, env, step).Ok?
    ensures Next(s, env, step).value.remittances == s.remittances
  {
    if step.DoProcessExpiredEscrows? {
      ExpireEscrowsLeaves(s, env.now, step.ids);
    }
  }

  /**
   The record of every remittance after any successful step: only the steps that name it change it, its
   status is exactly the one above, and nothing but status and amount ever changes.
   */
  lemma StepRecord(s: State, env: Env, step: Step, id: nat)
    requires Inv(s) && Next(s, env, step).Ok? && id in s.remittances
    ensures Leaves(s, Next(s, env, step).value, env, step, id)
  {
    if Creates(step) {
      CreationLeaves(s, env, step, id);
    } else if PaysOut(step) {
      PayoutLeaves(s, env, step, id);
    } else if step.DoRaiseDispute? || step.DoResolveDispute? {
      NoDispute(s, env, step);
    } else if Refunds(step) {
      RefundLeaves(s, env, step, id);
    } else {
      OtherLeaves(s, env, step);
    }
  }

  // ----- in the terms of the creation -----

  /** In this reachable state `id` is still pending, and `o` is the entry it was created from. */
  ghost predicate Awaits(cfg: Config, balances: map<Address, nat>, log: seq<Event>, s: State, id: nat,
                         o: Origins.Origin)
  {
    var s0 := Initial(cfg, balances);
    && AllExternal(log) && s == Run(s0, log)
    && 1 <= id <= |Origins.OriginsOf(s0, log)| && o == Origins.OriginsOf(s0, log)[id - 1]
    && id in s.remittances && s.remittances[id].status.Pending?
  }

  lemma AsCreated(cfg: Config, balances: map<Address, nat>, log: seq<Event>, s: State, id: nat, o: Origins.Origin)
    requires Awaits(cfg, balances, log, s, id, o)
    ensures Inv(s)
    ensures var r := s.remittances[id];
            r.sender == o.sender && r.agent == o.entry.agent && r.amount == o.entry.amount && r.expiry == o.entry.expiry
  {
    InitialOk(cfg, balances);
    RunInv(Initial(cfg, balances), log);
    Origins.RecordsAreCreations(cfg, balances, log);
    assert Origins.BornAs(s, id - 1 + 1, o);
  }

  /** A cancellation or a failure report gives the whole amount back to the one who sent it, and to nobody else. */
  lemma RefundsWhoSent(cfg: Config, balances: map<Address, nat>, log: seq<Event>, s: State, id: nat, o: Origins.Origin,
                       env: Env, p: Address)
    requires Awaits(cfg, balances, log, s, id, o) && p != SELF
    ensures Cancel(s, env, id).Ok? ==>
              Balance(Cancel(s, env, id).value.balances, p)
              == Balance(s.balances, p) + if p == o.sender then o.entry.amount else 0
    ensures MarkFailed(s, env, id).Ok? ==>
              Balance(MarkFailed(s, env, id).value.balances, p)
              == Balance(s.balances, p) + if p == o.sender then o.entry.amount else 0
  {
    AsCreated(cfg, balances, log, s, id, o);
    RefundTo(s, env, id, p);
  }

  /**
   A payout goes through for the agent named at creation only, not after the expiry named there, and pays
   that agent the net amount; the treasury gets the protocol fee and what a flush releases.
   */
  lemma PaysWhoWasNamed(cfg: Config, balances: map<Address, nat>, log: seq<Event>, s: State, id: nat, o: Origins.Origin,
                        env: Env, agent: Address, p: Address)
    requires Awaits(cfg, balances, log, s, id, o) && p != SELF && Confirm(s, env, agent, id).Ok?
    ensures agent == o.entry.agent && agent in s.cfg.agents
    ensures o.entry.expiry.Some? ==> env.now <= o.entry.expiry.value
    ensures var b := FS.FeesWithBreakdown(s.cfg.feeConfig, o.entry.amount, false);
            && b.Ok?
            && Balance(Confirm(s, env, agent, id).value.balances, p)
               == Balance(s.balances, p)
                  + (if p == o.entry.agent then b.value.netAmount else 0)
                  + (if p == s.cfg.treasury then b.value.protocolFee + Flushed(s, s.remittances[id].fee) else 0)
  {
    AsCreated(cfg, balances, log, s, id, o);
    ConfirmTo(s, env, agent, id, p);
  }

  /** An expiry batch that lists it refunds it exactly after the expiry named at creation. */
  lemma ExpiresAsNamed(cfg: Config, balances: map<Address, nat>, log: seq<Event>, s: State, id: nat, o: Origins.Origin,
                       env: Env, ids: seq<nat>)
    requires Awaits(cfg, balances, log, s, id, o) && ProcessExpired(s, env, ids).Ok?
    ensures id in ProcessExpired(s, env, ids).value.1
       <==> id in ids && o.entry.expiry.Some? && o.entry.expiry.value < env.now
  {
    AsCreated(cfg, balances, log, s, id, o);
    ExpiredOnce(s, env.now, ids);
  }
}
