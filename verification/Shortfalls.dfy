/** Two short runs in which the contract pays out more than it holds for a remittance. */
module Shortfalls {
  import opened Common
  import opened Types
  import opened Sums
  import opened Ledger
  import opened LedgerLaws
  import opened LedgerRuns
  import opened FirstPayments
  import DailyLimit
  import FeeService

  const PAYMENT := Entry("agent", 100, None)

  function Settings(bps: nat): Config {
    Plain(Rates(bps), {"agent"})
  }

  /** Any two senders with 100 each. */
  function Start(ann: Address, bob: Address): State {
    Initial(Settings(250), map[ann := 100, bob := 100])
  }

  function AfterPayment(s: State, sender: Address): State {
    AfterFirst(s, sender, "agent", DailyLimit.GLOBAL_CORRIDOR, 100, 2)
  }

  /** A first payment of 100, with a fee of 2. */
  lemma FirstPayment(s: State, sender: Address)
    requires s.cfg == Settings(250) && sender != SELF && Balance(s.balances, sender) == 100
    requires sender !in s.transfers && sender !in s.volumes && s.counter < 10
    ensures Create(s, NOW, sender, PAYMENT) == Ok((AfterPayment(s, sender), s.counter + 1))
  {
    assert FeeService.PlatformFeeForSender(s.cfg.feeConfig, 100, 0) == Ok(2);
    FirstCreated(s, sender, "agent", 100, 2);
  }

  function Payment(sender: Address): Event {
    Event(NOW, DoCreate(sender, PAYMENT))
  }

  /** Both senders pay 100 into the contract. */
  lemma TwoPayments(ann: Address, bob: Address)
    requires ann != bob && ann != SELF && bob != SELF
    ensures var s1 := AfterPayment(Start(ann, bob), ann);
            && Run(Start(ann, bob), [Payment(ann)]) == s1
            && Run(Start(ann, bob), [Payment(ann), Payment(bob)]) == AfterPayment(s1, bob)
  {
    var s0 := Start(ann, bob);
    FirstPayment(s0, ann);
    FirstPayment(AfterPayment(s0, ann), bob);
    RunOne(s0, Payment(ann));
    RunTwo(s0, Payment(ann), Payment(bob));
  }

  /** An open payment of 100 with the stored fee 2. */
  predicate Open(s: State, id: nat) {
    && id in s.remittances && s.remittances[id].status.Pending? && s.remittances[id].agent == "agent"
    && s.remittances[id].amount == 100 && s.remittances[id].fee == 2 && s.remittances[id].sender != SELF
  }

  /** The state after a first partial payout of 50. */
  function HalfPaid(s: State): State
    requires 1 in s.remittances && Pay(s, "agent", 50).Ok?
  {
    s.(balances := Pay(s, "agent", 50).value.balances, disbursed := s.disbursed[1 := 50],
       remittances := s.remittances[1 := s.remittances[1].(status := Processing)], processingVolume := 100)
  }

  lemma HalfDisbursed(s: State, r: Remittance)
    requires r.agent == "agent" && 1 !in s.disbursed && Held(s) == 200
    ensures Pay(s, "agent", 50).Ok?
    ensures Disburse(s, 1, r, 50, 98)
         == Ok(s.(balances := Pay(s, "agent", 50).value.balances, disbursed := s.disbursed[1 := 50],
                  remittances := s.remittances[1 := r]))
  {
  }

  lemma PayHalf(s: State)
    requires s.cfg == Settings(250) && Open(s, 1) && 1 !in s.disbursed && s.processingVolume == 0 && Held(s) == 200
    ensures Pay(s, "agent", 50).Ok? && ConfirmPartial(s, NOW, 1, 50) == Ok(HalfPaid(s)) && Held(HalfPaid(s)) == 150
  {
    assert FeeService.FeesWithBreakdown(s.cfg.feeConfig, 100, false) == Ok(FeeService.FeeBreakdown(100, 2, 0, 98));
    var started := s.(processingVolume := 100);
    assert Begin(s, s.remittances[1]) == Ok(started);
    HalfDisbursed(started, s.remittances[1].(status := Processing));
    PayLaw(s, "agent", 50);
  }

  /** The state after the report of the failure. */
  function Reported(s: State): State
    requires 1 in s.remittances && Pay(s, s.remittances[1].sender, 100).Ok?
  {
    s.(balances := Pay(s, s.remittances[1].sender, 100).value.balances, processingVolume := 0,
       remittances := s.remittances[1 := s.remittances[1].(status := Cancelled, amount := 0)])
  }

  lemma ReportFailure(s: State)
    requires s.cfg == Settings(250) && 1 in s.remittances && s.remittances[1].status.Processing?
    requires s.remittances[1].sender != SELF && s.remittances[1].agent == "agent" && s.remittances[1].amount == 100
    requires s.processingVolume == 100 && Held(s) == 150
    ensures Pay(s, s.remittances[1].sender, 100).Ok?
    ensures MarkFailed(s, NOW, 1) == Ok(Reported(s)) && Held(Reported(s)) == 50
  {
    PayLaw(s, s.remittances[1].sender, 100);
  }

  function FailureRun(ann: Address, bob: Address): seq<Event> {
    [Payment(ann), Payment(bob)] + [Event(NOW, DoConfirmPartial(1, 50))] + [Event(NOW, DoMarkFailed(1))]
  }

  /**
   A failure report refunds the full amount even after a partial payout. The second sender's tokens
   pay for it, and the second sender can no longer be refunded.
   */
  lemma FailureAfterPayout(ann: Address, bob: Address)
    requires ann != bob && ann != SELF && bob != SELF
    ensures var s := Run(Start(ann, bob), FailureRun(ann, bob));
            && Residue(s) == -50
            && 2 in s.remittances && s.remittances[2].status.Pending? && s.remittances[2].sender == bob
            && Cancel(s, NOW, 2) == Err(HostTrap)
  {
    TwoPayments(ann, bob);
    var log := [Payment(ann), Payment(bob)];
    var partial, failed := Event(NOW, DoConfirmPartial(1, 50)), Event(NOW, DoMarkFailed(1));
    RunSnoc(Start(ann, bob), log, partial);
    RunSnoc(Start(ann, bob), log + [partial], failed);
    HalfThenFailure(AfterPayment(AfterPayment(Start(ann, bob), ann), bob), partial, failed);
  }

  lemma HalfApplied(s: State, partial: Event)
    requires s.cfg == Settings(250) && Open(s, 1) && 1 !in s.disbursed && s.processingVolume == 0 && Held(s) == 200
    requires partial == Event(NOW, DoConfirmPartial(1, 50))
    ensures Pay(s, "agent", 50).Ok? && Apply(s, partial) == HalfPaid(s) && Held(HalfPaid(s)) == 150
  {
    PayHalf(s);
  }

  lemma FailureApplied(s: State, failed: Event)
    requires s.cfg == Settings(250) && 1 in s.remittances && s.remittances[1].status.Processing?
    requires s.remittances[1].sender != SELF && s.remittances[1].agent == "agent" && s.remittances[1].amount == 100
    requires s.processingVolume == 100 && Held(s) == 150 && failed == Event(NOW, DoMarkFailed(1))
    ensures Pay(s, s.remittances[1].sender, 100).Ok?
    ensures Apply(s, failed) == Reported(s) && Held(Reported(s)) == 50
  {
    ReportFailure(s);
  }

  lemma HalfThenFailure(s: State, partial: Event, failed: Event)
    requires s.cfg == Settings(250) && Open(s, 1) && Open(s, 2) && s.disbursed == map[] && s.processingVolume == 0
    requires Held(s) == 200 && s.counter == 2 && s.escrowCounter == 0 && s.fees == 0
    requires partial == Event(NOW, DoConfirmPartial(1, 50)) && failed == Event(NOW, DoMarkFailed(1))
    ensures var s' := Apply(Apply(s, partial), failed);
            Residue(s') == -50 && 2 in s'.remittances && s'.remittances[2] == s.remittances[2]
            && Cancel(s', NOW, 2) == Err(HostTrap)
  {
    HalfApplied(s, partial);
    var half := HalfPaid(s);
    FailureApplied(half, failed);
    NothingLeft(Reported(half));
  }

  lemma NothingLeft(s: State)
    requires s.counter == 2 && s.escrowCounter == 0 && s.fees == 0 && Held(s) == 50
    requires 1 in s.remittances && s.remittances[1].status.Cancelled?
    requires 2 in s.remittances && s.remittances[2].status.Pending? && s.remittances[2].amount == 100 && 2 !in s.disbursed
    ensures Residue(s) == -50 && Cancel(s, NOW, 2) == Err(HostTrap)
  {
    var w := OwedWeight(s.remittances, s.disbursed);
    assert SumIds(2, w) == SumIds(1, w) + w(2) && SumIds(1, w) == SumIds(0, w) + w(1);
  }

  lemma PayUnderNewFee(s: State)
    requires s.cfg == Settings(0) && Open(s, 1) && 1 !in s.disbursed && s.fees == 0 && Held(s) == 100
    requires s.processingVolume == 0 && s.completedVolume == 0
    ensures var r := ConfirmPartial(s, NOW, 1, 99);
            r.Ok? && Held(r.value) == 1 && r.value.fees == 2
  {
    assert FeeService.FeesWithBreakdown(s.cfg.feeConfig, 100, false) == Ok(FeeService.FeeBreakdown(100, 1, 0, 99));
    var r, started := s.remittances[1].(status := Processing), s.(processingVolume := 100);
    assert Begin(s, s.remittances[1]) == Ok(started);
    LastPart(started, r);
  }

  lemma LastPart(s: State, r: Remittance)
    requires r.status.Processing? && r.agent == "agent" && r.amount == 100 && r.fee == 2
    requires 1 !in s.disbursed && s.fees == 0 && Held(s) == 100 && s.processingVolume == 100 && s.completedVolume == 0
    ensures var done := Disburse(s, 1, r, 99, 99);
            done.Ok? && Held(done.value) == 1 && done.value.fees == 2
  {
    PayLaw(s, "agent", 99);
    var recorded := Pay(s, "agent", 99).value.(disbursed := s.disbursed[1 := 99]);
    assert SafeAddFee(recorded, 2) == Ok(recorded.(fees := 2));
  }

  function StaleFeeRun(ann: Address): seq<Event> {
    [Payment(ann)] + [Event(NOW, DoConfigure(Settings(0)))] + [Event(NOW, DoConfirmPartial(1, 99))]
  }

  /**
   A partial payout books the fee stored at creation although it paid out under the current, lower
   fee. The accumulated fees then exceed the contract's whole balance and cannot be withdrawn.
   */
  lemma StaleFee(ann: Address, bob: Address)
    requires ann != bob && ann != SELF && bob != SELF
    ensures var s := Run(Start(ann, bob), StaleFeeRun(ann));
            Held(s) == 1 && s.fees == 2 && WithdrawFees(s, NOW, "treasury") == Err(HostTrap)
  {
    TwoPayments(ann, bob);
    var log := [Payment(ann)];
    var configure, partial := Event(NOW, DoConfigure(Settings(0))), Event(NOW, DoConfirmPartial(1, 99));
    RunSnoc(Start(ann, bob), log, configure);
    RunSnoc(Start(ann, bob), log + [configure], partial);
    NewFeeThenPayout(AfterPayment(Start(ann, bob), ann), configure, partial);
  }

  lemma Configured(s: State, configure: Event)
    requires configure == Event(NOW, DoConfigure(Settings(0)))
    ensures Apply(s, configure) == s.(cfg := Settings(0))
  {
  }

  lemma PaidUnderNewFee(s: State, partial: Event)
    requires s.cfg == Settings(0) && Open(s, 1) && 1 !in s.disbursed && s.fees == 0 && Held(s) == 100
    requires s.processingVolume == 0 && s.completedVolume == 0 && partial == Event(NOW, DoConfirmPartial(1, 99))
    ensures Held(Apply(s, partial)) == 1 && Apply(s, partial).fees == 2
  {
    PayUnderNewFee(s);
  }

  lemma FeesStuck(s: State)
    requires Held(s) == 1 && s.fees == 2
    ensures WithdrawFees(s, NOW, "treasury") == Err(HostTrap)
  {
  }

  lemma NewFeeThenPayout(s: State, configure: Event, partial: Event)
    requires Open(s, 1) && s.disbursed == map[] && s.fees == 0 && Held(s) == 100
    requires s.processingVolume == 0 && s.completedVolume == 0
    requires configure == Event(NOW, DoConfigure(Settings(0))) && partial == Event(NOW, DoConfirmPartial(1, 99))
    ensures var s' := Apply(Apply(s, configure), partial);
            Held(s') == 1 && s'.fees == 2 && WithdrawFees(s', NOW, "treasury") == Err(HostTrap)
  {
    Configured(s, configure);
    PaidUnderNewFee(s.(cfg := Settings(0)), partial);
    FeesStuck(Apply(Apply(s, configure), partial));
  }
}
