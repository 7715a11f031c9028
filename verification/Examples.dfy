/** Short runs that show what the theorems about creation, payout and settlement allow. */
module Examples {
  import opened Common
  import opened Types
  import opened Ledger
  import opened LedgerLaws
  import opened LedgerRuns
  import opened BatchCreation
  import opened Confirmability
  import opened FirstPayments
  import opened Shortfalls
  import FS = FeeService
  import Netting
  import NettingLaws
  import SettlementSuccess

  /**
   A batch passes where a single creation is refused: the agent is below the minimum reputation, which
   only single creation checks.
   */
  lemma BatchPassesSingleRefused(ann: Address, bob: Address)
    requires ann != bob && ann != SELF && bob != SELF
    ensures var s, env := Start(ann, bob), NOW.(screened := false);
            && Create(s, env, ann, PAYMENT) == Err(Rejected)
            && BatchCreate(s, env, ann, [PAYMENT]).Ok?
  {
    FirstPayment(Start(ann, bob), ann);
    ScreeningSkipped(Start(ann, bob), NOW, ann, PAYMENT, 0);
  }

  /** A sender with 10,000, who pays all of it in. */
  function LargeStart(ann: Address): State {
    Initial(Settings(250), map[ann := 10_000])
  }

  const LARGE := Entry("agent", 10_000, None)

  lemma LargeFees()
    ensures FS.PlatformFeeForSender(Rates(250), 10_000, 0) == Ok(150)
    ensures FS.FeesWithBreakdown(Rates(250), 10_000, false) == Ok(FS.FeeBreakdown(10_000, 250, 0, 9_750))
  {
  }

  /**
   At 250 basis points a payment of 10,000 reaches the volume tier of 150, so it is created with a fee
   of 150. The payout recomputes 250 and refuses it.
   */
  lemma Unconfirmable(ann: Address)
    requires ann != SELF
    ensures var s := Run(LargeStart(ann), [Event(NOW, DoCreate(ann, LARGE))]);
            && 1 in s.remittances && s.remittances[1].status.Pending? && s.remittances[1].fee == 150
            && Confirm(s, NOW, "agent", 1) == Err(InvalidAmount)
  {
    var s, e := LargeStart(ann), Event(NOW, DoCreate(ann, LARGE));
    LargeFees();
    FirstCreated(s, ann, "agent", 10_000, 150);
    RunOne(s, e);
    RefusedAtOnce(AfterFirst(s, ann, "agent", GLOBAL, 10_000, 150));
  }

  lemma RefusedAtOnce(s: State)
    requires s.cfg == Settings(250) && 1 in s.remittances && 1 !in s.settled && s.processingVolume == 0
    requires s.remittances[1].agent == "agent" && s.remittances[1].amount == 10_000 && s.remittances[1].fee == 150
    requires s.remittances[1].status.Pending? && s.remittances[1].expiry == None
    ensures Confirm(s, NOW, "agent", 1) == Err(InvalidAmount)
  {
    LargeFees();
    ConfirmStops(s, NOW, "agent", 1);
  }

  // ----- a route with its own fee -----

  /** A route with a flat fee of 5; the global fee is 250 basis points. */
  function RouteStart(ann: Address): State {
    var route := FS.Route("US", "MX", FS.Flat(5), None);
    Initial(Plain(Rates(250), {"agent"}).(routes := map[("US", "MX") := route]), map[ann := 1_000])
  }

  function RoutePayment(ann: Address): Event {
    Event(NOW, DoCreateWithCorridor(ann, Entry("agent", 1_000, None), Some("US"), Some("MX")))
  }

  lemma RouteFeeIsFive(s: State, ann: Address)
    requires s == RouteStart(ann)
    ensures RouteFee(s, 1, ann, Entry("agent", 1_000, None), Some("US"), Some("MX")) == Ok(5)
  {
    var route := Some(FS.Route("US", "MX", FS.Flat(5), None));
    assert RouteOf(s, Some("US"), Some("MX")) == route;
    assert FS.FeesForSender(Rates(250), route, 1_000, 0) == Ok(FS.FeeBreakdown(1_000, 5, 0, 995));
  }

  lemma RatesAgree()
    ensures !FeesDiffer(Rates(250), 1_000, 1_000) && ChargesDiffer(Rates(250), FS.Flat(5), 1_000, 1_000)
  {
    assert FS.PercentageFee(1_000, 250) == 25;
  }

  /** Although the sender's rate and the plain rate agree, the payout recomputes 25 and refuses. */
  lemma UnconfirmableOnRoute(ann: Address)
    requires ann != SELF
    ensures var s := Run(RouteStart(ann), [RoutePayment(ann)]);
            && 1 in s.remittances && s.remittances[1].status.Pending? && s.remittances[1].fee == 5
            && !FeesDiffer(s.cfg.feeConfig, 1_000, 1_000)
            && Confirm(s, NOW, "agent", 1) == Err(InvalidAmount)
  {
    var s := RouteStart(ann);
    RouteFeeIsFive(s, ann);
    RatesAgree();
    FirstOnRoute(s, ann, "agent", 1_000, Some("US"), Some("MX"), 5);
    RunOne(s, RoutePayment(ann));
    RouteRefusedAtOnce(AfterFirst(s, ann, "agent", LimitCorridor(Some("MX")), 1_000, 5));
  }

  lemma RouteRefusedAtOnce(s: State)
    requires s.cfg.feeConfig == Rates(250) && !s.cfg.migrating && !s.cfg.paused && "agent" in s.cfg.agents
    requires 1 in s.remittances && 1 !in s.settled && s.processingVolume == 0
    requires s.remittances[1].agent == "agent" && s.remittances[1].amount == 1_000 && s.remittances[1].fee == 5
    requires s.remittances[1].status.Pending? && s.remittances[1].expiry == None
    ensures Confirm(s, NOW, "agent", 1) == Err(InvalidAmount)
  {
    assert FS.FeesWithBreakdown(Rates(250), 1_000, false) == Ok(FS.FeeBreakdown(1_000, 25, 0, 975));
    ConfirmStops(s, NOW, "agent", 1);
  }

  // ----- an adopted fee update -----

  /** The fee configuration once governance has raised the platform rate of 250 basis points to 500. */
  function Raised(): FS.FeeConfig {
    FS.FeeConfig(FS.Percentage(250), 500, None, 0)
  }

  function RaisedRun(ann: Address): seq<Event> {
    [Event(NOW, DoConfigure(Plain(Raised(), {"agent"}))), Event(NOW, DoCreate(ann, Entry("agent", 1_000, None)))]
  }

  lemma RaisedFee()
    ensures FS.PlatformFeeForSender(Raised(), 1_000, 0) == Ok(50)
  {
    FS.PercentageDefined(1_000, 500);
  }

  lemma RaisedRefused(s: State)
    requires s.cfg == Plain(Raised(), {"agent"}) && 1 in s.remittances && 1 !in s.settled && s.processingVolume == 0
    requires s.remittances[1].agent == "agent" && s.remittances[1].amount == 1_000 && s.remittances[1].fee == 50
    requires s.remittances[1].status.Pending? && s.remittances[1].expiry == None
    ensures Confirm(s, NOW, "agent", 1) == Err(InvalidAmount)
  {
    assert FS.FeesWithBreakdown(Raised(), 1_000, false) == Ok(FS.FeeBreakdown(1_000, 25, 0, 975));
    ConfirmStops(s, NOW, "agent", 1);
  }

  function Voted(ann: Address): State {
    Initial(Plain(Raised(), {"agent"}), map[ann := 1_000])
  }

  lemma VoteConfigures(ann: Address)
    ensures Apply(Initial(Settings(250), map[ann := 1_000]), RaisedRun(ann)[0]) == Voted(ann)
  {
  }

  lemma CreatedAfterVote(ann: Address)
    requires ann != SELF
    ensures Apply(Voted(ann), RaisedRun(ann)[1]) == AfterFirst(Voted(ann), ann, "agent", GLOBAL, 1_000, 50)
  {
    RaisedFee();
    FirstCreated(Voted(ann), ann, "agent", 1_000, 50);
  }

  /** After the update a payment of 1,000 is created with a fee of 50; the payout still recomputes 25. */
  lemma UnconfirmableAfterVote(ann: Address)
    requires ann != SELF
    ensures var s := Run(Initial(Settings(250), map[ann := 1_000]), RaisedRun(ann));
            && 1 in s.remittances && s.remittances[1].status.Pending? && s.remittances[1].fee == 50
            && Confirm(s, NOW, "agent", 1) == Err(InvalidAmount)
  {
    RunTwo(Initial(Settings(250), map[ann := 1_000]), RaisedRun(ann)[0], RaisedRun(ann)[1]);
    VoteConfigures(ann);
    CreatedAfterVote(ann);
    RaisedRefused(AfterFirst(Voted(ann), ann, "agent", GLOBAL, 1_000, 50));
  }

  // ----- opposite payments settled as one batch -----

  /** Two parties who are agents for each other; `x` is all that `bob` has. */
  function Opposite(ann: Address, bob: Address, x: nat): State {
    Initial(Plain(Rates(250), {ann, bob}), map[ann := 100, bob := x])
  }

  /** `ann` sends 100 to `bob`, and `bob` sends `x` to `ann`. */
  function OppositeRun(ann: Address, bob: Address, x: nat): seq<Event> {
    [Event(NOW, DoCreate(ann, Entry(bob, 100, None))), Event(NOW, DoCreate(bob, Entry(ann, x, None)))]
  }

  function FeeAt250(x: nat): int {
    FS.PercentageFee(x, 250)
  }

  lemma FeeOf(cfg: FS.FeeConfig, x: nat)
    requires cfg == Rates(250) && 0 < x < 10_000
    ensures FS.PlatformFeeForSender(cfg, x, 0) == Ok(FeeAt250(x))
  {
    FS.PercentageDefined(x, 250);
  }

  function AfterBoth(ann: Address, bob: Address, x: nat): State {
    AfterFirst(AfterFirst(Opposite(ann, bob, x), ann, bob, GLOBAL, 100, 2), bob, ann, GLOBAL, x, FeeAt250(x))
  }

  lemma OppositeCreated(ann: Address, bob: Address, x: nat)
    requires ann != bob && ann != SELF && bob != SELF && 0 < x < 10_000
    ensures Run(Opposite(ann, bob, x), OppositeRun(ann, bob, x)) == AfterBoth(ann, bob, x)
  {
    var s, e, e' := Opposite(ann, bob, x), OppositeRun(ann, bob, x)[0], OppositeRun(ann, bob, x)[1];
    var s' := AfterFirst(s, ann, bob, GLOBAL, 100, 2);
    FeeOf(s.cfg.feeConfig, 100);
    FeeOf(s.cfg.feeConfig, x);
    FirstCreated(s, ann, bob, 100, 2);
    FirstCreated(s', bob, ann, x, FeeAt250(x));
    RunTwo(s, e, e');
    assert Apply(s, e) == s';
    assert Apply(s', e') == AfterBoth(ann, bob, x);
  }

  lemma OppositeCovered(ann: Address, bob: Address, x: nat)
    requires ann != bob && ann != SELF && bob != SELF && 0 < x < 10_000
    ensures Covered(AfterBoth(ann, bob, x)) && Held(AfterBoth(ann, bob, x)) == 100 + x
  {
    var s, log := Opposite(ann, bob, x), OppositeRun(ann, bob, x);
    OppositeCreated(ann, bob, x);
    CarefulTwo(s, log[0], log[1]);
    Solvent(s.cfg, s.balances, log);
  }

  lemma CarefulTwo(s: State, e: Event, e': Event)
    requires e.step.DoCreate? && e'.step.DoCreate?
    ensures Careful(s, [e, e'])
  {
    assert [e, e'][..1] == [e] && [e][..0] == [];
    assert Careful(s, []);
    assert Careful(s, [e]);
  }

  /** The two flows of such a batch, seen from their pair. */
  lemma TwoFlows(f: Netting.Flow, g: Netting.Flow)
    requires f.from == g.to && f.to == g.from && f.from != f.to
    ensures Netting.Pairs([f, g]) == {Netting.PairOf(f)}
    ensures Abs(Netting.Net([f, g], Netting.PairOf(f))) == Abs(f.amount - g.amount)
    ensures Netting.Fees([f, g], Netting.PairOf(f)) == f.fee + g.fee
  {
    Netting.TextLessTotal(f.from, f.to);
    assert Netting.PairOf(f) == Netting.PairOf(g) && [] + [f] == [f] && [f] + [g] == [f, g];
    NettingLaws.TotalsSnoc([], f);
    NettingLaws.TotalsSnoc([f], g);
  }

  predicate Loadable(s: State, id: nat) {
    && id in s.remittances && s.remittances[id].status.Pending? && s.remittances[id].expiry == None
    && id !in s.settled
  }

  lemma LoadOneMore(s: State, now: nat, ids: seq<nat>, rs: seq<Remittance>, id: nat)
    requires LoadBatch(s, now, ids) == Ok(rs) && id !in ids && Loadable(s, id)
    ensures LoadBatch(s, now, ids + [id]) == Ok(rs + [s.remittances[id]])
  {
    assert (ids + [id])[..|ids|] == ids;
  }

  lemma OneMoreFlow(rs: seq<Remittance>, r: Remittance)
    requires r.status.Pending?
    ensures Netting.PendingFlows(rs + [r]) == Netting.PendingFlows(rs) + [Netting.FlowOf(r)]
  {
    assert (rs + [r])[..|rs|] == rs;
  }

  lemma TwoLoaded(s: State, r: Remittance, r': Remittance)
    requires Loadable(s, 1) && Loadable(s, 2) && r == s.remittances[1] && r' == s.remittances[2]
    ensures LoadBatch(s, 1, [1, 2]) == Ok([r, r'])
    ensures Netting.PendingFlows([r, r']) == [Netting.FlowOf(r), Netting.FlowOf(r')]
  {
    LoadOneMore(s, 1, [], [], 1);
    LoadOneMore(s, 1, [] + [1], [] + [r], 2);
    assert [] + [1] + [2] == [1, 2] && [] + [r] + [r'] == [r, r'];
    OneMoreFlow([], r);
    OneMoreFlow([] + [r], r');
    assert [] + [Netting.FlowOf(r)] + [Netting.FlowOf(r')] == [Netting.FlowOf(r), Netting.FlowOf(r')];
  }

  lemma TwoSettledIff(s: State, r: Remittance, r': Remittance)
    requires Covered(s) && Held(s) <= I128_MAX && !s.cfg.paused
    requires Loadable(s, 1) && Loadable(s, 2) && r == s.remittances[1] && r' == s.remittances[2]
    requires r.sender == r'.agent && r.agent == r'.sender && r.sender != r.agent
    ensures BatchSettle(s, NOW, [1, 2]).Ok? <==> Abs(r.amount - r'.amount) >= r.fee + r'.fee
  {
    TwoLoaded(s, r, r');
    TwoFlows(Netting.FlowOf(r), Netting.FlowOf(r'));
    SettlementSuccess.BatchSettlesIffPairsPay(s, NOW, [1, 2]);
  }

  /**
   The batch of the two payments is settled exactly when what netting leaves covers both fees: an equal
   amount is refused, and so is one that differs by less.
   */
  lemma OppositeSettledIff(ann: Address, bob: Address, x: nat)
    requires ann != bob && ann != SELF && bob != SELF && 0 < x < 10_000
    ensures var s := Run(Opposite(ann, bob, x), OppositeRun(ann, bob, x));
            BatchSettle(s, NOW, [1, 2]).Ok? <==> Abs(100 - x) >= 2 + FeeAt250(x)
  {
    var s := AfterBoth(ann, bob, x);
    OppositeCreated(ann, bob, x);
    OppositeCovered(ann, bob, x);
    TwoSettledIff(s, s.remittances[1], s.remittances[2]);
  }

  /** A full offset and a near offset, neither of which can be settled, and one that can. */
  lemma OffsetExamples(ann: Address, bob: Address)
    requires ann != bob && ann != SELF && bob != SELF
    ensures BatchSettle(Run(Opposite(ann, bob, 100), OppositeRun(ann, bob, 100)), NOW, [1, 2]).Err?
    ensures BatchSettle(Run(Opposite(ann, bob, 99), OppositeRun(ann, bob, 99)), NOW, [1, 2]).Err?
    ensures BatchSettle(Run(Opposite(ann, bob, 90), OppositeRun(ann, bob, 90)), NOW, [1, 2]).Ok?
  {
    assert FeeAt250(100) == 2 && FeeAt250(99) == 2 && FeeAt250(90) == 2;
    OppositeSettledIff(ann, bob, 100);
    OppositeSettledIff(ann, bob, 99);
    OppositeSettledIff(ann, bob, 90);
  }
}
