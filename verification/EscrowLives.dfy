/** The life of one escrow: what its creation names is what a release or a refund pays, whatever happens in between. */
module EscrowLives {
  import opened Common
  import opened Types
  import opened Sums
  import opened Ledger
  import opened LedgerLaws
  import opened LedgerRuns
  import opened Histories
  import opened Payments
  import BatchCreation
  import DailyLimit
  import FS = FeeService

  // ----- every other entry point leaves escrows alone -----

  lemma {:induction false} BookAllSame(s: State, now: nat, sender: Address, entries: seq<Entry>, prior: int)
    requires BookAll(s, now, sender, entries, prior).Ok?
    ensures SameEscrows(s, BookAll(s, now, sender, entries, prior).value.state)
  {
    if entries != [] {
      BookAllSame(s, now, sender, entries[..|entries| - 1], prior);
    }
  }

  lemma AcceptSame(s: State, now: nat, sender: Address, e: Entry, c: DailyLimit.Corridor, fee: Result<int>)
    requires Accept(s, now, sender, e, c, fee).Ok?
    ensures SameEscrows(s, Accept(s, now, sender, e, c, fee).value.0)
  {
    var _ := BatchCreation.AcceptBooks(s, now, sender, e, c, fee);
  }

  lemma CreationSame(s: State, env: Env, step: Step)
    requires Creates(step) && Next(s, env, step).Ok?
    ensures SameEscrows(s, Next(s, env, step).value)
  {
    match step
    case DoCreate(sender, e) =>
      BatchCreation.CreateIs(s, env, sender, e);
      var fee := FS.PlatformFeeForSender(s.cfg.feeConfig, e.amount, Rolling(s, sender, env.now));
      AcceptSame(s, env.now, sender, e, BatchCreation.GLOBAL, fee);
    case DoCreateWithCorridor(sender, e, from, to) =>
      AcceptSame(s, env.now, sender, e, LimitCorridor(to), RouteFee(s, env.now, sender, e, from, to));
    case DoBatchCreate(sender, entries) =>
      var funded := BatchCreation.BatchBooks(s, env, sender, entries);
      BookAllSame(funded, env.now, sender, entries, Rolling(s, sender, env.now));
  }

  // ----- expiry batches -----

  /** Locked, with an expiry that has passed. */
  predicate EscrowOverdue(s: State, now: nat, id: nat) {
    && id in s.escrows && s.escrows[id].status.Locked?
    && s.escrows[id].expiry.Some? && s.escrows[id].expiry.value < now
  }

  lemma {:induction false} ExpireEscrowsExact(s: State, now: nat, ids: seq<nat>, id: nat)
    requires ExpireEscrows(s, now, ids).Ok?
    ensures var (s', done) := ExpireEscrows(s, now, ids).value;
            && (id in done <==> id in ids && EscrowOverdue(s, now, id))
            && (id in s'.escrows <==> id in s.escrows)
            && (id in s.escrows ==>
                  s'.escrows[id] == if id in done then s.escrows[id].(status := Refunded) else s.escrows[id])
  {
    if ids != [] {
      var front, last := ids[..|ids| - 1], ids[|ids| - 1];
      ExpireEscrowsExact(s, now, front, id);
      ExpireEscrowsExact(s, now, front, last);
      assert id in ids <==> id in front || id == last;
    }
  }

  /** An expiry batch refunds exactly the ids it lists that are locked and past their expiry, each of them once. */
  lemma {:induction false} EscrowsExpiredOnce(s: State, now: nat, ids: seq<nat>)
    requires ExpireEscrows(s, now, ids).Ok?
    ensures var done := ExpireEscrows(s, now, ids).value.1;
            Distinct(done) && forall id :: id in done <==> id in ids && EscrowOverdue(s, now, id)
  {
    forall id
      ensures id in ExpireEscrows(s, now, ids).value.1 <==> id in ids && EscrowOverdue(s, now, id)
    {
      ExpireEscrowsExact(s, now, ids, id);
    }
    if ids != [] {
      var front, last := ids[..|ids| - 1], ids[|ids| - 1];
      EscrowsExpiredOnce(s, now, front);
      ExpireEscrowsExact(s, now, front, last);
    }
  }

  // ----- one step -----

  /** What a step makes of the status of a stored escrow. */
  function StatusAfter(x: Escrow, env: Env, step: Step, id: nat): EscrowStatus {
    if !x.status.Locked? then x.status
    else if step == DoReleaseEscrow(id) then Released
    else if step == DoRefundEscrow(id) then Refunded
    else if step.DoProcessExpiredEscrows? && id in step.ids && x.expiry.Some? && x.expiry.value < env.now then Refunded
    else Locked
  }

  /** `s'` has the escrow `id` as this step leaves it. */
  predicate Leaves(s: State, s': State, env: Env, step: Step, id: nat)
    requires id in s.escrows
  {
    id in s'.escrows && s'.escrows[id] == s.escrows[id].(status := StatusAfter(s.escrows[id], env, step, id))
  }

  lemma OneEscrowEnds(s: State, env: Env, i: nat, id: nat)
    requires id in s.escrows
    ensures ReleaseEscrow(s, env, i).Ok? ==> Leaves(s, ReleaseEscrow(s, env, i).value, env, DoReleaseEscrow(i), id)
    ensures RefundEscrow(s, env, i).Ok? ==> Leaves(s, RefundEscrow(s, env, i).value, env, DoRefundEscrow(i), id)
  {
  }

  lemma CreatingLeaves(s: State, env: Env, sender: Address, recipient: Address, amount: int, id: nat)
    requires EscrowsOk(s) && CreateEscrow(s, env, sender, recipient, amount).Ok? && id in s.escrows
    ensures Leaves(s, CreateEscrow(s, env, sender, recipient, amount).value.0, env,
                   DoCreateEscrow(sender, recipient, amount), id)
  {
    CreateEscrowStores(s, env, sender, recipient, amount);
  }

  lemma EscrowStep(s: State, env: Env, step: Step, id: nat)
    requires EscrowsOk(s) && OnEscrows(step) && Next(s, env, step).Ok? && id in s.escrows
    ensures Leaves(s, Next(s, env, step).value, env, step, id)
  {
    match step
    case DoProcessExpiredEscrows(ids) => ExpireEscrowsExact(s, env.now, ids, id);
    case DoCreateEscrow(sender, recipient, amount) => CreatingLeaves(s, env, sender, recipient, amount, id);
    case DoReleaseEscrow(i) => OneEscrowEnds(s, env, i, id);
    case DoRefundEscrow(i) => OneEscrowEnds(s, env, i, id);
  }

  /** A release, a refund and an expiry batch after the expiry end a locked escrow, and nothing else changes any. */
  lemma StepEscrow(s: State, env: Env, step: Step, id: nat)
    requires Inv(s) && Next(s, env, step).Ok? && id in s.escrows
    ensures Leaves(s, Next(s, env, step).value, env, step, id)
  {
    if Creates(step) {
      CreationSame(s, env, step);
    } else if OnEscrows(step) {
      EscrowStep(s, env, step, id);
    } else {
      OthersSame(s, env, step);
    }
  }

  // ----- where escrows come from -----

  datatype EscrowOrigin = EscrowOrigin(sender: Address, recipient: Address, amount: int, at: nat, ttl: nat)

  function NewEscrows(s: State, e: Event): seq<EscrowOrigin> {
    match e.step
    case DoCreateEscrow(sender, recipient, amount) =>
      [EscrowOrigin(sender, recipient, amount, e.env.now, s.cfg.escrowTtl)]
    case _ => []
  }

  ghost function EscrowOrigins(s: State, log: seq<Event>): seq<EscrowOrigin> {
    if log == [] then [] else
      var front, e := log[..|log| - 1], log[|log| - 1];
      EscrowOrigins(s, front) + if Next(Run(s, front), e.env, e.step).Ok? then NewEscrows(Run(s, front), e) else []
  }

  predicate FromOrigin(x: Escrow, id: nat, o: EscrowOrigin) {
    && x.id == id && x.sender == o.sender && x.recipient == o.recipient && x.amount == o.amount
    && x.expiry == if o.ttl == 0 then None else Some(o.at + o.ttl)
  }

  predicate BornAs(s: State, id: nat, o: EscrowOrigin) {
    id in s.escrows && FromOrigin(s.escrows[id], id, o)
  }

  /** The escrows are exactly those of the accepted creations. */
  ghost predicate Recorded(s: State, os: seq<EscrowOrigin>) {
    && s.escrowCounter == |os|
    && (forall i | 0 <= i < |os| :: BornAs(s, i + 1, os[i]))
    && (forall id | id in s.escrows :: 1 <= id <= |os|)
  }

  lemma StepBirth(s: State, e: Event)
    requires Next(s, e.env, e.step).Ok?
    ensures var s', os := Next(s, e.env, e.step).value, NewEscrows(s, e);
            && s'.escrowCounter == s.escrowCounter + |os|
            && (os != [] ==> BornAs(s', s'.escrowCounter, os[0]))
  {
    if e.step.DoCreateEscrow? {
      CreateEscrowStores(s, e.env, e.step.sender, e.step.recipient, e.step.amount);
    } else if Creates(e.step) {
      CreationSame(s, e.env, e.step);
    } else if OnEscrows(e.step) {
      EscrowCounterSame(s, e.env, e.step);
    } else {
      OthersSame(s, e.env, e.step);
    }
  }

  lemma EscrowCounterSame(s: State, env: Env, step: Step)
    requires OnEscrows(step) && !step.DoCreateEscrow? && Next(s, env, step).Ok?
    ensures Next(s, env, step).value.escrowCounter == s.escrowCounter
  {
    if step.DoProcessExpiredEscrows? {
      ExpireEscrowsCounter(s, env.now, step.ids);
    }
  }

  lemma {:induction false} ExpireEscrowsCounter(s: State, now: nat, ids: seq<nat>)
    requires ExpireEscrows(s, now, ids).Ok?
    ensures ExpireEscrows(s, now, ids).value.0.escrowCounter == s.escrowCounter
  {
    if ids != [] {
      ExpireEscrowsCounter(s, now, ids[..|ids| - 1]);
    }
  }

  /** A step that ends escrows or adds `os`, of which there is at most one. */
  ghost predicate Steps(s: State, s': State, os: seq<EscrowOrigin>) {
    && |os| <= 1 && s'.escrowCounter == s.escrowCounter + |os|
    && (os != [] ==> BornAs(s', s'.escrowCounter, os[0]))
    && (forall id | id in s.escrows ::
          id in s'.escrows && s'.escrows[id] == s.escrows[id].(status := s'.escrows[id].status))
    && (forall id | id in s'.escrows :: 1 <= id <= s'.escrowCounter)
  }

  lemma RecordedNext(s: State, s': State, os: seq<EscrowOrigin>, new': seq<EscrowOrigin>)
    requires Recorded(s, os) && Steps(s, s', new')
    ensures Recorded(s', os + new')
  {
    forall i | 0 <= i < |os + new'|
      ensures BornAs(s', i + 1, (os + new')[i])
    {
      assert i < |os| ==> BornAs(s, i + 1, os[i]);
    }
  }

  lemma StepSteps(s: State, e: Event)
    requires Inv(s) && External(e.step) && Next(s, e.env, e.step).Ok?
    ensures Steps(s, Next(s, e.env, e.step).value, NewEscrows(s, e))
  {
    var s' := Next(s, e.env, e.step).value;
    StepEffect(s, e.env, e.step);
    StepBirth(s, e);
    forall id | id in s.escrows
      ensures id in s'.escrows && s'.escrows[id] == s.escrows[id].(status := s'.escrows[id].status)
    {
      StepEscrow(s, e.env, e.step, id);
    }
  }

  /**
   In every run there are as many escrows as accepted creations, and the n-th one has the parties and
   the amount named by the n-th creation, and the expiry of the time to live then in force.
   */
  lemma {:induction false} EscrowsAreCreations(cfg: Config, balances: map<Address, nat>, log: seq<Event>)
    requires AllExternal(log)
    ensures Recorded(Run(Initial(cfg, balances), log), EscrowOrigins(Initial(cfg, balances), log))
  {
    if log != [] {
      var s0, front, e := Initial(cfg, balances), log[..|log| - 1], log[|log| - 1];
      assert e in log && forall d | d in front :: d in log;
      EscrowsAreCreations(cfg, balances, front);
      InitialOk(cfg, balances);
      RunInv(s0, front);
      if Next(Run(s0, front), e.env, e.step).Ok? {
        StepSteps(Run(s0, front), e);
        RecordedNext(Run(s0, front), Next(Run(s0, front), e.env, e.step).value,
                     EscrowOrigins(s0, front), NewEscrows(Run(s0, front), e));
      }
    }
  }

  // ----- from its creation on -----

  /** Whatever happens, a stored escrow keeps its parties, amount and expiry. */
  lemma {:induction false} StaysTheSame(s: State, log: seq<Event>, id: nat)
    requires Inv(s) && AllExternal(log) && id in s.escrows
    ensures var s' := Run(s, log);
            id in s'.escrows && s'.escrows[id] == s.escrows[id].(status := s'.escrows[id].status)
  {
    if log != [] {
      var front, e := log[..|log| - 1], log[|log| - 1];
      assert e in log && forall d | d in front :: d in log;
      StaysTheSame(s, front, id);
      RunInv(s, front);
      if Next(Run(s, front), e.env, e.step).Ok? {
        StepEscrow(Run(s, front), e.env, e.step, id);
      }
    }
  }

  /** The escrow `id` of the later state is the one that the creation named, and still locked. */
  lemma StillAsCreated(s: State, env: Env, sender: Address, recipient: Address, amount: int, s': State, id: nat,
                       log: seq<Event>)
    requires Inv(s) && sender != SELF && CreateEscrow(s, env, sender, recipient, amount) == Ok((s', id))
    requires AllExternal(log) && id in Run(s', log).escrows && Run(s', log).escrows[id].status.Locked?
    ensures Inv(Run(s', log))
    ensures Run(s', log).escrows[id] == CreatedEscrow(s, env, sender, recipient, amount)
  {
    CreateEscrowLaw(s, env, sender, recipient, amount);
    CreateEscrowStores(s, env, sender, recipient, amount);
    StaysTheSame(s', log, id);
    RunInv(s', log);
  }

  /**
   After the creation of an escrow and any later run that leaves it locked, a release pays its amount to
   the recipient that the creation named, and a refund pays it back to the sender; nobody else outside
   the contract receives anything.
   */
  lemma PaysWhoWasNamed(s: State, env: Env, sender: Address, recipient: Address, amount: int, s': State, id: nat,
                        log: seq<Event>, env': Env, p: Address)
    requires Inv(s) && sender != SELF && CreateEscrow(s, env, sender, recipient, amount) == Ok((s', id))
    requires AllExternal(log) && id in Run(s', log).escrows && Run(s', log).escrows[id].status.Locked? && p != SELF
    ensures var later := Run(s', log);
            && (ReleaseEscrow(later, env', id).Ok? ==>
                  Balance(ReleaseEscrow(later, env', id).value.balances, p)
                  == Balance(later.balances, p) + if p == recipient then amount else 0)
            && (RefundEscrow(later, env', id).Ok? ==>
                  Balance(RefundEscrow(later, env', id).value.balances, p)
                  == Balance(later.balances, p) + if p == sender then amount else 0)
  {
    var later := Run(s', log);
    StillAsCreated(s, env, sender, recipient, amount, s', id, log);
    if ReleaseEscrow(later, env', id).Ok? {
      PayTo(later, recipient, amount, p);
    }
    if RefundEscrow(later, env', id).Ok? {
      PayTo(later, sender, amount, p);
    }
  }

  lemma RefundsAreAmounts(s: State, now: nat, ids: seq<nat>, p: Address)
    requires EscrowsOk(s)
    ensures forall id :: EscrowRefundWeight(s, p)(id) >= 0
  {
  }

  /**
   An expiry batch that lists it refunds it exactly if it was created with a time to live that has
   passed, and then the sender named at creation gets the amount back.
   */
  lemma ExpiresForWhoWasNamed(s: State, env: Env, sender: Address, recipient: Address, amount: int, s': State, id: nat,
                              log: seq<Event>, env': Env, ids: seq<nat>)
    requires Inv(s) && sender != SELF && CreateEscrow(s, env, sender, recipient, amount) == Ok((s', id))
    requires AllExternal(log) && id in Run(s', log).escrows && Run(s', log).escrows[id].status.Locked?
    requires ProcessExpiredEscrows(Run(s', log), env', ids).Ok?
    ensures var later, done := Run(s', log), ProcessExpiredEscrows(Run(s', log), env', ids).value;
            && (id in done.1 <==> id in ids && s.cfg.escrowTtl > 0 && env.now + s.cfg.escrowTtl < env'.now)
            && (id in done.1 ==> Balance(done.0.balances, sender) >= Balance(later.balances, sender) + amount)
  {
    var later := Run(s', log);
    StillAsCreated(s, env, sender, recipient, amount, s', id, log);
    ExpireEscrowsExact(later, env'.now, ids, id);
    var done := ExpireEscrows(later, env'.now, ids).value.1;
    if id in done {
      ExpiredEscrowRefunds(later, env'.now, ids, sender);
      RefundsAreAmounts(later, env'.now, ids, sender);
      TermAtMostSum(done, id, EscrowRefundWeight(later, sender));
    }
  }
}
