/** The life of one remittance: its status only climbs, and after the end nothing happens to it again. */
module RemittanceLives {
  import opened Common
  import opened Types
  import opened Sums
  import opened Ledger
  import opened LedgerLaws
  import opened LedgerRuns

  predicate Ended(s: State, id: nat) {
    id in s.remittances && s.remittances[id].status.IsTerminal()
  }

  /** A completed or cancelled remittance keeps its record, its payouts and its flag in every continuation. */
  lemma TerminalForever(s: State, log: seq<Event>, id: nat)
    requires Inv(s) && AllExternal(log) && Ended(s, id)
    ensures var s' := Run(s, log);
            && Ended(s', id) && s'.remittances[id] == s.remittances[id]
            && Disbursed(s'.disbursed, id) == Disbursed(s.disbursed, id)
            && (id in s'.settled <==> id in s.settled)
            && OwedOn(s'.remittances, s'.disbursed, id) == 0
  {
    Conservation(s, log);
  }

  /** In every reachable state the settlement flag is set exactly for the completed remittances. */
  lemma SettledExactly(cfg: Config, balances: map<Address, nat>, log: seq<Event>, id: nat)
    requires AllExternal(log)
    ensures var s := Run(Initial(cfg, balances), log);
            id in s.settled <==> id in s.remittances && s.remittances[id].status.Completed?
  {
    InitialOk(cfg, balances);
    Conservation(Initial(cfg, balances), log);
  }

  function StatusOf(s: State, id: nat): Option<RemittanceStatus> {
    if id in s.remittances then Some(s.remittances[id].status) else None
  }

  function RankOf(s: State, id: nat): nat {
    if id in s.remittances then s.remittances[id].status.Rank() else 0
  }

  /** 1 if the status of an existing remittance differs between the two states. */
  function StatusChange(s: State, s': State, id: nat): nat {
    if id in s.remittances && StatusOf(s', id) != StatusOf(s, id) then 1 else 0
  }

  ghost function StatusChanges(s: State, log: seq<Event>, id: nat): nat {
    if log == [] then 0 else
      var front, e := log[..|log| - 1], log[|log| - 1];
      StatusChanges(s, front, id) + StatusChange(Run(s, front), Apply(Run(s, front), e), id)
  }

  lemma EventClimbs(s: State, e: Event, id: nat)
    requires Inv(s) && External(e.step)
    ensures RankOf(Apply(s, e), id) >= RankOf(s, id) + StatusChange(s, Apply(s, e), id)
  {
    EventEffect(s, e);
  }

  lemma RankAtMostFour(s: State, id: nat)
    ensures RankOf(s, id) <= 4
  {
  }

  lemma {:induction false} ChangesClimb(s: State, log: seq<Event>, id: nat)
    requires Inv(s) && AllExternal(log)
    ensures RankOf(Run(s, log), id) >= RankOf(s, id) + StatusChanges(s, log, id)
  {
    if log != [] {
      var front, e := log[..|log| - 1], log[|log| - 1];
      assert e in log && forall d | d in front :: d in log;
      ChangesClimb(s, front, id);
      RunInv(s, front);
      EventClimbs(Run(s, front), e, id);
    }
  }

  /** Every change of status raises the rank, so over any run a remittance changes status at most four times. */
  lemma AtMostFourChanges(s: State, log: seq<Event>, id: nat)
    requires Inv(s) && AllExternal(log)
    ensures RankOf(Run(s, log), id) >= RankOf(s, id) + StatusChanges(s, log, id)
    ensures StatusChanges(s, log, id) <= 4
  {
    ChangesClimb(s, log, id);
    RankAtMostFour(Run(s, log), id);
  }

  // ----- after the end every entry point refuses the id -----

  /** The steps that name one remittance, or settle a batch of them. */
  predicate Names(step: Step, id: nat) {
    match step
    case DoConfirm(_, i) => i == id
    case DoConfirmPartial(i, _) => i == id
    case DoMarkFailed(i) => i == id
    case DoCancel(i) => i == id
    case DoRaiseDispute(i) => i == id
    case DoResolveDispute(i, _) => i == id
    case DoBatchSettle(ids) => id in ids
    case _ => false
  }

  lemma {:induction false} LoadBatchRefuses(s: State, now: nat, ids: seq<nat>, id: nat)
    requires Ended(s, id) && id in ids
    ensures LoadBatch(s, now, ids).Err?
  {
    var front := ids[..|ids| - 1];
    if id in front {
      LoadBatchRefuses(s, now, front, id);
    } else {
      assert ids == front + [ids[|ids| - 1]];
    }
  }

  /** No entry point settles, pays out or refunds a remittance that has ended. */
  lemma TerminalRefused(s: State, env: Env, step: Step, id: nat)
    requires Ended(s, id) && Names(step, id)
    ensures Next(s, env, step).Err?
  {
    if step.DoBatchSettle? {
      LoadBatchRefuses(s, env.now, step.ids, id);
    }
  }

  // ----- expiry batches -----

  /** Pending, with an expiry that has passed. */
  predicate Overdue(s: State, now: nat, id: nat) {
    && id in s.remittances && s.remittances[id].status.Pending?
    && s.remittances[id].expiry.Some? && s.remittances[id].expiry.value < now
  }

  lemma {:induction false} ExpireAllFrame(s: State, now: nat, ids: seq<nat>, id: nat)
    requires ExpireAll(s, now, ids).Ok?
    ensures var (s', done) := ExpireAll(s, now, ids).value;
            && (id in done <==> id in ids && Overdue(s, now, id))
            && (id in s'.remittances <==> id in s.remittances)
            && (id in s.remittances ==>
                  s'.remittances[id] == if id in done then s.remittances[id].(status := Cancelled) else s.remittances[id])
  {
    if ids != [] {
      var front, last := ids[..|ids| - 1], ids[|ids| - 1];
      ExpireAllFrame(s, now, front, id);
      ExpireAllFrame(s, now, front, last);
      assert id in ids <==> id in front || id == last;
    }
  }

  /**
   An expiry batch refunds exactly the ids it lists that are pending and past their expiry, each of them
   once however often it is listed.
   */
  lemma {:induction false} ExpiredOnce(s: State, now: nat, ids: seq<nat>)
    requires ExpireAll(s, now, ids).Ok?
    ensures var done := ExpireAll(s, now, ids).value.1;
            Distinct(done) && forall id :: id in done <==> id in ids && Overdue(s, now, id)
  {
    forall id
      ensures id in ExpireAll(s, now, ids).value.1 <==> id in ids && Overdue(s, now, id)
    {
      ExpireAllFrame(s, now, ids, id);
    }
    if ids != [] {
      var front, last := ids[..|ids| - 1], ids[|ids| - 1];
      ExpiredOnce(s, now, front);
      ExpireAllFrame(s, now, front, last);
    }
  }

  /** A batch leaves a pending record cancelled exactly if it lists it after its expiry, and otherwise as it was. */
  lemma ExpiryExact(s: State, env: Env, ids: seq<nat>, id: nat)
    requires ProcessExpired(s, env, ids).Ok? && id in s.remittances
    ensures var s' := ProcessExpired(s, env, ids).value.0;
            && id in s'.remittances
            && s'.remittances[id] == (if id in ids && Overdue(s, env.now, id)
                                      then s.remittances[id].(status := Cancelled) else s.remittances[id])
  {
    ExpireAllFrame(s, env.now, ids, id);
  }

  function RefundWeight(s: State, p: Address): nat -> int {
    (id: nat) => if id in s.remittances && s.remittances[id].sender == p then s.remittances[id].amount else 0
  }

  /** Every sender receives the sum of their refunded amounts, and nothing else moves. */
  lemma {:induction false} ExpiredRefunds(s: State, now: nat, ids: seq<nat>, p: Address)
    requires ExpireAll(s, now, ids).Ok? && p != SELF
    ensures var (s', done) := ExpireAll(s, now, ids).value;
            Balance(s'.balances, p) == Balance(s.balances, p) + SumBy(done, RefundWeight(s, p))
  {
    if ids != [] {
      var front, last := ids[..|ids| - 1], ids[|ids| - 1];
      ExpiredRefunds(s, now, front, p);
      var (before, done) := ExpireAll(s, now, front).value;
      ExpireAllFrame(s, now, front, last);
      if Expirable(before, now, last) {
        ExpireRefund(before, last, p);
        SumByConcat(done, [last], RefundWeight(s, p));
        assert SumBy([last], RefundWeight(s, p)) == RefundWeight(s, p)(last) by {
          assert [last][..0] == [];
        }
      }
    }
  }

  lemma ExpireRefund(s: State, id: nat, p: Address)
    requires id in s.remittances && Expire(s, id).Ok? && p != SELF
    ensures Balance(Expire(s, id).value.balances, p) == Balance(s.balances, p) + RefundWeight(s, p)(id)
  {
  }
}
