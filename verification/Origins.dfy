/** Where the stored records come from: over every run they are the accepted creations, in order. */
module Origins {
  import opened Common
  import opened Types
  import opened Ledger
  import opened LedgerLaws
  import opened LedgerRuns
  import opened BatchCreation
  import opened Histories
  import DailyLimit
  import FS = FeeService

  // ----- remittances -----

  /** One accepted entry, whichever entry point took it, and the expiry window then in force. */
  datatype Origin = Origin(sender: Address, entry: Entry, at: nat, window: nat)

  function AllFrom(sender: Address, entries: seq<Entry>, at: nat, window: nat): seq<Origin> {
    if entries == [] then [] else
      AllFrom(sender, entries[..|entries| - 1], at, window) + [Origin(sender, entries[|entries| - 1], at, window)]
  }

  function NewOrigins(s: State, e: Event): seq<Origin> {
    match e.step
    case DoCreate(sender, entry) => AllFrom(sender, [entry], e.env.now, s.cfg.expiryWindow)
    case DoCreateWithCorridor(sender, entry, _, _) => AllFrom(sender, [entry], e.env.now, s.cfg.expiryWindow)
    case DoBatchCreate(sender, entries) => AllFrom(sender, entries, e.env.now, s.cfg.expiryWindow)
    case _ => []
  }

  /** The entries that a run has accepted. */
  ghost function OriginsOf(s: State, log: seq<Event>): seq<Origin> {
    if log == [] then [] else
      var front, e := log[..|log| - 1], log[|log| - 1];
      OriginsOf(s, front) + if Next(Run(s, front), e.env, e.step).Ok? then NewOrigins(Run(s, front), e) else []
  }

  function WindowEnd(at: nat, window: nat): Option<nat> {
    if window == 0 then None else if at + window > U64_MAX then Some(U64_MAX) else Some(at + window)
  }

  /** The record of an accepted entry; only a refund on request changes its amount, to zero. */
  predicate FromOrigin(r: Remittance, id: nat, o: Origin) {
    && r.id == id && r.sender == o.sender && r.agent == o.entry.agent && r.expiry == o.entry.expiry
    && r.createdAt == o.at && r.failedAt.None? && r.expiresAt == WindowEnd(o.at, o.window)
    && (r.amount == o.entry.amount || (r.amount == 0 && r.status.Cancelled?))
  }

  predicate BornAs(s: State, id: nat, o: Origin) {
    id in s.remittances && FromOrigin(s.remittances[id], id, o)
  }

  /** The next ids are those of the new entries. */
  ghost predicate Extends(s: State, s': State, os: seq<Origin>) {
    && s'.counter == s.counter + |os|
    && forall i | 0 <= i < |os| :: BornAs(s', s.counter + 1 + i, os[i])
  }

  /** The records are exactly those of the entries. */
  ghost predicate Recorded(s: State, os: seq<Origin>) {
    && s.counter == |os|
    && (forall i | 0 <= i < |os| :: BornAs(s, i + 1, os[i]))
    && (forall id | id in s.remittances :: 1 <= id <= |os|)
  }

  lemma AllFromLength(sender: Address, entries: seq<Entry>, at: nat, window: nat)
    ensures |AllFrom(sender, entries, at, window)| == |entries|
  {
    if entries != [] {
      AllFromLength(sender, entries[..|entries| - 1], at, window);
    }
  }

  lemma AllFromOne(sender: Address, entry: Entry, at: nat, window: nat)
    ensures AllFrom(sender, [entry], at, window) == [Origin(sender, entry, at, window)]
  {
    assert [entry][..0] == [];
  }

  lemma BookBirth(s: State, now: nat, sender: Address, e: Entry, fee: int)
    requires Book(s, now, s.counter + 1, sender, e, fee).Ok?
    ensures var s' := Book(s, now, s.counter + 1, sender, e, fee).value;
            && s'.counter == s.counter + 1 && s'.cfg == s.cfg
            && BornAs(s', s.counter + 1, Origin(sender, e, now, s.cfg.expiryWindow))
            && s'.remittances == s.remittances[s.counter + 1 := s'.remittances[s.counter + 1]]
  {
  }

  lemma ExtendsFrom(s: State, funded: State, s': State, os: seq<Origin>)
    requires AfterDeposit(s, funded) && Extends(funded, s', os)
    ensures Extends(s, s', os)
  {
    assert forall i | 0 <= i < |os| :: BornAs(s', funded.counter + 1 + i, os[i]);
  }

  lemma OneBirth(s: State, s': State, sender: Address, e: Entry, now: nat, window: nat)
    requires s'.counter == s.counter + 1 && BornAs(s', s.counter + 1, Origin(sender, e, now, window))
    ensures Extends(s, s', AllFrom(sender, [e], now, window))
  {
    AllFromOne(sender, e, now, window);
  }

  lemma AcceptBirth(s: State, now: nat, sender: Address, e: Entry, c: DailyLimit.Corridor, fee: Result<int>)
    requires Accept(s, now, sender, e, c, fee).Ok?
    ensures Extends(s, Accept(s, now, sender, e, c, fee).value.0, AllFrom(sender, [e], now, s.cfg.expiryWindow))
  {
    var funded := AcceptBooks(s, now, sender, e, c, fee);
    BookBirth(funded, now, sender, e, fee.value);
    OneBirth(s, Accept(s, now, sender, e, c, fee).value.0, sender, e, now, s.cfg.expiryWindow);
  }

  lemma ExtendsSnoc(s: State, b: State, n: State, os: seq<Origin>, o: Origin)
    requires Extends(s, b, os) && n.counter == b.counter + 1 && BornAs(n, b.counter + 1, o)
    requires n.remittances == b.remittances[b.counter + 1 := n.remittances[b.counter + 1]]
    ensures Extends(s, n, os + [o])
  {
    forall i | 0 <= i < |os + [o]|
      ensures BornAs(n, s.counter + 1 + i, (os + [o])[i])
    {
      assert i < |os| ==> BornAs(b, s.counter + 1 + i, os[i]);
    }
  }

  lemma {:induction false} BookAllBirth(s: State, now: nat, sender: Address, entries: seq<Entry>, prior: int)
    requires BookAll(s, now, sender, entries, prior).Ok?
    ensures BookAll(s, now, sender, entries, prior).value.state.cfg == s.cfg
    ensures Extends(s, BookAll(s, now, sender, entries, prior).value.state,
                    AllFrom(sender, entries, now, s.cfg.expiryWindow))
  {
    if entries != [] {
      var front, e := entries[..|entries| - 1], entries[|entries| - 1];
      BookAllBirth(s, now, sender, front, prior);
      var before := BookAll(s, now, sender, front, prior).value;
      var n := BookNext(before, now, sender, e).value;
      BookNextBirth(before, now, sender, e);
      ExtendsSnoc(s, before.state, n.state, AllFrom(sender, front, now, s.cfg.expiryWindow),
                  Origin(sender, e, now, s.cfg.expiryWindow));
    }
  }

  lemma BookNextBirth(b: Booked, now: nat, sender: Address, e: Entry)
    requires BookNext(b, now, sender, e).Ok?
    ensures var s, s' := b.state, BookNext(b, now, sender, e).value.state;
            && s'.counter == s.counter + 1 && s'.cfg == s.cfg
            && BornAs(s', s.counter + 1, Origin(sender, e, now, s.cfg.expiryWindow))
            && s'.remittances == s.remittances[s.counter + 1 := s'.remittances[s.counter + 1]]
  {
    assert e.amount > 0;
    BookNextIs(b, now, sender, e);
    BookBirth(b.state, now, sender, e, BatchFee(b, e).value);
  }

  lemma BatchBirth(s: State, env: Env, sender: Address, entries: seq<Entry>)
    requires BatchCreate(s, env, sender, entries).Ok?
    ensures Extends(s, BatchCreate(s, env, sender, entries).value.0,
                    AllFrom(sender, entries, env.now, s.cfg.expiryWindow))
  {
    var funded := BatchBooks(s, env, sender, entries);
    BookAllBirth(funded, env.now, sender, entries, Rolling(s, sender, env.now));
    ExtendsFrom(s, funded, BatchCreate(s, env, sender, entries).value.0,
                AllFrom(sender, entries, env.now, s.cfg.expiryWindow));
  }

  lemma StepBirth(s: State, e: Event)
    requires Next(s, e.env, e.step).Ok?
    ensures Extends(s, Next(s, e.env, e.step).value, NewOrigins(s, e))
  {
    match e.step
    case DoCreate(sender, entry) =>
      CreateIs(s, e.env, sender, entry);
      var fee := FS.PlatformFeeForSender(s.cfg.feeConfig, entry.amount, Rolling(s, sender, e.env.now));
      AcceptBirth(s, e.env.now, sender, entry, GLOBAL, fee);
    case DoCreateWithCorridor(sender, entry, from, to) =>
      AcceptBirth(s, e.env.now, sender, entry, LimitCorridor(to), RouteFee(s, e.env.now, sender, entry, from, to));
    case DoBatchCreate(sender, entries) => BatchBirth(s, e.env, sender, entries);
    case _ => OthersSame(s, e.env, e.step);
  }

  lemma RecordedNext(s: State, s': State, os: seq<Origin>, new': seq<Origin>)
    requires Recorded(s, os) && Extends(s, s', new') && Progress(s, s') && RecordsOk(s')
    ensures Recorded(s', os + new')
  {
    forall i | 0 <= i < |os + new'|
      ensures BornAs(s', i + 1, (os + new')[i])
    {
      if i < |os| {
        assert BornAs(s, i + 1, os[i]);
        assert Advances(s.remittances[i + 1], s'.remittances[i + 1]);
      } else {
        assert BornAs(s', s.counter + 1 + (i - |os|), new'[i - |os|]);
      }
    }
  }

  /**
   In every run there are as many records as accepted entries, and the n-th one is the record of the
   n-th entry: its sender, agent and dates are those named there, and so is its amount until a
   cancellation or a failure report zeroes it.
   */
  lemma {:induction false} RecordsAreCreations(cfg: Config, balances: map<Address, nat>, log: seq<Event>)
    requires AllExternal(log)
    ensures Recorded(Run(Initial(cfg, balances), log), OriginsOf(Initial(cfg, balances), log))
  {
    if log != [] {
      var s0, front, e := Initial(cfg, balances), log[..|log| - 1], log[|log| - 1];
      assert e in log && forall d | d in front :: d in log;
      RecordsAreCreations(cfg, balances, front);
      InitialOk(cfg, balances);
      RunInv(s0, front);
      var s := Run(s0, front);
      if Next(s, e.env, e.step).Ok? {
        StepEffect(s, e.env, e.step);
        StepBirth(s, e);
        RecordedNext(s, Next(s, e.env, e.step).value, OriginsOf(s0, front), NewOrigins(s, e));
      }
    }
  }
}
