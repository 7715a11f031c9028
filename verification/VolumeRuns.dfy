/** The stored volume of a sender over runs of the ledger: the replay of every entry accepted from that sender. */
module VolumeRuns {
  import opened Common
  import opened Types
  import opened Ledger
  import opened LedgerRuns
  import opened BatchCreation
  import opened Histories
  import opened Origins
  import DailyLimit
  import FS = FeeService
  import SV = SenderVolume

  /** What `who` sent, entry by entry. */
  function SentBy(os: seq<Origin>, who: Address): seq<SV.Sent> {
    if os == [] then [] else
      var o := os[|os| - 1];
      SentBy(os[..|os| - 1], who) + if o.sender == who then [SV.Sent(o.at, o.entry.amount)] else []
  }

  /** The history with further transfers recorded in turn. */
  function RecordAll(history: seq<SV.Bucket>, sent: seq<SV.Sent>): Result<seq<SV.Bucket>> {
    if sent == [] then Ok(history) else
      var before :- RecordAll(history, sent[..|sent| - 1]);
      SV.Record(before, sent[|sent| - 1].amount, sent[|sent| - 1].time)
  }

  lemma {:induction false} SentByConcat(os: seq<Origin>, os': seq<Origin>, who: Address)
    ensures SentBy(os + os', who) == SentBy(os, who) + SentBy(os', who)
    decreases |os'|
  {
    if os' == [] {
      assert os + os' == os;
    } else {
      var front := os'[..|os'| - 1];
      assert (os + os')[..|os + os'| - 1] == os + front;
      SentByConcat(os, front, who);
    }
  }

  lemma {:induction false} ReplayConcat(log: seq<SV.Sent>, sent: seq<SV.Sent>)
    requires SV.Replay(log).Ok?
    ensures SV.Replay(log + sent) == RecordAll(SV.Replay(log).value, sent)
    decreases |sent|
  {
    if sent == [] {
      assert log + sent == log;
    } else {
      assert (log + sent)[..|log + sent| - 1] == log + sent[..|sent| - 1];
      ReplayConcat(log, sent[..|sent| - 1]);
    }
  }

  /** The stored history of `who` is the earlier one with these transfers recorded. */
  ghost predicate Records(s: State, s': State, sent: seq<SV.Sent>, who: Address) {
    RecordAll(VolumeOf(s, who), sent) == Ok(VolumeOf(s', who))
  }

  lemma NothingSent(s: State, s': State, who: Address)
    requires s'.volumes == s.volumes
    ensures Records(s, s', [], who)
  {
  }

  lemma OneSent(history: seq<SV.Bucket>, x: SV.Sent)
    ensures RecordAll(history, [x]) == SV.Record(history, x.amount, x.time)
  {
    assert [x][..0] == [];
  }

  lemma SentByOne(o: Origin, who: Address)
    ensures SentBy([o], who) == if o.sender == who then [SV.Sent(o.at, o.entry.amount)] else []
  {
    assert [o][..0] == [];
  }

  lemma BookRecords(s: State, now: nat, id: nat, sender: Address, e: Entry, fee: int, window: nat, who: Address)
    requires Book(s, now, id, sender, e, fee).Ok?
    ensures Records(s, Book(s, now, id, sender, e, fee).value, SentBy([Origin(sender, e, now, window)], who), who)
  {
    SentByOne(Origin(sender, e, now, window), who);
    OneSent(VolumeOf(s, who), SV.Sent(now, e.amount));
  }

  lemma RecordsThen(s: State, b: State, n: State, os: seq<Origin>, o: Origin, who: Address)
    requires Records(s, b, SentBy(os, who), who) && Records(b, n, SentBy([o], who), who)
    ensures Records(s, n, SentBy(os + [o], who), who)
  {
    SentByOne(o, who);
    SentByConcat(os, [o], who);
    var sent := SentBy(os, who);
    if o.sender == who {
      var x := SV.Sent(o.at, o.entry.amount);
      OneSent(VolumeOf(b, who), x);
      assert (sent + [x])[..|sent|] == sent;
    } else {
      assert sent + [] == sent;
    }
  }

  lemma AcceptRecords(s: State, now: nat, sender: Address, e: Entry, c: DailyLimit.Corridor, fee: Result<int>,
                      who: Address)
    requires Accept(s, now, sender, e, c, fee).Ok?
    ensures Records(s, Accept(s, now, sender, e, c, fee).value.0,
                    SentBy(AllFrom(sender, [e], now, s.cfg.expiryWindow), who), who)
  {
    var funded := AcceptBooks(s, now, sender, e, c, fee);
    BookRecords(funded, now, s.counter + 1, sender, e, fee.value, s.cfg.expiryWindow, who);
    AllFromOne(sender, e, now, s.cfg.expiryWindow);
  }

  lemma BookNextRecords(b: Booked, now: nat, sender: Address, e: Entry, window: nat, who: Address)
    requires BookNext(b, now, sender, e).Ok?
    ensures Records(b.state, BookNext(b, now, sender, e).value.state,
                    SentBy([Origin(sender, e, now, window)], who), who)
  {
    assert e.amount > 0;
    BookNextIs(b, now, sender, e);
    BookRecords(b.state, now, b.state.counter + 1, sender, e, BatchFee(b, e).value, window, who);
  }

  lemma {:induction false} BookAllRecords(s: State, now: nat, sender: Address, entries: seq<Entry>, prior: int,
                                          window: nat, who: Address)
    requires BookAll(s, now, sender, entries, prior).Ok?
    ensures Records(s, BookAll(s, now, sender, entries, prior).value.state,
                    SentBy(AllFrom(sender, entries, now, window), who), who)
  {
    if entries != [] {
      var front, e := entries[..|entries| - 1], entries[|entries| - 1];
      BookAllRecords(s, now, sender, front, prior, window, who);
      var before := BookAll(s, now, sender, front, prior).value;
      BookNextRecords(before, now, sender, e, window, who);
      RecordsThen(s, before.state, BookNext(before, now, sender, e).value.state,
                  AllFrom(sender, front, now, window), Origin(sender, e, now, window), who);
    }
  }

  lemma BatchRecords(s: State, env: Env, sender: Address, entries: seq<Entry>, who: Address)
    requires BatchCreate(s, env, sender, entries).Ok?
    ensures Records(s, BatchCreate(s, env, sender, entries).value.0,
                    SentBy(AllFrom(sender, entries, env.now, s.cfg.expiryWindow), who), who)
  {
    var funded := BatchBooks(s, env, sender, entries);
    BookAllRecords(funded, env.now, sender, entries, Rolling(s, sender, env.now), s.cfg.expiryWindow, who);
  }

  lemma StepRecords(s: State, e: Event, who: Address)
    requires Next(s, e.env, e.step).Ok?
    ensures Records(s, Next(s, e.env, e.step).value, SentBy(NewOrigins(s, e), who), who)
  {
    match e.step
    case DoCreate(sender, entry) =>
      CreateIs(s, e.env, sender, entry);
      var fee := FS.PlatformFeeForSender(s.cfg.feeConfig, entry.amount, Rolling(s, sender, e.env.now));
      AcceptRecords(s, e.env.now, sender, entry, GLOBAL, fee, who);
    case DoCreateWithCorridor(sender, entry, from, to) =>
      var fee := RouteFee(s, e.env.now, sender, entry, from, to);
      AcceptRecords(s, e.env.now, sender, entry, LimitCorridor(to), fee, who);
    case DoBatchCreate(sender, entries) => BatchRecords(s, e.env, sender, entries, who);
    case _ =>
      OthersSame(s, e.env, e.step);
      NothingSent(s, Next(s, e.env, e.step).value, who);
  }

  /** In every run the stored buckets of a sender are the replay of the entries accepted from that sender. */
  lemma {:induction false} VolumesAreCreations(cfg: Config, balances: map<Address, nat>, log: seq<Event>, who: Address)
    ensures var s := Initial(cfg, balances);
            SV.Replay(SentBy(OriginsOf(s, log), who)) == Ok(VolumeOf(Run(s, log), who))
  {
    if log != [] {
      var s0, front, e := Initial(cfg, balances), log[..|log| - 1], log[|log| - 1];
      VolumesAreCreations(cfg, balances, front, who);
      if Next(Run(s0, front), e.env, e.step).Ok? {
        StepRecords(Run(s0, front), e, who);
        SentByConcat(OriginsOf(s0, front), NewOrigins(Run(s0, front), e), who);
        ReplayConcat(SentBy(OriginsOf(s0, front), who), SentBy(NewOrigins(Run(s0, front), e), who));
      } else {
        assert OriginsOf(s0, front) + [] == OriginsOf(s0, front);
      }
    }
  }

  // ----- in time order -----

  lemma {:induction false} AllAt(sender: Address, entries: seq<Entry>, at: nat, window: nat)
    ensures forall o | o in AllFrom(sender, entries, at, window) :: o.at == at
  {
    if entries != [] {
      AllAt(sender, entries[..|entries| - 1], at, window);
    }
  }

  lemma NewAt(s: State, e: Event)
    ensures forall o | o in NewOrigins(s, e) :: o.at == e.env.now
  {
    match e.step
    case DoCreate(sender, entry) => AllAt(sender, [entry], e.env.now, s.cfg.expiryWindow);
    case DoCreateWithCorridor(sender, entry, _, _) => AllAt(sender, [entry], e.env.now, s.cfg.expiryWindow);
    case DoBatchCreate(sender, entries) => AllAt(sender, entries, e.env.now, s.cfg.expiryWindow);
    case _ =>
  }

  ghost predicate InOrderUpTo(sent: seq<SV.Sent>, last: nat) {
    SV.InOrder(sent) && forall x | x in sent :: x.time <= last
  }

  lemma {:induction false} SentAt(os: seq<Origin>, who: Address, at: nat)
    requires forall o | o in os :: o.at == at
    ensures forall x | x in SentBy(os, who) :: x.time == at
  {
    if os != [] {
      assert os[|os| - 1] in os && forall o | o in os[..|os| - 1] :: o in os;
      SentAt(os[..|os| - 1], who, at);
    }
  }

  lemma OrderThen(sent: seq<SV.Sent>, more: seq<SV.Sent>, last: nat, now: nat)
    requires InOrderUpTo(sent, last) && last <= now && forall x | x in more :: x.time == now
    ensures InOrderUpTo(sent + more, now)
  {
    var all := sent + more;
    forall i, j | 0 <= i < j < |all|
      ensures all[i].time <= all[j].time
    {
      assert i < |sent| ==> all[i] in sent;
      assert j >= |sent| ==> all[j] in more;
      assert i >= |sent| ==> all[i] in more;
    }
  }

  lemma {:induction false} SentInOrder(s: State, log: seq<Event>, who: Address)
    requires InTimeOrder(log)
    ensures InOrderUpTo(SentBy(OriginsOf(s, log), who), LastTime(log))
  {
    if log != [] {
      var front, e := log[..|log| - 1], log[|log| - 1];
      assert front != [] ==> front[|front| - 1] == log[|log| - 2];
      SentInOrder(s, front, who);
      var more := if Next(Run(s, front), e.env, e.step).Ok? then NewOrigins(Run(s, front), e) else [];
      NewAt(Run(s, front), e);
      SentAt(more, who, e.env.now);
      SentByConcat(OriginsOf(s, front), more, who);
      OrderThen(SentBy(OriginsOf(s, front), who), SentBy(more, who), LastTime(front), e.env.now);
    }
  }

  /**
   In every time-ordered run the volume that sets a sender's discount lies between what the sender had
   accepted in the last 29 and in the last 30 days, through all three creation entry points.
   */
  lemma DiscountVolume(cfg: Config, balances: map<Address, nat>, log: seq<Event>, who: Address, now: nat)
    requires InTimeOrder(log) && LastTime(log) <= now
    ensures var s, sent := Run(Initial(cfg, balances), log), SentBy(OriginsOf(Initial(cfg, balances), log), who);
            Min(SV.SentSince(sent, now - 29 * SV.DAY), I128_MAX)
            <= Rolling(s, who, now)
            <= Min(SV.SentSince(sent, now - 30 * SV.DAY), I128_MAX)
  {
    var sent := SentBy(OriginsOf(Initial(cfg, balances), log), who);
    VolumesAreCreations(cfg, balances, log, who);
    SentInOrder(Initial(cfg, balances), log, who);
    assert sent != [] ==> sent[|sent| - 1] in sent;
    SV.RollingBetween(sent, now);
  }
}
