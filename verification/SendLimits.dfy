/** The daily send limit over runs of the ledger: what the stored transfers mean, and the bound they enforce. */
module SendLimits {
  import opened Common
  import opened Types
  import opened Sums
  import opened Ledger
  import opened LedgerRuns
  import opened BatchCreation
  import opened Histories
  import DL = DailyLimit
  import FS = FeeService

  /** The corridor of a destination country; without one it is the global corridor. */
  function CorridorTo(to: Option<string>): DL.Corridor {
    DL.Corridor("USDC", if to.Some? then to.value else "GLOBAL")
  }

  /**
   What a creation asks of the daily limit of `who`: along a route that of the destination country, a
   batch once, for its total.
   */
  function RequestOf(s: State, e: Event, who: Address): Option<DL.Request> {
    match e.step
    case DoCreate(sender, entry) =>
      if sender == who then Some(DL.Request(e.env.now, CorridorTo(None), entry.amount, s.cfg.limits)) else None
    case DoCreateWithCorridor(sender, entry, _, to) =>
      if sender == who then Some(DL.Request(e.env.now, CorridorTo(to), entry.amount, s.cfg.limits)) else None
    case DoBatchCreate(sender, entries) =>
      if sender == who then Some(DL.Request(e.env.now, CorridorTo(None), Total(entries), s.cfg.limits)) else None
    case _ => None
  }

  function AsSeq<T>(o: Option<T>): seq<T> {
    match o
    case None => []
    case Some(x) => [x]
  }

  /** The accepted request of one event, if it makes one. */
  ghost function Accepted(s: State, e: Event, who: Address): seq<DL.Request> {
    if Next(s, e.env, e.step).Ok? then AsSeq(RequestOf(s, e, who)) else []
  }

  /** The accepted requests of a run, in order. */
  ghost function Requests(s: State, log: seq<Event>, who: Address): seq<DL.Request> {
    if log == [] then [] else
      var front, e := log[..|log| - 1], log[|log| - 1];
      Requests(s, front, who) + Accepted(Run(s, front), e, who)
  }

  // ----- one step -----

  /** The stored transfers of `who` after a step: those the limit check returns for its request. */
  ghost predicate Recorded(before: seq<DL.TransferRecord>, after: seq<DL.TransferRecord>, q: Option<DL.Request>) {
    match q
    case None => after == before
    case Some(r) => r.amount >= 0 && DL.Enforce(before, r.limits, r.now, r.corridor, r.amount) == Ok(after)
  }

  lemma LimitRecorded(s: State, now: nat, sender: Address, c: DL.Corridor, amount: int, who: Address)
    requires EnforceLimit(s, now, sender, c, amount).Ok? && amount >= 0
    ensures var s' := EnforceLimit(s, now, sender, c, amount).value;
            Recorded(TransfersOf(s, who), TransfersOf(s', who),
                     if sender == who then Some(DL.Request(now, c, amount, s.cfg.limits)) else None)
  {
  }

  lemma DepositSame(s: State, now: nat, sender: Address, e: Entry, fee: int)
    requires Deposit(s, now, sender, e, fee).Ok?
    ensures Deposit(s, now, sender, e, fee).value.0.transfers == s.transfers
  {
  }

  lemma AcceptRecorded(s: State, now: nat, sender: Address, e: Entry, c: DL.Corridor, fee: Result<int>, who: Address)
    requires Accept(s, now, sender, e, c, fee).Ok? && e.amount >= 0
    ensures var s' := Accept(s, now, sender, e, c, fee).value.0;
            Recorded(TransfersOf(s, who), TransfersOf(s', who),
                     if sender == who then Some(DL.Request(now, c, e.amount, s.cfg.limits)) else None)
  {
    LimitRecorded(s, now, sender, c, e.amount, who);
    DepositSame(EnforceLimit(s, now, sender, c, e.amount).value, now, sender, e, fee.value);
  }

  lemma BatchRecorded(s: State, env: Env, sender: Address, entries: seq<Entry>, who: Address)
    requires BatchCreate(s, env, sender, entries).Ok?
    ensures var s' := BatchCreate(s, env, sender, entries).value.0;
            Recorded(TransfersOf(s, who), TransfersOf(s', who),
                     if sender == who then Some(DL.Request(env.now, GLOBAL, Total(entries), s.cfg.limits)) else None)
  {
    BatchTotalIff(s, sender, entries);
    TotalNonNegative(s, sender, entries);
    LimitRecorded(s, env.now, sender, GLOBAL, Total(entries), who);
    var limited := EnforceLimit(s, env.now, sender, GLOBAL, Total(entries)).value;
    var funded := Transfer(limited, sender, SELF, Total(entries)).value;
    BookAllKeeps(funded, env.now, sender, entries, Rolling(s, sender, env.now));
  }

  lemma StepRecorded(s: State, e: Event, who: Address)
    requires Next(s, e.env, e.step).Ok?
    ensures Recorded(TransfersOf(s, who), TransfersOf(Next(s, e.env, e.step).value, who), RequestOf(s, e, who))
  {
    match e.step
    case DoCreate(sender, entry) =>
      CreateKeepsConfig(s, e.env, sender, entry);
      CreateIs(s, e.env, sender, entry);
      var fee := FS.PlatformFeeForSender(s.cfg.feeConfig, entry.amount, Rolling(s, sender, e.env.now));
      AcceptRecorded(s, e.env.now, sender, entry, GLOBAL, fee, who);
    case DoCreateWithCorridor(sender, entry, from, to) =>
      var fee := RouteFee(s, e.env.now, sender, entry, from, to);
      AcceptRecorded(s, e.env.now, sender, entry, LimitCorridor(to), fee, who);
    case DoBatchCreate(sender, entries) => BatchRecorded(s, e.env, sender, entries, who);
    case _ => OthersSame(s, e.env, e.step);
  }

  // ----- runs -----

  lemma ReplaySnoc(log: seq<DL.Request>, q: DL.Request,
                   records: seq<DL.TransferRecord>, records': seq<DL.TransferRecord>)
    requires DL.Replay(log) == Ok(records) && DL.Enforce(records, q.limits, q.now, q.corridor, q.amount) == Ok(records')
    ensures DL.Replay(log + [q]) == Ok(records')
  {
    assert (log + [q])[..|log|] == log;
  }

  /** The requests so far explain what is stored. */
  ghost predicate Explains(log: seq<DL.Request>, records: seq<DL.TransferRecord>, now: nat) {
    && DL.Replay(log) == Ok(records) && DL.InOrder(log) && DL.LastTime(log) <= now && DL.NoneNegative(log)
  }

  lemma OrderSnoc(log: seq<DL.Request>, q: DL.Request)
    requires DL.InOrder(log) && DL.LastTime(log) <= q.now
    ensures DL.InOrder(log + [q]) && DL.LastTime(log + [q]) == q.now
  {
    var next := log + [q];
    forall i, j | 0 <= i < j < |next|
      ensures next[i].now <= next[j].now
    {
      if j == |log| {
        LastIsLatest(log, i);
      }
    }
  }

  lemma LastIsLatest(log: seq<DL.Request>, i: nat)
    requires DL.InOrder(log) && i < |log|
    ensures log[i].now <= DL.LastTime(log)
  {
  }

  lemma ExplainsNext(log: seq<DL.Request>, records: seq<DL.TransferRecord>, last: nat, now: nat,
                     q: Option<DL.Request>, records': seq<DL.TransferRecord>)
    requires Explains(log, records, last) && last <= now && Recorded(records, records', q)
    requires q.Some? ==> q.value.now == now
    ensures Explains(log + AsSeq(q), records', now)
  {
    match q
    case None => assert log + [] == log;
    case Some(r) =>
      ReplaySnoc(log, r, records, records');
      OrderSnoc(log, r);
  }

  lemma AcceptedExplains(s: State, e: Event, who: Address, log: seq<DL.Request>, last: nat)
    requires Explains(log, TransfersOf(s, who), last) && last <= e.env.now && Next(s, e.env, e.step).Ok?
    ensures Explains(log + AsSeq(RequestOf(s, e, who)), TransfersOf(Next(s, e.env, e.step).value, who), e.env.now)
  {
    StepRecorded(s, e, who);
    ExplainsNext(log, TransfersOf(s, who), last, e.env.now, RequestOf(s, e, who),
                 TransfersOf(Next(s, e.env, e.step).value, who));
  }

  lemma NothingExplains(log: seq<DL.Request>, records: seq<DL.TransferRecord>, last: nat, now: nat)
    requires Explains(log, records, last) && last <= now
    ensures Explains(log + [], records, now)
  {
    assert log + [] == log;
  }

  lemma EventExplains(s: State, e: Event, who: Address, log: seq<DL.Request>, last: nat)
    requires Explains(log, TransfersOf(s, who), last) && last <= e.env.now
    ensures Explains(log + Accepted(s, e, who), TransfersOf(Apply(s, e), who), e.env.now)
  {
    if Next(s, e.env, e.step).Ok? {
      AcceptedExplains(s, e, who, log, last);
    } else {
      NothingExplains(log, TransfersOf(s, who), last, e.env.now);
    }
  }

  /** In every time-ordered run a sender's stored transfers are the replay of the accepted requests. */
  lemma {:induction false} RunExplains(cfg: Config, balances: map<Address, nat>, log: seq<Event>, who: Address)
    requires InTimeOrder(log)
    ensures var s := Initial(cfg, balances);
            Explains(Requests(s, log, who), TransfersOf(Run(s, log), who), LastTime(log))
  {
    if log != [] {
      var s, front := Initial(cfg, balances), log[..|log| - 1];
      assert front != [] ==> front[|front| - 1] == log[|log| - 2];
      RunExplains(cfg, balances, front, who);
      EventExplains(Run(s, front), log[|log| - 1], who, Requests(s, front, who), LastTime(front));
    }
  }

  /**
   Over every time-ordered run, through whichever entry points a sender creates remittances: while the
   limit of a corridor is never above `most`, no 24 hours of it exceed `most`. Only what is created at
   time zero escapes.
   */
  lemma NoWindowExceeds(cfg: Config, balances: map<Address, nat>, log: seq<Event>, who: Address,
                        c: DL.Corridor, most: int, t: nat)
    requires InTimeOrder(log) && most >= 0
    requires DL.LimitedTo(Requests(Initial(cfg, balances), log, who), c, most)
    ensures var requests := Requests(Initial(cfg, balances), log, who);
            && DL.SentBetween(requests, c, SaturatingSub(t, DL.WINDOW), t) <= most
            && (DL.NotBefore(requests, 1) ==> DL.SentWithin(requests, c, t) <= most)
  {
    var requests := Requests(Initial(cfg, balances), log, who);
    RunExplains(cfg, balances, log, who);
    DL.WindowNeverExceeds(requests, c, most, t);
    if DL.NotBefore(requests, 1) {
      DL.LimitHolds(requests, c, most, t);
    }
  }

  // ----- the limit of a country -----

  /** What `who` has sent along a corridor in the window that ends now, as stored. */
  function SentAlong(s: State, who: Address, c: DL.Corridor, now: nat): int {
    SumBy(TransfersOf(s, who), DL.NewerWeight(c, WindowStart(now)))
  }

  lemma EnforceWithin(records: seq<DL.TransferRecord>, limits: DL.Limits, now: nat, c: DL.Corridor, amount: int)
    ensures var sum := SumBy(records, DL.NewerWeight(c, WindowStart(now)));
            var r := DL.Enforce(records, limits, now, c, amount);
            && (r.Ok? ==>
                  && r.value == DL.Newer(records, WindowStart(now)) + [DL.TransferRecord(now, amount, c)]
                  && (c in limits ==> sum + amount <= limits[c]))
            && (DL.RollingTotal(records, WindowStart(now), c).Ok? && InI128(sum + amount) ==>
                  (c in limits && sum + amount > limits[c] <==> r == Err(DailySendLimitExceeded)))
  {
    DL.RollingIsSum(records, WindowStart(now), c);
  }

  lemma AcceptWithin(s: State, now: nat, sender: Address, e: Entry, c: DL.Corridor, fee: Result<int>)
    ensures var r := Accept(s, now, sender, e, c, fee);
            var limit := DL.Enforce(TransfersOf(s, sender), s.cfg.limits, now, c, e.amount);
            && (limit.Err? ==> r == Err(limit.error))
            && (r.Ok? ==> limit.Ok? && r.value.0.transfers == s.transfers[sender := limit.value])
  {
    if Accept(s, now, sender, e, c, fee).Ok? {
      DepositSame(EnforceLimit(s, now, sender, c, e.amount).value, now, sender, e, fee.value);
    }
  }

  /** The guards before the limit pass, and the window with the new amount is more than the limit. */
  predicate OverLimit(s: State, env: Env, sender: Address, e: Entry, c: DL.Corridor) {
    && env.admit && e.amount > 0 && e.agent in s.cfg.agents && sender !in s.cfg.blacklisted
    && DL.RollingTotal(TransfersOf(s, sender), WindowStart(env.now), c).Ok?
    && InI128(SentAlong(s, sender, c, env.now) + e.amount)
    && c in s.cfg.limits && SentAlong(s, sender, c, env.now) + e.amount > s.cfg.limits[c]
  }

  /**
   A creation towards `country` that succeeds is within the limit of that country, and is recorded
   there, once, with what is left of the window; one that passes its other guards but exceeds the limit
   is refused as exceeding it.
   */
  lemma CountryLimit(s: State, env: Env, sender: Address, e: Entry, from: Option<string>, country: string)
    ensures var c, r := DL.Corridor("USDC", country), CreateWithCorridor(s, env, sender, e, from, Some(country));
            && (r.Ok? ==>
                  && (c in s.cfg.limits ==> SentAlong(s, sender, c, env.now) + e.amount <= s.cfg.limits[c])
                  && TransfersOf(r.value.0, sender)
                     == DL.Newer(TransfersOf(s, sender), WindowStart(env.now))
                        + [DL.TransferRecord(env.now, e.amount, c)])
            && (OverLimit(s, env, sender, e, c) ==> r == Err(DailySendLimitExceeded))
  {
    var c := DL.Corridor("USDC", country);
    EnforceWithin(TransfersOf(s, sender), s.cfg.limits, env.now, c, e.amount);
    AcceptWithin(s, env.now, sender, e, c, RouteFee(s, env.now, sender, e, from, Some(country)));
  }

  /** A creation without a destination, on its own or along a route, is within the global limit in the same way. */
  lemma GlobalLimit(s: State, env: Env, sender: Address, e: Entry, from: Option<string>)
    ensures var c, r := DL.Corridor("USDC", "GLOBAL"), CreateWithCorridor(s, env, sender, e, from, None);
            r.Ok? && c in s.cfg.limits ==> SentAlong(s, sender, c, env.now) + e.amount <= s.cfg.limits[c]
    ensures var c, r := DL.Corridor("USDC", "GLOBAL"), Create(s, env, sender, e);
            r.Ok? && c in s.cfg.limits ==> SentAlong(s, sender, c, env.now) + e.amount <= s.cfg.limits[c]
  {
    EnforceWithin(TransfersOf(s, sender), s.cfg.limits, env.now, DL.Corridor("USDC", "GLOBAL"), e.amount);
    AcceptWithin(s, env.now, sender, e, DL.Corridor("USDC", "GLOBAL"), RouteFee(s, env.now, sender, e, from, None));
    var fee := FS.PlatformFeeForSender(s.cfg.feeConfig, e.amount, Rolling(s, sender, env.now));
    AcceptWithin(s, env.now, sender, e, DL.Corridor("USDC", "GLOBAL"), fee);
  }

  /**
   In every reachable state, whatever was sent before and wherever to: a creation towards `country`
   succeeds only if everything the sender had accepted towards it in the last 24 hours, and the new
   amount, are within its limit.
   */
  lemma RouteWithinLimit(cfg: Config, balances: map<Address, nat>, log: seq<Event>, env: Env, sender: Address, e: Entry,
                         from: Option<string>, country: string)
    requires InTimeOrder(log) && LastTime(log) <= env.now
    requires CreateWithCorridor(Run(Initial(cfg, balances), log), env, sender, e, from, Some(country)).Ok?
    requires DL.Corridor("USDC", country) in Run(Initial(cfg, balances), log).cfg.limits
    ensures var c, requests := DL.Corridor("USDC", country), Requests(Initial(cfg, balances), log, sender);
            DL.SentBetween(requests, c, SaturatingSub(env.now, DL.WINDOW), env.now) + e.amount
            <= Run(Initial(cfg, balances), log).cfg.limits[c]
  {
    var s, c := Run(Initial(cfg, balances), log), DL.Corridor("USDC", country);
    RunExplains(cfg, balances, log, sender);
    AcceptWithin(s, env.now, sender, e, c, RouteFee(s, env.now, sender, e, from, Some(country)));
    DL.AcceptedWithinLimit(Requests(Initial(cfg, balances), log, sender),
                           DL.Request(env.now, c, e.amount, s.cfg.limits), SaturatingSub(env.now, DL.WINDOW));
  }
}
