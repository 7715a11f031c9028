/**
 Creating a batch of remittances against creating them one by one: the same ids, fees, records,
 volume history and balances, and one daily-limit check that passes exactly when all the single
 checks would. Single creation makes further checks of every entry that the batch does not make.
 */
module BatchCreation {
  import opened Common
  import opened Types
  import opened Sums
  import opened Ledger
  import DailyLimit
  import FeeService
  import SenderVolume

  const GLOBAL := DailyLimit.GLOBAL_CORRIDOR

  /** The entries created in turn, all at the same time; the first failure stops. */
  function CreateAll(s: State, env: Env, sender: Address, entries: seq<Entry>): Result<(State, seq<nat>)> {
    if entries == [] then Ok((s, [])) else
      var before :- CreateAll(s, env, sender, entries[..|entries| - 1]);
      var created :- Create(before.0, env, sender, entries[|entries| - 1]);
      Ok((created.0, before.1 + [created.1]))
  }

  function Total(entries: seq<Entry>): int {
    if entries == [] then 0 else Total(entries[..|entries| - 1]) + entries[|entries| - 1].amount
  }

  predicate Valid(s: State, sender: Address, entries: seq<Entry>) {
    forall e | e in entries :: ValidateCreate(s, sender, e.agent, e.amount).Ok?
  }

  // ----- the daily limit -----

  function WindowStart(now: nat): nat {
    SaturatingSub(now, DailyLimit.WINDOW)
  }

  /** What the sender has sent in the window that ends now. */
  function Sent(s: State, sender: Address, now: nat): int {
    SumBy(TransfersOf(s, sender), DailyLimit.NewerWeight(GLOBAL, WindowStart(now)))
  }

  predicate NonNegative(records: seq<DailyLimit.TransferRecord>) {
    forall r | r in records :: r.amount >= 0
  }

  lemma {:induction false} RollingIff(records: seq<DailyLimit.TransferRecord>, from: nat)
    requires NonNegative(records)
    ensures var sum := SumBy(records, DailyLimit.NewerWeight(GLOBAL, from));
            && sum >= 0
            && DailyLimit.RollingTotal(records, from, GLOBAL) == if sum <= I128_MAX then Ok(sum) else Err(Overflow)
  {
    if records != [] {
      var front := records[..|records| - 1];
      assert records[|records| - 1] in records && forall r | r in front :: r in records;
      RollingIff(front, from);
    }
  }

  /** The limit check of `amount` after `before` was sent: the first sum is checked, the second limited. */
  predicate Allowed(s: State, before: int, amount: int) {
    before <= I128_MAX && (GLOBAL in s.cfg.limits ==> before + amount <= s.cfg.limits[GLOBAL])
  }

  /** A configured limit is an i128. */
  predicate LimitFits(s: State) {
    GLOBAL in s.cfg.limits ==> s.cfg.limits[GLOBAL] <= I128_MAX
  }

  lemma EnforceIff(s: State, now: nat, sender: Address, amount: int)
    requires NonNegative(TransfersOf(s, sender)) && amount >= 0 && LimitFits(s)
    ensures EnforceLimit(s, now, sender, GLOBAL, amount).Ok? <==> Allowed(s, Sent(s, sender, now), amount)
  {
    RollingIff(TransfersOf(s, sender), WindowStart(now));
  }

  // ----- deposits -----

  function Deposited(balances: map<Address, nat>, sender: Address, amount: nat): map<Address, nat>
    requires amount <= Balance(balances, sender)
  {
    var less := balances[sender := Balance(balances, sender) - amount];
    less[SELF := Balance(less, SELF) + amount]
  }

  lemma DepositIs(s: State, sender: Address, amount: int)
    requires sender != SELF
    ensures Transfer(s, sender, SELF, amount)
         == if 0 <= amount <= Balance(s.balances, sender)
            then Ok(s.(balances := Deposited(s.balances, sender, amount))) else Err(HostTrap)
  {
  }

  lemma DepositsAdd(balances: map<Address, nat>, sender: Address, amount: nat, amount': nat)
    requires sender != SELF && amount + amount' <= Balance(balances, sender)
    ensures Balance(Deposited(balances, sender, amount), sender) == Balance(balances, sender) - amount
    ensures Deposited(Deposited(balances, sender, amount), sender, amount')
         == Deposited(balances, sender, amount + amount')
  {
  }

  // ----- one more entry, on both sides -----

  /** The sequential state differs from the batch's only in the sender's transfer list and in the balances. */
  ghost predicate Alongside(q: State, b: State) {
    q == b.(transfers := q.transfers, balances := q.balances)
  }

  lemma BookAlongside(q: State, b: State, now: nat, id: nat, sender: Address, e: Entry, fee: int)
    requires Alongside(q, b)
    ensures var r, r' := Book(q, now, id, sender, e, fee), Book(b, now, id, sender, e, fee);
            && (r.Ok? <==> r'.Ok?)
            && (r.Ok? ==>
                  && Alongside(r.value, r'.value)
                  && r.value.transfers == q.transfers && r.value.balances == q.balances)
  {
  }

  /** What one accepted creation does to the sender's volume and to the rest. */
  lemma VolumeAlongside(b: Booked, last: nat, now: nat, sender: Address, e: Entry)
    requires SenderVolume.WellFormed(VolumeOf(b.state, sender), last) && last <= now && e.amount > 0
    requires b.volume == Rolling(b.state, sender, now)
    requires BookNext(b, now, sender, e).Ok?
    ensures var b' := BookNext(b, now, sender, e).value;
            && SenderVolume.WellFormed(VolumeOf(b'.state, sender), now)
            && b'.volume == b.volume + e.amount == Rolling(b'.state, sender, now)
            && b'.state.cfg == b.state.cfg
  {
    SenderVolume.RecordRaisesRolling(VolumeOf(b.state, sender), last, e.amount, now);
  }

  lemma DepositAlongside(q: State, b: State, now: nat, sender: Address, e: Entry, fee: int)
    requires Alongside(q, b) && sender != SELF
    ensures var r, id := Deposit(q, now, sender, e, fee), q.counter + 1;
            && (r.Ok? <==> 0 <= e.amount <= Balance(q.balances, sender) && id <= U64_MAX
                           && Book(b, now, id, sender, e, fee).Ok?)
            && (r.Ok? ==>
                  && Alongside(r.value.0, Book(b, now, id, sender, e, fee).value) && r.value.1 == id
                  && r.value.0.transfers == q.transfers
                  && r.value.0.balances == Deposited(q.balances, sender, e.amount))
  {
    DepositIs(q, sender, e.amount);
    if 0 <= e.amount <= Balance(q.balances, sender) {
      BookAlongside(q.(balances := Deposited(q.balances, sender, e.amount)), b, now, q.counter + 1, sender, e, fee);
    }
  }

  ghost predicate Creatable(q: State, b: Booked, env: Env, sender: Address, e: Entry) {
    && Alongside(q, b.state) && b.volume == Rolling(b.state, sender, env.now)
    && sender != SELF && env.admit && env.screened && !q.cfg.migrating && ValidateCreate(q, sender, e.agent, e.amount).Ok?
  }

  lemma CreateIs(q: State, env: Env, sender: Address, e: Entry)
    requires env.admit && env.screened && !q.cfg.migrating && ValidateCreate(q, sender, e.agent, e.amount).Ok?
    ensures var fee := FeeService.PlatformFeeForSender(q.cfg.feeConfig, e.amount, Rolling(q, sender, env.now));
            Create(q, env, sender, e) == Accept(q, env.now, sender, e, GLOBAL, fee)
  {
  }

  lemma BookNextIs(b: Booked, now: nat, sender: Address, e: Entry)
    requires e.amount > 0
    ensures var fee := FeeService.PlatformFeeForSender(b.state.cfg.feeConfig, e.amount, b.volume);
            IsBooking(b, now, sender, e, fee, BookNext(b, now, sender, e))
  {
  }

  /** `n` is the booking of the next entry with this fee. */
  ghost predicate IsBooking(b: Booked, now: nat, sender: Address, e: Entry, fee: Result<int>, n: Result<Booked>) {
    var id := b.state.counter + 1;
    && (n.Ok? <==> id <= U64_MAX && fee.Ok? && Book(b.state, now, id, sender, e, fee.value).Ok?)
    && (n.Ok? ==>
          var booked := Book(b.state, now, id, sender, e, fee.value).value;
          n.value == Booked(booked, b.ids + [id], b.volume + e.amount))
  }

  /** The result of a creation beside the result of booking it. */
  ghost predicate SameResult(q: State, b: Booked, now: nat, sender: Address, e: Entry, q': State, id: nat, b': Booked) {
    var limit := EnforceLimit(q, now, sender, GLOBAL, e.amount);
    && Alongside(q', b'.state) && b'.ids == b.ids + [id]
    && limit.Ok? && q'.transfers == limit.value.transfers
    && 0 <= e.amount <= Balance(q.balances, sender) && q'.balances == Deposited(q.balances, sender, e.amount)
  }

  /**
   A creation on `q` with result `r` succeeds exactly when its limit check, its deposit and the
   batch's booking `n` of it on `b` do.
   */
  ghost predicate SameOutcome(q: State, b: Booked, now: nat, sender: Address, e: Entry,
                              r: Result<(State, nat)>, n: Result<Booked>)
  {
    && (r.Ok? <==> EnforceLimit(q, now, sender, GLOBAL, e.amount).Ok? && e.amount <= Balance(q.balances, sender) && n.Ok?)
    && (r.Ok? ==> SameResult(q, b, now, sender, e, r.value.0, r.value.1, n.value))
  }

  lemma AcceptedOutcome(q: State, b: Booked, now: nat, sender: Address, e: Entry, fee: Result<int>,
                        r: Result<(State, nat)>, n: Result<Booked>)
    requires Alongside(q, b.state) && sender != SELF && e.amount >= 0
    requires r == Accept(q, now, sender, e, GLOBAL, fee) && IsBooking(b, now, sender, e, fee, n)
    ensures SameOutcome(q, b, now, sender, e, r, n)
  {
    AcceptAlongside(q, b.state, now, sender, e, fee);
  }

  lemma OutcomesAgree(q: State, b: Booked, env: Env, sender: Address, e: Entry)
    requires Creatable(q, b, env, sender, e)
    ensures SameOutcome(q, b, env.now, sender, e, Create(q, env, sender, e), BookNext(b, env.now, sender, e))
  {
    CreateIs(q, env, sender, e);
    BookNextIs(b, env.now, sender, e);
    var fee := FeeService.PlatformFeeForSender(q.cfg.feeConfig, e.amount, b.volume);
    AcceptedOutcome(q, b, env.now, sender, e, fee, Create(q, env, sender, e), BookNext(b, env.now, sender, e));
  }

  lemma AcceptAlongside(q: State, b: State, now: nat, sender: Address, e: Entry, fee: Result<int>)
    requires Alongside(q, b) && sender != SELF && e.amount >= 0
    ensures var r, id := Accept(q, now, sender, e, GLOBAL, fee), q.counter + 1;
            var limit := EnforceLimit(q, now, sender, GLOBAL, e.amount);
            && (r.Ok? <==> limit.Ok? && fee.Ok? && e.amount <= Balance(q.balances, sender) && id <= U64_MAX
                           && Book(b, now, id, sender, e, fee.value).Ok?)
            && (r.Ok? ==>
                  && Alongside(r.value.0, Book(b, now, id, sender, e, fee.value).value) && r.value.1 == id
                  && r.value.0.transfers == limit.value.transfers
                  && r.value.0.balances == Deposited(q.balances, sender, e.amount))
  {
    var limit := EnforceLimit(q, now, sender, GLOBAL, e.amount);
    if limit.Ok? && fee.Ok? {
      DepositAlongside(limit.value, b, now, sender, e, fee.value);
    }
  }

  /** `funded` is the state in which what was asked for is booked: the limit recorded and the deposit made. */
  predicate AfterDeposit(s: State, funded: State) {
    funded == s.(transfers := funded.transfers, balances := funded.balances)
  }

  lemma AcceptBooks(s: State, now: nat, sender: Address, e: Entry, c: DailyLimit.Corridor, fee: Result<int>)
    returns (funded: State)
    requires Accept(s, now, sender, e, c, fee).Ok?
    ensures AfterDeposit(s, funded) && fee.Ok?
    ensures var booked := Book(funded, now, s.counter + 1, sender, e, fee.value);
            booked.Ok? && Accept(s, now, sender, e, c, fee).value == (booked.value, s.counter + 1)
  {
    var limited := EnforceLimit(s, now, sender, c, e.amount).value;
    funded := Transfer(limited, sender, SELF, e.amount).value;
  }

  lemma BatchBooks(s: State, env: Env, sender: Address, entries: seq<Entry>) returns (funded: State)
    requires BatchCreate(s, env, sender, entries).Ok?
    ensures AfterDeposit(s, funded)
    ensures var booked := BookAll(funded, env.now, sender, entries, Rolling(s, sender, env.now));
            booked.Ok? && BatchCreate(s, env, sender, entries).value == (booked.value.state, booked.value.ids)
  {
    var total := BatchTotal(s, sender, entries).value;
    var limited := EnforceLimit(s, env.now, sender, GLOBAL, total).value;
    funded := Transfer(limited, sender, SELF, total).value;
  }

  // ----- the two runs in lockstep -----

  function RecordsOf(now: nat, entries: seq<Entry>): seq<DailyLimit.TransferRecord> {
    if entries == [] then [] else
      RecordsOf(now, entries[..|entries| - 1])
      + [DailyLimit.TransferRecord(now, entries[|entries| - 1].amount, GLOBAL)]
  }

  ghost predicate LimitInStep(s: State, q: State, now: nat, sender: Address, entries: seq<Entry>) {
    var records, from := TransfersOf(q, sender), WindowStart(now);
    && NonNegative(records) && Sent(q, sender, now) == Sent(s, sender, now) + Total(entries)
    && DailyLimit.Newer(records, from) == DailyLimit.Newer(TransfersOf(s, sender), from) + RecordsOf(now, entries)
    && (entries != [] ==> q.transfers == s.transfers[sender := DailyLimit.Newer(records, from)])
    && (entries == [] ==> q.transfers == s.transfers)
  }

  ghost predicate MoneyInStep(s: State, q: State, sender: Address, entries: seq<Entry>) {
    && 0 <= Total(entries) <= Balance(s.balances, sender)
    && q.balances == if entries == [] then s.balances else Deposited(s.balances, sender, Total(entries))
  }

  ghost predicate VolumeInStep(s: State, b: Booked, now: nat, sender: Address, entries: seq<Entry>, last: nat) {
    && b.volume == Rolling(s, sender, now) + Total(entries) == Rolling(b.state, sender, now)
    && SenderVolume.WellFormed(VolumeOf(b.state, sender), if entries == [] then last else now)
  }

  /** After the same entries: `q` is the sequential state, `b` what the batch has booked on `s`. */
  ghost predicate InStep(s: State, q: State, b: Booked, now: nat, sender: Address, entries: seq<Entry>, last: nat) {
    && Alongside(q, b.state) && b.state.cfg == s.cfg
    && LimitInStep(s, q, now, sender, entries)
    && MoneyInStep(s, q, sender, entries)
    && VolumeInStep(s, b, now, sender, entries, last)
  }

  /** A transfer just recorded is inside the window, provided that the clock is past zero. */
  lemma {:induction false} NewerKeeps(records: seq<DailyLimit.TransferRecord>, from: nat)
    ensures DailyLimit.Newer(DailyLimit.Newer(records, from), from) == DailyLimit.Newer(records, from)
    ensures forall r | r in DailyLimit.Newer(records, from) :: r in records
    ensures SumBy(DailyLimit.Newer(records, from), DailyLimit.NewerWeight(GLOBAL, from))
         == SumBy(records, DailyLimit.NewerWeight(GLOBAL, from))
  {
    if records != [] {
      var front, r := records[..|records| - 1], records[|records| - 1];
      NewerKeeps(front, from);
      var newer := DailyLimit.Newer(front, from);
      if r.timestamp > from {
        assert (newer + [r])[..|newer|] == newer;
      } else {
        assert DailyLimit.Newer(records, from) == newer;
      }
    }
  }

  lemma LimitNext(q: State, now: nat, sender: Address, amount: int)
    requires now > 0 && amount >= 0 && NonNegative(TransfersOf(q, sender))
    requires EnforceLimit(q, now, sender, GLOBAL, amount).Ok?
    ensures var q' := EnforceLimit(q, now, sender, GLOBAL, amount).value;
            var from := WindowStart(now);
            var newer := DailyLimit.Newer(TransfersOf(q, sender), from);
            && TransfersOf(q', sender) == newer + [DailyLimit.TransferRecord(now, amount, GLOBAL)]
            && DailyLimit.Newer(TransfersOf(q', sender), from) == TransfersOf(q', sender)
            && NonNegative(TransfersOf(q', sender))
            && Sent(q', sender, now) == Sent(q, sender, now) + amount
  {
    var from, r := WindowStart(now), DailyLimit.TransferRecord(now, amount, GLOBAL);
    var newer := DailyLimit.Newer(TransfersOf(q, sender), from);
    NewerKeeps(TransfersOf(q, sender), from);
    assert (newer + [r])[..|newer|] == newer;
  }

  lemma TotalSnoc(entries: seq<Entry>, now: nat, e: Entry)
    ensures Total(entries + [e]) == Total(entries) + e.amount
    ensures RecordsOf(now, entries + [e]) == RecordsOf(now, entries) + [DailyLimit.TransferRecord(now, e.amount, GLOBAL)]
  {
    var next := entries + [e];
    assert next[..|next| - 1] == entries;
  }

  lemma LimitStep(s: State, q: State, q': State, now: nat, sender: Address, entries: seq<Entry>, e: Entry)
    requires LimitInStep(s, q, now, sender, entries) && now > 0 && e.amount >= 0
    requires EnforceLimit(q, now, sender, GLOBAL, e.amount).Ok?
    requires q'.transfers == EnforceLimit(q, now, sender, GLOBAL, e.amount).value.transfers
    ensures LimitInStep(s, q', now, sender, entries + [e])
  {
    LimitNext(q, now, sender, e.amount);
    TotalSnoc(entries, now, e);
    ListsAgree(s, q, q', now, sender, entries, e);
  }

  lemma ListsAgree(s: State, q: State, q': State, now: nat, sender: Address, entries: seq<Entry>, e: Entry)
    requires LimitInStep(s, q, now, sender, entries)
    requires var newer := DailyLimit.Newer(TransfersOf(q, sender), WindowStart(now));
             q'.transfers == q.transfers[sender := newer + [DailyLimit.TransferRecord(now, e.amount, GLOBAL)]]
    ensures var r := DailyLimit.TransferRecord(now, e.amount, GLOBAL);
            var older := DailyLimit.Newer(TransfersOf(s, sender), WindowStart(now));
            TransfersOf(q', sender) == older + (RecordsOf(now, entries) + [r])
    ensures q'.transfers == s.transfers[sender := TransfersOf(q', sender)]
  {
    var r := DailyLimit.TransferRecord(now, e.amount, GLOBAL);
    var older := DailyLimit.Newer(TransfersOf(s, sender), WindowStart(now));
    Associative(older, RecordsOf(now, entries), [r]);
    if entries != [] {
      var newer := DailyLimit.Newer(TransfersOf(q, sender), WindowStart(now));
      UpdatedTwice(s.transfers, sender, newer, TransfersOf(q', sender));
    }
  }

  lemma Associative<T>(a: seq<T>, b: seq<T>, c: seq<T>)
    ensures (a + b) + c == a + (b + c)
  {
  }

  lemma UpdatedTwice<K, V>(m: map<K, V>, k: K, v: V, v': V)
    ensures m[k := v][k := v'] == m[k := v']
  {
  }

  lemma MoneyStep(s: State, q: State, q': State, sender: Address, entries: seq<Entry>, e: Entry)
    requires MoneyInStep(s, q, sender, entries) && sender != SELF && 0 <= e.amount <= Balance(q.balances, sender)
    requires q'.balances == Deposited(q.balances, sender, e.amount)
    ensures MoneyInStep(s, q', sender, entries + [e])
  {
    TotalSnoc(entries, 0, e);
    if entries != [] {
      DepositsAdd(s.balances, sender, Total(entries), 0);
      DepositsAdd(s.balances, sender, Total(entries), e.amount);
    } else {
      assert Total(entries) == 0;
    }
  }

  lemma VolumeStep(s: State, b: Booked, now: nat, sender: Address, entries: seq<Entry>, last: nat, e: Entry)
    requires VolumeInStep(s, b, now, sender, entries, last) && last <= now && e.amount > 0
    requires BookNext(b, now, sender, e).Ok?
    ensures VolumeInStep(s, BookNext(b, now, sender, e).value, now, sender, entries + [e], last)
    ensures BookNext(b, now, sender, e).value.state.cfg == b.state.cfg
  {
    TotalSnoc(entries, now, e);
    VolumeAlongside(b, if entries == [] then last else now, now, sender, e);
  }

  /** The sender's stored histories are what a reachable state holds. */
  ghost predicate Ready(s: State, now: nat, sender: Address, last: nat) {
    && sender != SELF && last <= now && LimitFits(s)
    && SenderVolume.WellFormed(VolumeOf(s, sender), last) && NonNegative(TransfersOf(s, sender))
  }

  lemma {:induction false} TotalNonNegative(s: State, sender: Address, entries: seq<Entry>)
    requires Valid(s, sender, entries)
    ensures Total(entries) >= |entries|
  {
    if entries != [] {
      assert entries[|entries| - 1] in entries && forall e | e in entries[..|entries| - 1] :: e in entries;
      TotalNonNegative(s, sender, entries[..|entries| - 1]);
    }
  }

  lemma LimitDecides(s: State, q: State, now: nat, sender: Address, entries: seq<Entry>, last: nat, e: Entry)
    requires Ready(s, now, sender, last) && e.amount > 0
    requires LimitInStep(s, q, now, sender, entries) && q.cfg == s.cfg
    ensures EnforceLimit(q, now, sender, GLOBAL, e.amount).Ok?
       <==> Allowed(s, Sent(s, sender, now) + Total(entries), e.amount)
  {
    EnforceIff(q, now, sender, e.amount);
  }

  lemma MoneyLeft(s: State, q: State, sender: Address, entries: seq<Entry>)
    requires MoneyInStep(s, q, sender, entries) && sender != SELF
    ensures Balance(q.balances, sender) == Balance(s.balances, sender) - Total(entries)
  {
    if entries != [] {
      DepositsAdd(s.balances, sender, Total(entries), 0);
    } else {
      assert Total(entries) == 0;
    }
  }

  /** The limit check of the last entry, which is the strictest. */
  predicate AllAllowed(s: State, now: nat, sender: Address, entries: seq<Entry>)
    requires entries != []
  {
    Allowed(s, Sent(s, sender, now) + Total(entries[..|entries| - 1]), entries[|entries| - 1].amount)
  }

  /** Both runs so far: they succeed together, under limit and balance, and are then in step. */
  ghost predicate Agree(s: State, now: nat, sender: Address, entries: seq<Entry>, last: nat,
                        singles: Result<(State, seq<nat>)>, booked: Result<Booked>) {
    && (singles.Ok? <==>
          && (entries != [] ==> AllAllowed(s, now, sender, entries))
          && Total(entries) <= Balance(s.balances, sender)
          && booked.Ok?)
    && (singles.Ok? ==>
          InStep(s, singles.value.0, booked.value, now, sender, entries, last) && booked.value.ids == singles.value.1)
  }

  /** One entry on top of what both runs have done. */
  ghost predicate Extends(s: State, now: nat, sender: Address, entries: seq<Entry>, last: nat, e: Entry,
                          q: State, b: Booked, r: Result<(State, nat)>, n: Result<Booked>) {
    && (r.Ok? <==> Allowed(s, Sent(s, sender, now) + Total(entries), e.amount)
                   && Total(entries) + e.amount <= Balance(s.balances, sender) && n.Ok?)
    && (r.Ok? ==> InStep(s, r.value.0, n.value, now, sender, entries + [e], last) && n.value.ids == b.ids + [r.value.1])
  }

  lemma ExtendsNext(s: State, now: nat, sender: Address, entries: seq<Entry>, last: nat, e: Entry,
                    q: State, b: Booked, r: Result<(State, nat)>, n: Result<Booked>)
    requires Ready(s, now, sender, last) && now > 0 && e.amount > 0
    requires InStep(s, q, b, now, sender, entries, last) && SameOutcome(q, b, now, sender, e, r, n)
    requires n.Ok? ==> VolumeInStep(s, n.value, now, sender, entries + [e], last) && n.value.state.cfg == s.cfg
    ensures Extends(s, now, sender, entries, last, e, q, b, r, n)
  {
    LimitDecides(s, q, now, sender, entries, last, e);
    MoneyLeft(s, q, sender, entries);
    if r.Ok? {
      LimitStep(s, q, r.value.0, now, sender, entries, e);
      MoneyStep(s, q, r.value.0, sender, entries, e);
    }
  }

  lemma AgreeExtends(s: State, now: nat, sender: Address, entries: seq<Entry>, last: nat, e: Entry,
                     singles: Result<(State, seq<nat>)>, booked: Result<Booked>,
                     r: Result<(State, nat)>, n: Result<Booked>)
    requires Agree(s, now, sender, entries, last, singles, booked) && e.amount > 0 && sender != SELF
    requires entries != [] ==> entries[|entries| - 1].amount > 0
    requires singles.Ok? ==> Extends(s, now, sender, entries, last, e, singles.value.0, booked.value, r, n)
    ensures Agree(s, now, sender, entries + [e], last, ThenCreated(singles, r), if booked.Ok? then n else booked)
  {
    TotalSnoc(entries, now, e);
    LastAllowed(s, now, sender, entries, e);
    if entries != [] && Allowed(s, Sent(s, sender, now) + Total(entries), e.amount) {
      EarlierAllowed(s, now, sender, entries, e.amount);
    }
  }

  /** A later check is stricter: it counts every earlier entry. */
  lemma EarlierAllowed(s: State, now: nat, sender: Address, entries: seq<Entry>, amount: int)
    requires entries != [] && entries[|entries| - 1].amount > 0 && amount > 0
    requires Allowed(s, Sent(s, sender, now) + Total(entries), amount)
    ensures AllAllowed(s, now, sender, entries)
  {
    AllowedBefore(s, Sent(s, sender, now) + Total(entries[..|entries| - 1]), entries[|entries| - 1].amount, amount);
  }

  lemma LastAllowed(s: State, now: nat, sender: Address, entries: seq<Entry>, e: Entry)
    ensures AllAllowed(s, now, sender, entries + [e])
       <==> Allowed(s, Sent(s, sender, now) + Total(entries), e.amount)
  {
    var next := entries + [e];
    assert next[..|next| - 1] == entries && next[|next| - 1] == e;
  }

  lemma AllowedBefore(s: State, before: int, amount: int, next: int)
    requires amount > 0 && next > 0
    ensures Allowed(s, before + amount, next) ==> Allowed(s, before, amount)
  {
  }

  function ThenCreated(singles: Result<(State, seq<nat>)>, r: Result<(State, nat)>): Result<(State, seq<nat>)> {
    var before :- singles;
    var created :- r;
    Ok((created.0, before.1 + [created.1]))
  }

  lemma AgreeNothing(s: State, f: State, now: nat, sender: Address, last: nat)
    requires Ready(s, now, sender, last) && Alongside(s, f)
    ensures Agree(s, now, sender, [], last, Ok((s, [])), Ok(Booked(f, [], Rolling(s, sender, now))))
  {
    var newer := DailyLimit.Newer(TransfersOf(s, sender), WindowStart(now));
    assert newer + [] == newer;
  }

  function NextCreate(singles: Result<(State, seq<nat>)>, env: Env, sender: Address, e: Entry): Result<(State, nat)> {
    var before :- singles;
    Create(before.0, env, sender, e)
  }

  function NextBook(booked: Result<Booked>, now: nat, sender: Address, e: Entry): Result<Booked> {
    var before :- booked;
    BookNext(before, now, sender, e)
  }

  lemma CreateAllSnoc(s: State, env: Env, sender: Address, entries: seq<Entry>, e: Entry)
    ensures var singles := CreateAll(s, env, sender, entries);
            CreateAll(s, env, sender, entries + [e]) == ThenCreated(singles, NextCreate(singles, env, sender, e))
  {
    assert (entries + [e])[..|entries|] == entries;
  }

  lemma BookAllSnoc(f: State, now: nat, sender: Address, entries: seq<Entry>, prior: int, e: Entry)
    ensures var booked := BookAll(f, now, sender, entries, prior);
            var next := if booked.Ok? then NextBook(booked, now, sender, e) else booked;
            BookAll(f, now, sender, entries + [e], prior) == next
  {
    assert (entries + [e])[..|entries|] == entries;
  }

  lemma OneMore(s: State, env: Env, sender: Address, entries: seq<Entry>, last: nat, e: Entry, q: State, b: Booked)
    requires env.now > 0 && Ready(s, env.now, sender, last)
    requires env.admit && env.screened && !s.cfg.migrating && ValidateCreate(s, sender, e.agent, e.amount).Ok?
    requires InStep(s, q, b, env.now, sender, entries, last)
    ensures Extends(s, env.now, sender, entries, last, e, q, b,
                    Create(q, env, sender, e), BookNext(b, env.now, sender, e))
  {
    assert Creatable(q, b, env, sender, e);
    OutcomesAgree(q, b, env, sender, e);
    if BookNext(b, env.now, sender, e).Ok? {
      VolumeStep(s, b, env.now, sender, entries, last, e);
    }
    ExtendsNext(s, env.now, sender, entries, last, e, q, b, Create(q, env, sender, e), BookNext(b, env.now, sender, e));
  }

  lemma AgreeNext(s: State, env: Env, sender: Address, entries: seq<Entry>, last: nat, e: Entry,
                  singles: Result<(State, seq<nat>)>, booked: Result<Booked>)
    requires env.now > 0 && env.admit && env.screened && !s.cfg.migrating
    requires ValidateCreate(s, sender, e.agent, e.amount).Ok?
    requires Ready(s, env.now, sender, last) && (entries != [] ==> entries[|entries| - 1].amount > 0)
    requires Agree(s, env.now, sender, entries, last, singles, booked)
    ensures Agree(s, env.now, sender, entries + [e], last,
                  ThenCreated(singles, NextCreate(singles, env, sender, e)),
                  if booked.Ok? then NextBook(booked, env.now, sender, e) else booked)
  {
    var r, n := NextCreate(singles, env, sender, e), NextBook(booked, env.now, sender, e);
    if singles.Ok? {
      OneMore(s, env, sender, entries, last, e, singles.value.0, booked.value);
    }
    AgreeExtends(s, env.now, sender, entries, last, e, singles, booked, r, n);
  }

  /** Over all entries, none of which is screened out: one by one and booked as a batch. */
  lemma {:induction false} ScreenedLockstep(s: State, f: State, env: Env, sender: Address, entries: seq<Entry>,
                                            last: nat)
    requires env.now > 0 && env.admit && env.screened && !s.cfg.migrating && Alongside(s, f)
    requires Ready(s, env.now, sender, last) && Valid(s, sender, entries)
    ensures Agree(s, env.now, sender, entries, last,
                  CreateAll(s, env, sender, entries), BookAll(f, env.now, sender, entries, Rolling(s, sender, env.now)))
  {
    if entries == [] {
      AgreeNothing(s, f, env.now, sender, last);
    } else {
      var front, e := entries[..|entries| - 1], entries[|entries| - 1];
      assert e in entries && forall d | d in front :: d in entries;
      assert front != [] ==> front[|front| - 1] in entries;
      assert entries == front + [e];
      var prior := Rolling(s, sender, env.now);
      ScreenedLockstep(s, f, env, sender, front, last);
      AgreeNext(s, env, sender, front, last, e,
                CreateAll(s, env, sender, front), BookAll(f, env.now, sender, front, prior));
      CreateAllSnoc(s, env, sender, front, e);
      BookAllSnoc(f, env.now, sender, front, prior, e);
    }
  }

  // ----- the batch -----

  lemma ValidSnoc(s: State, sender: Address, front: seq<Entry>, e: Entry)
    ensures Valid(s, sender, front + [e]) <==> Valid(s, sender, front) && ValidateCreate(s, sender, e.agent, e.amount).Ok?
  {
    var entries := front + [e];
    assert e in entries && forall d | d in front :: d in entries;
    assert forall d | d in entries :: d in front || d == e;
  }

  function TotalOrOverflow(total: int): Result<int> {
    if total <= I128_MAX then Ok(total) else Err(Overflow)
  }

  lemma BatchTotalSnoc(s: State, sender: Address, front: seq<Entry>, e: Entry)
    ensures BatchTotal(s, sender, front + [e]).Ok? ==>
              BatchTotal(s, sender, front).Ok? && ValidateCreate(s, sender, e.agent, e.amount).Ok?
    ensures ValidateCreate(s, sender, e.agent, e.amount).Ok? ==>
              BatchTotal(s, sender, front + [e]) == PlusChecked(BatchTotal(s, sender, front), e.amount)
  {
    assert (front + [e])[..|front|] == front;
  }

  function PlusChecked(total: Result<int>, amount: int): Result<int> {
    var before :- total;
    Checked(before + amount)
  }

  lemma {:induction false} BatchTotalIff(s: State, sender: Address, entries: seq<Entry>)
    ensures BatchTotal(s, sender, entries).Ok? ==> Valid(s, sender, entries)
    ensures Valid(s, sender, entries) ==> BatchTotal(s, sender, entries) == TotalOrOverflow(Total(entries))
  {
    if entries != [] {
      var front, e := entries[..|entries| - 1], entries[|entries| - 1];
      assert entries == front + [e];
      BatchTotalIff(s, sender, front);
      BatchTotalSnoc(s, sender, front, e);
      ValidSnoc(s, sender, front, e);
      if Valid(s, sender, entries) {
        TotalNonNegative(s, sender, front);
      }
    }
  }

  /** If creating one by one succeeded, every entry was valid. */
  ghost predicate OnlyValid(s: State, env: Env, sender: Address, entries: seq<Entry>,
                            singles: Result<(State, seq<nat>)>)
  {
    singles.Ok? ==>
      Valid(s, sender, entries) && singles.value.0.cfg == s.cfg && (entries != [] ==> env.admit && !s.cfg.migrating)
  }

  lemma {:induction false} SinglesValid(s: State, env: Env, sender: Address, entries: seq<Entry>)
    ensures OnlyValid(s, env, sender, entries, CreateAll(s, env, sender, entries))
  {
    if entries != [] {
      var front, e := entries[..|entries| - 1], entries[|entries| - 1];
      assert entries == front + [e];
      SinglesValid(s, env, sender, front);
      CreateAllSnoc(s, env, sender, front, e);
      NextValid(s, env, sender, front, e, CreateAll(s, env, sender, front));
    }
  }

  lemma NextValid(s: State, env: Env, sender: Address, entries: seq<Entry>, e: Entry, singles: Result<(State, seq<nat>)>)
    requires OnlyValid(s, env, sender, entries, singles)
    ensures OnlyValid(s, env, sender, entries + [e], ThenCreated(singles, NextCreate(singles, env, sender, e)))
  {
    if ThenCreated(singles, NextCreate(singles, env, sender, e)).Ok? {
      OneMoreValid(s, singles.value.0, env, sender, entries, e);
    }
  }

  lemma OneMoreValid(s: State, q: State, env: Env, sender: Address, entries: seq<Entry>, e: Entry)
    requires Valid(s, sender, entries) && q.cfg == s.cfg && Create(q, env, sender, e).Ok?
    ensures Valid(s, sender, entries + [e]) && Create(q, env, sender, e).value.0.cfg == s.cfg
    ensures env.admit && !s.cfg.migrating
  {
    CreateKeepsConfig(q, env, sender, e);
    assert ValidateCreate(s, sender, e.agent, e.amount) == ValidateCreate(q, sender, e.agent, e.amount);
  }

  lemma CreateKeepsConfig(q: State, env: Env, sender: Address, e: Entry)
    requires Create(q, env, sender, e).Ok?
    ensures Create(q, env, sender, e).value.0.cfg == q.cfg
    ensures env.admit && env.screened && !q.cfg.migrating && ValidateCreate(q, sender, e.agent, e.amount).Ok?
  {
    CreateIs(q, env, sender, e);
  }

  /** The batch's state before any entry is booked: the limit recorded and the total deposited. */
  function Funded(s: State, now: nat, sender: Address, total: int): State {
    var limited := EnforceLimit(s, now, sender, GLOBAL, total);
    if limited.Ok? && 0 <= total <= Balance(s.balances, sender)
    then limited.value.(balances := Deposited(s.balances, sender, total)) else s
  }

  /** An accepted batch is the limit check, the deposit and the bookings. */
  lemma BatchIs(s: State, env: Env, sender: Address, entries: seq<Entry>)
    requires env.admit && !s.cfg.migrating && 1 <= |entries| <= MAX_BATCH_SIZE && sender != SELF
    requires Valid(s, sender, entries) && Total(entries) <= I128_MAX
    ensures var total := Total(entries);
            var prior := Rolling(s, sender, env.now);
            var booked := BookAll(Funded(s, env.now, sender, total), env.now, sender, entries, prior);
            var batch := BatchCreate(s, env, sender, entries);
            && (batch.Ok? <==> EnforceLimit(s, env.now, sender, GLOBAL, total).Ok?
                               && total <= Balance(s.balances, sender) && booked.Ok?)
            && (batch.Ok? ==> batch.value == (booked.value.state, booked.value.ids))
  {
    BatchTotalIff(s, sender, entries);
    TotalNonNegative(s, sender, entries);
    var limited := EnforceLimit(s, env.now, sender, GLOBAL, Total(entries));
    if limited.Ok? {
      DepositIs(limited.value, sender, Total(entries));
    }
  }

  /** Rolling volumes never exceed an i128, so neither does a total that both runs have added to one. */
  lemma BookedTotalFits(s: State, q: State, b: Booked, now: nat, sender: Address, entries: seq<Entry>, last: nat)
    requires InStep(s, q, b, now, sender, entries, last) && Ready(s, now, sender, last)
    ensures Total(entries) <= I128_MAX
  {
    SenderVolume.RollingIsSum(VolumeOf(s, sender), now);
    SenderVolume.RollingIsSum(VolumeOf(b.state, sender), now);
  }

  /** Entries the batch refuses before it looks at limit or balance are refused one by one as well. */
  lemma BothRefuse(s: State, env: Env, sender: Address, entries: seq<Entry>, last: nat)
    requires env.now > 0 && env.screened && 1 <= |entries| <= MAX_BATCH_SIZE && Ready(s, env.now, sender, last)
    requires !env.admit || s.cfg.migrating || !Valid(s, sender, entries) || Total(entries) > I128_MAX
    ensures BatchCreate(s, env, sender, entries).Err? && CreateAll(s, env, sender, entries).Err?
  {
    BatchTotalIff(s, sender, entries);
    SinglesValid(s, env, sender, entries);
    if CreateAll(s, env, sender, entries).Ok? {
      ScreenedLockstep(s, s, env, sender, entries, last);
      var b := BookAll(s, env.now, sender, entries, Rolling(s, sender, env.now)).value;
      BookedTotalFits(s, CreateAll(s, env, sender, entries).value.0, b, env.now, sender, entries, last);
    }
  }

  /** Without a configured limit the single checks still add up everything sent before the last entry. */
  predicate SumsFit(s: State, now: nat, sender: Address, entries: seq<Entry>)
    requires entries != []
  {
    GLOBAL in s.cfg.limits || Sent(s, sender, now) + Total(entries[..|entries| - 1]) <= I128_MAX
  }

  /** The same ids; the states differ only in how the sender's transfers are listed, and both lists total the same. */
  ghost predicate SameEffect(s: State, now: nat, sender: Address, entries: seq<Entry>,
                             batch: (State, seq<nat>), singles: (State, seq<nat>)) {
    && batch.1 == singles.1 && singles.0 == batch.0.(transfers := singles.0.transfers)
    && SameTotals(s, batch.0, singles.0, now, sender, entries)
  }

  /** With every entry passing the screening, batch and single creations succeed together. */
  lemma ScreenedRefinement(s: State, env: Env, sender: Address, entries: seq<Entry>, last: nat)
    requires env.now > 0 && env.screened && 1 <= |entries| <= MAX_BATCH_SIZE && Ready(s, env.now, sender, last)
    ensures CreateAll(s, env, sender, entries).Ok?
       <==> BatchCreate(s, env, sender, entries).Ok? && SumsFit(s, env.now, sender, entries)
    ensures CreateAll(s, env, sender, entries).Ok? ==>
              SameEffect(s, env.now, sender, entries, BatchCreate(s, env, sender, entries).value,
                         CreateAll(s, env, sender, entries).value)
  {
    if !env.admit || s.cfg.migrating || !Valid(s, sender, entries) || Total(entries) > I128_MAX {
      BothRefuse(s, env, sender, entries, last);
    } else {
      var f := Funded(s, env.now, sender, Total(entries));
      TotalNonNegative(s, sender, entries);
      BatchIs(s, env, sender, entries);
      ScreenedLockstep(s, f, env, sender, entries, last);
      LimitsAgree(s, env.now, sender, entries);
      var booked := BookAll(f, env.now, sender, entries, Rolling(s, sender, env.now));
      if booked.Ok? && CreateAll(s, env, sender, entries).Ok? {
        BookAllKeeps(f, env.now, sender, entries, Rolling(s, sender, env.now));
        ResultsMatch(s, f, CreateAll(s, env, sender, entries).value.0, booked.value, env.now, sender, entries, last);
      }
    }
  }

  /** The batch's one limit check passes exactly when every single one would, as long as the sums fit. */
  lemma LimitsAgree(s: State, now: nat, sender: Address, entries: seq<Entry>)
    requires entries != [] && NonNegative(TransfersOf(s, sender)) && LimitFits(s) && Valid(s, sender, entries)
    ensures AllAllowed(s, now, sender, entries)
       <==> EnforceLimit(s, now, sender, GLOBAL, Total(entries)).Ok? && SumsFit(s, now, sender, entries)
  {
    var front, e := entries[..|entries| - 1], entries[|entries| - 1];
    assert e in entries && forall d | d in front :: d in entries;
    TotalNonNegative(s, sender, front);
    TotalNonNegative(s, sender, entries);
    EnforceIff(s, now, sender, Total(entries));
  }

  lemma FirstRecord(s: State, now: nat, sender: Address, amount: int)
    requires TransfersOf(s, sender) == [] && EnforceLimit(s, now, sender, GLOBAL, amount).Ok?
    ensures var one := EnforceLimit(s, now, sender, GLOBAL, amount).value;
            one.cfg == s.cfg && TransfersOf(one, sender) == [DailyLimit.TransferRecord(now, amount, GLOBAL)]
  {
    var r := DailyLimit.TransferRecord(now, amount, GLOBAL);
    var newer := DailyLimit.Newer(TransfersOf(s, sender), WindowStart(now));
    assert newer == [] && newer + [r] == [r];
  }

  /** A transfer of time zero is in no window. */
  lemma ZeroUncounted(s: State, sender: Address, amount: int)
    requires TransfersOf(s, sender) == [DailyLimit.TransferRecord(0, amount, GLOBAL)]
    ensures Sent(s, sender, 0) == 0
  {
    var records, w := TransfersOf(s, sender), DailyLimit.NewerWeight(GLOBAL, WindowStart(0));
    assert SumBy(records, w) == SumBy(records[..0], w) + w(records[0]);
    assert records[..0] == [];
  }

  lemma NothingSent(s: State, sender: Address)
    requires TransfersOf(s, sender) == []
    ensures Sent(s, sender, 0) == 0
  {
  }

  lemma AllowedAtZero(s: State, sender: Address, amount: int)
    requires NonNegative(TransfersOf(s, sender)) && amount >= 0 && LimitFits(s) && Sent(s, sender, 0) == 0
    requires GLOBAL in s.cfg.limits
    ensures EnforceLimit(s, 0, sender, GLOBAL, amount).Ok? <==> amount <= s.cfg.limits[GLOBAL]
  {
    EnforceIff(s, 0, sender, amount);
  }

  /**
   At time zero they differ: the limit does not see transfers of that time, so the entries pass one
   by one although the batch's total exceeds the limit.
   */
  lemma TimeZeroDiffers(s: State, sender: Address, amount: int)
    requires TransfersOf(s, sender) == [] && LimitFits(s)
    requires GLOBAL in s.cfg.limits && 0 < amount <= s.cfg.limits[GLOBAL] < 2 * amount
    ensures EnforceLimit(s, 0, sender, GLOBAL, 2 * amount).Err?
    ensures var one := EnforceLimit(s, 0, sender, GLOBAL, amount);
            one.Ok? && EnforceLimit(one.value, 0, sender, GLOBAL, amount).Ok?
  {
    NothingSent(s, sender);
    AllowedAtZero(s, sender, 2 * amount);
    AllowedAtZero(s, sender, amount);
    FirstRecord(s, 0, sender, amount);
    SecondAtZero(EnforceLimit(s, 0, sender, GLOBAL, amount).value, sender, amount);
  }

  lemma SecondAtZero(one: State, sender: Address, amount: int)
    requires TransfersOf(one, sender) == [DailyLimit.TransferRecord(0, amount, GLOBAL)] && LimitFits(one)
    requires GLOBAL in one.cfg.limits && 0 < amount <= one.cfg.limits[GLOBAL]
    ensures EnforceLimit(one, 0, sender, GLOBAL, amount).Ok?
  {
    ZeroUncounted(one, sender, amount);
    AllowedAtZero(one, sender, amount);
  }

  lemma ResultsMatch(s: State, f: State, q: State, b: Booked, now: nat, sender: Address, entries: seq<Entry>, last: nat)
    requires entries != [] && InStep(s, q, b, now, sender, entries, last)
    requires EnforceLimit(s, now, sender, GLOBAL, Total(entries)).Ok? && f == Funded(s, now, sender, Total(entries))
    requires b.state.transfers == f.transfers && b.state.balances == f.balances
    ensures q == b.state.(transfers := q.transfers) && SameTotals(s, b.state, q, now, sender, entries)
  {
    ListsMatch(s, b.state, q, now, sender, entries);
  }

  lemma {:induction false} BookAllKeeps(f: State, now: nat, sender: Address, entries: seq<Entry>, prior: int)
    requires BookAll(f, now, sender, entries, prior).Ok?
    ensures var b := BookAll(f, now, sender, entries, prior).value.state;
            b.transfers == f.transfers && b.balances == f.balances
  {
    if entries != [] {
      BookAllKeeps(f, now, sender, entries[..|entries| - 1], prior);
    }
  }

  /** The sender's recorded transfers to one corridor after `from`. */
  function SentAfter(s: State, sender: Address, c: DailyLimit.Corridor, from: nat): int {
    SumBy(TransfersOf(s, sender), DailyLimit.NewerWeight(c, from))
  }

  /** The batch lists one transfer of the total, the single creations one each; the others are the same. */
  ghost predicate SameTotals(s: State, b: State, q: State, now: nat, sender: Address, entries: seq<Entry>) {
    var newer := DailyLimit.Newer(TransfersOf(s, sender), WindowStart(now));
    && TransfersOf(b, sender) == newer + [DailyLimit.TransferRecord(now, Total(entries), GLOBAL)]
    && TransfersOf(q, sender) == newer + RecordsOf(now, entries)
    && b.transfers == s.transfers[sender := TransfersOf(b, sender)]
    && q.transfers == s.transfers[sender := TransfersOf(q, sender)]
    && forall c, from: nat :: SentAfter(q, sender, c, from) == SentAfter(b, sender, c, from)
  }

  lemma ListsMatch(s: State, b: State, q: State, now: nat, sender: Address, entries: seq<Entry>)
    requires entries != [] && LimitInStep(s, q, now, sender, entries)
    requires var newer := DailyLimit.Newer(TransfersOf(s, sender), WindowStart(now));
             b.transfers == s.transfers[sender := newer + [DailyLimit.TransferRecord(now, Total(entries), GLOBAL)]]
    ensures SameTotals(s, b, q, now, sender, entries)
  {
    var newer, one := DailyLimit.Newer(TransfersOf(s, sender), WindowStart(now)),
                      [DailyLimit.TransferRecord(now, Total(entries), GLOBAL)];
    forall c: DailyLimit.Corridor, from: nat
      ensures SumBy(newer + RecordsOf(now, entries), DailyLimit.NewerWeight(c, from))
           == SumBy(newer + one, DailyLimit.NewerWeight(c, from))
    {
      var w := DailyLimit.NewerWeight(c, from);
      SumByConcat(newer, RecordsOf(now, entries), w);
      SumByConcat(newer, one, w);
      RecordsSum(now, entries, c, from);
      assert one[..0] == [];
      assert SumBy(one, w) == SumBy([], w) + w(one[0]);
    }
  }

  lemma {:induction false} RecordsSum(now: nat, entries: seq<Entry>, c: DailyLimit.Corridor, from: nat)
    ensures SumBy(RecordsOf(now, entries), DailyLimit.NewerWeight(c, from))
         == if c == GLOBAL && now > from then Total(entries) else 0
  {
    if entries != [] {
      var front := entries[..|entries| - 1];
      RecordsSum(now, front, c, from);
      var records := RecordsOf(now, front);
      var r := DailyLimit.TransferRecord(now, entries[|entries| - 1].amount, GLOBAL);
      assert (records + [r])[..|records|] == records;
    }
  }

  // ----- the checks that only single creation makes -----

  /** The entries created in turn; `verdicts[i]` is what the screening says of entry i. */
  function CreateEach(s: State, env: Env, sender: Address, entries: seq<Entry>, verdicts: seq<bool>)
    : Result<(State, seq<nat>)>
    requires |verdicts| == |entries|
  {
    if entries == [] then Ok((s, [])) else
      var n := |entries| - 1;
      var before :- CreateEach(s, env, sender, entries[..n], verdicts[..n]);
      var created :- Create(before.0, env.(screened := verdicts[n]), sender, entries[n]);
      Ok((created.0, before.1 + [created.1]))
  }

  lemma {:induction false} AllScreened(s: State, env: Env, sender: Address, entries: seq<Entry>, verdicts: seq<bool>)
    requires |verdicts| == |entries| && false !in verdicts
    ensures CreateEach(s, env, sender, entries, verdicts) == CreateAll(s, env.(screened := true), sender, entries)
  {
    if entries != [] {
      var n := |entries| - 1;
      assert verdicts[n] in verdicts && forall v | v in verdicts[..n] :: v in verdicts;
      AllScreened(s, env, sender, entries[..n], verdicts[..n]);
    }
  }

  lemma RefusedUnscreened(q: State, env: Env, sender: Address, e: Entry)
    requires !env.screened
    ensures Create(q, env, sender, e).Err?
  {
  }

  lemma EachStops(s: State, env: Env, sender: Address, entries: seq<Entry>, verdicts: seq<bool>, n: nat)
    requires |verdicts| == |entries| == n + 1
    requires CreateEach(s, env, sender, entries[..n], verdicts[..n]).Err? || !verdicts[n]
    ensures CreateEach(s, env, sender, entries, verdicts).Err?
  {
    var before := CreateEach(s, env, sender, entries[..n], verdicts[..n]);
    if before.Ok? {
      RefusedUnscreened(before.value.0, env.(screened := verdicts[n]), sender, entries[n]);
    }
  }

  lemma FalseInFront(verdicts: seq<bool>, n: nat)
    requires |verdicts| == n + 1 && false in verdicts && verdicts[n]
    ensures false in verdicts[..n]
  {
    assert verdicts == verdicts[..n] + [verdicts[n]];
  }

  lemma {:induction false} OneScreenedOut(s: State, env: Env, sender: Address, entries: seq<Entry>, verdicts: seq<bool>)
    requires |verdicts| == |entries| && false in verdicts
    ensures CreateEach(s, env, sender, entries, verdicts).Err?
  {
    var n := |entries| - 1;
    if verdicts[n] {
      FalseInFront(verdicts, n);
      OneScreenedOut(s, env, sender, entries[..n], verdicts[..n]);
    }
    EachStops(s, env, sender, entries, verdicts, n);
  }

  /** Over all entries and verdicts: one by one and booked as a batch. */
  lemma Lockstep(s: State, f: State, env: Env, sender: Address, entries: seq<Entry>, verdicts: seq<bool>, last: nat)
    requires env.now > 0 && env.admit && !s.cfg.migrating && Alongside(s, f) && |verdicts| == |entries|
    requires Ready(s, env.now, sender, last) && Valid(s, sender, entries)
    ensures var singles := CreateEach(s, env, sender, entries, verdicts);
            var booked := BookAll(f, env.now, sender, entries, Rolling(s, sender, env.now));
            if false in verdicts then singles.Err? else Agree(s, env.now, sender, entries, last, singles, booked)
  {
    if false in verdicts {
      OneScreenedOut(s, env, sender, entries, verdicts);
    } else {
      AllScreened(s, env, sender, entries, verdicts);
      ScreenedLockstep(s, f, env.(screened := true), sender, entries, last);
    }
  }

  /** The batch does not make those checks. */
  lemma BatchUnscreened(s: State, env: Env, sender: Address, entries: seq<Entry>)
    ensures BatchCreate(s, env, sender, entries) == BatchCreate(s, env.(screened := true), sender, entries)
  {
  }

  /**
   Batch creation against one-by-one creation: at any time but zero the single creations succeed
   exactly when the batch does, every entry passes the checks that only single creation makes and,
   with no limit configured, the window total fits. Then the ids are the same, and the states differ
   only in how the sender's transfers are listed: both lists give the same total for every corridor
   and every later window.
   */
  lemma BatchRefinesSingles(s: State, env: Env, sender: Address, entries: seq<Entry>, verdicts: seq<bool>, last: nat)
    requires env.now > 0 && 1 <= |entries| <= MAX_BATCH_SIZE && Ready(s, env.now, sender, last)
    requires |verdicts| == |entries|
    ensures CreateEach(s, env, sender, entries, verdicts).Ok?
       <==> BatchCreate(s, env, sender, entries).Ok? && SumsFit(s, env.now, sender, entries) && false !in verdicts
    ensures CreateEach(s, env, sender, entries, verdicts).Ok? ==>
              SameEffect(s, env.now, sender, entries, BatchCreate(s, env, sender, entries).value,
                         CreateEach(s, env, sender, entries, verdicts).value)
  {
    BatchUnscreened(s, env, sender, entries);
    if false in verdicts {
      OneScreenedOut(s, env, sender, entries, verdicts);
    } else {
      AllScreened(s, env, sender, entries, verdicts);
      ScreenedRefinement(s, env.(screened := true), sender, entries, last);
    }
  }

  lemma EachOfOne(s: State, env: Env, sender: Address, e: Entry)
    ensures CreateEach(s, env, sender, [e], [true]).Ok? <==> Create(s, env.(screened := true), sender, e).Ok?
  {
    var entries, verdicts := [e], [true];
    assert entries[..0] == [] && verdicts[..0] == [];
    assert CreateEach(s, env, sender, entries[..0], verdicts[..0]) == Ok((s, []));
  }

  /** So an entry that only this screening refuses is accepted as a batch of one. */
  lemma ScreeningSkipped(s: State, env: Env, sender: Address, e: Entry, last: nat)
    requires env.now > 0 && Ready(s, env.now, sender, last) && Create(s, env.(screened := true), sender, e).Ok?
    ensures Create(s, env.(screened := false), sender, e) == Err(Rejected)
    ensures BatchCreate(s, env.(screened := false), sender, [e]).Ok?
  {
    EachOfOne(s, env, sender, e);
    BatchRefinesSingles(s, env, sender, [e], [true], last);
    BatchUnscreened(s, env, sender, [e]);
    BatchUnscreened(s, env.(screened := false), sender, [e]);
    CreateIs(s, env.(screened := true), sender, e);
  }
}
