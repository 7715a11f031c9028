/**
 A sender's 30-day volume, kept as daily buckets that are pruned on every write, against the full
 history of what was sent.
 */
module SenderVolume {
  import opened Common
  import opened Sums

  const DAY: nat := 24 * 60 * 60
  const WINDOW: nat := 30 * DAY

  datatype Bucket = Bucket(start: nat, amount: int)

  /** One accepted transfer, as an unpruned log would keep it. */
  datatype Sent = Sent(time: nat, amount: int)

  function BucketStart(time: nat): nat {
    time / DAY * DAY
  }

  function WindowStart(now: nat): nat {
    SaturatingSub(now, WINDOW)
  }

  function Kept(history: seq<Bucket>, windowStart: nat): seq<Bucket> {
    if history == [] then [] else
      var b := history[|history| - 1];
      Kept(history[..|history| - 1], windowStart) + if b.start >= windowStart then [b] else []
  }

  /** Adds `amount` to the bucket of `now`, which is the last one if it exists. */
  function AddToLast(pruned: seq<Bucket>, amount: int, start: nat): Result<seq<Bucket>> {
    if pruned != [] && pruned[|pruned| - 1].start == start then
      var total :- Checked(pruned[|pruned| - 1].amount + amount);
      Ok(pruned[..|pruned| - 1] + [Bucket(start, total)])
    else
      Ok(pruned + [Bucket(start, amount)])
  }

  function Record(history: seq<Bucket>, amount: int, now: nat): Result<seq<Bucket>> {
    if amount <= 0 then Err(InvalidAmount) else
    AddToLast(Kept(history, WindowStart(now)), amount, BucketStart(now))
  }

  function Rolling(history: seq<Bucket>, now: nat): int {
    if history == [] then 0 else
      var b := history[|history| - 1];
      var total := Rolling(history[..|history| - 1], now);
      if b.start >= WindowStart(now) then Saturated(total + b.amount) else total
  }

  // ----- the program -----

  method GetSenderRollingVolume(history: seq<Bucket>, currentTime: nat) returns (total: int)
    ensures total == Rolling(history, currentTime)
  {
    var windowStart := SaturatingSub(currentTime, WINDOW);
    total := 0;
    for i := 0 to |history|
      invariant total == Rolling(history[..i], currentTime)
    {
      assert history[..i + 1][..i] == history[..i];
      var entry := history[i];
      if entry.start >= windowStart {
        total := Saturated(total + entry.amount);
      }
    }
    assert history[..|history|] == history;
  }

  method RecordSenderVolume(history: seq<Bucket>, amount: int, currentTime: nat)
    returns (r: Result<seq<Bucket>>)
    ensures r == Record(history, amount, currentTime)
  {
    if amount <= 0 {
      return Err(InvalidAmount);
    }
    var windowStart := SaturatingSub(currentTime, WINDOW);
    var bucketStart := currentTime / DAY * DAY;
    var pruned: seq<Bucket> := [];
    for i := 0 to |history|
      invariant pruned == Kept(history[..i], windowStart)
    {
      assert history[..i + 1][..i] == history[..i];
      var entry := history[i];
      if entry.start >= windowStart {
        pruned := pruned + [entry];
      }
    }
    assert history[..|history|] == history;
    if |pruned| > 0 {
      var lastEntry := pruned[|pruned| - 1];
      if lastEntry.start == bucketStart {
        var newAmount := lastEntry.amount + amount;
        if !InI128(newAmount) {
          return Err(Overflow);
        }
        lastEntry := lastEntry.(amount := newAmount);
        pruned := pruned[..|pruned| - 1];
        pruned := pruned + [lastEntry];
      } else {
        pruned := pruned + [Bucket(bucketStart, amount)];
      }
    } else {
      pruned := pruned + [Bucket(bucketStart, amount)];
    }
    r := Ok(pruned);
  }

  // ----- against the full history -----

  function BucketWeight(from: int): Bucket -> int {
    (b: Bucket) => if b.start >= from then b.amount else 0
  }

  /** A transfer counts from `from` on when the start of its day does. */
  function DayWeight(from: int): Sent -> int {
    (e: Sent) => if BucketStart(e.time) >= from then e.amount else 0
  }

  function SinceWeight(from: int): Sent -> int {
    (e: Sent) => if e.time >= from then e.amount else 0
  }

  /** The true volume sent at `from` or later. */
  function SentSince(log: seq<Sent>, from: int): int {
    SumBy(log, SinceWeight(from))
  }

  /** The buckets after every transfer of `log` has been recorded in turn. */
  function Replay(log: seq<Sent>): Result<seq<Bucket>> {
    if log == [] then Ok([]) else
      var history :- Replay(log[..|log| - 1]);
      Record(history, log[|log| - 1].amount, log[|log| - 1].time)
  }

  ghost predicate InOrder(log: seq<Sent>) {
    forall i, j | 0 <= i < j < |log| :: log[i].time <= log[j].time
  }

  function LastTime(log: seq<Sent>): nat {
    if log == [] then 0 else log[|log| - 1].time
  }

  /** A whole day inside the window that ended at `last`, with a positive amount. */
  ghost predicate BucketOk(b: Bucket, last: nat) {
    b.start % DAY == 0 && WindowStart(last) <= b.start <= last && b.amount > 0
  }

  ghost predicate Increasing(history: seq<Bucket>) {
    forall i, j | 0 <= i < j < |history| :: history[i].start < history[j].start
  }

  /** The shape of every stored history: whole days, strictly increasing, within the window. */
  ghost predicate WellFormed(history: seq<Bucket>, last: nat) {
    (forall i | 0 <= i < |history| :: BucketOk(history[i], last)) && Increasing(history)
  }

  lemma {:induction false} KeptMembers(history: seq<Bucket>, windowStart: nat)
    ensures forall b | b in Kept(history, windowStart) :: b in history && b.start >= windowStart
  {
    if history != [] {
      KeptMembers(history[..|history| - 1], windowStart);
    }
  }

  lemma {:induction false} KeptIncreasing(history: seq<Bucket>, windowStart: nat)
    requires Increasing(history)
    ensures Increasing(Kept(history, windowStart))
  {
    if history != [] {
      var front, b := history[..|history| - 1], history[|history| - 1];
      KeptIncreasing(front, windowStart);
      KeptMembers(front, windowStart);
      var kept := Kept(front, windowStart);
      forall i | 0 <= i < |kept|
        ensures kept[i].start < b.start
      {
        assert kept[i] in front;
      }
      if b.start < windowStart {
        assert Kept(history, windowStart) == kept;
      }
    }
  }

  lemma {:induction false} KeptSum(history: seq<Bucket>, windowStart: nat, from: int)
    requires windowStart <= from
    ensures SumBy(Kept(history, windowStart), BucketWeight(from)) == SumBy(history, BucketWeight(from))
  {
    if history != [] {
      var front, b := history[..|history| - 1], history[|history| - 1];
      KeptSum(front, windowStart, from);
      var kept := Kept(front, windowStart);
      if b.start >= windowStart {
        assert (kept + [b])[..|kept|] == kept;
      } else {
        assert Kept(history, windowStart) == kept;
      }
    }
  }

  /** Pruning keeps the shape and loses nothing that a later query counts. */
  lemma KeptLaws(history: seq<Bucket>, windowStart: nat, from: int, last: nat, now: nat)
    requires WellFormed(history, last) && last <= now && WindowStart(now) == windowStart <= from
    ensures WellFormed(Kept(history, windowStart), now)
    ensures SumBy(Kept(history, windowStart), BucketWeight(from)) == SumBy(history, BucketWeight(from))
  {
    KeptMembers(history, windowStart);
    KeptIncreasing(history, windowStart);
    KeptSum(history, windowStart, from);
    var kept := Kept(history, windowStart);
    forall i | 0 <= i < |kept|
      ensures BucketOk(kept[i], now)
    {
      assert kept[i] in kept;
      var j :| 0 <= j < |history| && history[j] == kept[i];
      assert BucketOk(history[j], last);
    }
  }

  lemma BucketStartLaws(now: nat)
    ensures BucketStart(now) % DAY == 0
    ensures BucketStart(now) <= now < BucketStart(now) + DAY
    ensures BucketStart(now) >= WindowStart(now)
  {
  }

  lemma LatestDay(day: nat, now: nat)
    requires day % DAY == 0 && day <= now
    ensures day <= BucketStart(now)
  {
    assert day == day / DAY * DAY;
  }

  lemma AddToLastLaws(pruned: seq<Bucket>, amount: int, start: nat, now: nat, from: int)
    requires WellFormed(pruned, now) && amount > 0 && start == BucketStart(now)
    requires AddToLast(pruned, amount, start).Ok?
    ensures WellFormed(AddToLast(pruned, amount, start).value, now)
    ensures SumBy(AddToLast(pruned, amount, start).value, BucketWeight(from))
         == SumBy(pruned, BucketWeight(from)) + (if start >= from then amount else 0)
  {
    var next := AddToLast(pruned, amount, start).value;
    BucketStartLaws(now);
    if pruned != [] {
      LatestDay(pruned[|pruned| - 1].start, now);
    }
    if |next| == |pruned| {
      assert next[..|next| - 1] == pruned[..|pruned| - 1];
    } else {
      assert next[..|next| - 1] == pruned;
    }
  }

  /** Recording one transfer keeps the shape and adds exactly its amount to every later query. */
  lemma RecordLaws(history: seq<Bucket>, last: nat, amount: int, now: nat, from: int)
    requires WellFormed(history, last) && last <= now && from >= WindowStart(now)
    requires Record(history, amount, now).Ok?
    ensures WellFormed(Record(history, amount, now).value, now)
    ensures SumBy(Record(history, amount, now).value, BucketWeight(from))
         == SumBy(history, BucketWeight(from)) + (if BucketStart(now) >= from then amount else 0)
  {
    KeptLaws(history, WindowStart(now), from, last, now);
    AddToLastLaws(Kept(history, WindowStart(now)), amount, BucketStart(now), now, from);
  }

  /** In every run the buckets answer each later query as the unpruned log would. */
  lemma {:induction false} ReplayAgrees(log: seq<Sent>, from: int)
    requires InOrder(log) && Replay(log).Ok? && from >= WindowStart(LastTime(log))
    ensures WellFormed(Replay(log).value, LastTime(log))
    ensures SumBy(Replay(log).value, BucketWeight(from)) == SumBy(log, DayWeight(from))
  {
    if log != [] {
      var front, e := log[..|log| - 1], log[|log| - 1];
      assert front != [] ==> front[|front| - 1] == log[|log| - 2];
      ReplayAgrees(front, from);
      RecordLaws(Replay(front).value, LastTime(front), e.amount, e.time, from);
    }
  }

  lemma {:induction false} DaysApart(history: seq<Bucket>, last: nat, i: nat)
    requires WellFormed(history, last) && i < |history|
    ensures history[i].start >= history[0].start + i * DAY
  {
    if i > 0 {
      DaysApart(history, last, i - 1);
      assert history[i - 1].start < history[i].start;
      var a, b := history[i - 1].start, history[i].start;
      assert a == a / DAY * DAY && b == b / DAY * DAY;
    }
  }

  /** At most 31 buckets are ever stored. */
  lemma FewBuckets(history: seq<Bucket>, last: nat)
    requires WellFormed(history, last)
    ensures |history| <= 31
  {
    if |history| > 31 {
      DaysApart(history, last, 31);
    }
  }

  lemma {:induction false} RollingIsSum(history: seq<Bucket>, now: nat)
    requires forall b | b in history :: b.amount > 0
    ensures SumBy(history, BucketWeight(WindowStart(now))) >= 0
    ensures Rolling(history, now) == Min(SumBy(history, BucketWeight(WindowStart(now))), I128_MAX)
  {
    if history != [] {
      assert history[|history| - 1] in history;
      assert forall b | b in history[..|history| - 1] :: b in history;
      RollingIsSum(history[..|history| - 1], now);
    }
  }

  /**
   The rolling volume at any later time lies between the true volume of the last 29 days and that
   of the last 30 days (both capped at the largest i128).
   */
  lemma RollingBetween(log: seq<Sent>, now: nat)
    requires InOrder(log) && Replay(log).Ok? && LastTime(log) <= now
    ensures |Replay(log).value| <= 31
    ensures Min(SentSince(log, now - 29 * DAY), I128_MAX)
         <= Rolling(Replay(log).value, now)
         <= Min(SentSince(log, now - 30 * DAY), I128_MAX)
  {
    var history, from := Replay(log).value, WindowStart(now);
    ReplayAgrees(log, WindowStart(LastTime(log)));
    ReplayAgrees(log, from);
    FewBuckets(history, LastTime(log));
    RollingIsSum(history, now);
    AcceptedPositive(log);
    forall e | e in log
      ensures SinceWeight(now - 29 * DAY)(e) <= DayWeight(from)(e) <= SinceWeight(now - 30 * DAY)(e)
    {
      BucketStartLaws(e.time);
    }
    SumByAtMost(log, SinceWeight(now - 29 * DAY), DayWeight(from));
    SumByAtMost(log, DayWeight(from), SinceWeight(now - 30 * DAY));
  }

  lemma {:induction false} AcceptedPositive(log: seq<Sent>)
    requires Replay(log).Ok?
    ensures forall e | e in log :: e.amount > 0
  {
    if log != [] {
      var front := log[..|log| - 1];
      AcceptedPositive(front);
      assert log == front + [log[|log| - 1]];
    }
  }

  /**
   Recording a transfer raises the sender's own rolling volume by its amount, as long as the sum
   is an i128: the fee of a next transfer at the same time sees all the earlier ones.
   */
  lemma RecordRaisesRolling(history: seq<Bucket>, last: nat, amount: int, now: nat)
    requires WellFormed(history, last) && last <= now && amount > 0
    requires Rolling(history, now) + amount <= I128_MAX
    ensures Record(history, amount, now).Ok?
    ensures WellFormed(Record(history, amount, now).value, now)
    ensures Rolling(Record(history, amount, now).value, now) == Rolling(history, now) + amount
  {
    var from := WindowStart(now);
    RollingIsSum(history, now);
    KeptLaws(history, from, from, last, now);
    var pruned := Kept(history, from);
    if pruned != [] && pruned[|pruned| - 1].start == BucketStart(now) {
      SumByNonNegative(pruned[..|pruned| - 1], BucketWeight(from));
      assert pruned[|pruned| - 1].amount <= SumBy(pruned, BucketWeight(from));
    }
    RecordLaws(history, last, amount, now, from);
    BucketStartLaws(now);
    RollingIsSum(Record(history, amount, now).value, now);
  }
}
