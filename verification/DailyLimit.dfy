/** The rolling 24-hour send limit of a sender, per currency and country. */
module DailyLimit {
  import opened Common
  import opened Sums

  const WINDOW: nat := 24 * 60 * 60

  datatype Corridor = Corridor(currency: string, country: string)

  const GLOBAL_CORRIDOR := Corridor("USDC", "GLOBAL")

  datatype TransferRecord = TransferRecord(timestamp: nat, amount: int, corridor: Corridor)

  type Limits = map<Corridor, int>

  function Newer(records: seq<TransferRecord>, windowStart: nat): seq<TransferRecord> {
    if records == [] then [] else
      var record := records[|records| - 1];
      Newer(records[..|records| - 1], windowStart)
      + if record.timestamp > windowStart then [record] else []
  }

  /** The checked running total of one corridor over the records newer than `windowStart`. */
  function RollingTotal(records: seq<TransferRecord>, windowStart: nat, c: Corridor): Result<int> {
    if records == [] then Ok(0) else
      var record := records[|records| - 1];
      var total :- RollingTotal(records[..|records| - 1], windowStart, c);
      if record.timestamp > windowStart && record.corridor == c then Checked(total + record.amount) else Ok(total)
  }

  /** The records stored after an accepted transfer. */
  function Enforce(records: seq<TransferRecord>, limits: Limits, now: nat, c: Corridor, amount: int)
    : Result<seq<TransferRecord>>
  {
    var windowStart := SaturatingSub(now, WINDOW);
    var rolling :- RollingTotal(records, windowStart, c);
    var _ :- WithinLimit(limits, c, rolling, amount);
    Ok(Newer(records, windowStart) + [TransferRecord(now, amount, c)])
  }

  function WithinLimit(limits: Limits, c: Corridor, rolling: int, amount: int): Result<()> {
    if c !in limits then Ok(()) else
      var next :- Checked(rolling + amount);
      if next > limits[c] then Err(DailySendLimitExceeded) else Ok(())
  }

  // ----- the program -----

  method EnforceDailySendLimit(transfers: seq<TransferRecord>, limits: Limits, now: nat, c: Corridor, amount: int)
    returns (r: Result<seq<TransferRecord>>)
    ensures r == Enforce(transfers, limits, now, c, amount)
  {
    var windowStart := SaturatingSub(now, WINDOW);
    var pruned: seq<TransferRecord> := [];
    var rollingTotal := 0;
    for i := 0 to |transfers|
      invariant pruned == Newer(transfers[..i], windowStart)
      invariant RollingTotal(transfers[..i], windowStart, c) == Ok(rollingTotal)
    {
      assert transfers[..i + 1][..i] == transfers[..i];
      var record := transfers[i];
      if record.timestamp > windowStart {
        if record.corridor == c {
          rollingTotal := rollingTotal + record.amount;
          if !InI128(rollingTotal) {
            RollingErrorPersists(transfers, i + 1, windowStart, c);
            return Err(Overflow);
          }
        }
        pruned := pruned + [record];
      }
    }
    assert transfers[..|transfers|] == transfers;
    if c in limits {
      var nextTotal := rollingTotal + amount;
      if !InI128(nextTotal) {
        return Err(Overflow);
      }
      if nextTotal > limits[c] {
        return Err(DailySendLimitExceeded);
      }
    }
    pruned := pruned + [TransferRecord(now, amount, c)];
    r := Ok(pruned);
  }

  lemma {:induction false} RollingErrorPersists(records: seq<TransferRecord>, i: nat, windowStart: nat, c: Corridor)
    requires i <= |records| && RollingTotal(records[..i], windowStart, c) == Err(Overflow)
    ensures RollingTotal(records, windowStart, c) == Err(Overflow)
    decreases |records| - i
  {
    if i < |records| {
      assert records[..i + 1][..i] == records[..i];
      RollingErrorPersists(records, i + 1, windowStart, c);
    } else {
      assert records[..i] == records;
    }
  }

  // ----- against the full history -----

  /** A request and the limits configured when it is made. */
  datatype Request = Request(now: nat, corridor: Corridor, amount: int, limits: Limits)

  function RecordOf(q: Request): TransferRecord {
    TransferRecord(q.now, q.amount, q.corridor)
  }

  /** What is stored after the requests of `log`, all of them accepted. */
  function Replay(log: seq<Request>): Result<seq<TransferRecord>> {
    if log == [] then Ok([]) else
      var records :- Replay(log[..|log| - 1]);
      var q := log[|log| - 1];
      Enforce(records, q.limits, q.now, q.corridor, q.amount)
  }

  ghost predicate InOrder(log: seq<Request>) {
    forall i, j | 0 <= i < j < |log| :: log[i].now <= log[j].now
  }

  function LastTime(log: seq<Request>): nat {
    if log == [] then 0 else log[|log| - 1].now
  }

  /** What one corridor sent after `from` and up to `to`. */
  function WindowWeight(c: Corridor, from: int, to: int): Request -> int {
    (q: Request) => if q.corridor == c && from < q.now <= to then q.amount else 0
  }

  function SentBetween(log: seq<Request>, c: Corridor, from: int, to: int): int {
    SumBy(log, WindowWeight(c, from, to))
  }

  /** What one corridor sent in the 24 hours up to `t`. */
  function SentWithin(log: seq<Request>, c: Corridor, t: int): int {
    SentBetween(log, c, t - WINDOW, t)
  }

  function NewerWeight(c: Corridor, from: nat): TransferRecord -> int {
    (record: TransferRecord) => if record.corridor == c && record.timestamp > from then record.amount else 0
  }

  lemma {:induction false} NewerSum(records: seq<TransferRecord>, c: Corridor, windowStart: nat, from: nat)
    requires windowStart <= from
    ensures SumBy(Newer(records, windowStart), NewerWeight(c, from)) == SumBy(records, NewerWeight(c, from))
  {
    if records != [] {
      var front, record := records[..|records| - 1], records[|records| - 1];
      NewerSum(front, c, windowStart, from);
      var newer := Newer(front, windowStart);
      if record.timestamp > windowStart {
        assert (newer + [record])[..|newer|] == newer;
      } else {
        assert Newer(records, windowStart) == newer;
      }
    }
  }

  lemma {:induction false} RollingIsSum(records: seq<TransferRecord>, windowStart: nat, c: Corridor)
    ensures RollingTotal(records, windowStart, c).Ok? ==>
              RollingTotal(records, windowStart, c).value == SumBy(records, NewerWeight(c, windowStart))
  {
    if records != [] {
      RollingIsSum(records[..|records| - 1], windowStart, c);
    }
  }

  /** What an accepted request adds to the stored total of a window that is still to come. */
  lemma EnforceSum(records: seq<TransferRecord>, q: Request, c: Corridor, from: nat)
    requires Enforce(records, q.limits, q.now, q.corridor, q.amount).Ok? && from >= SaturatingSub(q.now, WINDOW)
    ensures SumBy(Enforce(records, q.limits, q.now, q.corridor, q.amount).value, NewerWeight(c, from))
         == SumBy(records, NewerWeight(c, from)) + WindowWeight(c, from, q.now)(q)
  {
    var newer := Newer(records, SaturatingSub(q.now, WINDOW));
    NewerSum(records, c, SaturatingSub(q.now, WINDOW), from);
    assert (newer + [RecordOf(q)])[..|newer|] == newer;
  }

  lemma AllUpTo(log: seq<Request>, c: Corridor, from: int, to: int, to': int)
    requires InOrder(log) && LastTime(log) <= to <= to'
    ensures SentBetween(log, c, from, to) == SentBetween(log, c, from, to')
  {
    forall q | q in log
      ensures q.now <= to
    {
      var i :| 0 <= i < |log| && log[i] == q;
      assert log[i].now <= log[|log| - 1].now;
    }
    SumByAgree(log, WindowWeight(c, from, to), WindowWeight(c, from, to'));
  }

  lemma OrderOfFront(log: seq<Request>)
    requires InOrder(log) && log != []
    ensures InOrder(log[..|log| - 1]) && LastTime(log[..|log| - 1]) <= LastTime(log)
  {
    var front := log[..|log| - 1];
    assert front != [] ==> front[|front| - 1] == log[|log| - 2];
  }

  /** For every corridor and every window a later request can ask about, pruning loses nothing. */
  lemma {:induction false} ReplayAgrees(log: seq<Request>, c: Corridor, from: nat)
    requires InOrder(log) && Replay(log).Ok?
    requires from >= SaturatingSub(LastTime(log), WINDOW)
    ensures SumBy(Replay(log).value, NewerWeight(c, from)) == SentBetween(log, c, from, LastTime(log))
  {
    if log != [] {
      var front, q := log[..|log| - 1], log[|log| - 1];
      OrderOfFront(log);
      ReplayAgrees(front, c, from);
      EnforceSum(Replay(front).value, q, c, from);
      AllUpTo(front, c, from, LastTime(front), q.now);
    }
  }

  /** The rolling total checked against the limit is the total of the full accepted history. */
  lemma RollingTotalIsTrue(log: seq<Request>, c: Corridor, now: nat)
    requires InOrder(log) && Replay(log).Ok? && LastTime(log) <= now
    requires RollingTotal(Replay(log).value, SaturatingSub(now, WINDOW), c).Ok?
    ensures RollingTotal(Replay(log).value, SaturatingSub(now, WINDOW), c).value
         == SentBetween(log, c, SaturatingSub(now, WINDOW), now)
  {
    var from := SaturatingSub(now, WINDOW);
    RollingIsSum(Replay(log).value, from, c);
    ReplayAgrees(log, c, from);
    AllUpTo(log, c, from, LastTime(log), now);
  }

  /** A request was accepted only because it fitted the limit together with its whole window. */
  lemma AcceptedWithinLimit(log: seq<Request>, q: Request, from: nat)
    requires InOrder(log) && Replay(log).Ok? && LastTime(log) <= q.now
    requires Enforce(Replay(log).value, q.limits, q.now, q.corridor, q.amount).Ok?
    requires q.corridor in q.limits && from >= SaturatingSub(q.now, WINDOW)
    requires forall p | p in log :: p.amount >= 0
    ensures SentBetween(log, q.corridor, from, q.now) + q.amount <= q.limits[q.corridor]
  {
    var c, earlier := q.corridor, SaturatingSub(q.now, WINDOW);
    RollingTotalIsTrue(log, c, q.now);
    SumByAtMost(log, WindowWeight(c, from, q.now), WindowWeight(c, earlier, q.now));
  }

  /** Whenever something was sent along the corridor, a limit of at most `most` was in force. */
  ghost predicate LimitedTo(log: seq<Request>, c: Corridor, most: int) {
    forall q | q in log && q.corridor == c :: c in q.limits && q.limits[c] <= most
  }

  ghost predicate NoneNegative(log: seq<Request>) {
    forall q | q in log :: q.amount >= 0
  }

  /**
   While the limit is never above `most`, no 24-hour window of a corridor exceeds `most`. Requests at
   time zero are never counted, because the window start saturates at zero and the comparison is strict.
   */
  lemma {:induction false} WindowNeverExceeds(log: seq<Request>, c: Corridor, most: int, t: nat)
    requires InOrder(log) && Replay(log).Ok? && NoneNegative(log) && LimitedTo(log, c, most) && most >= 0
    ensures SentBetween(log, c, SaturatingSub(t, WINDOW), t) <= most
  {
    if log != [] {
      var front, q := log[..|log| - 1], log[|log| - 1];
      OrderOfFront(log);
      assert q in log && forall p | p in front :: p in log;
      var from := SaturatingSub(t, WINDOW);
      if q.corridor == c && from < q.now <= t {
        AcceptedWithinLimit(front, q, from);
        AllUpTo(front, c, from, q.now, t);
      } else {
        WindowNeverExceeds(front, c, most, t);
      }
    }
  }

  ghost predicate NotBefore(log: seq<Request>, start: nat) {
    forall q | q in log :: q.now >= start
  }

  /** With real timestamps that is every window (t - 86400, t]. */
  lemma LimitHolds(log: seq<Request>, c: Corridor, most: int, t: int)
    requires InOrder(log) && Replay(log).Ok? && NoneNegative(log) && LimitedTo(log, c, most) && most >= 0
    requires NotBefore(log, 1)
    ensures SentWithin(log, c, t) <= most
  {
    if t >= 0 {
      WindowNeverExceeds(log, c, most, t);
      SumByAgree(log, WindowWeight(c, t - WINDOW, t), WindowWeight(c, SaturatingSub(t, WINDOW), t));
    } else {
      SumByZero(log, WindowWeight(c, t - WINDOW, t));
    }
  }

  /** At time zero the limit does not hold: two requests of the full limit are both accepted. */
  lemma LimitFailsAtTimeZero(c: Corridor, limit: int)
    requires 0 < limit <= I128_MAX
    ensures var q := Request(0, c, limit, map[c := limit]);
            Replay([q, q]).Ok? && SentWithin([q, q], c, 0) > limit
  {
    var limits := map[c := limit];
    var q := Request(0, c, limit, limits);
    assert [q][..0] == [] && [q, q][..1] == [q];
    assert Replay([]) == Ok([]);
    assert RollingTotal([], 0, c) == Ok(0) && Newer([], 0) == [];
    assert [] + [RecordOf(q)] == [RecordOf(q)];
    assert Replay([q]) == Ok([RecordOf(q)]);
    var records := [TransferRecord(0, limit, c)];
    assert records[..0] == [];
    assert RollingTotal(records, 0, c) == Ok(0);
    assert SumBy([q], WindowWeight(c, 0 - WINDOW, 0)) == limit;
    assert SumBy([q, q], WindowWeight(c, 0 - WINDOW, 0)) == 2 * limit;
  }

  /** Every accepted log from time `start` on stays within `most` in every 24 hours. */
  ghost predicate HoldsFrom(c: Corridor, most: int, start: nat) {
    forall log, t ::
      InOrder(log) && Replay(log).Ok? && NoneNegative(log) && LimitedTo(log, c, most) && NotBefore(log, start)
      ==> SentWithin(log, c, t) <= most
  }

  /** The limit means what it says exactly if the clock does not start at zero. */
  lemma HoldsIffPastZero(c: Corridor, most: int, start: nat)
    requires 0 < most <= I128_MAX
    ensures HoldsFrom(c, most, start) <==> start > 0
  {
    if start > 0 {
      forall log, t | InOrder(log) && Replay(log).Ok? && NoneNegative(log) && LimitedTo(log, c, most)
                      && NotBefore(log, start)
        ensures SentWithin(log, c, t) <= most
      {
        assert NotBefore(log, 1);
        LimitHolds(log, c, most, t);
      }
    } else {
      var q := Request(0, c, most, map[c := most]);
      LimitFailsAtTimeZero(c, most);
      assert InOrder([q, q]) && NoneNegative([q, q]) && LimitedTo([q, q], c, most) && NotBefore([q, q], start);
    }
  }
}
