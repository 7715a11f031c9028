/** The sliding-window limiter of one address and action, against the unpruned log of accepted requests. */
module SlidingWindow {
  import opened Common
  import opened Sums

  const WINDOW_SECONDS: nat := 60

  datatype ActionType = Transfer | Cancellation | Settlement | Query | Admin

  function MaxRequests(action: ActionType): nat {
    match action
    case Transfer => 10
    case Cancellation => 5
    case Settlement => 10
    case Query => 100
    case Admin => U32_MAX
  }

  datatype Entry = Entry(timestamps: seq<nat>, windowStart: nat, requestCount: nat)

  function Recent(timestamps: seq<nat>, windowStart: nat): seq<nat> {
    if timestamps == [] then [] else
      var ts := timestamps[|timestamps| - 1];
      Recent(timestamps[..|timestamps| - 1], windowStart) + if ts >= windowStart then [ts] else []
  }

  /** The entry and the answer after one check; a rejection still stores the pruned entry. */
  function Check(entry: Entry, action: ActionType, now: nat): (Entry, Result<()>) {
    if action.Admin? then (entry, Ok(())) else
      var windowStart := SaturatingSub(now, WINDOW_SECONDS);
      var recent := Recent(entry.timestamps, windowStart);
      if |recent| >= MaxRequests(action)
      then (Entry(recent, windowStart, |recent|), Err(RateLimitExceeded))
      else (Entry(recent + [now], windowStart, |recent| + 1), Ok(()))
  }

  method FilterTimestampsInWindow(timestamps: seq<nat>, windowStart: nat) returns (filtered: seq<nat>)
    ensures filtered == Recent(timestamps, windowStart)
  {
    filtered := [];
    for i := 0 to |timestamps|
      invariant filtered == Recent(timestamps[..i], windowStart)
    {
      assert timestamps[..i + 1][..i] == timestamps[..i];
      var ts := timestamps[i];
      if ts >= windowStart {
        filtered := filtered + [ts];
      }
    }
    assert timestamps[..|timestamps|] == timestamps;
  }

  method CountTimestampsInWindow(timestamps: seq<nat>, windowStart: nat) returns (count: nat)
    ensures count == |Recent(timestamps, windowStart)|
  {
    count := 0;
    for i := 0 to |timestamps|
      invariant count == |Recent(timestamps[..i], windowStart)|
    {
      assert timestamps[..i + 1][..i] == timestamps[..i];
      if timestamps[i] >= windowStart {
        count := count + 1;
      }
    }
    assert timestamps[..|timestamps|] == timestamps;
  }

  class SlidingLimiter {
    var timestamps: seq<nat>
    var windowStart: nat
    var requestCount: nat

    function Snapshot(): Entry
      reads this
    {
      Entry(timestamps, windowStart, requestCount)
    }

    constructor (now: nat)
      ensures Snapshot() == Entry([], now, 0)
    {
      timestamps, windowStart, requestCount := [], now, 0;
    }

    method CheckRateLimit(action: ActionType, now: nat) returns (r: Result<()>)
      modifies this
      ensures (Snapshot(), r) == Check(old(Snapshot()), action, now)
    {
      if action.Admin? {
        return Ok(());
      }
      var maxRequests := MaxRequests(action);
      var start := SaturatingSub(now, WINDOW_SECONDS);
      timestamps := FilterTimestampsInWindow(timestamps, start);
      requestCount := |timestamps|;
      windowStart := start;
      if requestCount >= maxRequests {
        return Err(RateLimitExceeded);
      }
      timestamps := timestamps + [now];
      requestCount := requestCount + 1;
      r := Ok(());
    }
  }

  // ----- runs -----

  /** One request; the host discards what a rejected one wrote unless its caller handles the error. */
  datatype Request = Request(now: nat, rolledBack: bool)

  datatype Outcome = Outcome(entry: Entry, accepted: seq<nat>)

  function Step(s: Outcome, action: ActionType, q: Request): Outcome {
    var (entry, answer) := Check(s.entry, action, q.now);
    match answer
    case Ok(_) => Outcome(entry, s.accepted + [q.now])
    case Err(_) => Outcome(if q.rolledBack then s.entry else entry, s.accepted)
  }

  function Run(start: nat, action: ActionType, qs: seq<Request>): Outcome {
    if qs == [] then Outcome(Entry([], start, 0), []) else
      Step(Run(start, action, qs[..|qs| - 1]), action, qs[|qs| - 1])
  }

  ghost predicate InOrder(qs: seq<Request>) {
    forall i, j | 0 <= i < j < |qs| :: qs[i].now <= qs[j].now
  }

  function LastTime(qs: seq<Request>): nat {
    if qs == [] then 0 else qs[|qs| - 1].now
  }

  lemma {:induction false} RecentRecent(timestamps: seq<nat>, windowStart: nat, from: nat)
    requires windowStart <= from
    ensures Recent(Recent(timestamps, windowStart), from) == Recent(timestamps, from)
  {
    if timestamps != [] {
      var front, ts := timestamps[..|timestamps| - 1], timestamps[|timestamps| - 1];
      RecentRecent(front, windowStart, from);
      var recent := Recent(front, windowStart);
      if ts >= windowStart {
        assert (recent + [ts])[..|recent|] == recent;
      } else {
        assert Recent(timestamps, windowStart) == recent;
        assert Recent(timestamps, from) == Recent(front, from);
      }
    }
  }

  lemma RecentAppend(timestamps: seq<nat>, ts: nat, from: nat)
    ensures Recent(timestamps + [ts], from) == Recent(timestamps, from) + if ts >= from then [ts] else []
  {
    assert (timestamps + [ts])[..|timestamps|] == timestamps;
  }

  lemma StepAgrees(s: Outcome, action: ActionType, q: Request, from: nat)
    requires !action.Admin? && from >= SaturatingSub(q.now, WINDOW_SECONDS)
    requires Recent(s.entry.timestamps, from) == Recent(s.accepted, from)
    ensures var s' := Step(s, action, q);
            Recent(s'.entry.timestamps, from) == Recent(s'.accepted, from)
  {
    var windowStart := SaturatingSub(q.now, WINDOW_SECONDS);
    var recent := Recent(s.entry.timestamps, windowStart);
    RecentRecent(s.entry.timestamps, windowStart, from);
    if |recent| < MaxRequests(action) {
      RecentAppend(recent, q.now, from);
      RecentAppend(s.accepted, q.now, from);
    }
  }

  /** What is stored answers every later window exactly as the log of all accepted requests would. */
  lemma {:induction false} StoredIsAccepted(start: nat, action: ActionType, qs: seq<Request>, from: nat)
    requires InOrder(qs) && !action.Admin? && from >= SaturatingSub(LastTime(qs), WINDOW_SECONDS)
    ensures Recent(Run(start, action, qs).entry.timestamps, from) == Recent(Run(start, action, qs).accepted, from)
  {
    if qs != [] {
      var front, q := qs[..|qs| - 1], qs[|qs| - 1];
      assert front != [] ==> front[|front| - 1] == qs[|qs| - 2];
      StoredIsAccepted(start, action, front, from);
      StepAgrees(Run(start, action, front), action, q, from);
    }
  }

  /** After a request the stored timestamps are exactly the accepted ones still in the window, and are counted. */
  lemma StoredExactly(start: nat, action: ActionType, qs: seq<Request>, now: nat)
    requires InOrder(qs) && !action.Admin? && LastTime(qs) <= now
    ensures var s := Run(start, action, qs);
            var s' := Step(s, action, Request(now, false));
            && s'.entry.timestamps == Recent(s'.accepted, SaturatingSub(now, WINDOW_SECONDS))
            && s'.entry.requestCount == |s'.entry.timestamps|
            && s'.entry.windowStart == if now < 60 then 0 else now - 60
  {
    var s, windowStart := Run(start, action, qs), SaturatingSub(now, WINDOW_SECONDS);
    StoredIsAccepted(start, action, qs, windowStart);
    RecentAppend(s.accepted, now, windowStart);
  }

  /** A request is rejected exactly when the last 60 seconds already hold the maximum. */
  lemma RejectedIffFull(start: nat, action: ActionType, qs: seq<Request>, now: nat)
    requires InOrder(qs) && !action.Admin? && LastTime(qs) <= now
    ensures var s := Run(start, action, qs);
            var inWindow := |Recent(s.accepted, SaturatingSub(now, WINDOW_SECONDS))|;
            Check(s.entry, action, now).1.Err? <==> inWindow >= MaxRequests(action)
  {
    StoredIsAccepted(start, action, qs, SaturatingSub(now, WINDOW_SECONDS));
  }

  /** Administrators are never limited, and nothing is stored for them. */
  lemma NeverLimited(start: nat, qs: seq<Request>)
    ensures Run(start, Admin, qs) == Outcome(Entry([], start, 0), Run(start, Admin, qs).accepted)
    ensures |Run(start, Admin, qs).accepted| == |qs|
  {
  }

  function Within(from: int, to: int): nat -> int {
    (ts: nat) => if from <= ts <= to then 1 else 0
  }

  /** The number of accepted requests in a closed window. */
  function AcceptedIn(accepted: seq<nat>, from: int, to: int): int {
    SumBy(accepted, Within(from, to))
  }

  lemma {:induction false} AcceptedUpTo(start: nat, action: ActionType, qs: seq<Request>)
    requires InOrder(qs)
    ensures forall ts | ts in Run(start, action, qs).accepted :: ts <= LastTime(qs)
  {
    if qs != [] {
      var front := qs[..|qs| - 1];
      assert front != [] ==> front[|front| - 1] == qs[|qs| - 2];
      AcceptedUpTo(start, action, front);
    }
  }

  lemma {:induction false} CountIsRecent(accepted: seq<nat>, from: nat, to: nat)
    requires forall ts | ts in accepted :: ts <= to
    ensures AcceptedIn(accepted, from, to) == |Recent(accepted, from)|
  {
    if accepted != [] {
      var front := accepted[..|accepted| - 1];
      assert accepted[|accepted| - 1] in accepted;
      assert forall ts | ts in front :: ts in accepted;
      CountIsRecent(front, from, to);
    }
  }

  lemma AcceptedSnoc(accepted: seq<nat>, ts: nat, from: int, to: int)
    ensures AcceptedIn(accepted + [ts], from, to) == AcceptedIn(accepted, from, to) + if from <= ts <= to then 1 else 0
  {
    assert (accepted + [ts])[..|accepted|] == accepted;
  }

  lemma OrderOfFront(qs: seq<Request>)
    requires InOrder(qs) && qs != []
    ensures InOrder(qs[..|qs| - 1]) && LastTime(qs[..|qs| - 1]) <= qs[|qs| - 1].now
  {
    var front := qs[..|qs| - 1];
    assert front != [] ==> front[|front| - 1] == qs[|qs| - 2];
  }

  /** A request is accepted only if every window that contains it still has room. */
  lemma RoomLeft(start: nat, action: ActionType, qs: seq<Request>, now: nat, t: nat)
    requires InOrder(qs) && !action.Admin? && LastTime(qs) <= now && t <= now <= t + WINDOW_SECONDS
    requires Check(Run(start, action, qs).entry, action, now).1.Ok?
    ensures AcceptedIn(Run(start, action, qs).accepted, t, t + WINDOW_SECONDS) < MaxRequests(action)
  {
    var accepted, windowStart := Run(start, action, qs).accepted, SaturatingSub(now, WINDOW_SECONDS);
    AcceptedUpTo(start, action, qs);
    RejectedIffFull(start, action, qs, now);
    CountIsRecent(accepted, windowStart, now);
    SumByAtMost(accepted, Within(t, t + WINDOW_SECONDS), Within(windowStart, now));
  }

  /** Every closed 60-second window of every run holds at most the maximum. */
  lemma {:induction false} WindowBound(start: nat, action: ActionType, qs: seq<Request>, t: nat)
    requires InOrder(qs) && !action.Admin?
    ensures AcceptedIn(Run(start, action, qs).accepted, t, t + WINDOW_SECONDS) <= MaxRequests(action)
  {
    if qs != [] {
      var front, q := qs[..|qs| - 1], qs[|qs| - 1];
      OrderOfFront(qs);
      WindowBound(start, action, front, t);
      var s := Run(start, action, front);
      if Check(s.entry, action, q.now).1.Ok? {
        AcceptedSnoc(s.accepted, q.now, t, t + WINDOW_SECONDS);
        if t <= q.now <= t + WINDOW_SECONDS {
          RoomLeft(start, action, front, q.now, t);
        }
      }
    }
  }
}
