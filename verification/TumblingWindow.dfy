/** The counter-based limiter: one counter per window, halved during the cooldown after an unpause. */
module TumblingWindow {
  import opened Common
  import opened Sums

  datatype Config = Config(maxRequests: nat, windowSeconds: nat, enabled: bool)

  datatype Entry = Entry(requestCount: nat, windowStart: nat)

  /** What the circuit breaker contributes: the last unpause, if any, and the cooldown period. */
  datatype Cooldown = Cooldown(lastUnpause: Option<nat>, period: nat)

  predicate Cooling(cooldown: Cooldown, now: nat) {
    cooldown.lastUnpause.Some? && SaturatingSub(now, cooldown.lastUnpause.value) < cooldown.period
  }

  function HalvedMax(cfg: Config): nat {
    Max(cfg.maxRequests / 2, 1)
  }

  function EffectiveMax(cfg: Config, cooldown: Cooldown, now: nat): nat {
    if Cooling(cooldown, now) then HalvedMax(cfg) else cfg.maxRequests
  }

  function Stored(entry: Option<Entry>, now: nat): Entry {
    match entry
    case Some(e) => e
    case None => Entry(0, now)
  }

  function Check(entry: Option<Entry>, cfg: Config, cooldown: Cooldown, now: nat): Result<Option<Entry>> {
    if !cfg.enabled then Ok(entry) else
      var e := Stored(entry, now);
      if SaturatingSub(now, e.windowStart) >= cfg.windowSeconds then
        Ok(Some(Entry(1, now)))
      else if e.requestCount >= EffectiveMax(cfg, cooldown, now) then
        Err(RateLimitExceeded)
      else
        Ok(Some(Entry(Min(e.requestCount + 1, U32_MAX), e.windowStart)))
  }

  class TumblingLimiter {
    var entry: Option<Entry>

    constructor ()
      ensures entry == None
    {
      entry := None;
    }

    method CheckRateLimit(cfg: Config, cooldown: Cooldown, now: nat) returns (r: Result<()>)
      modifies this
      ensures match Check(old(entry), cfg, cooldown, now)
              case Ok(e) => r == Ok(()) && entry == e
              case Err(error) => r == Err(error) && entry == old(entry)
    {
      if !cfg.enabled {
        return Ok(());
      }
      var effectiveMax := cfg.maxRequests;
      if cooldown.lastUnpause.Some? {
        if SaturatingSub(now, cooldown.lastUnpause.value) < cooldown.period {
          effectiveMax := Max(cfg.maxRequests / 2, 1);
        }
      }
      var current := if entry.Some? then entry.value else Entry(0, now);
      var windowElapsed := SaturatingSub(now, current.windowStart);
      if windowElapsed >= cfg.windowSeconds {
        current := Entry(1, now);
      } else {
        if current.requestCount >= effectiveMax {
          return Err(RateLimitExceeded);
        }
        current := current.(requestCount := Min(current.requestCount + 1, U32_MAX));
      }
      entry := Some(current);
      r := Ok(());
    }
  }

  // ----- runs with a constant configuration -----

  datatype Request = Request(now: nat, cooldown: Cooldown)

  /** An accepted request, the start of the window that counted it, and whether the cooldown was on. */
  datatype Accepted = Accepted(time: nat, window: nat, cooling: bool)

  datatype State = State(entry: Option<Entry>, accepted: seq<Accepted>)

  function Step(s: State, cfg: Config, q: Request): State {
    match Check(s.entry, cfg, q.cooldown, q.now)
    case Err(_) => s
    case Ok(None) => s
    case Ok(Some(e)) => State(Some(e), s.accepted + [Accepted(q.now, e.windowStart, Cooling(q.cooldown, q.now))])
  }

  function Run(cfg: Config, qs: seq<Request>): State {
    if qs == [] then State(None, []) else Step(Run(cfg, qs[..|qs| - 1]), cfg, qs[|qs| - 1])
  }

  ghost predicate InOrder(qs: seq<Request>) {
    forall i, j | 0 <= i < j < |qs| :: qs[i].now <= qs[j].now
  }

  function LastTime(qs: seq<Request>): nat {
    if qs == [] then 0 else qs[|qs| - 1].now
  }

  ghost predicate Usable(cfg: Config) {
    cfg.enabled && 1 <= cfg.maxRequests <= U32_MAX && cfg.windowSeconds > 0
  }

  function InWindow(window: int): Accepted -> int {
    (a: Accepted) => if a.window == window then 1 else 0
  }

  /** The number of requests that one stored window accepted. */
  function WindowCount(accepted: seq<Accepted>, window: int): int {
    SumBy(accepted, InWindow(window))
  }

  ghost predicate Apart(accepted: seq<Accepted>, windowSeconds: nat) {
    forall a, b | a in accepted && b in accepted :: a.window == b.window || Abs(a.window - b.window) >= windowSeconds
  }

  /** What every run keeps: windows are disjoint and each counted its own requests. */
  ghost predicate Inv(s: State, cfg: Config, last: nat) {
    && (forall a | a in s.accepted :: a.window <= a.time < a.window + cfg.windowSeconds)
    && Apart(s.accepted, cfg.windowSeconds)
    && (forall w :: WindowCount(s.accepted, w) <= cfg.maxRequests)
    && match s.entry
       case None => s.accepted == []
       case Some(e) =>
         && e.windowStart <= last && e.requestCount == WindowCount(s.accepted, e.windowStart)
         && (forall a | a in s.accepted :: a.window == e.windowStart || a.window + cfg.windowSeconds <= e.windowStart)
  }

  lemma CountAppend(accepted: seq<Accepted>, a: Accepted, window: int)
    ensures WindowCount(accepted + [a], window) == WindowCount(accepted, window) + if a.window == window then 1 else 0
  {
    assert (accepted + [a])[..|accepted|] == accepted;
  }

  /** A new window starts only after every earlier one has ended. */
  lemma NewWindowKeepsInv(s: State, cfg: Config, now: nat, last: nat, cooling: bool)
    requires Usable(cfg) && Inv(s, cfg, last) && last <= now
    requires s.entry.None? || now - s.entry.value.windowStart >= cfg.windowSeconds
    ensures Inv(State(Some(Entry(1, now)), s.accepted + [Accepted(now, now, cooling)]), cfg, now)
  {
    var a := Accepted(now, now, cooling);
    forall b | b in s.accepted
      ensures b.window + cfg.windowSeconds <= now
    {
    }
    SumByZero(s.accepted, InWindow(now));
    forall w
      ensures WindowCount(s.accepted + [a], w) <= cfg.maxRequests
    {
      CountAppend(s.accepted, a, w);
    }
    CountAppend(s.accepted, a, now);
  }

  lemma SameWindowKeepsInv(s: State, cfg: Config, now: nat, last: nat, cooling: bool)
    requires Usable(cfg) && Inv(s, cfg, last) && last <= now && s.entry.Some?
    requires now - s.entry.value.windowStart < cfg.windowSeconds
    requires s.entry.value.requestCount < cfg.maxRequests
    ensures var e := s.entry.value;
            var a := Accepted(now, e.windowStart, cooling);
            Inv(State(Some(Entry(e.requestCount + 1, e.windowStart)), s.accepted + [a]), cfg, now)
  {
    var e := s.entry.value;
    var a := Accepted(now, e.windowStart, cooling);
    forall w
      ensures WindowCount(s.accepted + [a], w) <= cfg.maxRequests
    {
      CountAppend(s.accepted, a, w);
    }
    CountAppend(s.accepted, a, e.windowStart);
  }

  lemma StepKeepsInv(s: State, cfg: Config, q: Request, last: nat)
    requires Usable(cfg) && Inv(s, cfg, last) && last <= q.now
    ensures Inv(Step(s, cfg, q), cfg, q.now)
  {
    if Check(s.entry, cfg, q.cooldown, q.now).Ok? {
      if s.entry.None? || q.now - s.entry.value.windowStart >= cfg.windowSeconds {
        NewWindowKeepsInv(s, cfg, q.now, last, Cooling(q.cooldown, q.now));
      } else {
        SameWindowKeepsInv(s, cfg, q.now, last, Cooling(q.cooldown, q.now));
      }
    }
  }

  /** Each stored window accepts at most the configured maximum, even while the cooldown halves it. */
  lemma {:induction false} RunKeepsInv(cfg: Config, qs: seq<Request>)
    requires Usable(cfg) && InOrder(qs)
    ensures Inv(Run(cfg, qs), cfg, LastTime(qs))
  {
    if qs == [] {
      assert forall w :: WindowCount([], w) == 0;
    } else {
      var front := qs[..|qs| - 1];
      assert front != [] ==> front[|front| - 1] == qs[|qs| - 2];
      RunKeepsInv(cfg, front);
      StepKeepsInv(Run(cfg, front), cfg, qs[|qs| - 1], LastTime(front));
    }
  }

  // ----- when a request is accepted -----

  /** The limit at this moment: half of it, but at least one, for a while after an unpause. */
  function LimitAt(cfg: Config, q: Request): nat {
    if q.cooldown.lastUnpause.Some? && q.cooldown.period > 0 && q.now < q.cooldown.lastUnpause.value + q.cooldown.period
    then (if cfg.maxRequests < 2 then 1 else cfg.maxRequests / 2)
    else cfg.maxRequests
  }

  /** The window of the last accepted request. */
  function LastWindow(s: State): int
    requires s.accepted != []
  {
    s.accepted[|s.accepted| - 1].window
  }

  lemma StepWindow(s: State, cfg: Config, q: Request)
    requires s.entry.Some? ==> s.accepted != [] && LastWindow(s) == s.entry.value.windowStart
    ensures var s' := Step(s, cfg, q);
            s'.entry.Some? ==> s'.accepted != [] && LastWindow(s') == s'.entry.value.windowStart
  {
  }

  lemma {:induction false} RunWindow(cfg: Config, qs: seq<Request>)
    ensures var s := Run(cfg, qs);
            s.entry.Some? ==> s.accepted != [] && LastWindow(s) == s.entry.value.windowStart
  {
    if qs != [] {
      RunWindow(cfg, qs[..|qs| - 1]);
      StepWindow(Run(cfg, qs[..|qs| - 1]), cfg, qs[|qs| - 1]);
    }
  }

  /** The last window has ended. */
  predicate WindowOver(s: State, cfg: Config, q: Request) {
    s.accepted == [] || q.now >= LastWindow(s) + cfg.windowSeconds
  }

  /**
   In every run a request is accepted exactly when the last window is over, and then it starts a new one,
   or when that window has accepted fewer requests than the limit of the moment.
   */
  lemma AcceptedIff(cfg: Config, qs: seq<Request>, q: Request)
    requires Usable(cfg) && InOrder(qs) && LastTime(qs) <= q.now
    ensures var s, s' := Run(cfg, qs), Step(Run(cfg, qs), cfg, q);
            if WindowOver(s, cfg, q) || WindowCount(s.accepted, LastWindow(s)) < LimitAt(cfg, q)
            then && |s'.accepted| == |s.accepted| + 1 && s.accepted <= s'.accepted
                 && s'.accepted[|s.accepted|].time == q.now
                 && LastWindow(s') == if WindowOver(s, cfg, q) then q.now else LastWindow(s)
            else s' == s && Check(s.entry, cfg, q.cooldown, q.now) == Err(RateLimitExceeded)
  {
    RunKeepsInv(cfg, qs);
    RunWindow(cfg, qs);
  }

  /** Every request that the window accepted was made during the cooldown. */
  ghost predicate WhollyCooling(accepted: seq<Accepted>, window: int) {
    forall a | a in accepted && a.window == window :: a.cooling
  }

  lemma StepHalved(s: State, cfg: Config, q: Request, last: nat, window: int)
    requires Usable(cfg) && Inv(s, cfg, last)
    requires WindowCount(s.accepted, window) <= HalvedMax(cfg)
    requires WhollyCooling(Step(s, cfg, q).accepted, window)
    ensures WindowCount(Step(s, cfg, q).accepted, window) <= HalvedMax(cfg)
  {
    var s' := Step(s, cfg, q);
    if s' != s {
      var a := s'.accepted[|s.accepted|];
      assert a in s'.accepted;
      CountAppend(s.accepted, a, window);
      if a.window == window && (s.entry.None? || q.now - s.entry.value.windowStart >= cfg.windowSeconds) {
        SumByZero(s.accepted, InWindow(window));
      }
    }
  }

  /** A stored window that lies wholly in the cooldown accepts at most the halved maximum. */
  lemma {:induction false} HalvedInCooldown(cfg: Config, qs: seq<Request>, window: int)
    requires Usable(cfg) && InOrder(qs) && WhollyCooling(Run(cfg, qs).accepted, window)
    ensures WindowCount(Run(cfg, qs).accepted, window) <= HalvedMax(cfg)
  {
    if qs != [] {
      var front, q := qs[..|qs| - 1], qs[|qs| - 1];
      RunKeepsInv(cfg, front);
      assert Run(cfg, front).accepted <= Run(cfg, qs).accepted;
      assert forall a | a in Run(cfg, front).accepted :: a in Run(cfg, qs).accepted;
      HalvedInCooldown(cfg, front, window);
      StepHalved(Run(cfg, front), cfg, q, LastTime(front), window);
    }
  }

  function Started(from: int, to: int): Accepted -> int {
    (a: Accepted) => if from < a.window <= to then 1 else 0
  }

  function During(from: int, to: int): Accepted -> int {
    (a: Accepted) => if from <= a.time <= to then 1 else 0
  }

  /** Windows that start within one window length of each other are one and the same. */
  lemma OneWindow(s: State, cfg: Config, last: nat, from: int)
    requires Usable(cfg) && Inv(s, cfg, last)
    ensures SumBy(s.accepted, Started(from, from + cfg.windowSeconds)) <= cfg.maxRequests
  {
    if a :| a in s.accepted && from < a.window <= from + cfg.windowSeconds {
      assert WindowCount(s.accepted, a.window) <= cfg.maxRequests;
      SumByAtMost(s.accepted, Started(from, from + cfg.windowSeconds), InWindow(a.window));
    } else {
      SumByZero(s.accepted, Started(from, from + cfg.windowSeconds));
    }
  }

  /** Any closed interval of one window length holds at most twice the maximum. */
  lemma IntervalBound(cfg: Config, qs: seq<Request>, t: int)
    requires Usable(cfg) && InOrder(qs)
    ensures SumBy(Run(cfg, qs).accepted, During(t, t + cfg.windowSeconds)) <= 2 * cfg.maxRequests
  {
    var s, w := Run(cfg, qs), cfg.windowSeconds;
    RunKeepsInv(cfg, qs);
    OneWindow(s, cfg, LastTime(qs), t - w);
    OneWindow(s, cfg, LastTime(qs), t);
    SumByPlus(s.accepted, Started(t - w, t), Started(t, t + w), Started(t - w, t + w));
    SumByAtMost(s.accepted, During(t, t + w), Started(t - w, t + w));
  }
}
