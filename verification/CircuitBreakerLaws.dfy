/** Safety of the gated unpause over every run. */
module CircuitBreakerLaws {
  import opened Common
  import opened CircuitBreaker

  /** One unpause, with the gates that were in force. */
  datatype Lifted = Lifted(
    sequence: nat, at: nat, gated: bool, pausedAt: nat, timelock: nat, quorum: nat, voters: set<Address>)

  datatype World = World(s: State, clock: nat, lifted: seq<Lifted>)

  datatype Step =
    | LegacyPause(caller: Address)
    | LegacyUnpause(caller: Address)
    | EmergencyPause(caller: Address, reason: PauseReason)
    | EmergencyUnpause(caller: Address)
    | VoteToUnpause(caller: Address)
    | ChangeTimelock(caller: Address, seconds: nat)
    | ChangeQuorum(caller: Address, quorum: nat)
    | ChangeCooldown(caller: Address, seconds: nat)
    | ChangeAdmins(roles: set<Address>, count: nat) // whatever admin management does

  datatype Call = Call(now: nat, step: Step)

  function Apply(s: State, call: Call): Result<State> {
    match call.step
    case LegacyPause(caller) => Pause(s, call.now, caller, MaintenanceWindow, true)
    case LegacyUnpause(caller) => Unpause(s, call.now, caller, true)
    case EmergencyPause(caller, reason) => Pause(s, call.now, caller, reason, false)
    case EmergencyUnpause(caller) => Unpause(s, call.now, caller, false)
    case VoteToUnpause(caller) => VoteUnpause(s, call.now, caller)
    case ChangeTimelock(caller, seconds) => SetTimelock(s, caller, seconds)
    case ChangeQuorum(caller, quorum) => SetQuorum(s, caller, quorum)
    case ChangeCooldown(caller, seconds) => SetCooldown(s, caller, seconds)
    case ChangeAdmins(roles, count) => Ok(s.(adminRoles := roles, adminCount := count))
  }

  function PausedAt(s: State): nat {
    if s.active.Some? && s.active.value in s.pauseRecords then s.pauseRecords[s.active.value].timestamp else 0
  }

  /** A failed call changes nothing but the clock; every unpause is written down. */
  function Next(w: World, call: Call): World {
    match Apply(w.s, call)
    case Err(_) => w.(clock := call.now)
    case Ok(s') =>
      var q := w.s.ActiveOrZero();
      World(s', call.now,
            if w.s.paused && !s'.paused
            then w.lifted + [Lifted(q, call.now, !call.step.LegacyUnpause?, PausedAt(w.s),
                                    w.s.timelock, w.s.quorum, Voters(s'.votes, q))]
            else w.lifted)
  }

  function Run(admin: Address, calls: seq<Call>): World {
    if calls == [] then World(Initial(admin), 0, []) else
      Next(Run(admin, calls[..|calls| - 1]), calls[|calls| - 1])
  }

  ghost predicate InOrder(calls: seq<Call>) {
    forall i, j | 0 <= i < j < |calls| :: calls[i].now <= calls[j].now
  }

  // ----- the invariant -----

  /** Paused means: an active pause exists, it is the latest, and its record is stored. */
  ghost predicate PauseInv(s: State) {
    && (s.paused <==> s.active.Some?)
    && (s.active.Some? ==> s.active.value == s.sequence && s.sequence in s.pauseRecords)
  }

  ghost predicate VotesInv(s: State) {
    && s.quorum >= 1
    && (forall q :: VoteCount(s.voteCounts, q) == |Voters(s.votes, q)|)
    && (forall q | q in s.votes || q in s.pauseRecords :: q <= s.sequence)
  }

  ghost predicate LiftedOk(s: State, e: Lifted) {
    && e.sequence in s.pauseRecords && s.pauseRecords[e.sequence].timestamp == e.pausedAt
    && e.voters <= Voters(s.votes, e.sequence)
    && (e.gated ==> e.at >= e.pausedAt + e.timelock && |e.voters| >= e.quorum >= 1)
  }

  ghost predicate Inv(w: World) {
    && PauseInv(w.s)
    && VotesInv(w.s)
    && (forall q | q in w.s.pauseRecords :: w.s.pauseRecords[q].timestamp <= w.clock)
    && (forall e | e in w.lifted :: LiftedOk(w.s, e))
  }

  /** With the invariant the nested lookups of the timelock check always succeed. */
  lemma TimelockNeverSkipped(s: State, now: nat)
    requires PauseInv(s) && s.paused
    ensures s.active == Some(s.sequence) && s.sequence in s.pauseRecords
    ensures TimelockBlocks(s, now) <==>
            (s.timelock > 0 && now < s.pauseRecords[s.sequence].timestamp + s.timelock)
  {
  }

  lemma PauseKeepsInv(w: World, now: nat, caller: Address, reason: PauseReason, bypass: bool)
    requires Inv(w) && w.clock <= now && Pause(w.s, now, caller, reason, bypass).Ok?
    ensures Inv(World(Pause(w.s, now, caller, reason, bypass).value, now, w.lifted))
  {
  }

  lemma UnpauseKeepsInv(s: State, clock: nat, now: nat, caller: Address, bypass: bool)
    requires PauseInv(s) && VotesInv(s) && clock <= now && Unpause(s, now, caller, bypass).Ok?
    requires forall q | q in s.pauseRecords :: s.pauseRecords[q].timestamp <= clock
    ensures var s' := Unpause(s, now, caller, bypass).value;
            && PauseInv(s') && VotesInv(s') && s'.votes == s.votes && s'.pauseRecords == s.pauseRecords
            && LiftedOk(s', Lifted(s.ActiveOrZero(), now, !bypass, PausedAt(s), s.timelock, s.quorum,
                                   Voters(s.votes, s.ActiveOrZero())))
  {
  }

  lemma CastVoteKeepsInv(s: State, voter: Address)
    requires PauseInv(s) && VotesInv(s) && s.paused && voter !in Voters(s.votes, s.ActiveOrZero())
    ensures var s' := CastVote(s, s.ActiveOrZero(), voter);
            && PauseInv(s') && VotesInv(s') && s'.pauseRecords == s.pauseRecords
            && forall q :: Voters(s.votes, q) <= Voters(s'.votes, q)
  {
    var s', active := CastVote(s, s.ActiveOrZero(), voter), s.ActiveOrZero();
    forall q
      ensures VoteCount(s'.voteCounts, q) == |Voters(s'.votes, q)|
    {
      if q == active {
        assert Voters(s'.votes, q) == Voters(s.votes, q) + {voter};
      } else {
        assert Voters(s'.votes, q) == Voters(s.votes, q);
      }
    }
  }

  lemma VoteKeepsInv(w: World, call: Call)
    requires Inv(w) && w.clock <= call.now && call.step.VoteToUnpause?
    ensures Inv(Next(w, call))
  {
    if Apply(w.s, call).Ok? {
      var s' := CastVote(w.s, w.s.ActiveOrZero(), call.step.caller);
      CastVoteKeepsInv(w.s, call.step.caller);
      forall e | e in w.lifted
        ensures LiftedOk(s', e)
      {
        assert LiftedOk(w.s, e);
      }
      if VoteCount(s'.voteCounts, w.s.ActiveOrZero()) >= w.s.quorum {
        UnpauseKeepsInv(s', w.clock, call.now, call.step.caller, false);
      }
    }
  }

  lemma StepKeepsInv(w: World, call: Call)
    requires Inv(w) && w.clock <= call.now
    ensures Inv(Next(w, call))
  {
    if Apply(w.s, call).Ok? {
      match call.step {
        case LegacyPause(caller) => PauseKeepsInv(w, call.now, caller, MaintenanceWindow, true);
        case EmergencyPause(caller, reason) => PauseKeepsInv(w, call.now, caller, reason, false);
        case LegacyUnpause(caller) => UnpauseKeepsInv(w.s, w.clock, call.now, caller, true);
        case EmergencyUnpause(caller) => UnpauseKeepsInv(w.s, w.clock, call.now, caller, false);
        case VoteToUnpause(_) => VoteKeepsInv(w, call);
        case _ =>
      }
    }
  }

  lemma {:induction false} RunKeepsInv(admin: Address, calls: seq<Call>)
    requires InOrder(calls)
    ensures Inv(Run(admin, calls))
    ensures calls != [] ==> Run(admin, calls).clock == calls[|calls| - 1].now
  {
    if calls != [] {
      var front := calls[..|calls| - 1];
      assert front != [] ==> front[|front| - 1] == calls[|calls| - 2];
      RunKeepsInv(admin, front);
      StepKeepsInv(Run(admin, front), calls[|calls| - 1]);
    }
  }

  // ----- what it means -----

  /** In every run, paused holds exactly when the latest pause is active, and then its record exists. */
  lemma PausedIffLatestActive(admin: Address, calls: seq<Call>)
    requires InOrder(calls)
    ensures var s := Run(admin, calls).s;
            && (s.paused <==> s.active.Some?)
            && (s.paused ==> s.active == Some(s.sequence) && s.sequence in s.pauseRecords)
  {
    RunKeepsInv(admin, calls);
  }

  /**
   Every unpause except the legacy one came after the full timelock, with at least a quorum of
   distinct votes cast for that same pause.
   */
  lemma GatedUnpauseSafe(admin: Address, calls: seq<Call>, i: nat)
    requires InOrder(calls) && i < |Run(admin, calls).lifted| && Run(admin, calls).lifted[i].gated
    ensures var w := Run(admin, calls);
            var e := w.lifted[i];
            && e.sequence in w.s.pauseRecords
            && e.at >= w.s.pauseRecords[e.sequence].timestamp + e.timelock
            && e.voters <= Voters(w.s.votes, e.sequence)
            && |e.voters| >= e.quorum >= 1
  {
    RunKeepsInv(admin, calls);
    assert Run(admin, calls).lifted[i] in Run(admin, calls).lifted;
  }

  /** The quorum is never set below its current value. */
  ghost predicate NeverLowers(admin: Address, calls: seq<Call>) {
    forall i | 0 <= i < |calls| && calls[i].step.ChangeQuorum? ::
      calls[i].step.quorum >= Run(admin, calls[..i]).s.quorum
  }

  ghost predicate BelowQuorum(s: State) {
    s.paused ==> VoteCount(s.voteCounts, s.ActiveOrZero()) < s.quorum
  }

  lemma VoteStaysBelow(s: State, now: nat, caller: Address)
    requires VoteUnpause(s, now, caller).Ok?
    ensures BelowQuorum(VoteUnpause(s, now, caller).value)
  {
  }

  lemma PauseStaysBelow(s: State, now: nat, caller: Address, reason: PauseReason, bypass: bool)
    requires VotesInv(s) && Pause(s, now, caller, reason, bypass).Ok?
    ensures BelowQuorum(Pause(s, now, caller, reason, bypass).value)
  {
  }

  lemma StepStaysBelow(s: State, call: Call)
    requires PauseInv(s) && VotesInv(s) && BelowQuorum(s) && Apply(s, call).Ok?
    requires call.step.ChangeQuorum? ==> call.step.quorum >= s.quorum
    ensures BelowQuorum(Apply(s, call).value)
  {
    match call.step
    case VoteToUnpause(caller) => VoteStaysBelow(s, call.now, caller);
    case LegacyPause(caller) => PauseStaysBelow(s, call.now, caller, MaintenanceWindow, true);
    case EmergencyPause(caller, reason) => PauseStaysBelow(s, call.now, caller, reason, false);
    case _ =>
  }

  /** While the quorum is not lowered, a paused contract always has fewer votes than the quorum. */
  lemma {:induction false} PausedBelowQuorum(admin: Address, calls: seq<Call>)
    requires InOrder(calls) && NeverLowers(admin, calls)
    ensures BelowQuorum(Run(admin, calls).s)
  {
    if calls != [] {
      var front, call := calls[..|calls| - 1], calls[|calls| - 1];
      forall i | 0 <= i < |front| && front[i].step.ChangeQuorum?
        ensures front[i].step.quorum >= Run(admin, front[..i]).s.quorum
      {
        assert front[..i] == calls[..i];
      }
      PausedBelowQuorum(admin, front);
      RunKeepsInv(admin, front);
      if Apply(Run(admin, front).s, call).Ok? {
        StepStaysBelow(Run(admin, front).s, call);
      }
    }
  }

  /** Lowering the quorum is the exception: a paused contract can then hold enough votes and stay paused. */
  lemma LoweringIff(s: State, caller: Address, quorum: nat)
    requires s.paused && caller in s.adminRoles && 1 <= quorum <= s.adminCount
    ensures SetQuorum(s, caller, quorum).Ok?
    ensures !BelowQuorum(SetQuorum(s, caller, quorum).value)
       <==> quorum <= VoteCount(s.voteCounts, s.ActiveOrZero())
  {
  }

  /**
   What still works then: every further vote is refused, so voting cannot lift the pause, but an
   admin can, exactly once the timelock has passed.
   */
  lemma EnoughVotesButPaused(admin: Address, calls: seq<Call>, now: nat, caller: Address)
    requires InOrder(calls) && Run(admin, calls).clock <= now
    requires Run(admin, calls).s.paused && !BelowQuorum(Run(admin, calls).s)
    ensures var s := Run(admin, calls).s;
            && VoteUnpause(s, now, caller).Err?
            && s.sequence in s.pauseRecords
            && (Unpause(s, now, caller, false).Ok?
                <==> caller in s.adminRoles && now >= s.pauseRecords[s.sequence].timestamp + s.timelock)
  {
    RunKeepsInv(admin, calls);
    TimelockNeverSkipped(Run(admin, calls).s, now);
  }

  lemma RunSnoc(admin: Address, calls: seq<Call>, call: Call)
    ensures Run(admin, calls + [call]) == Next(Run(admin, calls), call)
  {
    assert (calls + [call])[..|calls|] == calls;
  }

  /** Two admins, a quorum of two, a timelock of 100 seconds, a pause and one vote; then the quorum drops to one. */
  function Setup(a: Address, b: Address): seq<Call> {
    [Call(1, ChangeAdmins({a, b}, 2))] + [Call(1, ChangeQuorum(a, 2))] + [Call(1, ChangeTimelock(a, 100))]
  }

  function Lowering(a: Address, b: Address): seq<Call> {
    Setup(a, b) + [Call(1, EmergencyPause(a, SecurityIncident))] + [Call(1, VoteToUnpause(a))]
    + [Call(1, ChangeQuorum(a, 1))]
  }

  function Ready(a: Address, b: Address): State {
    Initial(a).(adminRoles := {a, b}, adminCount := 2, quorum := 2, timelock := 100)
  }

  lemma SetupRun(a: Address, b: Address)
    ensures Run(a, Setup(a, b)) == World(Ready(a, b), 1, [])
  {
    var admins, quorum := Call(1, ChangeAdmins({a, b}, 2)), Call(1, ChangeQuorum(a, 2));
    RunSnoc(a, [], admins);
    assert [] + [admins] == [admins];
    RunSnoc(a, [admins], quorum);
    RunSnoc(a, [admins] + [quorum], Call(1, ChangeTimelock(a, 100)));
  }

  /** The state after the pause and the vote, with this quorum. */
  function Voted(a: Address, b: Address, quorum: nat): State {
    Ready(a, b).(paused := true, sequence := 1, active := Some(1), quorum := quorum,
                 pauseRecords := map[1 := PauseRecord(1, a, 1, SecurityIncident)],
                 votes := map[1 := {a}], voteCounts := map[1 := 1])
  }

  lemma LoweringRun(a: Address, b: Address)
    ensures Run(a, Lowering(a, b)) == World(Voted(a, b, 1), 1, [])
  {
    var pause, vote, lower := Call(1, EmergencyPause(a, SecurityIncident)), Call(1, VoteToUnpause(a)),
                              Call(1, ChangeQuorum(a, 1));
    SetupRun(a, b);
    RunSnoc(a, Setup(a, b), pause);
    RunSnoc(a, Setup(a, b) + [pause], vote);
    RunSnoc(a, Setup(a, b) + [pause] + [vote], lower);
    var paused := Pause(Ready(a, b), 1, a, SecurityIncident, false).value;
    assert Voters(paused.votes, 1) + {a} == {a};
    assert CastVote(paused, 1, a) == Voted(a, b, 2);
  }

  /**
   That run leaves the contract paused with as many votes as the quorum: the other admin's vote is
   refused, and an admin can lift the pause from time 101 on.
   */
  lemma LoweredQuorumExample(a: Address, b: Address, now: nat)
    requires now >= 1
    ensures InOrder(Lowering(a, b))
    ensures var s := Run(a, Lowering(a, b)).s;
            && s.paused && !BelowQuorum(s) && VoteUnpause(s, now, b).Err?
            && (Unpause(s, now, b, false).Ok? <==> now >= 101)
  {
    LoweringRun(a, b);
    EnoughVotesButPaused(a, Lowering(a, b), now, b);
  }
}
