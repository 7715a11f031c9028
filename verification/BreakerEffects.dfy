/** What the stored keys of the circuit breaker say about a run: its pauses, its unpauses and its last settings. */
module BreakerEffects {
  import opened Common
  import opened CircuitBreaker
  import opened CircuitBreakerLaws

  /** The accepted calls of a run. */
  function Accepted(admin: Address, calls: seq<Call>): seq<Call> {
    if calls == [] then [] else
      var front, call := calls[..|calls| - 1], calls[|calls| - 1];
      Accepted(admin, front) + if Apply(Run(admin, front).s, call).Ok? then [call] else []
  }

  /** Its accepted pauses, numbered from one; a legacy pause counts as maintenance. */
  function Pauses(accepted: seq<Call>): seq<PauseRecord> {
    if accepted == [] then [] else
      var before, call := Pauses(accepted[..|accepted| - 1]), accepted[|accepted| - 1];
      match call.step
      case LegacyPause(caller) => before + [PauseRecord(|before| + 1, caller, call.now, MaintenanceWindow)]
      case EmergencyPause(caller, reason) => before + [PauseRecord(|before| + 1, caller, call.now, reason)]
      case _ => before
  }

  // ----- the last settings -----

  function LastTimelock(accepted: seq<Call>): nat {
    if accepted == [] then 0 else
      match accepted[|accepted| - 1].step
      case ChangeTimelock(_, seconds) => seconds
      case _ => LastTimelock(accepted[..|accepted| - 1])
  }

  function LastQuorum(accepted: seq<Call>): nat {
    if accepted == [] then 1 else
      match accepted[|accepted| - 1].step
      case ChangeQuorum(_, quorum) => quorum
      case _ => LastQuorum(accepted[..|accepted| - 1])
  }

  function LastCooldown(accepted: seq<Call>): nat {
    if accepted == [] then 3600 else
      match accepted[|accepted| - 1].step
      case ChangeCooldown(_, seconds) => seconds
      case _ => LastCooldown(accepted[..|accepted| - 1])
  }

  /** The admins and their stored count, as admin management last left them. */
  function LastAdmins(admin: Address, accepted: seq<Call>): (set<Address>, nat) {
    if accepted == [] then ({admin}, 1) else
      match accepted[|accepted| - 1].step
      case ChangeAdmins(roles, count) => (roles, count)
      case _ => LastAdmins(admin, accepted[..|accepted| - 1])
  }

  predicate SettingsOk(s: State, admin: Address, accepted: seq<Call>) {
    && s.timelock == LastTimelock(accepted) <= MAX_SECONDS && s.cooldown == LastCooldown(accepted) <= MAX_SECONDS
    && s.quorum == LastQuorum(accepted) >= 1
    && (s.adminRoles, s.adminCount) == LastAdmins(admin, accepted)
  }

  ghost predicate PausesOk(s: State, pauses: seq<PauseRecord>) {
    && s.sequence == |pauses|
    && forall n :: if 1 <= n <= |pauses| then n in s.pauseRecords && s.pauseRecords[n] == pauses[n - 1]
                   else n !in s.pauseRecords
  }

  /** The record of one unpause. */
  predicate Unpaused(records: map<nat, UnpauseRecord>, e: Lifted) {
    e.sequence in records && records[e.sequence].timestamp == e.at && records[e.sequence].pauseSequence == e.sequence
  }

  predicate Lists(lifted: seq<Lifted>, n: nat) {
    exists e :: e in lifted && e.sequence == n
  }

  /** Every pause is lifted at most once, in the order of the pauses. */
  ghost predicate InTurn(lifted: seq<Lifted>, sequence: nat) {
    && (forall i, j | 0 <= i < j < |lifted| :: lifted[i].sequence < lifted[j].sequence)
    && (forall e | e in lifted :: 1 <= e.sequence <= sequence)
  }

  ghost predicate RecordsOk(records: map<nat, UnpauseRecord>, lifted: seq<Lifted>) {
    && (forall e | e in lifted :: Unpaused(records, e))
    && (forall n | n in records :: Lists(lifted, n))
  }

  ghost predicate UnpausesOk(s: State, lifted: seq<Lifted>) {
    && s.lastUnpauseAt == (if lifted == [] then None else Some(lifted[|lifted| - 1].at))
    && RecordsOk(s.unpauseRecords, lifted)
    && InTurn(lifted, s.sequence)
    && (s.paused <==> s.sequence >= 1 && !Lists(lifted, s.sequence))
  }

  lemma Snoc(accepted: seq<Call>, call: Call)
    ensures (accepted + [call])[..|accepted|] == accepted
  {
  }

  lemma KeepsSettings(s: State, call: Call)
    requires Apply(s, call).Ok? && !call.step.ChangeTimelock? && !call.step.ChangeQuorum?
    requires !call.step.ChangeCooldown? && !call.step.ChangeAdmins?
    ensures var s' := Apply(s, call).value;
            && s'.timelock == s.timelock && s'.quorum == s.quorum && s'.cooldown == s.cooldown
            && s'.adminRoles == s.adminRoles && s'.adminCount == s.adminCount
  {
  }

  lemma SettingsNext(s: State, call: Call, admin: Address, accepted: seq<Call>)
    requires SettingsOk(s, admin, accepted) && Apply(s, call).Ok?
    ensures SettingsOk(Apply(s, call).value, admin, accepted + [call])
  {
    Snoc(accepted, call);
    match call.step
    case ChangeTimelock(_, _) =>
    case ChangeQuorum(_, _) =>
    case ChangeCooldown(_, _) =>
    case ChangeAdmins(_, _) =>
    case _ => KeepsSettings(s, call);
  }

  lemma PausesNext(s: State, call: Call, accepted: seq<Call>)
    requires PausesOk(s, Pauses(accepted)) && Apply(s, call).Ok?
    ensures PausesOk(Apply(s, call).value, Pauses(accepted + [call]))
  {
    Snoc(accepted, call);
    match call.step
    case LegacyPause(_) =>
    case EmergencyPause(_, _) =>
    case _ => KeepsPauses(s, call);
  }

  lemma KeepsPauses(s: State, call: Call)
    requires Apply(s, call).Ok? && !call.step.LegacyPause? && !call.step.EmergencyPause?
    ensures Apply(s, call).value.pauseRecords == s.pauseRecords && Apply(s, call).value.sequence == s.sequence
  {
  }

  /** A call that lifts the pause records that. */
  predicate Lifts(s: State, s': State, now: nat) {
    && s.paused && !s'.paused && s'.sequence == s.sequence && s'.lastUnpauseAt == Some(now)
    && s.sequence in s'.unpauseRecords
    && s'.unpauseRecords == s.unpauseRecords[s.sequence := s'.unpauseRecords[s.sequence]]
    && s'.unpauseRecords[s.sequence].timestamp == now && s'.unpauseRecords[s.sequence].pauseSequence == s.sequence
  }

  /** Any other call touches neither the records of unpauses nor, unless it pauses, the pause. */
  predicate LiftsNothing(s: State, s': State) {
    && s'.unpauseRecords == s.unpauseRecords && s'.lastUnpauseAt == s.lastUnpauseAt
    && ((s'.paused == s.paused && s'.sequence == s.sequence) || (s'.paused && s'.sequence == s.sequence + 1))
  }

  lemma UnpauseLifts(s: State, now: nat, caller: Address, bypass: bool)
    requires PauseInv(s) && Unpause(s, now, caller, bypass).Ok?
    ensures Lifts(s, Unpause(s, now, caller, bypass).value, now)
  {
  }

  lemma VoteLifts(s: State, now: nat, caller: Address)
    requires PauseInv(s) && VoteUnpause(s, now, caller).Ok?
    ensures var s' := VoteUnpause(s, now, caller).value;
            Lifts(s, s', now) || LiftsNothing(s, s')
  {
    var voted := CastVote(s, s.ActiveOrZero(), caller);
    if Unpause(voted, now, caller, false).Ok? {
      UnpauseLifts(voted, now, caller, false);
    }
  }

  lemma LiftsOrNot(s: State, call: Call)
    requires PauseInv(s) && Apply(s, call).Ok?
    ensures var s' := Apply(s, call).value;
            Lifts(s, s', call.now) || LiftsNothing(s, s')
  {
    match call.step
    case LegacyUnpause(caller) => UnpauseLifts(s, call.now, caller, true);
    case EmergencyUnpause(caller) => UnpauseLifts(s, call.now, caller, false);
    case VoteToUnpause(caller) => VoteLifts(s, call.now, caller);
    case _ =>
  }

  lemma ListsSnoc(lifted: seq<Lifted>, e: Lifted, n: nat)
    ensures Lists(lifted + [e], n) <==> Lists(lifted, n) || n == e.sequence
  {
    assert e in lifted + [e] && forall x | x in lifted :: x in lifted + [e];
    if Lists(lifted, n) {
      var x :| x in lifted && x.sequence == n;
      assert x in lifted + [e];
    }
  }

  lemma RecordsNext(records: map<nat, UnpauseRecord>, records': map<nat, UnpauseRecord>, lifted: seq<Lifted>, e: Lifted)
    requires RecordsOk(records, lifted) && Unpaused(records', e) && !Lists(lifted, e.sequence)
    requires records' == records[e.sequence := records'[e.sequence]]
    ensures RecordsOk(records', lifted + [e])
  {
    forall x | x in lifted + [e]
      ensures Unpaused(records', x)
    {
      assert x in lifted ==> Unpaused(records, x) && x.sequence != e.sequence;
    }
    forall n | n in records'
      ensures Lists(lifted + [e], n)
    {
      ListsSnoc(lifted, e, n);
    }
  }

  lemma InTurnNext(lifted: seq<Lifted>, sequence: nat, e: Lifted)
    requires InTurn(lifted, sequence) && e.sequence == sequence >= 1 && !Lists(lifted, sequence)
    ensures InTurn(lifted + [e], sequence)
  {
    forall i | 0 <= i < |lifted|
      ensures lifted[i].sequence < sequence
    {
      assert lifted[i] in lifted;
    }
  }

  lemma LiftedNext(s: State, s': State, lifted: seq<Lifted>, e: Lifted)
    requires UnpausesOk(s, lifted) && Lifts(s, s', e.at) && e.sequence == s.sequence
    ensures UnpausesOk(s', lifted + [e])
  {
    RecordsNext(s.unpauseRecords, s'.unpauseRecords, lifted, e);
    InTurnNext(lifted, s.sequence, e);
    ListsSnoc(lifted, e, s.sequence);
  }

  lemma NothingLifted(s: State, s': State, lifted: seq<Lifted>)
    requires UnpausesOk(s, lifted) && LiftsNothing(s, s')
    ensures UnpausesOk(s', lifted)
  {
  }

  lemma NextUnpauses(w: World, call: Call)
    requires PauseInv(w.s) && UnpausesOk(w.s, w.lifted) && Apply(w.s, call).Ok?
    ensures UnpausesOk(Next(w, call).s, Next(w, call).lifted)
  {
    LiftsOrNot(w.s, call);
    var s' := Apply(w.s, call).value;
    if w.s.paused && !s'.paused {
      LiftedNext(w.s, s', w.lifted, Next(w, call).lifted[|w.lifted|]);
    } else {
      NothingLifted(w.s, s', w.lifted);
    }
  }

  /**
   In every run the n-th pause record is that of the n-th accepted pause, the contract is paused exactly
   if its latest pause has not been lifted, each pause is lifted at most once and in order, the last
   unpause is the one whose time is stored, and the settings are the last accepted ones.
   */
  lemma {:induction false} KeysTellTheRun(admin: Address, calls: seq<Call>)
    requires InOrder(calls)
    ensures var w, accepted := Run(admin, calls), Accepted(admin, calls);
            PausesOk(w.s, Pauses(accepted)) && UnpausesOk(w.s, w.lifted) && SettingsOk(w.s, admin, accepted)
  {
    if calls != [] {
      var front, call := calls[..|calls| - 1], calls[|calls| - 1];
      KeysTellTheRun(admin, front);
      RunKeepsInv(admin, front);
      var w := Run(admin, front);
      if Apply(w.s, call).Ok? {
        SettingsNext(w.s, call, admin, Accepted(admin, front));
        PausesNext(w.s, call, Accepted(admin, front));
        NextUnpauses(w, call);
      } else {
        assert Accepted(admin, front) + [] == Accepted(admin, front);
      }
    }
  }

  // ----- when a call is accepted -----

  /** In reachable states: exactly when an admin may pause, lift the pause, and vote. */
  lemma AcceptedIff(admin: Address, calls: seq<Call>, now: nat, caller: Address, reason: PauseReason)
    requires InOrder(calls) && Run(admin, calls).clock <= now
    ensures var s := Run(admin, calls).s;
            && (Pause(s, now, caller, reason, false).Ok?
                <==> caller in s.adminRoles && !s.paused && s.sequence < U64_MAX)
            && (Unpause(s, now, caller, false).Ok?
                <==> && s.paused && caller in s.adminRoles
                     && s.sequence in s.pauseRecords && now >= s.pauseRecords[s.sequence].timestamp + s.timelock
                     && |Voters(s.votes, s.sequence)| >= s.quorum)
  {
    var s := Run(admin, calls).s;
    RunKeepsInv(admin, calls);
    if s.paused {
      TimelockNeverSkipped(s, now);
    }
  }

  /** A vote is accepted from an admin who has not voted on this pause, below the quorum, and counts once. */
  lemma VoteIff(admin: Address, calls: seq<Call>, now: nat, caller: Address)
    requires InOrder(calls) && Run(admin, calls).clock <= now
    ensures var s := Run(admin, calls).s;
            var voters := Voters(s.votes, s.sequence);
            && (VoteUnpause(s, now, caller).Ok?
                <==> && s.paused && caller in s.adminRoles && caller !in voters
                     && |voters| < s.quorum && |voters| < U32_MAX && s.sequence in s.pauseRecords
                     && (|voters| + 1 == s.quorum ==> now >= s.pauseRecords[s.sequence].timestamp + s.timelock))
            && (VoteUnpause(s, now, caller).Ok? ==>
                  var s' := VoteUnpause(s, now, caller).value;
                  && Voters(s'.votes, s.sequence) == voters + {caller}
                  && (s'.paused <==> |voters| + 1 < s.quorum))
  {
    var s := Run(admin, calls).s;
    RunKeepsInv(admin, calls);
    if s.paused {
      TimelockNeverSkipped(s, now);
      TimelockAfterVote(s, now, caller);
    }
  }

  lemma TimelockAfterVote(s: State, now: nat, caller: Address)
    ensures TimelockBlocks(CastVote(s, s.ActiveOrZero(), caller), now) <==> TimelockBlocks(s, now)
  {
  }

  /** Only admins change the settings: times of at most a week, and a quorum that the admins can reach. */
  lemma SettersIff(s: State, caller: Address, value: nat)
    ensures SetTimelock(s, caller, value).Ok? <==> caller in s.adminRoles && value <= 604_800
    ensures SetCooldown(s, caller, value).Ok? <==> caller in s.adminRoles && value <= 604_800
    ensures SetQuorum(s, caller, value).Ok? <==> caller in s.adminRoles && 1 <= value <= s.adminCount
  {
  }

  /** The legacy pair asks for nothing but a pause to lift. */
  lemma LegacyIff(s: State, now: nat, caller: Address)
    ensures Pause(s, now, caller, MaintenanceWindow, true).Ok? <==> s.sequence < U64_MAX
    ensures Unpause(s, now, caller, true).Ok? <==> s.paused
  {
  }
}
