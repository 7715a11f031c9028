/**
 The emergency pause: numbered pauses with a record each, admin votes scoped to one pause, and an
 unpause gated by a timelock and a quorum. The legacy `pause`/`unpause` pair bypasses the gates.
 */
module CircuitBreaker {
  import opened Common
  import Types

  type Address = Types.Address

  const MAX_SECONDS := 604_800

  datatype PauseReason = SecurityIncident | SuspiciousActivity | MaintenanceWindow | ExternalThreat

  datatype PauseRecord = PauseRecord(sequence: nat, caller: Address, timestamp: nat, reason: PauseReason)

  datatype UnpauseRecord = UnpauseRecord(caller: Address, timestamp: nat, pauseSequence: nat)

  datatype State = State(
    paused: bool,
    sequence: nat,
    active: Option<nat>,
    pauseRecords: map<nat, PauseRecord>,
    unpauseRecords: map<nat, UnpauseRecord>,
    votes: map<nat, set<Address>>,
    voteCounts: map<nat, nat>,
    timelock: nat,
    quorum: nat,
    cooldown: nat,
    lastUnpauseAt: Option<nat>,
    adminRoles: set<Address>,
    adminCount: nat)
  {
    function ActiveOrZero(): nat {
      if active.Some? then active.value else 0
    }
  }

  function Voters(votes: map<nat, set<Address>>, sequence: nat): set<Address> {
    if sequence in votes then votes[sequence] else {}
  }

  function VoteCount(voteCounts: map<nat, nat>, sequence: nat): nat {
    if sequence in voteCounts then voteCounts[sequence] else 0
  }

  // ----- specification of the steps -----

  function Pause(s: State, now: nat, caller: Address, reason: PauseReason, bypassChecks: bool): Result<State> {
    if !bypassChecks && caller !in s.adminRoles then Err(Unauthorized) else
    :- Need(bypassChecks || !s.paused, AlreadyPaused);
    var sequence := s.sequence + 1;
    :- Need(sequence <= U64_MAX, Overflow);
    Ok(s.(paused := true,
          sequence := sequence,
          active := Some(sequence),
          pauseRecords := s.pauseRecords[sequence := PauseRecord(sequence, caller, now, reason)],
          voteCounts := s.voteCounts[sequence := 0]))
  }

  /** The timelock is only looked up when it is set, an active pause exists and its record is found. */
  predicate TimelockBlocks(s: State, now: nat) {
    && s.timelock > 0
    && s.active.Some?
    && s.active.value in s.pauseRecords
    && SaturatingSub(now, s.pauseRecords[s.active.value].timestamp) < s.timelock
  }

  function Unpause(s: State, now: nat, caller: Address, bypassTimelockQuorum: bool): Result<State> {
    if !s.paused then Err(NotPaused) else
    :- Need(bypassTimelockQuorum || caller in s.adminRoles, Unauthorized);
    :- Need(bypassTimelockQuorum || !TimelockBlocks(s, now), TimelockActive);
    :- Need(bypassTimelockQuorum || VoteCount(s.voteCounts, s.ActiveOrZero()) >= s.quorum, Unauthorized);
    Ok(s.(paused := false,
          active := None,
          unpauseRecords := s.unpauseRecords[s.ActiveOrZero() := UnpauseRecord(caller, now, s.ActiveOrZero())],
          lastUnpauseAt := Some(now)))
  }

  function CastVote(s: State, sequence: nat, voter: Address): State {
    s.(votes := s.votes[sequence := Voters(s.votes, sequence) + {voter}],
       voteCounts := s.voteCounts[sequence := VoteCount(s.voteCounts, sequence) + 1])
  }

  function VoteUnpause(s: State, now: nat, caller: Address): Result<State> {
    if !s.paused then Err(NotPaused) else
    :- Need(caller in s.adminRoles, Unauthorized);
    var sequence := s.ActiveOrZero();
    :- Need(caller !in Voters(s.votes, sequence), AlreadyVoted);
    :- Need(VoteCount(s.voteCounts, sequence) < s.quorum, AlreadyVoted);
    :- Need(VoteCount(s.voteCounts, sequence) + 1 <= U32_MAX, Overflow);
    var voted := CastVote(s, sequence, caller);
    if VoteCount(voted.voteCounts, sequence) >= s.quorum then Unpause(voted, now, caller, false) else Ok(voted)
  }

  function SetTimelock(s: State, caller: Address, seconds: nat): Result<State> {
    if seconds > MAX_SECONDS then Err(InvalidTimelockDuration) else
    :- Need(caller in s.adminRoles, Unauthorized);
    Ok(s.(timelock := seconds))
  }

  function SetQuorum(s: State, caller: Address, quorum: nat): Result<State> {
    if quorum < 1 || quorum > s.adminCount then Err(InvalidQuorum) else
    :- Need(caller in s.adminRoles, Unauthorized);
    Ok(s.(quorum := quorum))
  }

  function SetCooldown(s: State, caller: Address, seconds: nat): Result<State> {
    if seconds > MAX_SECONDS then Err(InvalidTimelockDuration) else
    :- Need(caller in s.adminRoles, Unauthorized);
    Ok(s.(cooldown := seconds))
  }

  function Initial(admin: Address): State {
    State(false, 0, None, map[], map[], map[], map[], 0, 1, 3600, None, {admin}, 1)
  }

  // ----- the program -----

  class Breaker {
    var paused: bool
    var sequence: nat
    var active: Option<nat>
    var pauseRecords: map<nat, PauseRecord>
    var unpauseRecords: map<nat, UnpauseRecord>
    var votes: map<nat, set<Address>>
    var voteCounts: map<nat, nat>
    var timelock: nat
    var quorum: nat
    var cooldown: nat
    var lastUnpauseAt: Option<nat>
    var adminRoles: set<Address>
    var adminCount: nat

    function Snapshot(): State
      reads this
    {
      State(paused, sequence, active, pauseRecords, unpauseRecords, votes, voteCounts,
            timelock, quorum, cooldown, lastUnpauseAt, adminRoles, adminCount)
    }

    /** The answer and the stored state agree with the specification; an error stores nothing. */
    ghost predicate Follows(was: State, spec: Result<State>, answer: Result<()>)
      reads this
    {
      match spec
      case Ok(s') => answer == Ok(()) && Snapshot() == s'
      case Err(error) => answer == Err(error) && Snapshot() == was
    }

    constructor (admin: Address)
      ensures Snapshot() == Initial(admin)
    {
      paused, sequence, active := false, 0, None;
      pauseRecords, unpauseRecords, votes, voteCounts := map[], map[], map[], map[];
      timelock, quorum, cooldown, lastUnpauseAt := 0, 1, 3600, None;
      adminRoles, adminCount := {admin}, 1;
    }

    method DoEmergencyPause(caller: Address, reason: PauseReason, bypassChecks: bool, now: nat)
      returns (r: Result<()>)
      modifies this
      ensures Follows(old(Snapshot()), Pause(old(Snapshot()), now, caller, reason, bypassChecks), r)
    {
      if !bypassChecks {
        if caller !in adminRoles {
          return Err(Unauthorized);
        }
        if paused {
          return Err(AlreadyPaused);
        }
      }
      var next := sequence + 1;
      if next > U64_MAX {
        return Err(Overflow);
      }
      sequence := next;
      pauseRecords := pauseRecords[next := PauseRecord(next, caller, now, reason)];
      active := Some(next);
      paused := true;
      voteCounts := voteCounts[next := 0];
      r := Ok(());
    }

    method DoEmergencyUnpause(caller: Address, bypassTimelockQuorum: bool, now: nat) returns (r: Result<()>)
      modifies this
      ensures Follows(old(Snapshot()), Unpause(old(Snapshot()), now, caller, bypassTimelockQuorum), r)
    {
      if !paused {
        return Err(NotPaused);
      }
      if !bypassTimelockQuorum {
        if caller !in adminRoles {
          return Err(Unauthorized);
        }
        if timelock > 0 {
          if active.Some? {
            if active.value in pauseRecords {
              var elapsed := SaturatingSub(now, pauseRecords[active.value].timestamp);
              if elapsed < timelock {
                return Err(TimelockActive);
              }
            }
          }
        }
        var activeSequence := if active.Some? then active.value else 0;
        var count := VoteCount(voteCounts, activeSequence);
        if count < quorum {
          return Err(Unauthorized);
        }
      }
      var pauseSequence := if active.Some? then active.value else 0;
      paused := false;
      active := None;
      unpauseRecords := unpauseRecords[pauseSequence := UnpauseRecord(caller, now, pauseSequence)];
      lastUnpauseAt := Some(now);
      r := Ok(());
    }

    /** A failing unpause inside a vote discards the vote as well. */
    method DoVoteUnpause(caller: Address, now: nat) returns (r: Result<()>)
      modifies this
      ensures Follows(old(Snapshot()), VoteUnpause(old(Snapshot()), now, caller), r)
    {
      if !paused {
        return Err(NotPaused);
      }
      if caller !in adminRoles {
        return Err(Unauthorized);
      }
      var pauseSequence := if active.Some? then active.value else 0;
      if caller in Voters(votes, pauseSequence) {
        return Err(AlreadyVoted);
      }
      if VoteCount(voteCounts, pauseSequence) >= quorum {
        return Err(AlreadyVoted);
      }
      var newCount := VoteCount(voteCounts, pauseSequence) + 1;
      if newCount > U32_MAX {
        return Err(Overflow);
      }
      var savedVotes, savedCounts := votes, voteCounts;
      votes := votes[pauseSequence := Voters(votes, pauseSequence) + {caller}];
      voteCounts := voteCounts[pauseSequence := newCount];
      r := Ok(());
      if newCount >= quorum {
        r := DoEmergencyUnpause(caller, false, now);
        if r.Err? {
          votes, voteCounts := savedVotes, savedCounts; // the host rolls the invocation back
        }
      }
    }

    method SetUnpauseQuorum(caller: Address, newQuorum: nat) returns (r: Result<()>)
      modifies this
      ensures Follows(old(Snapshot()), SetQuorum(old(Snapshot()), caller, newQuorum), r)
    {
      if newQuorum < 1 || newQuorum > adminCount {
        return Err(InvalidQuorum);
      }
      if caller !in adminRoles {
        return Err(Unauthorized);
      }
      quorum := newQuorum;
      r := Ok(());
    }

    method SetPauseTimelock(caller: Address, seconds: nat) returns (r: Result<()>)
      modifies this
      ensures Follows(old(Snapshot()), SetTimelock(old(Snapshot()), caller, seconds), r)
    {
      if seconds > MAX_SECONDS {
        return Err(InvalidTimelockDuration);
      }
      if caller !in adminRoles {
        return Err(Unauthorized);
      }
      timelock := seconds;
      r := Ok(());
    }

    method SetCooldownPeriod(caller: Address, seconds: nat) returns (r: Result<()>)
      modifies this
      ensures Follows(old(Snapshot()), SetCooldown(old(Snapshot()), caller, seconds), r)
    {
      if seconds > MAX_SECONDS {
        return Err(InvalidTimelockDuration);
      }
      if caller !in adminRoles {
        return Err(Unauthorized);
      }
      cooldown := seconds;
      r := Ok(());
    }
  }
}
