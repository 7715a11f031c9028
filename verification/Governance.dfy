/**
 The proposal protocol of the admin council: propose, vote, execute after a timelock, expire and
 clean up. The specification functions take the stored state to the next one; the class below
 updates the stored keys in place the way the contract does and is tied to them.
 */
module Governance {
  import opened Common
  import Types

  type Address = Types.Address

  datatype Action =
    | UpdateFee(bps: nat)
    | RegisterAgent(agent: Address)
    | RemoveAgent(agent: Address)
    | AddAdmin(admin: Address)
    | RemoveAdmin(admin: Address)
    | UpdateQuorum(quorum: nat)
    | UpdateTimelock(seconds: nat)
    | UpdateCooldownPeriod(seconds: nat)
    | WhitelistAsset(token: Address)
    | AdjustReputationThreshold(threshold: nat)

  datatype ProposalState = Pending | Approved | Executed | Expired

  datatype Proposal = Proposal(
    id: nat,
    proposer: Address,
    action: Action,
    state: ProposalState,
    createdAt: nat,
    expiry: nat,
    approvalCount: nat,
    approvalTimestamp: Option<nat>,
    executeAfter: Option<nat>)
  {
    predicate Live() {
      state.Pending? || state.Approved?
    }

    predicate LiveFeeUpdate() {
      Live() && action.UpdateFee?
    }
  }

  /** The vote flags that are set: for every proposal id the admins that voted on it. */
  type VoteFlags = map<nat, set<Address>>

  function Voters(votes: VoteFlags, id: nat): set<Address> {
    if id in votes then votes[id] else {}
  }

  function RecordVote(votes: VoteFlags, id: nat, voter: Address): VoteFlags {
    votes[id := Voters(votes, id) + {voter}]
  }

  /** The stored keys that governance itself owns. */
  datatype Council = Council(
    proposals: map<nat, Proposal>,
    votes: VoteFlags,
    counter: nat,
    quorum: nat,
    timelock: nat,
    ttl: nat,
    initialized: bool,
    activeFee: Option<nat>,
    admins: set<Address>,
    adminCount: nat,
    adminList: seq<Address>,
    legacyAdmin: Address)

  /** The stored keys that proposals change and other entry points change as well. */
  datatype Settings = Settings(
    paused: bool,
    feeBps: nat,
    agents: set<Address>,
    cooldown: nat,
    tokens: set<Address>,
    minReputation: nat)

  datatype State = State(c: Council, g: Settings)

  // ----- specification of the steps -----

  /** The preconditions of an action when it is proposed. */
  function ValidateAction(s: State, action: Action): Outcome {
    match action
    case UpdateFee(bps) =>
      if bps > 10_000 then Fail(InvalidFeeBps)
      else Need(s.c.activeFee.None?, ProposalAlreadyPending)
    case RegisterAgent(agent) => Need(agent !in s.g.agents, AgentAlreadyRegistered)
    case RemoveAgent(agent) => Need(agent in s.g.agents, AgentNotRegistered)
    case AddAdmin(admin) => Need(admin !in s.c.admins, AlreadyAdmin)
    case RemoveAdmin(admin) =>
      if s.c.adminCount <= 1 || SaturatingSub(s.c.adminCount, 1) < s.c.quorum then Fail(InsufficientAdmins)
      else Need(admin in s.c.admins, AdminNotFound)
    case UpdateQuorum(quorum) => Need(0 < quorum <= s.c.adminCount, InvalidQuorum)
    case UpdateTimelock(_) => Pass
    case UpdateCooldownPeriod(_) => Pass
    case WhitelistAsset(token) => Need(token !in s.g.tokens, TokenAlreadyWhitelisted)
    case AdjustReputationThreshold(threshold) => Need(threshold <= 100, InvalidReputationScore)
  }

  function Propose(s: State, now: nat, proposer: Address, action: Action): Result<State> {
    if proposer !in s.c.admins then Err(Unauthorized) else
    :- Need(!s.g.paused, ContractPaused);
    var valid := ValidateAction(s, action);
    :- valid;
    var id := s.c.counter + 1;
    :- Need(id <= U64_MAX && now + s.c.ttl <= U64_MAX, HostTrap);
    var proposal := Proposal(id, proposer, action, Pending, now, now + s.c.ttl, 0, None, None);
    Ok(s.(c := s.c.(
        counter := id,
        proposals := s.c.proposals[id := proposal],
        activeFee := if action.UpdateFee? then Some(id) else s.c.activeFee)))
  }

  function CastVote(s: State, now: nat, voter: Address, id: nat): Result<State> {
    if voter !in s.c.admins then Err(Unauthorized) else
    :- Need(id in s.c.proposals, ProposalNotFound);
    var p := s.c.proposals[id];
    :- Need(p.state.Pending?, InvalidProposalState);
    :- Need(voter !in Voters(s.c.votes, id), AlreadyVoted);
    :- Need(p.approvalCount + 1 <= U32_MAX, HostTrap);
    var counted := p.(approvalCount := p.approvalCount + 1);
    var approved := counted.approvalCount >= s.c.quorum;
    :- Need(approved ==> now + s.c.timelock <= U64_MAX, HostTrap);
    var p' := if approved
              then counted.(state := Approved, approvalTimestamp := Some(now), executeAfter := Some(now + s.c.timelock))
              else counted;
    Ok(s.(c := s.c.(votes := RecordVote(s.c.votes, id, voter), proposals := s.c.proposals[id := p'])))
  }

  function Without(list: seq<Address>, admin: Address): seq<Address> {
    if list == [] then [] else
      Without(list[..|list| - 1], admin) + if list[|list| - 1] != admin then [list[|list| - 1]] else []
  }

  function With(list: seq<Address>, admin: Address): seq<Address> {
    if admin in list then list else list + [admin]
  }

  /** The effect of an approved action. */
  function Dispatch(s: State, executor: Address, action: Action): Result<State> {
    match action
    case UpdateFee(bps) => Ok(State(s.c.(activeFee := None), s.g.(feeBps := bps)))
    case RegisterAgent(agent) =>
      :- Need(agent !in s.g.agents, AgentAlreadyRegistered);
      Ok(s.(g := s.g.(agents := s.g.agents + {agent})))
    case RemoveAgent(agent) =>
      :- Need(agent in s.g.agents, AgentNotRegistered);
      Ok(s.(g := s.g.(agents := s.g.agents - {agent})))
    case AddAdmin(admin) =>
      :- Need(admin !in s.c.admins, AlreadyAdmin);
      :- Need(s.c.adminCount + 1 <= U32_MAX, HostTrap);
      Ok(s.(c := s.c.(
          admins := s.c.admins + {admin},
          adminCount := s.c.adminCount + 1,
          adminList := With(s.c.adminList, admin))))
    case RemoveAdmin(admin) =>
      :- Need(s.c.adminCount > 1 && SaturatingSub(s.c.adminCount, 1) >= s.c.quorum, InsufficientAdmins);
      Ok(s.(c := s.c.(
          admins := s.c.admins - {admin},
          adminCount := s.c.adminCount - 1,
          adminList := Without(s.c.adminList, admin),
          legacyAdmin := if s.c.legacyAdmin == admin then executor else s.c.legacyAdmin)))
    case UpdateQuorum(quorum) =>
      :- Need(0 < quorum <= s.c.adminCount, InvalidQuorum);
      Ok(s.(c := s.c.(quorum := quorum)))
    case UpdateTimelock(seconds) => Ok(s.(c := s.c.(timelock := seconds)))
    case UpdateCooldownPeriod(seconds) => Ok(s.(g := s.g.(cooldown := seconds)))
    case WhitelistAsset(token) =>
      :- Need(token !in s.g.tokens, TokenAlreadyWhitelisted);
      Ok(s.(g := s.g.(tokens := s.g.tokens + {token})))
    case AdjustReputationThreshold(threshold) =>
      :- Need(threshold <= 100, InvalidReputationScore);
      Ok(s.(g := s.g.(minReputation := threshold)))
  }

  function Execute(s: State, now: nat, executor: Address, id: nat): Result<State> {
    if executor !in s.c.admins then Err(Unauthorized) else
    :- Need(id in s.c.proposals, ProposalNotFound);
    var p := s.c.proposals[id];
    :- Need(p.state.Approved?, InvalidProposalState);
    :- Need(now >= (if p.executeAfter.Some? then p.executeAfter.value else 0), TimelockActive);
    var s' :- Dispatch(s, executor, p.action);
    Ok(s'.(c := s'.c.(proposals := s'.c.proposals[id := p.(state := Executed)])))
  }

  /** Clears the fee-update guard if `id` holds it. */
  function ReleaseFeeGuard(c: Council, id: nat): Council
    requires id in c.proposals
  {
    if c.proposals[id].action.UpdateFee? && c.activeFee == Some(id) then c.(activeFee := None) else c
  }

  function Expire(s: State, now: nat, id: nat): Result<State> {
    if id !in s.c.proposals then Err(ProposalNotFound) else
    var p := s.c.proposals[id];
    :- Need(p.Live(), InvalidProposalState);
    :- Need(now >= p.expiry, InvalidProposalState);
    Ok(s.(c := ReleaseFeeGuard(s.c, id).(proposals := s.c.proposals - {id})))
  }

  function Migrate(s: State, caller: Address, quorum: nat, timelock: nat, ttl: nat): Result<State> {
    if caller != s.c.legacyAdmin then Err(Unauthorized) else
    :- Need(!s.c.initialized, GovernanceAlreadyInitialized);
    :- Need(0 < quorum <= s.c.adminCount, InvalidQuorum);
    Ok(s.(c := s.c.(
        quorum := quorum,
        timelock := timelock,
        ttl := ttl,
        adminList := With(s.c.adminList, s.c.legacyAdmin),
        initialized := true)))
  }

  function CleanupOne(c: Council, id: nat): Council {
    if id in c.proposals && (c.proposals[id].state.Expired? || c.proposals[id].state.Executed?)
    then ReleaseFeeGuard(c, id).(proposals := c.proposals - {id})
    else c
  }

  function CleanupAll(c: Council, ids: seq<nat>): Council {
    if ids == [] then c else CleanupOne(CleanupAll(c, ids[..|ids| - 1]), ids[|ids| - 1])
  }

  function Cleanup(s: State, caller: Address, ids: seq<nat>): Result<State> {
    if caller !in s.c.admins then Err(Unauthorized) else
    Ok(s.(c := CleanupAll(s.c, ids)))
  }

  /** The state after `initialize`, before governance is set up. */
  function Initial(admin: Address, g: Settings): State {
    State(Council(map[], map[], 0, 1, 0, 604_800, false, None, {admin}, 1, [], admin), g)
  }

  // ----- the program -----

  class GovernanceStore {
    var proposals: map<nat, Proposal>
    var votes: VoteFlags
    var counter: nat
    var quorum: nat
    var timelock: nat
    var ttl: nat
    var initialized: bool
    var activeFee: Option<nat>
    var admins: set<Address>
    var adminCount: nat
    var adminList: seq<Address>
    var legacyAdmin: Address
    var settings: Settings

    function Snapshot(): State
      reads this
    {
      State(
        Council(proposals, votes, counter, quorum, timelock, ttl, initialized, activeFee,
                admins, adminCount, adminList, legacyAdmin),
        settings)
    }

    constructor (admin: Address, g: Settings)
      ensures Snapshot() == Initial(admin, g)
    {
      proposals, votes, counter := map[], map[], 0;
      quorum, timelock, ttl, initialized := 1, 0, 604_800, false;
      activeFee, admins, adminCount, adminList, legacyAdmin := None, {admin}, 1, [], admin;
      settings := g;
    }

    /** The answer and the stored state agree with the specification; an error stores nothing. */
    ghost predicate Follows(was: State, spec: Result<State>, answer: Result<()>)
      reads this
    {
      match spec
      case Ok(s') => answer == Ok(()) && Snapshot() == s'
      case Err(error) => answer == Err(error) && Snapshot() == was
    }

    method DoPropose(proposer: Address, action: Action, now: nat) returns (r: Result<nat>)
      modifies this
      ensures var spec := Propose(old(Snapshot()), now, proposer, action);
              match spec
              case Ok(s') => r == Ok(s'.c.counter) && Snapshot() == s'
              case Err(error) => r == Err(error) && Snapshot() == old(Snapshot())
    {
      if proposer !in admins {
        return Err(Unauthorized);
      }
      if settings.paused {
        return Err(ContractPaused);
      }
      match action {
        case UpdateFee(bps) =>
          if bps > 10_000 {
            return Err(InvalidFeeBps);
          }
          if activeFee.Some? {
            return Err(ProposalAlreadyPending);
          }
        case RegisterAgent(agent) =>
          if agent in settings.agents {
            return Err(AgentAlreadyRegistered);
          }
        case RemoveAgent(agent) =>
          if agent !in settings.agents {
            return Err(AgentNotRegistered);
          }
        case AddAdmin(admin) =>
          if admin in admins {
            return Err(AlreadyAdmin);
          }
        case RemoveAdmin(admin) =>
          if adminCount <= 1 || SaturatingSub(adminCount, 1) < quorum {
            return Err(InsufficientAdmins);
          }
          if admin !in admins {
            return Err(AdminNotFound);
          }
        case UpdateQuorum(q) =>
          if q == 0 || q > adminCount {
            return Err(InvalidQuorum);
          }
        case UpdateTimelock(_) =>
        case UpdateCooldownPeriod(_) =>
        case WhitelistAsset(token) =>
          if token in settings.tokens {
            return Err(TokenAlreadyWhitelisted);
          }
        case AdjustReputationThreshold(threshold) =>
          if threshold > 100 {
            return Err(InvalidReputationScore);
          }
      }
      if counter + 1 > U64_MAX || now + ttl > U64_MAX {
        return Err(HostTrap);
      }
      counter := counter + 1;
      var id := counter;
      var proposal := Proposal(id, proposer, action, Pending, now, now + ttl, 0, None, None);
      proposals := proposals[id := proposal];
      if action.UpdateFee? {
        activeFee := Some(id);
      }
      r := Ok(id);
    }

    method DoVote(voter: Address, proposalId: nat, now: nat) returns (r: Result<()>)
      modifies this
      ensures Follows(old(Snapshot()), CastVote(old(Snapshot()), now, voter, proposalId), r)
    {
      if voter !in admins {
        return Err(Unauthorized);
      }
      if proposalId !in proposals {
        return Err(ProposalNotFound);
      }
      var proposal := proposals[proposalId];
      if !proposal.state.Pending? {
        return Err(InvalidProposalState);
      }
      if voter in Voters(votes, proposalId) {
        return Err(AlreadyVoted);
      }
      if proposal.approvalCount + 1 > U32_MAX {
        return Err(HostTrap);
      }
      proposal := proposal.(approvalCount := proposal.approvalCount + 1);
      if proposal.approvalCount >= quorum {
        if now + timelock > U64_MAX {
          return Err(HostTrap);
        }
        proposal := proposal.(state := Approved);
        proposal := proposal.(approvalTimestamp := Some(now));
        proposal := proposal.(executeAfter := Some(now + timelock));
      }
      votes := RecordVote(votes, proposalId, voter);
      proposals := proposals[proposalId := proposal];
      r := Ok(());
    }

    method AddAdminToList(admin: Address)
      modifies this`adminList
      ensures adminList == With(old(adminList), admin)
    {
      for i := 0 to |adminList|
        invariant admin !in adminList[..i]
        invariant adminList == old(adminList)
      {
        if adminList[i] == admin {
          return;
        }
      }
      adminList := adminList + [admin];
    }

    method RemoveAdminFromList(admin: Address)
      modifies this`adminList
      ensures adminList == Without(old(adminList), admin)
    {
      var newList: seq<Address> := [];
      for i := 0 to |adminList|
        invariant adminList == old(adminList)
        invariant newList == Without(adminList[..i], admin)
      {
        assert adminList[..i + 1][..i] == adminList[..i];
        if adminList[i] != admin {
          newList := newList + [adminList[i]];
        }
      }
      assert adminList[..|adminList|] == adminList;
      adminList := newList;
    }

    method DispatchAction(executor: Address, action: Action) returns (r: Result<()>)
      modifies this
      ensures Follows(old(Snapshot()), Dispatch(old(Snapshot()), executor, action), r)
    {
      match action {
        case UpdateFee(bps) =>
          settings := settings.(feeBps := bps);
          activeFee := None;
        case AddAdmin(admin) =>
          r := InstallAdmin(executor, admin);
          return;
        case RemoveAdmin(admin) =>
          r := DropAdmin(executor, admin);
          return;
        case UpdateQuorum(q) =>
          if q == 0 || q > adminCount {
            return Err(InvalidQuorum);
          }
          quorum := q;
        case UpdateTimelock(seconds) =>
          timelock := seconds;
        case _ =>
          r := ChangeSetting(executor, action);
          return;
      }
      r := Ok(());
    }

    method ChangeSetting(executor: Address, action: Action) returns (r: Result<()>)
      requires action.RegisterAgent? || action.RemoveAgent? || action.UpdateCooldownPeriod? || action.WhitelistAsset?
               || action.AdjustReputationThreshold?
      modifies this`settings
      ensures Follows(old(Snapshot()), Dispatch(old(Snapshot()), executor, action), r)
    {
      match action {
        case RegisterAgent(agent) =>
          if agent in settings.agents {
            return Err(AgentAlreadyRegistered);
          }
          settings := settings.(agents := settings.agents + {agent});
        case RemoveAgent(agent) =>
          if agent !in settings.agents {
            return Err(AgentNotRegistered);
          }
          settings := settings.(agents := settings.agents - {agent});
        case UpdateCooldownPeriod(seconds) =>
          settings := settings.(cooldown := seconds);
        case WhitelistAsset(token) =>
          if token in settings.tokens {
            return Err(TokenAlreadyWhitelisted);
          }
          settings := settings.(tokens := settings.tokens + {token});
        case AdjustReputationThreshold(threshold) =>
          if threshold > 100 {
            return Err(InvalidReputationScore);
          }
          settings := settings.(minReputation := threshold);
      }
      r := Ok(());
    }

    method InstallAdmin(executor: Address, admin: Address) returns (r: Result<()>)
      modifies this
      ensures Follows(old(Snapshot()), Dispatch(old(Snapshot()), executor, AddAdmin(admin)), r)
    {
      if admin in admins {
        return Err(AlreadyAdmin);
      }
      if adminCount + 1 > U32_MAX {
        return Err(HostTrap);
      }
      admins := admins + {admin};
      adminCount := adminCount + 1;
      AddAdminToList(admin);
      r := Ok(());
    }

    method DropAdmin(executor: Address, admin: Address) returns (r: Result<()>)
      modifies this
      ensures Follows(old(Snapshot()), Dispatch(old(Snapshot()), executor, RemoveAdmin(admin)), r)
    {
      if adminCount <= 1 || SaturatingSub(adminCount, 1) < quorum {
        return Err(InsufficientAdmins);
      }
      admins := admins - {admin};
      adminCount := adminCount - 1;
      RemoveAdminFromList(admin);
      if legacyAdmin == admin {
        legacyAdmin := executor;
      }
      r := Ok(());
    }

    method DoExecute(executor: Address, proposalId: nat, now: nat) returns (r: Result<()>)
      modifies this
      ensures Follows(old(Snapshot()), Execute(old(Snapshot()), now, executor, proposalId), r)
    {
      if executor !in admins {
        return Err(Unauthorized);
      }
      if proposalId !in proposals {
        return Err(ProposalNotFound);
      }
      var proposal := proposals[proposalId];
      if !proposal.state.Approved? {
        return Err(InvalidProposalState);
      }
      var executeAfter := if proposal.executeAfter.Some? then proposal.executeAfter.value else 0;
      if now < executeAfter {
        return Err(TimelockActive);
      }
      r := DispatchAction(executor, proposal.action);
      if r.Err? {
        return;
      }
      proposal := proposal.(state := Executed);
      proposals := proposals[proposalId := proposal];
    }

    method DoExpire(proposalId: nat, now: nat) returns (r: Result<()>)
      modifies this
      ensures Follows(old(Snapshot()), Expire(old(Snapshot()), now, proposalId), r)
    {
      if proposalId !in proposals {
        return Err(ProposalNotFound);
      }
      var proposal := proposals[proposalId];
      if !proposal.state.Pending? && !proposal.state.Approved? {
        return Err(InvalidProposalState);
      }
      if now < proposal.expiry {
        return Err(InvalidProposalState);
      }
      if proposal.action.UpdateFee? {
        if activeFee == Some(proposalId) {
          activeFee := None;
        }
      }
      proposals := proposals - {proposalId};
      r := Ok(());
    }

    method DoMigrate(caller: Address, newQuorum: nat, timelockSeconds: nat, proposalTtlSeconds: nat)
      returns (r: Result<()>)
      modifies this
      ensures Follows(old(Snapshot()),
                      Migrate(old(Snapshot()), caller, newQuorum, timelockSeconds, proposalTtlSeconds), r)
    {
      if caller != legacyAdmin {
        return Err(Unauthorized);
      }
      if initialized {
        return Err(GovernanceAlreadyInitialized);
      }
      if newQuorum == 0 || newQuorum > adminCount {
        return Err(InvalidQuorum);
      }
      quorum := newQuorum;
      timelock := timelockSeconds;
      ttl := proposalTtlSeconds;
      AddAdminToList(legacyAdmin);
      initialized := true;
      r := Ok(());
    }

    method CleanupExpiredProposals(caller: Address, proposalIds: seq<nat>) returns (r: Result<()>)
      modifies this
      ensures Follows(old(Snapshot()), Cleanup(old(Snapshot()), caller, proposalIds), r)
    {
      if caller !in admins {
        return Err(Unauthorized);
      }
      for i := 0 to |proposalIds|
        invariant Snapshot().c == CleanupAll(old(Snapshot()).c, proposalIds[..i])
        invariant settings == old(settings)
      {
        assert proposalIds[..i + 1][..i] == proposalIds[..i];
        var id := proposalIds[i];
        if id in proposals {
          var proposal := proposals[id];
          if proposal.state.Expired? || proposal.state.Executed? {
            if proposal.action.UpdateFee? {
              if activeFee == Some(id) {
                activeFee := None;
              }
            }
            proposals := proposals - {id};
          }
        }
      }
      assert proposalIds[..|proposalIds|] == proposalIds;
      r := Ok(());
    }
  }
}
