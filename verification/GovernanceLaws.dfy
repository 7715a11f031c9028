/** What every run of the governance protocol keeps. */
module GovernanceLaws {
  import opened Common
  import opened Governance

  /** When and how a proposal was approved. */
  datatype Approval = Approval(at: nat, timelock: nat, quorum: nat, voters: set<Address>)

  datatype Execution = Execution(id: nat, at: nat)

  /** The stored state together with a record of what happened. */
  datatype World = World(s: State, approvals: map<nat, Approval>, executions: seq<Execution>)

  datatype Step =
    | DoPropose(who: Address, action: Action)
    | DoVote(who: Address, id: nat)
    | DoExecute(who: Address, id: nat)
    | DoExpire(id: nat)
    | DoMigrate(who: Address, quorum: nat, timelock: nat, ttl: nat)
    | DoCleanup(who: Address, ids: seq<nat>)
    | OtherEntryPoint(settings: Settings) // any change to the keys that governance shares

  datatype Call = Call(now: nat, step: Step)

  function Apply(s: State, call: Call): Result<State> {
    match call.step
    case DoPropose(who, action) => Propose(s, call.now, who, action)
    case DoVote(who, id) => CastVote(s, call.now, who, id)
    case DoExecute(who, id) => Execute(s, call.now, who, id)
    case DoExpire(id) => Expire(s, call.now, id)
    case DoMigrate(who, quorum, timelock, ttl) => Migrate(s, who, quorum, timelock, ttl)
    case DoCleanup(who, ids) => Cleanup(s, who, ids)
    case OtherEntryPoint(settings) => Ok(s.(g := settings))
  }

  predicate JustApproved(s: State, s': State, id: nat) {
    id in s'.c.proposals && s'.c.proposals[id].state.Approved?
    && id in s.c.proposals && s.c.proposals[id].state.Pending?
  }

  /** A failed call changes nothing. */
  function Next(w: World, call: Call): World {
    match Apply(w.s, call)
    case Err(_) => w
    case Ok(s') =>
      var approvals :=
        if call.step.DoVote? && JustApproved(w.s, s', call.step.id)
        then w.approvals[call.step.id :=
               Approval(call.now, w.s.c.timelock, w.s.c.quorum, Voters(s'.c.votes, call.step.id))]
        else w.approvals;
      var executions :=
        if call.step.DoExecute? then w.executions + [Execution(call.step.id, call.now)] else w.executions;
      World(s', approvals, executions)
  }

  function Run(admin: Address, g: Settings, calls: seq<Call>): World {
    if calls == [] then World(Initial(admin, g), map[], []) else
      Next(Run(admin, g, calls[..|calls| - 1]), calls[|calls| - 1])
  }

  // ----- the invariant -----

  ghost predicate QuorumInv(c: Council) {
    1 <= c.quorum <= c.adminCount <= |c.admins|
  }

  ghost predicate IdsInv(c: Council) {
    && (forall id | id in c.proposals :: 1 <= id <= c.counter && c.proposals[id].id == id)
    && (forall id | id in c.votes :: 1 <= id <= c.counter)
  }

  ghost predicate VotesInv(c: Council) {
    forall id | id in c.proposals :: c.proposals[id].approvalCount == |Voters(c.votes, id)|
  }

  /** The guard names the one live fee update, and exists exactly when there is one. */
  ghost predicate FeeGuardInv(c: Council) {
    forall id :: c.activeFee == Some(id) <==> id in c.proposals && c.proposals[id].LiveFeeUpdate()
  }

  ghost predicate ApprovalOf(p: Proposal, approvals: map<nat, Approval>) {
    match p.state
    case Pending => p.id !in approvals
    case Expired => false
    case _ =>
      && p.id in approvals
      && p.approvalTimestamp == Some(approvals[p.id].at)
      && p.executeAfter == Some(approvals[p.id].at + approvals[p.id].timelock)
  }

  ghost predicate ApprovalEntryOk(w: World, id: nat)
    requires id in w.approvals
  {
    && id <= w.s.c.counter
    && w.approvals[id].voters <= Voters(w.s.c.votes, id)
    && 1 <= w.approvals[id].quorum <= |w.approvals[id].voters|
  }

  ghost predicate ApprovalsInv(w: World) {
    && (forall id | id in w.s.c.proposals :: ApprovalOf(w.s.c.proposals[id], w.approvals))
    && (forall id | id in w.approvals :: ApprovalEntryOk(w, id))
  }

  /** An executed id is past its timelock and can never be approved again. */
  ghost predicate ExecutionOk(w: World, e: Execution) {
    && e.id in w.approvals
    && e.at >= w.approvals[e.id].at + w.approvals[e.id].timelock
    && e.id <= w.s.c.counter
    && (e.id in w.s.c.proposals ==> w.s.c.proposals[e.id].state.Executed?)
  }

  ghost predicate ExecutionsInv(w: World) {
    && (forall e | e in w.executions :: ExecutionOk(w, e))
    && (forall i, j | 0 <= i < j < |w.executions| :: w.executions[i].id != w.executions[j].id)
  }

  ghost predicate Inv(w: World) {
    && QuorumInv(w.s.c)
    && IdsInv(w.s.c)
    && VotesInv(w.s.c)
    && FeeGuardInv(w.s.c)
    && ApprovalsInv(w)
    && ExecutionsInv(w)
  }

  // ----- every step keeps it -----

  lemma AddOne(s: set<Address>, a: Address)
    ensures a !in s ==> |s + {a}| == |s| + 1
    ensures a in s ==> |s - {a}| == |s| - 1
    ensures a !in s ==> |s - {a}| == |s|
  {
    if a !in s {
      assert s - {a} == s;
    }
  }

  lemma ProposeKeepsInv(w: World, call: Call)
    requires Inv(w) && call.step.DoPropose?
    ensures Inv(Next(w, call))
  {
    var w' := Next(w, call);
    if Apply(w.s, call).Ok? {
      var id := w'.s.c.counter;
      assert id !in w'.s.c.votes;
    }
  }

  lemma VoteKeepsCouncil(c: Council, s: State, now: nat, voter: Address, id: nat)
    requires c == s.c && IdsInv(c) && VotesInv(c) && FeeGuardInv(c)
    requires CastVote(s, now, voter, id).Ok?
    ensures var c' := CastVote(s, now, voter, id).value.c;
            IdsInv(c') && VotesInv(c') && FeeGuardInv(c')
  {
    var c' := CastVote(s, now, voter, id).value.c;
    assert voter !in Voters(c.votes, id);
    AddOne(Voters(c.votes, id), voter);
    assert forall other :: other in c'.proposals <==> other in c.proposals;
    assert forall other | other in c.proposals ::
        c'.proposals[other].LiveFeeUpdate() == c.proposals[other].LiveFeeUpdate();
  }

  lemma VoteKeepsEntry(w: World, call: Call, id: nat)
    requires QuorumInv(w.s.c) && IdsInv(w.s.c) && VotesInv(w.s.c) && ApprovalsInv(w)
    requires call.step.DoVote? && Apply(w.s, call).Ok? && id in Next(w, call).approvals
    ensures ApprovalEntryOk(Next(w, call), id)
  {
    AddOne(Voters(w.s.c.votes, call.step.id), call.step.who);
    if id in w.approvals {
      assert ApprovalEntryOk(w, id);
    }
  }

  lemma VoteKeepsApprovalOf(w: World, call: Call, id: nat)
    requires IdsInv(w.s.c) && ApprovalsInv(w)
    requires call.step.DoVote? && Apply(w.s, call).Ok? && id in Next(w, call).s.c.proposals
    ensures ApprovalOf(Next(w, call).s.c.proposals[id], Next(w, call).approvals)
  {
    assert ApprovalOf(w.s.c.proposals[id], w.approvals);
  }

  lemma VoteKeepsApprovals(w: World, call: Call)
    requires QuorumInv(w.s.c) && IdsInv(w.s.c) && VotesInv(w.s.c) && ApprovalsInv(w)
    requires call.step.DoVote? && Apply(w.s, call).Ok?
    ensures ApprovalsInv(Next(w, call))
  {
    var w' := Next(w, call);
    forall id | id in w'.s.c.proposals
      ensures ApprovalOf(w'.s.c.proposals[id], w'.approvals)
    {
      VoteKeepsApprovalOf(w, call, id);
    }
    forall id | id in w'.approvals
      ensures ApprovalEntryOk(w', id)
    {
      VoteKeepsEntry(w, call, id);
    }
  }

  lemma VoteKeepsExecution(w: World, call: Call, e: Execution)
    requires Inv(w) && call.step.DoVote? && Apply(w.s, call).Ok? && e in w.executions
    ensures ExecutionOk(Next(w, call), e)
  {
    assert ExecutionOk(w, e);
    assert ApprovalOf(w.s.c.proposals[call.step.id], w.approvals);
  }

  lemma VoteKeepsExecutions(w: World, call: Call)
    requires Inv(w) && call.step.DoVote? && Apply(w.s, call).Ok?
    ensures ExecutionsInv(Next(w, call))
  {
    forall e | e in Next(w, call).executions
      ensures ExecutionOk(Next(w, call), e)
    {
      VoteKeepsExecution(w, call, e);
    }
  }

  lemma VoteKeepsInv(w: World, call: Call)
    requires Inv(w) && call.step.DoVote?
    ensures Inv(Next(w, call))
  {
    if Apply(w.s, call).Ok? {
      VoteKeepsCouncil(w.s.c, w.s, call.now, call.step.who, call.step.id);
      VoteKeepsApprovals(w, call);
      VoteKeepsExecutions(w, call);
    }
  }

  lemma AdminsKeepQuorum(c: Council, c': Council, admin: Address)
    requires QuorumInv(c) && c'.quorum == c.quorum
    requires || (admin !in c.admins && c'.admins == c.admins + {admin} && c'.adminCount == c.adminCount + 1)
             || (c'.admins == c.admins - {admin} && c'.adminCount == c.adminCount - 1 >= c.quorum)
    ensures QuorumInv(c')
  {
    AddOne(c.admins, admin);
  }

  lemma DispatchKeepsCouncil(s: State, executor: Address, action: Action)
    requires QuorumInv(s.c) && Dispatch(s, executor, action).Ok?
    ensures var c' := Dispatch(s, executor, action).value.c;
            && QuorumInv(c')
            && c'.proposals == s.c.proposals && c'.votes == s.c.votes && c'.counter == s.c.counter
            && c'.activeFee == if action.UpdateFee? then None else s.c.activeFee
  {
    var c' := Dispatch(s, executor, action).value.c;
    match action {
      case AddAdmin(admin) => AdminsKeepQuorum(s.c, c', admin);
      case RemoveAdmin(admin) => AdminsKeepQuorum(s.c, c', admin);
      case _ =>
    }
  }

  lemma ExecuteKeepsCouncil(s: State, now: nat, executor: Address, id: nat)
    requires QuorumInv(s.c) && IdsInv(s.c) && VotesInv(s.c) && FeeGuardInv(s.c)
    requires Execute(s, now, executor, id).Ok?
    ensures var c' := Execute(s, now, executor, id).value.c;
            && QuorumInv(c') && IdsInv(c') && VotesInv(c') && FeeGuardInv(c')
            && c'.votes == s.c.votes && c'.counter == s.c.counter
            && c'.proposals == s.c.proposals[id := s.c.proposals[id].(state := Executed)]
  {
    DispatchKeepsCouncil(s, executor, s.c.proposals[id].action);
    if s.c.proposals[id].action.UpdateFee? {
      assert s.c.proposals[id].LiveFeeUpdate();
      assert s.c.activeFee == Some(id);
    }
  }

  lemma ExecuteKeepsInv(w: World, call: Call)
    requires Inv(w) && call.step.DoExecute?
    ensures Inv(Next(w, call))
  {
    if Apply(w.s, call).Ok? {
      var w', id := Next(w, call), call.step.id;
      ExecuteKeepsCouncil(w.s, call.now, call.step.who, id);
      assert ApprovalOf(w.s.c.proposals[id], w.approvals);
      forall other | other in w'.s.c.proposals
        ensures ApprovalOf(w'.s.c.proposals[other], w'.approvals)
      {
        assert ApprovalOf(w.s.c.proposals[other], w.approvals);
      }
      ExecuteKeepsExecutions(w, call);
    }
  }

  lemma ExecuteKeepsExecution(w: World, call: Call, e: Execution)
    requires Inv(w) && call.step.DoExecute? && Apply(w.s, call).Ok? && e in w.executions
    ensures ExecutionOk(Next(w, call), e) && e.id != call.step.id
  {
    ExecuteKeepsCouncil(w.s, call.now, call.step.who, call.step.id);
    assert ExecutionOk(w, e);
  }

  lemma NewExecution(w: World, call: Call)
    requires Inv(w) && call.step.DoExecute? && Apply(w.s, call).Ok?
    ensures ExecutionOk(Next(w, call), Execution(call.step.id, call.now))
  {
    ExecuteKeepsCouncil(w.s, call.now, call.step.who, call.step.id);
    assert ApprovalOf(w.s.c.proposals[call.step.id], w.approvals);
  }

  lemma ExecuteKeepsExecutions(w: World, call: Call)
    requires Inv(w) && call.step.DoExecute? && Apply(w.s, call).Ok?
    ensures ExecutionsInv(Next(w, call))
  {
    var w' := Next(w, call);
    NewExecution(w, call);
    forall e | e in w.executions
      ensures ExecutionOk(w', e) && e.id != call.step.id
    {
      ExecuteKeepsExecution(w, call, e);
    }
    forall i, j | 0 <= i < j < |w'.executions|
      ensures w'.executions[i].id != w'.executions[j].id
    {
      assert w.executions[i] in w.executions;
    }
  }

  lemma ExpireKeepsInv(w: World, call: Call)
    requires Inv(w) && call.step.DoExpire?
    ensures Inv(Next(w, call))
  {
  }

  lemma CleanupOneKeepsInv(w: World, id: nat)
    requires Inv(w)
    ensures Inv(w.(s := w.s.(c := CleanupOne(w.s.c, id))))
  {
  }

  lemma {:induction false} CleanupKeepsInv(w: World, ids: seq<nat>)
    requires Inv(w)
    ensures Inv(w.(s := w.s.(c := CleanupAll(w.s.c, ids))))
  {
    if ids != [] {
      var front := ids[..|ids| - 1];
      CleanupKeepsInv(w, front);
      CleanupOneKeepsInv(w.(s := w.s.(c := CleanupAll(w.s.c, front))), ids[|ids| - 1]);
    }
  }

  lemma StepKeepsInv(w: World, call: Call)
    requires Inv(w)
    ensures Inv(Next(w, call))
  {
    match call.step {
      case DoPropose(_, _) => ProposeKeepsInv(w, call);
      case DoVote(_, _) => VoteKeepsInv(w, call);
      case DoExecute(_, _) => ExecuteKeepsInv(w, call);
      case DoExpire(_) => ExpireKeepsInv(w, call);
      case DoCleanup(_, ids) => CleanupKeepsInv(w, ids);
      case DoMigrate(_, _, _, _) =>
      case OtherEntryPoint(_) =>
    }
  }

  lemma {:induction false} RunKeepsInv(admin: Address, g: Settings, calls: seq<Call>)
    ensures Inv(Run(admin, g, calls))
  {
    if calls != [] {
      RunKeepsInv(admin, g, calls[..|calls| - 1]);
      StepKeepsInv(Run(admin, g, calls[..|calls| - 1]), calls[|calls| - 1]);
    }
  }

  // ----- what the invariant means -----

  /** In every run the quorum is positive and there are at least that many admins. */
  lemma QuorumAttainable(admin: Address, g: Settings, calls: seq<Call>)
    ensures var c := Run(admin, g, calls).s.c;
            1 <= c.quorum <= c.adminCount <= |c.admins|
  {
    RunKeepsInv(admin, g, calls);
  }

  /** Each id executes at most once, after the timelock in force when it was approved by a quorum. */
  lemma ExecutedOnceAfterTimelock(admin: Address, g: Settings, calls: seq<Call>, i: nat, j: nat)
    requires i < |Run(admin, g, calls).executions| && j < |Run(admin, g, calls).executions|
    ensures var w := Run(admin, g, calls);
            var e := w.executions[i];
            && (w.executions[j].id == e.id ==> i == j)
            && e.id in w.approvals
            && e.at >= w.approvals[e.id].at + w.approvals[e.id].timelock
            && |w.approvals[e.id].voters| >= w.approvals[e.id].quorum >= 1
  {
    RunKeepsInv(admin, g, calls);
    var w := Run(admin, g, calls);
    assert w.executions[i] in w.executions;
  }

  /** At most one fee update is live, and the stored guard names it. */
  lemma FeeGuardExact(admin: Address, g: Settings, calls: seq<Call>, id: nat, id': nat)
    ensures var c := Run(admin, g, calls).s.c;
            && (c.activeFee == Some(id) <==> id in c.proposals && c.proposals[id].LiveFeeUpdate())
            && (c.activeFee == Some(id) && id' in c.proposals && c.proposals[id'].LiveFeeUpdate() ==> id == id')
  {
    RunKeepsInv(admin, g, calls);
  }

  /** The approval count of a stored proposal is the number of its distinct recorded voters. */
  lemma CountIsVoters(admin: Address, g: Settings, calls: seq<Call>, id: nat)
    requires id in Run(admin, g, calls).s.c.proposals
    ensures var c := Run(admin, g, calls).s.c;
            c.proposals[id].approvalCount == |Voters(c.votes, id)|
  {
    RunKeepsInv(admin, g, calls);
  }

  // ----- when a pending proposal can still be approved -----

  /** The given admins vote in turn; a failed vote changes nothing. */
  function VoteAll(s: State, now: nat, voters: seq<Address>, id: nat): State
    decreases |voters|
  {
    if voters == [] then s else
      match CastVote(s, now, voters[0], id)
      case Ok(s') => VoteAll(s', now, voters[1..], id)
      case Err(_) => VoteAll(s, now, voters[1..], id)
  }

  predicate HasState(s: State, id: nat, state: ProposalState) {
    id in s.c.proposals && s.c.proposals[id].state == state
  }

  /** The admins that have not voted on `id` yet. */
  function Fresh(s: State, id: nat): set<Address> {
    s.c.admins - Voters(s.c.votes, id)
  }

  /** Every member of `s`, once. */
  ghost predicate Lists(list: seq<Address>, s: set<Address>) {
    (forall v :: v in list <==> v in s) && forall i, j | 0 <= i < j < |list| :: list[i] != list[j]
  }

  lemma {:induction false} ApprovedStays(s: State, now: nat, voters: seq<Address>, id: nat)
    requires HasState(s, id, Approved)
    ensures VoteAll(s, now, voters, id) == s
  {
    if voters != [] {
      ApprovedStays(s, now, voters[1..], id);
    }
  }

  ghost predicate CouncilInv(c: Council) {
    QuorumInv(c) && IdsInv(c) && VotesInv(c) && FeeGuardInv(c)
  }

  lemma LastFreshVoteApproves(s: State, now: nat, voter: Address, id: nat)
    requires CouncilInv(s.c) && HasState(s, id, Pending) && voter in Fresh(s, id) && |Fresh(s, id)| == 1
    requires now + s.c.timelock <= U64_MAX && |s.c.admins + Voters(s.c.votes, id)| <= U32_MAX
    ensures CastVote(s, now, voter, id).Ok? && HasState(CastVote(s, now, voter, id).value, id, Approved)
  {
    var voters := Voters(s.c.votes, id);
    AddOne(Fresh(s, id), voter);
    assert Fresh(s, id) - {voter} == {};
    AddOne(voters, voter);
    assert voters + {voter} == s.c.admins + voters;
    SubsetSize(s.c.admins, s.c.admins + voters);
  }

  lemma {:induction false} SubsetSize<T>(a: set<T>, b: set<T>)
    requires a <= b
    ensures |a| <= |b|
  {
    if a != {} {
      var x :| x in a;
      SubsetSize(a - {x}, b - {x});
    }
  }

  /** One more fresh vote approves the proposal or leaves one admin less to ask. */
  lemma FreshVoteStep(s: State, now: nat, voter: Address, id: nat)
    requires CouncilInv(s.c) && HasState(s, id, Pending) && voter in Fresh(s, id)
    requires now + s.c.timelock <= U64_MAX && |s.c.admins + Voters(s.c.votes, id)| <= U32_MAX
    ensures CastVote(s, now, voter, id).Ok?
    ensures var s' := CastVote(s, now, voter, id).value;
            && CouncilInv(s'.c) && s'.c.timelock == s.c.timelock
            && Fresh(s', id) == Fresh(s, id) - {voter}
            && s'.c.admins + Voters(s'.c.votes, id) == s.c.admins + Voters(s.c.votes, id)
            && (HasState(s', id, Approved) || HasState(s', id, Pending))
  {
    SubsetSize(Voters(s.c.votes, id) + {voter}, s.c.admins + Voters(s.c.votes, id));
    AddOne(Voters(s.c.votes, id), voter);
    VoteKeepsCouncil(s.c, s, now, voter, id);
  }

  /** If every admin that has not voted does so, a pending proposal is approved. */
  lemma {:induction false} FreshVotesApprove(s: State, now: nat, voters: seq<Address>, id: nat)
    requires CouncilInv(s.c) && HasState(s, id, Pending)
    requires voters != [] && Lists(voters, Fresh(s, id))
    requires now + s.c.timelock <= U64_MAX && |s.c.admins + Voters(s.c.votes, id)| <= U32_MAX
    ensures HasState(VoteAll(s, now, voters, id), id, Approved)
    decreases |voters|
  {
    var voter := voters[0];
    assert voters == [voter] + voters[1..];
    assert voter in Fresh(s, id);
    FreshVoteStep(s, now, voter, id);
    var s' := CastVote(s, now, voter, id).value;
    if HasState(s', id, Approved) {
      ApprovedStays(s', now, voters[1..], id);
    } else if |voters| == 1 {
      ListsRest(voters, Fresh(s, id));
      assert Fresh(s, id) - {voter} == {};
      AddOne(Fresh(s, id), voter);
      LastFreshVoteApproves(s, now, voter, id);
    } else {
      ListsRest(voters, Fresh(s, id));
      FreshVotesApprove(s', now, voters[1..], id);
    }
  }

  lemma ListsRest(list: seq<Address>, s: set<Address>)
    requires list != [] && Lists(list, s)
    ensures Lists(list[1..], s - {list[0]})
  {
    forall v
      ensures v in list[1..] <==> v in s - {list[0]}
    {
      if v in s - {list[0]} {
        var i :| 0 <= i < |list| && list[i] == v;
        assert list[1..][i - 1] == v;
      }
      if v in list[1..] {
        var i :| 0 <= i < |list| - 1 && list[1..][i] == v;
        assert list[i + 1] == v;
      }
    }
  }

  lemma {:induction false} Listing(s: set<Address>) returns (list: seq<Address>)
    ensures Lists(list, s)
  {
    if s == {} {
      list := [];
    } else {
      var v :| v in s;
      var rest := Listing(s - {v});
      list := [v] + rest;
    }
  }

  lemma {:induction false} NoFreshVotesStuck(s: State, now: nat, voters: seq<Address>, id: nat)
    requires Fresh(s, id) == {}
    ensures VoteAll(s, now, voters, id) == s
  {
    if voters != [] {
      assert voters[0] !in Fresh(s, id);
      NoFreshVotesStuck(s, now, voters[1..], id);
    }
  }

  /** In every run a pending proposal can be voted through exactly when some current admin has not voted on it. */
  lemma ApprovableIffFresh(admin: Address, g: Settings, calls: seq<Call>, now: nat, id: nat)
    requires var s := Run(admin, g, calls).s;
             && HasState(s, id, Pending)
             && now + s.c.timelock <= U64_MAX && |s.c.admins + Voters(s.c.votes, id)| <= U32_MAX
    ensures var s := Run(admin, g, calls).s;
            (exists voters :: HasState(VoteAll(s, now, voters, id), id, Approved)) <==> Fresh(s, id) != {}
  {
    var s := Run(admin, g, calls).s;
    RunKeepsInv(admin, g, calls);
    if Fresh(s, id) != {} {
      var voters := Listing(Fresh(s, id));
      var v :| v in Fresh(s, id);
      assert v in voters;
      FreshVotesApprove(s, now, voters, id);
      assert exists votes :: HasState(VoteAll(s, now, votes, id), id, Approved);
    } else {
      forall voters
        ensures !HasState(VoteAll(s, now, voters, id), id, Approved)
      {
        NoFreshVotesStuck(s, now, voters, id);
      }
      assert !exists voters :: HasState(VoteAll(s, now, voters, id), id, Approved);
    }
  }

  lemma RunAppend(admin: Address, g: Settings, calls: seq<Call>, call: Call)
    ensures Run(admin, g, calls + [call]) == Next(Run(admin, g, calls), call)
  {
    assert (calls + [call])[..|calls|] == calls;
  }

  /** Propose, vote and execute in one go: what a single admin does while the quorum is one. */
  function Adopt(s: State, a: Address, action: Action): Result<State> {
    var proposed :- Propose(s, 0, a, action);
    var voted :- CastVote(proposed, 0, a, s.c.counter + 1);
    Execute(voted, 0, a, s.c.counter + 1)
  }

  lemma AdoptSteps(w: World, a: Address, action: Action, propose: Call, vote: Call, execute: Call)
    requires Adopt(w.s, a, action).Ok?
    requires var id := w.s.c.counter + 1;
             && propose == Call(0, DoPropose(a, action))
             && vote == Call(0, DoVote(a, id)) && execute == Call(0, DoExecute(a, id))
    ensures Next(Next(Next(w, propose), vote), execute).s == Adopt(w.s, a, action).value
  {
  }

  lemma AdoptRuns(admin: Address, g: Settings, calls: seq<Call>, a: Address, action: Action) returns (calls': seq<Call>)
    requires Adopt(Run(admin, g, calls).s, a, action).Ok?
    ensures Run(admin, g, calls').s == Adopt(Run(admin, g, calls).s, a, action).value
  {
    var id := Run(admin, g, calls).s.c.counter + 1;
    var propose, vote, execute := Call(0, DoPropose(a, action)), Call(0, DoVote(a, id)), Call(0, DoExecute(a, id));
    RunAppend(admin, g, calls, propose);
    RunAppend(admin, g, calls + [propose], vote);
    RunAppend(admin, g, calls + [propose] + [vote], execute);
    AdoptSteps(Run(admin, g, calls), a, action, propose, vote, execute);
    calls' := calls + [propose] + [vote] + [execute];
  }

  /** The state of the example: no timelock, `n` proposals so far, proposal 3 as given. */
  ghost predicate Example(s: State, n: nat, quorum: nat, admins: set<Address>, third: Option<set<Address>>) {
    && !s.g.paused && s.c.timelock == 0 && s.c.ttl == 604_800 && s.c.activeFee == None
    && s.c.counter == n && s.c.quorum == quorum && s.c.admins == admins && s.c.adminCount == |admins|
    && (forall id | id in s.c.proposals || id in s.c.votes :: id <= n)
    && (third.Some? ==> HasState(s, 3, Pending) && Voters(s.c.votes, 3) == third.value
                        && s.c.proposals[3].approvalCount == 1)
  }

  /** An action that one of these admins can have adopted in the example. */
  predicate Adoptable(a: Address, admins: set<Address>, action: Action) {
    && a in admins
    && match action
       case AddAdmin(b) => admins == {a} && a != b
       case RemoveAdmin(b) => a != b && admins == {a, b}
       case UpdateQuorum(q) => 0 < q <= |admins|
       case _ => false
  }

  function Proposed(id: nat, a: Address, action: Action): Proposal {
    Proposal(id, a, action, Pending, 0, 604_800, 0, None, None)
  }

  function Adopted(id: nat, a: Address, action: Action): Proposal {
    Proposed(id, a, action).(state := Approved, approvalCount := 1, approvalTimestamp := Some(0), executeAfter := Some(0))
  }

  /** The state after `a` has proposed the action as number `id`, and then voted for it. */
  function AfterProposal(s: State, id: nat, a: Address, action: Action): State {
    s.(c := s.c.(counter := id, proposals := s.c.proposals[id := Proposed(id, a, action)]))
  }

  function AfterVote(s: State, id: nat, a: Address, action: Action): State {
    s.(c := s.c.(counter := id, proposals := s.c.proposals[id := Adopted(id, a, action)],
                 votes := s.c.votes[id := {a}]))
  }

  lemma ExampleProposal(s: State, n: nat, a: Address, admins: set<Address>, third: Option<set<Address>>, action: Action)
    requires Example(s, n, 1, admins, third) && n < 10 && Adoptable(a, admins, action)
    ensures Propose(s, 0, a, action) == Ok(AfterProposal(s, n + 1, a, action))
  {
  }

  lemma ExampleVote(s: State, n: nat, a: Address, admins: set<Address>, third: Option<set<Address>>, action: Action)
    requires Example(s, n, 1, admins, third) && n < 10 && a in admins
    ensures CastVote(AfterProposal(s, n + 1, a, action), 0, a, n + 1) == Ok(AfterVote(s, n + 1, a, action))
  {
    assert Voters(s.c.votes, n + 1) == {} && {} + {a} == {a};
    var proposed, adopted := Proposed(n + 1, a, action), Adopted(n + 1, a, action);
    assert s.c.proposals[n + 1 := proposed][n + 1 := adopted] == s.c.proposals[n + 1 := adopted];
  }

  /** Adopting the action executes it on the state in which it has been approved. */
  lemma ExampleAdopted(s: State, n: nat, a: Address, admins: set<Address>, third: Option<set<Address>>, action: Action)
    requires Example(s, n, 1, admins, third) && n < 10 && Adoptable(a, admins, action)
    ensures Adopt(s, a, action) == Execute(AfterVote(s, n + 1, a, action), 0, a, n + 1)
  {
    ExampleProposal(s, n, a, admins, third, action);
    ExampleVote(s, n, a, admins, third, action);
  }

  /** The example goes on after the execution: these keys have changed and no others. */
  lemma ExampleExecuted(s: State, n: nat, a: Address, admins: set<Address>, third: Option<set<Address>>, action: Action,
                        d: State, quorum: nat, admins': set<Address>)
    requires Example(s, n, 1, admins, third) && (third.Some? ==> n >= 3)
    requires var v := AfterVote(s, n + 1, a, action);
             && Dispatch(v, a, action) == Ok(d) && a in v.c.admins
             && d.g == v.g && d.c == v.c.(quorum := quorum, admins := admins', adminCount := |admins'|,
                                          adminList := d.c.adminList, legacyAdmin := d.c.legacyAdmin)
    ensures Execute(AfterVote(s, n + 1, a, action), 0, a, n + 1).Ok?
    ensures Example(Execute(AfterVote(s, n + 1, a, action), 0, a, n + 1).value, n + 1, quorum, admins', third)
  {
  }

  function AdminsAfter(admins: set<Address>, action: Action): set<Address> {
    match action
    case AddAdmin(b) => admins + {b}
    case RemoveAdmin(b) => admins - {b}
    case _ => admins
  }

  function QuorumAfter(action: Action): nat {
    if action.UpdateQuorum? then action.quorum else 1
  }

  lemma ExampleDispatch(v: State, a: Address, admins: set<Address>, action: Action)
    requires Adoptable(a, admins, action) && v.c.admins == admins && v.c.adminCount == |admins| < 10 && v.c.quorum == 1
    ensures Dispatch(v, a, action).Ok?
    ensures var d, admins' := Dispatch(v, a, action).value, AdminsAfter(admins, action);
            d.g == v.g && d.c == v.c.(quorum := QuorumAfter(action), admins := admins', adminCount := |admins'|,
                                      adminList := d.c.adminList, legacyAdmin := d.c.legacyAdmin)
  {
    match action {
      case RemoveAdmin(b) =>
        assert {a, b} - {b} == {a};
        AddOne(admins, b);
      case AddAdmin(b) => AddOne(admins, b);
      case _ =>
    }
  }

  lemma ExampleAdopt(s: State, n: nat, a: Address, admins: set<Address>, third: Option<set<Address>>, action: Action)
    requires Example(s, n, 1, admins, third) && n < 10 && (third.Some? ==> n >= 3) && Adoptable(a, admins, action)
    requires |admins| < 10
    ensures Adopt(s, a, action).Ok?
    ensures Example(Adopt(s, a, action).value, n + 1, QuorumAfter(action), AdminsAfter(admins, action), third)
  {
    var voted := AfterVote(s, n + 1, a, action);
    ExampleAdopted(s, n, a, admins, third, action);
    ExampleDispatch(voted, a, admins, action);
    ExampleExecuted(s, n, a, admins, third, action, Dispatch(voted, a, action).value, QuorumAfter(action),
                    AdminsAfter(admins, action));
  }

  lemma StepRuns(admin: Address, g: Settings, calls: seq<Call>, call: Call) returns (calls': seq<Call>)
    requires Apply(Run(admin, g, calls).s, call).Ok?
    ensures Run(admin, g, calls').s == Apply(Run(admin, g, calls).s, call).value
  {
    RunAppend(admin, g, calls, call);
    calls' := calls + [call];
  }

  /**
   A proposal can get stuck: after the quorum is lowered and the admins who have not voted are
   removed, all current admins have voted, the count reaches the quorum, and it is still pending.
   */
  lemma StuckProposalReachable(a: Address, b: Address, g: Settings) returns (calls: seq<Call>)
    requires a != b && !g.paused
    ensures var s := Run(a, g, calls).s;
            && HasState(s, 3, Pending)
            && Fresh(s, 3) == {}
            && s.c.proposals[3].approvalCount >= s.c.quorum
  {
    calls := [];
    ExampleAdopt(Run(a, g, calls).s, 0, a, {a}, None, AddAdmin(b));
    calls := AdoptRuns(a, g, calls, a, AddAdmin(b));
    assert {a} + {b} == {a, b};
    ExampleAdopt(Run(a, g, calls).s, 1, a, {a, b}, None, UpdateQuorum(2));
    calls := AdoptRuns(a, g, calls, a, UpdateQuorum(2));
    calls := HalfVoted(a, b, g, calls);
    calls := LowerQuorum(a, b, g, calls);
    ExampleAdopt(Run(a, g, calls).s, 4, a, {a, b}, Some({a}), RemoveAdmin(b));
    calls := AdoptRuns(a, g, calls, a, RemoveAdmin(b));
    assert {a, b} - {b} == {a};
  }

  /** Proposal 3 gets one of two votes. */
  lemma HalfVoted(a: Address, b: Address, g: Settings, calls: seq<Call>) returns (calls': seq<Call>)
    requires a != b && Example(Run(a, g, calls).s, 2, 2, {a, b}, None)
    ensures Example(Run(a, g, calls').s, 3, 2, {a, b}, Some({a}))
  {
    calls' := StepRuns(a, g, calls, Call(0, DoPropose(a, UpdateTimelock(5))));
    calls' := StepRuns(a, g, calls', Call(0, DoVote(a, 3)));
  }

  /** Proposal 4 lowers the quorum to one with both votes. */
  lemma LowerQuorum(a: Address, b: Address, g: Settings, calls: seq<Call>) returns (calls': seq<Call>)
    requires a != b && Example(Run(a, g, calls).s, 3, 2, {a, b}, Some({a}))
    ensures Example(Run(a, g, calls').s, 4, 1, {a, b}, Some({a}))
  {
    calls' := StepRuns(a, g, calls, Call(0, DoPropose(a, UpdateQuorum(1))));
    calls' := StepRuns(a, g, calls', Call(0, DoVote(a, 4)));
    calls' := StepRuns(a, g, calls', Call(0, DoVote(b, 4)));
    assert HasState(Run(a, g, calls').s, 4, Approved);
    calls' := StepRuns(a, g, calls', Call(0, DoExecute(a, 4)));
  }
}
