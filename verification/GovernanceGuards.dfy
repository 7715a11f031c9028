/** When governance accepts a call, in every reachable state, and what it takes for an action to be carried out. */
module GovernanceGuards {
  import opened Common
  import opened Governance
  import opened GovernanceLaws

  /** The action can be carried out now: nothing is registered twice, removed without being there, or out of range. */
  predicate Feasible(s: State, action: Action) {
    match action
    case UpdateFee(_) => true
    case RegisterAgent(a) => a !in s.g.agents
    case RemoveAgent(a) => a in s.g.agents
    case AddAdmin(a) => a !in s.c.admins && s.c.adminCount < U32_MAX
    case RemoveAdmin(_) => s.c.adminCount > s.c.quorum
    case UpdateQuorum(q) => 1 <= q <= s.c.adminCount
    case UpdateTimelock(_) => true
    case UpdateCooldownPeriod(_) => true
    case WhitelistAsset(t) => t !in s.g.tokens
    case AdjustReputationThreshold(threshold) => threshold <= 100
  }

  /** What a proposal asks beyond that: a fee of at most 100%, one fee update at a time, and removing an admin. */
  predicate Proposable(s: State, action: Action) {
    match action
    case UpdateFee(bps) => bps <= 10_000 && s.c.activeFee.None?
    case AddAdmin(a) => a !in s.c.admins
    case RemoveAdmin(a) => a in s.c.admins && s.c.adminCount > s.c.quorum
    case _ => Feasible(s, action)
  }

  /** An admin proposes, while the contract is not paused, what is proposable. */
  lemma ProposesIff(admin: Address, g: Settings, calls: seq<Call>, now: nat, who: Address, action: Action)
    ensures var s := Run(admin, g, calls).s;
            Propose(s, now, who, action).Ok?
            <==> && who in s.c.admins && !s.g.paused && Proposable(s, action)
                 && s.c.counter < U64_MAX && now + s.c.ttl <= U64_MAX
  {
    RunKeepsInv(admin, g, calls);
  }

  /** An admin votes once, on a pending proposal; the vote is recorded, and at the quorum starts the timelock. */
  lemma VotesIff(admin: Address, g: Settings, calls: seq<Call>, now: nat, who: Address, id: nat)
    ensures var s := Run(admin, g, calls).s;
            && (CastVote(s, now, who, id).Ok?
                <==> && who in s.c.admins && id in s.c.proposals && s.c.proposals[id].state.Pending?
                     && who !in Voters(s.c.votes, id) && |Voters(s.c.votes, id)| < U32_MAX
                     && (|Voters(s.c.votes, id)| + 1 >= s.c.quorum ==> now + s.c.timelock <= U64_MAX))
            && (CastVote(s, now, who, id).Ok? ==>
                  var s', p := CastVote(s, now, who, id).value, s.c.proposals[id];
                  && Voters(s'.c.votes, id) == Voters(s.c.votes, id) + {who}
                  && s'.c.proposals[id] ==
                     (if |Voters(s.c.votes, id)| + 1 >= s.c.quorum
                      then p.(state := Approved, approvalCount := |Voters(s.c.votes, id)| + 1,
                              approvalTimestamp := Some(now), executeAfter := Some(now + s.c.timelock))
                      else p.(approvalCount := |Voters(s.c.votes, id)| + 1)))
  {
    RunKeepsInv(admin, g, calls);
  }

  /** An admin executes an approved proposal once its timelock has passed, if its action can be carried out by then. */
  lemma ExecutesIff(admin: Address, g: Settings, calls: seq<Call>, now: nat, who: Address, id: nat)
    ensures var w := Run(admin, g, calls);
            Execute(w.s, now, who, id).Ok?
            <==> && who in w.s.c.admins && id in w.s.c.proposals && w.s.c.proposals[id].state.Approved?
                 && id in w.approvals && now >= w.approvals[id].at + w.approvals[id].timelock
                 && Feasible(w.s, w.s.c.proposals[id].action)
  {
    RunKeepsInv(admin, g, calls);
    var w := Run(admin, g, calls);
    if id in w.s.c.proposals {
      assert ApprovalOf(w.s.c.proposals[id], w.approvals);
      DispatchesIff(w.s, who, w.s.c.proposals[id].action);
    }
  }

  lemma DispatchesIff(s: State, who: Address, action: Action)
    requires QuorumInv(s.c)
    ensures Dispatch(s, who, action).Ok? <==> Feasible(s, action)
  {
  }

  /** So what is proposable could be carried out at once, unless there are 2^32 admins. */
  lemma ProposableIsFeasible(s: State, action: Action)
    requires Proposable(s, action) && s.c.adminCount < U32_MAX
    ensures Feasible(s, action)
  {
  }

  /** Anybody removes a proposal that was not executed once its lifetime is over; nobody before. */
  lemma ExpiresIff(s: State, now: nat, id: nat)
    ensures Expire(s, now, id).Ok?
       <==> && id in s.c.proposals && (s.c.proposals[id].state.Pending? || s.c.proposals[id].state.Approved?)
            && s.c.proposals[id].expiry <= now
    ensures Expire(s, now, id).Ok? ==>
              var s' := Expire(s, now, id).value;
              && s'.g == s.g && s'.c.proposals == s.c.proposals - {id}
              && s'.c.activeFee == (if s.c.activeFee == Some(id) && s.c.proposals[id].action.UpdateFee? then None
                                    else s.c.activeFee)
  {
  }

  /** A cleanup removes exactly the finished proposals it lists. */
  lemma {:induction false} CleansExactly(c: Council, ids: seq<nat>, id: nat)
    ensures var c' := CleanupAll(c, ids);
            && (id in c'.proposals
                <==> id in c.proposals && !(id in ids && c.proposals[id].state !in {Pending, Approved}))
            && (id in c'.proposals ==> c'.proposals[id] == c.proposals[id])
  {
    if ids != [] {
      var front, last := ids[..|ids| - 1], ids[|ids| - 1];
      CleansExactly(c, front, id);
      CleansExactly(c, front, last);
      assert id in ids <==> id in front || id == last;
    }
  }

  /** Governance is set up once, by the legacy admin, with a quorum of at most the number of admins. */
  lemma MigratesIff(s: State, who: Address, quorum: nat, timelock: nat, ttl: nat)
    ensures Migrate(s, who, quorum, timelock, ttl).Ok?
       <==> who == s.c.legacyAdmin && !s.c.initialized && 1 <= quorum <= s.c.adminCount
  {
  }
}
