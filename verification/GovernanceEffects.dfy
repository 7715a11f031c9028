/**
 What executed proposals do: over every run each setting is the one that the last change of it left,
 and the changes are the actions that were proposed, voted through and executed.
 */
module GovernanceEffects {
  import opened Common
  import opened Sums
  import opened Governance
  import opened GovernanceLaws

  /** An executed action, the one-time setup, or what another entry point made of the shared settings. */
  datatype Change =
    | Voted(action: Action, caller: Address)
    | Setup(caller: Address, quorum: nat, timelock: nat, ttl: nat)
    | Elsewhere(settings: Settings)
  {
    predicate Is(a: Action) {
      Voted? && action == a
    }
  }

  /** The change that a successful call makes. */
  function ChangeOf(s: State, call: Call): seq<Change> {
    match call.step
    case DoExecute(who, id) => if id in s.c.proposals then [Voted(s.c.proposals[id].action, who)] else []
    case DoMigrate(who, quorum, timelock, ttl) => [Setup(who, quorum, timelock, ttl)]
    case OtherEntryPoint(settings) => [Elsewhere(settings)]
    case _ => []
  }

  function Changes(admin: Address, g: Settings, calls: seq<Call>): seq<Change> {
    if calls == [] then [] else
      var front, call := calls[..|calls| - 1], calls[|calls| - 1];
      var s := Run(admin, g, front).s;
      Changes(admin, g, front) + if Apply(s, call).Ok? then ChangeOf(s, call) else []
  }

  datatype Topic = Fee | Agent(agent: Address) | Admin(admin: Address) | Listing(admin: Address) | Quorum | Timelock
                 | Lifetime | Cooldown
                 | Token(token: Address) | Reputation | Pause

  /** The change decides the topic. */
  predicate About(topic: Topic, change: Change) {
    match topic
    case Fee => change.Elsewhere? || (change.Voted? && change.action.UpdateFee?)
    case Agent(a) =>
      change.Elsewhere? || change.Is(RegisterAgent(a)) || change.Is(RemoveAgent(a))
    case Admin(a) => change.Is(AddAdmin(a)) || change.Is(RemoveAdmin(a))
    case Listing(a) => change.Is(AddAdmin(a)) || change.Is(RemoveAdmin(a)) || (change.Setup? && change.caller == a)
    case Quorum => change.Setup? || (change.Voted? && change.action.UpdateQuorum?)
    case Timelock => change.Setup? || (change.Voted? && change.action.UpdateTimelock?)
    case Lifetime => change.Setup?
    case Cooldown => change.Elsewhere? || (change.Voted? && change.action.UpdateCooldownPeriod?)
    case Token(t) => change.Elsewhere? || change.Is(WhitelistAsset(t))
    case Reputation => change.Elsewhere? || (change.Voted? && change.action.AdjustReputationThreshold?)
    case Pause => change.Elsewhere?
  }

  /** The last change that decides the topic. */
  function Latest(changes: seq<Change>, topic: Topic): Option<Change> {
    if changes == [] then None
    else if About(topic, changes[|changes| - 1]) then Some(changes[|changes| - 1])
    else Latest(changes[..|changes| - 1], topic)
  }

  /** Which change that is: it is in the list, it decides the topic, and none after it does. */
  lemma {:induction false} LatestIs(changes: seq<Change>, topic: Topic)
    ensures match Latest(changes, topic)
            case None => forall c | c in changes :: !About(topic, c)
            case Some(c) =>
              exists i | 0 <= i < |changes| ::
                changes[i] == c && About(topic, c) && forall j | i < j < |changes| :: !About(topic, changes[j])
  {
    if changes != [] {
      var front, last := changes[..|changes| - 1], changes[|changes| - 1];
      LatestIs(front, topic);
      if About(topic, last) {
        assert changes[|changes| - 1] == last;
      } else if Latest(front, topic).Some? {
        var c := Latest(front, topic).value;
        var i :| 0 <= i < |front| && front[i] == c && About(topic, c)
                 && forall j | i < j < |front| :: !About(topic, front[j]);
        assert changes[i] == c;
        forall j | i < j < |changes|
          ensures !About(topic, changes[j])
        {
          assert j < |front| ==> changes[j] == front[j];
        }
      } else {
        assert changes == front + [last];
      }
    }
  }

  // ----- what the last change left -----

  predicate AgentNow(g0: Settings, latest: Option<Change>, a: Address) {
    match latest
    case None => a in g0.agents
    case Some(Elsewhere(g)) => a in g.agents
    case Some(c) => c.Is(RegisterAgent(a))
  }

  predicate TokenNow(g0: Settings, latest: Option<Change>, t: Address) {
    match latest
    case None => t in g0.tokens
    case Some(Elsewhere(g)) => t in g.tokens
    case Some(_) => true
  }

  predicate AdminNow(first: Address, latest: Option<Change>, a: Address) {
    if latest.None? then a == first else latest.value.Is(AddAdmin(a))
  }

  /** The stored list of admins has the one who set governance up, and those added since. */
  predicate ListedNow(latest: Option<Change>, a: Address) {
    latest.Some? && !latest.value.Is(RemoveAdmin(a))
  }

  predicate FeeNow(g0: Settings, latest: Option<Change>, bps: nat) {
    match latest
    case None => bps == g0.feeBps
    case Some(Elsewhere(g)) => bps == g.feeBps
    case Some(c) => c.Is(UpdateFee(bps))
  }

  predicate CooldownNow(g0: Settings, latest: Option<Change>, seconds: nat) {
    match latest
    case None => seconds == g0.cooldown
    case Some(Elsewhere(g)) => seconds == g.cooldown
    case Some(c) => c.Is(UpdateCooldownPeriod(seconds))
  }

  predicate ReputationNow(g0: Settings, latest: Option<Change>, threshold: nat) {
    match latest
    case None => threshold == g0.minReputation
    case Some(Elsewhere(g)) => threshold == g.minReputation
    case Some(c) => c.Is(AdjustReputationThreshold(threshold))
  }

  predicate PauseNow(g0: Settings, latest: Option<Change>, paused: bool) {
    match latest
    case Some(Elsewhere(g)) => paused == g.paused
    case _ => paused == g0.paused
  }

  predicate QuorumNow(latest: Option<Change>, quorum: nat) {
    match latest
    case None => quorum == 1
    case Some(Setup(_, q, _, _)) => quorum == q
    case Some(c) => c.Is(UpdateQuorum(quorum))
  }

  predicate TimelockNow(latest: Option<Change>, seconds: nat) {
    match latest
    case None => seconds == 0
    case Some(Setup(_, _, t, _)) => seconds == t
    case Some(c) => c.Is(UpdateTimelock(seconds))
  }

  predicate LifetimeNow(latest: Option<Change>, ttl: nat) {
    match latest
    case Some(Setup(_, _, _, t)) => ttl == t
    case _ => ttl == 604_800
  }

  /** Additions less removals. */
  function AdminsAdded(changes: seq<Change>): int {
    if changes == [] then 0 else
      var last := changes[|changes| - 1];
      AdminsAdded(changes[..|changes| - 1])
      + (if last.Voted? && last.action.AddAdmin? then 1 else 0)
      - (if last.Voted? && last.action.RemoveAdmin? then 1 else 0)
  }

  /** The legacy admin, replaced by whoever executes a removal of it. */
  function Legacy(first: Address, changes: seq<Change>): Address {
    if changes == [] then first else
      var before, last := Legacy(first, changes[..|changes| - 1]), changes[|changes| - 1];
      if last.Is(RemoveAdmin(before)) then last.caller else before
  }

  /** The settings that other entry points can change as well. */
  ghost predicate SettingsExplained(g: Settings, g0: Settings, changes: seq<Change>) {
    && FeeNow(g0, Latest(changes, Fee), g.feeBps)
    && CooldownNow(g0, Latest(changes, Cooldown), g.cooldown)
    && ReputationNow(g0, Latest(changes, Reputation), g.minReputation)
    && PauseNow(g0, Latest(changes, Pause), g.paused)
    && (forall a :: a in g.agents <==> AgentNow(g0, Latest(changes, Agent(a)), a))
    && (forall t :: t in g.tokens <==> TokenNow(g0, Latest(changes, Token(t)), t))
  }

  /** The settings of the council itself. */
  ghost predicate CouncilExplained(c: Council, first: Address, changes: seq<Change>) {
    && QuorumNow(Latest(changes, Quorum), c.quorum)
    && TimelockNow(Latest(changes, Timelock), c.timelock)
    && LifetimeNow(Latest(changes, Lifetime), c.ttl)
    && (c.initialized <==> Latest(changes, Lifetime).Some?)
    && (forall a :: a in c.admins <==> AdminNow(first, Latest(changes, Admin(a)), a))
    && c.adminCount == 1 + AdminsAdded(changes) && c.legacyAdmin == Legacy(first, changes)
  }

  /** The stored list of admins, without repetitions. */
  ghost predicate ListExplained(list: seq<Address>, changes: seq<Change>) {
    Distinct(list) && forall a :: a in list <==> ListedNow(Latest(changes, Listing(a)), a)
  }

  // ----- one call -----

  lemma LatestSnoc(changes: seq<Change>, c: Change, topic: Topic)
    ensures Latest(changes + [c], topic) == if About(topic, c) then Some(c) else Latest(changes, topic)
  {
    assert (changes + [c])[..|changes|] == changes;
  }

  lemma AddedSnoc(changes: seq<Change>, c: Change)
    ensures AdminsAdded(changes + [c])
         == AdminsAdded(changes)
            + (if c.Voted? && c.action.AddAdmin? then 1 else 0) - (if c.Voted? && c.action.RemoveAdmin? then 1 else 0)
    ensures forall first :: Legacy(first, changes + [c])
                         == if c.Is(RemoveAdmin(Legacy(first, changes))) then c.caller else Legacy(first, changes)
  {
    assert (changes + [c])[..|changes|] == changes;
  }

  lemma NothingChanged(changes: seq<Change>)
    ensures changes + [] == changes
  {
  }

  lemma CleanupKeeps(c: Council, ids: seq<nat>)
    ensures var c' := CleanupAll(c, ids);
            c' == c.(proposals := c'.proposals, activeFee := c'.activeFee)
  {
    if ids != [] {
      CleanupKeeps(c, ids[..|ids| - 1]);
    }
  }

  /** A call that makes no change leaves every setting. */
  lemma NoChange(s: State, call: Call)
    requires Apply(s, call).Ok? && ChangeOf(s, call) == []
    ensures var s' := Apply(s, call).value;
            && s'.g == s.g
            && s'.c == s.c.(proposals := s'.c.proposals, votes := s'.c.votes, counter := s'.c.counter,
                            activeFee := s'.c.activeFee)
  {
    match call.step
    case DoPropose(_, _) =>
    case DoVote(_, _) =>
    case DoExecute(_, _) =>
    case DoExpire(_) =>
    case DoMigrate(_, _, _, _) =>
    case DoCleanup(_, ids) => CleanupKeeps(s.c, ids);
    case OtherEntryPoint(_) =>
  }

  /** The one change there is, on the shared settings. */
  predicate SettingsStep(g: Settings, g': Settings, c: Change) {
    match c
    case Elsewhere(h) => g' == h
    case Setup(_, _, _, _) => g' == g
    case Voted(UpdateFee(bps), _) => g' == g.(feeBps := bps)
    case Voted(RegisterAgent(a), _) => g' == g.(agents := g.agents + {a})
    case Voted(RemoveAgent(a), _) => g' == g.(agents := g.agents - {a})
    case Voted(UpdateCooldownPeriod(seconds), _) => g' == g.(cooldown := seconds)
    case Voted(WhitelistAsset(t), _) => g' == g.(tokens := g.tokens + {t})
    case Voted(AdjustReputationThreshold(threshold), _) => g' == g.(minReputation := threshold)
    case Voted(_, _) => g' == g
  }

  /** The same on the settings of the council. */
  predicate CouncilStep(c: Council, c': Council, change: Change) {
    && c'.quorum == (match change
                     case Setup(_, q, _, _) => q
                     case Voted(UpdateQuorum(q), _) => q
                     case _ => c.quorum)
    && c'.timelock == (match change
                       case Setup(_, _, t, _) => t
                       case Voted(UpdateTimelock(t), _) => t
                       case _ => c.timelock)
    && c'.ttl == (if change.Setup? then change.ttl else c.ttl)
    && c'.initialized == (change.Setup? || c.initialized)
    && c'.legacyAdmin == (if change.Is(RemoveAdmin(c.legacyAdmin)) then change.caller else c.legacyAdmin)
    && (match change
        case Voted(AddAdmin(a), _) => c'.admins == c.admins + {a} && c'.adminCount == c.adminCount + 1
        case Voted(RemoveAdmin(a), _) => c'.admins == c.admins - {a} && c'.adminCount == c.adminCount - 1
        case _ => c'.admins == c.admins && c'.adminCount == c.adminCount)
  }

  predicate ListStep(list: seq<Address>, list': seq<Address>, change: Change) {
    match change
    case Setup(caller, _, _, _) => list' == With(list, caller)
    case Voted(AddAdmin(a), _) => list' == With(list, a)
    case Voted(RemoveAdmin(a), _) => list' == Without(list, a)
    case _ => list' == list
  }

  lemma ExecuteSteps(s: State, now: nat, who: Address, id: nat)
    requires Execute(s, now, who, id).Ok?
    ensures var s' := Execute(s, now, who, id).value;
            var c := Voted(s.c.proposals[id].action, who);
            SettingsStep(s.g, s'.g, c) && CouncilStep(s.c, s'.c, c) && ListStep(s.c.adminList, s'.c.adminList, c)
  {
  }

  lemma ChangeSteps(s: State, call: Call)
    requires Apply(s, call).Ok? && ChangeOf(s, call) != []
    ensures var s', c := Apply(s, call).value, ChangeOf(s, call)[0];
            SettingsStep(s.g, s'.g, c) && CouncilStep(s.c, s'.c, c) && ListStep(s.c.adminList, s'.c.adminList, c)
  {
    if call.step.DoExecute? {
      ExecuteSteps(s, call.now, call.step.who, call.step.id);
    }
  }

  lemma SettingsNext(g: Settings, g': Settings, c: Change, g0: Settings, changes: seq<Change>)
    requires SettingsStep(g, g', c) && SettingsExplained(g, g0, changes)
    ensures SettingsExplained(g', g0, changes + [c])
  {
    LatestSnoc(changes, c, Fee);
    LatestSnoc(changes, c, Cooldown);
    LatestSnoc(changes, c, Reputation);
    LatestSnoc(changes, c, Pause);
    forall a
      ensures a in g'.agents <==> AgentNow(g0, Latest(changes + [c], Agent(a)), a)
    {
      LatestSnoc(changes, c, Agent(a));
      assert a in g.agents <==> AgentNow(g0, Latest(changes, Agent(a)), a);
    }
    forall t
      ensures t in g'.tokens <==> TokenNow(g0, Latest(changes + [c], Token(t)), t)
    {
      LatestSnoc(changes, c, Token(t));
      assert t in g.tokens <==> TokenNow(g0, Latest(changes, Token(t)), t);
    }
  }

  lemma CouncilNext(c: Council, c': Council, change: Change, first: Address, changes: seq<Change>)
    requires CouncilStep(c, c', change) && CouncilExplained(c, first, changes)
    ensures CouncilExplained(c', first, changes + [change])
  {
    LatestSnoc(changes, change, Quorum);
    LatestSnoc(changes, change, Timelock);
    LatestSnoc(changes, change, Lifetime);
    AddedSnoc(changes, change);
    forall a
      ensures a in c'.admins <==> AdminNow(first, Latest(changes + [change], Admin(a)), a)
    {
      LatestSnoc(changes, change, Admin(a));
      assert a in c.admins <==> AdminNow(first, Latest(changes, Admin(a)), a);
    }
  }

  lemma {:induction false} WithoutMembers(list: seq<Address>, a: Address)
    ensures forall b :: b in Without(list, a) <==> b in list && b != a
    ensures Distinct(list) ==> Distinct(Without(list, a))
  {
    if list != [] {
      var front, last := list[..|list| - 1], list[|list| - 1];
      WithoutMembers(front, a);
      assert list == front + [last];
      if Distinct(list) {
        assert Distinct(front) && last !in front by {
          assert forall i | 0 <= i < |front| :: front[i] == list[i] != last;
        }
        DistinctSnoc(Without(front, a), last);
        assert Without(front, a) + [] == Without(front, a);
      }
    }
  }

  lemma DistinctSnoc(list: seq<Address>, a: Address)
    requires Distinct(list) && a !in list
    ensures Distinct(list + [a])
  {
  }

  lemma ListNext(list: seq<Address>, list': seq<Address>, change: Change, changes: seq<Change>)
    requires ListStep(list, list', change) && ListExplained(list, changes)
    ensures ListExplained(list', changes + [change])
  {
    match change {
      case Setup(caller, _, _, _) => if caller !in list { DistinctSnoc(list, caller); }
      case Voted(AddAdmin(a), _) => if a !in list { DistinctSnoc(list, a); }
      case Voted(RemoveAdmin(a), _) => WithoutMembers(list, a);
      case _ =>
    }
    forall a
      ensures a in list' <==> ListedNow(Latest(changes + [change], Listing(a)), a)
    {
      LatestSnoc(changes, change, Listing(a));
      assert a in list <==> ListedNow(Latest(changes, Listing(a)), a);
    }
  }

  ghost predicate Explained(s: State, first: Address, g0: Settings, changes: seq<Change>) {
    && SettingsExplained(s.g, g0, changes)
    && CouncilExplained(s.c, first, changes)
    && ListExplained(s.c.adminList, changes)
  }

  lemma ChangeExplained(s: State, s': State, c: Change, first: Address, g0: Settings, changes: seq<Change>)
    requires Explained(s, first, g0, changes)
    requires SettingsStep(s.g, s'.g, c) && CouncilStep(s.c, s'.c, c) && ListStep(s.c.adminList, s'.c.adminList, c)
    ensures Explained(s', first, g0, changes + [c])
  {
    SettingsNext(s.g, s'.g, c, g0, changes);
    CouncilNext(s.c, s'.c, c, first, changes);
    ListNext(s.c.adminList, s'.c.adminList, c, changes);
  }

  lemma CallExplained(s: State, call: Call, first: Address, g0: Settings, changes: seq<Change>)
    requires Explained(s, first, g0, changes) && Apply(s, call).Ok?
    ensures Explained(Apply(s, call).value, first, g0, changes + ChangeOf(s, call))
  {
    if ChangeOf(s, call) == [] {
      NothingChanged(changes);
      NoChange(s, call);
    } else {
      ChangeSteps(s, call);
      assert ChangeOf(s, call) == [ChangeOf(s, call)[0]];
      ChangeExplained(s, Apply(s, call).value, ChangeOf(s, call)[0], first, g0, changes);
    }
  }

  lemma {:induction false} RunExplained(admin: Address, g: Settings, calls: seq<Call>)
    ensures Explained(Run(admin, g, calls).s, admin, g, Changes(admin, g, calls))
  {
    if calls != [] {
      var front, call := calls[..|calls| - 1], calls[|calls| - 1];
      RunExplained(admin, g, front);
      NothingChanged(Changes(admin, g, front));
      if Apply(Run(admin, g, front).s, call).Ok? {
        CallExplained(Run(admin, g, front).s, call, admin, g, Changes(admin, g, front));
      }
    }
  }

  /**
   In every run each setting is the one that the last change of it left, or the first one if there was
   none: an address is a registered agent if and only if the last executed registration or removal of it
   was a registration, an admin likewise, and fee, cooldown, reputation threshold, quorum and timelock
   are those of the last executed update. No other action touches them.
   */
  lemma SettingsAreVotes(admin: Address, g: Settings, calls: seq<Call>)
    ensures SettingsExplained(Run(admin, g, calls).s.g, g, Changes(admin, g, calls))
    ensures CouncilExplained(Run(admin, g, calls).s.c, admin, Changes(admin, g, calls))
    ensures ListExplained(Run(admin, g, calls).s.c.adminList, Changes(admin, g, calls))
  {
    RunExplained(admin, g, calls);
  }

  // ----- an executed action is one that was proposed -----

  /** The proposal is the one that the n-th call made. */
  ghost predicate MadeBy(admin: Address, g: Settings, calls: seq<Call>, n: nat, p: Proposal)
    requires n < |calls|
  {
    var before := Run(admin, g, calls[..n]).s;
    && calls[n].step == DoPropose(p.proposer, p.action) && Apply(before, calls[n]).Ok?
    && p.id == before.c.counter + 1 && p.proposer in before.c.admins && !before.g.paused
    && p.createdAt == calls[n].now && p.expiry == calls[n].now + before.c.ttl
  }

  ghost predicate WasProposed(admin: Address, g: Settings, calls: seq<Call>, p: Proposal) {
    exists n | 0 <= n < |calls| :: MadeBy(admin, g, calls, n, p)
  }

  predicate SameProposal(p: Proposal, p': Proposal) {
    && p'.id == p.id && p'.proposer == p.proposer && p'.action == p.action
    && p'.createdAt == p.createdAt && p'.expiry == p.expiry
  }

  lemma StillProposed(admin: Address, g: Settings, calls: seq<Call>, call: Call, p: Proposal, p': Proposal)
    requires WasProposed(admin, g, calls, p) && SameProposal(p, p')
    ensures WasProposed(admin, g, calls + [call], p')
  {
    var n :| 0 <= n < |calls| && MadeBy(admin, g, calls, n, p);
    assert (calls + [call])[..n] == calls[..n];
    assert MadeBy(admin, g, calls + [call], n, p');
  }

  lemma DispatchKeepsProposals(s: State, executor: Address, action: Action)
    requires Dispatch(s, executor, action).Ok?
    ensures Dispatch(s, executor, action).value.c.proposals == s.c.proposals
  {
  }

  lemma {:induction false} CleanupProposals(c: Council, ids: seq<nat>, id: nat)
    requires id in CleanupAll(c, ids).proposals
    ensures id in c.proposals && CleanupAll(c, ids).proposals[id] == c.proposals[id]
  {
    if ids != [] {
      CleanupProposals(c, ids[..|ids| - 1], id);
    }
  }

  /** A call other than a proposal adds none, and changes of one at most its state and its votes. */
  lemma KeepsProposals(s: State, call: Call, id: nat)
    requires Apply(s, call).Ok? && id in Apply(s, call).value.c.proposals
    requires !(call.step.DoPropose? && id == s.c.counter + 1)
    ensures id in s.c.proposals && SameProposal(s.c.proposals[id], Apply(s, call).value.c.proposals[id])
  {
    match call.step
    case DoExecute(who, i) => DispatchKeepsProposals(s, who, s.c.proposals[i].action);
    case DoCleanup(_, ids) => CleanupProposals(s.c, ids, id);
    case _ =>
  }

  /** Every stored proposal, whatever its state, was made by a call of an admin and says what that call said. */
  lemma {:induction false} ProposalsAreCalls(admin: Address, g: Settings, calls: seq<Call>, id: nat)
    requires id in Run(admin, g, calls).s.c.proposals
    ensures WasProposed(admin, g, calls, Run(admin, g, calls).s.c.proposals[id])
  {
    var front, call := calls[..|calls| - 1], calls[|calls| - 1];
    var s, p := Run(admin, g, front).s, Run(admin, g, calls).s.c.proposals[id];
    assert calls == front + [call] && calls[..|front|] == front;
    if Apply(s, call).Ok? {
      if call.step.DoPropose? && id == s.c.counter + 1 {
        assert MadeBy(admin, g, calls, |front|, p);
      } else {
        KeepsProposals(s, call, id);
        ProposalsAreCalls(admin, g, front, id);
        StillProposed(admin, g, front, call, s.c.proposals[id], p);
      }
    } else {
      ProposalsAreCalls(admin, g, front, id);
      StillProposed(admin, g, front, call, p, p);
    }
  }

  /** So an executed action is one that an admin proposed, under that id, before. */
  lemma ExecutedWasProposed(admin: Address, g: Settings, calls: seq<Call>, now: nat, who: Address, id: nat)
    requires Apply(Run(admin, g, calls).s, Call(now, DoExecute(who, id))).Ok?
    ensures var s := Run(admin, g, calls).s;
            && id in s.c.proposals && who in s.c.admins
            && ChangeOf(s, Call(now, DoExecute(who, id))) == [Voted(s.c.proposals[id].action, who)]
            && WasProposed(admin, g, calls, s.c.proposals[id])
  {
    ProposalsAreCalls(admin, g, calls, id);
  }
}
