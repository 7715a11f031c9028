/**
 What executed operations do: over every run the fee, the pause and the collected fees are what the
 last executed operation on them left, and every operation is one that an admin proposed.
 */
module MultisigEffects {
  import opened Common
  import opened Multisig
  import FeeService

  /** An executed operation, or what the rest of the contract made of the host. */
  datatype Change = Ran(op: Operation) | Elsewhere(host: Host)

  function Ops(executions: seq<Execution>): seq<Change> {
    if executions == [] then [] else Ops(executions[..|executions| - 1]) + [Ran(executions[|executions| - 1].op)]
  }

  /** The changes of a successful call: the operation it executed, as it is written down, or what it names. */
  function ChangesOf(s: State, s': State, call: Call): seq<Change> {
    if call.step.ChangeHost? then [Elsewhere(call.step.host)] else Ops(Executed(s, s', call))
  }

  function Changes(w: World, calls: seq<Call>): seq<Change> {
    if calls == [] then [] else
      var front, call := calls[..|calls| - 1], calls[|calls| - 1];
      var s := Run(w, front).s;
      Changes(w, front) + match Apply(s, call)
                          case Ok(s') => ChangesOf(s, s', call)
                          case Err(_) => []
  }

  datatype Topic = Rate | Pausing | Collected

  /** The change decides the topic. */
  predicate About(topic: Topic, change: Change) {
    match change
    case Elsewhere(_) => true
    case Ran(op) =>
      match topic
      case Rate => op.kind == UpdateFee
      case Pausing => op.kind == PauseContract || op.kind == UnpauseContract
      case Collected => op.kind == WithdrawFees
  }

  /** The last change that decides the topic. */
  function Latest(changes: seq<Change>, topic: Topic): Option<Change> {
    if changes == [] then None
    else if About(topic, changes[|changes| - 1]) then Some(changes[|changes| - 1])
    else Latest(changes[..|changes| - 1], topic)
  }

  predicate RateNow(first: Host, latest: Option<Change>, bps: nat, strategy: FeeStrategy) {
    match latest
    case None => bps == first.feeBps && strategy == first.strategy
    case Some(Elsewhere(h)) => bps == h.feeBps && strategy == h.strategy
    case Some(Ran(op)) => bps == op.feeBps && strategy == FeeService.Percentage(op.feeBps)
  }

  predicate PausedNow(first: Host, latest: Option<Change>, paused: bool) {
    match latest
    case None => paused == first.paused
    case Some(Elsewhere(h)) => paused == h.paused
    case Some(Ran(op)) => paused == (op.kind == PauseContract)
  }

  predicate CollectedNow(first: Host, latest: Option<Change>, fees: int) {
    match latest
    case None => fees == first.fees
    case Some(Elsewhere(h)) => fees == h.fees
    case Some(Ran(_)) => fees == 0
  }

  predicate Explained(host: Host, first: Host, changes: seq<Change>) {
    && RateNow(first, Latest(changes, Rate), host.feeBps, host.strategy)
    && PausedNow(first, Latest(changes, Pausing), host.paused)
    && CollectedNow(first, Latest(changes, Collected), host.fees)
  }

  lemma LatestSnoc(changes: seq<Change>, c: Change, topic: Topic)
    ensures Latest(changes + [c], topic) == if About(topic, c) then Some(c) else Latest(changes, topic)
  {
    assert (changes + [c])[..|changes|] == changes;
  }

  lemma NothingChanged(changes: seq<Change>)
    ensures changes + [] == changes
  {
  }

  lemma OpsOne(e: Execution)
    ensures Ops([e]) == [Ran(e.op)]
  {
    assert [e][..0] == [];
  }

  lemma RanExplained(host: Host, op: Operation, tokenOk: bool, first: Host, changes: seq<Change>)
    requires Explained(host, first, changes) && ExecuteOperation(host, op, tokenOk).Ok?
    ensures Explained(ExecuteOperation(host, op, tokenOk).value, first, changes + [Ran(op)])
  {
    LatestSnoc(changes, Ran(op), Rate);
    LatestSnoc(changes, Ran(op), Pausing);
    LatestSnoc(changes, Ran(op), Collected);
  }

  lemma ElsewhereExplained(host: Host, first: Host, changes: seq<Change>)
    ensures Explained(host, first, changes + [Elsewhere(host)])
  {
    LatestSnoc(changes, Elsewhere(host), Rate);
    LatestSnoc(changes, Elsewhere(host), Pausing);
    LatestSnoc(changes, Elsewhere(host), Collected);
  }

  /** What a successful call executed is what changed the host; a call that executes nothing leaves it. */
  lemma ExecutedIs(s: State, call: Call)
    requires Apply(s, call).Ok? && s.threshold >= 1 && !call.step.ChangeHost?
    ensures var s' := Apply(s, call).value;
            var es := Executed(s, s', call);
            if es == [] then s'.host == s.host
            else |es| == 1 && ExecuteOperation(s.host, es[0].op, call.tokenOk) == Ok(s'.host)
  {
  }

  lemma CallExplained(s: State, call: Call, first: Host, changes: seq<Change>)
    requires Explained(s.host, first, changes) && Apply(s, call).Ok? && s.threshold >= 1
    ensures var s' := Apply(s, call).value;
            Explained(s'.host, first, changes + ChangesOf(s, s', call))
  {
    var s' := Apply(s, call).value;
    if call.step.ChangeHost? {
      ElsewhereExplained(s'.host, first, changes);
    } else {
      ExecutedIs(s, call);
      var es := Executed(s, s', call);
      if es == [] {
        NothingChanged(changes);
      } else {
        assert es == [es[0]];
        OpsOne(es[0]);
        RanExplained(s.host, es[0].op, call.tokenOk, first, changes);
      }
    }
  }

  /**
   In every run the fee rate and strategy are those of the last executed fee update, the contract is
   paused exactly if the last executed pause or unpause was a pause, and the collected fees are gone
   once a withdrawal was executed; what nothing executed since touches is as the rest of the contract
   left it.
   */
  lemma {:induction false} HostIsOperations(admins: set<Address>, host: Host, calls: seq<Call>)
    ensures Explained(Run(Initial(admins, host), calls).s.host, host, Changes(Initial(admins, host), calls))
  {
    if calls != [] {
      var front, call := calls[..|calls| - 1], calls[|calls| - 1];
      HostIsOperations(admins, host, front);
      RunKeepsInv(Initial(admins, host), front);
      NothingChanged(Changes(Initial(admins, host), front));
      if Apply(Run(Initial(admins, host), front).s, call).Ok? {
        CallExplained(Run(Initial(admins, host), front).s, call, host, Changes(Initial(admins, host), front));
      }
    }
  }

  predicate NoneElsewhere(calls: seq<Call>) {
    forall c | c in calls :: !c.step.ChangeHost?
  }

  lemma {:induction false} OpsConcat(es: seq<Execution>, es': seq<Execution>)
    ensures Ops(es + es') == Ops(es) + Ops(es')
    decreases |es'|
  {
    if es' == [] {
      assert es + es' == es;
    } else {
      assert (es + es')[..|es + es'| - 1] == es + es'[..|es'| - 1];
      OpsConcat(es, es'[..|es'| - 1]);
    }
  }

  /** If nothing else changes the host, the changes are the executions that the run wrote down. */
  lemma {:induction false} ChangesAreExecutions(admins: set<Address>, host: Host, calls: seq<Call>)
    requires NoneElsewhere(calls)
    ensures Changes(Initial(admins, host), calls) == Ops(Run(Initial(admins, host), calls).executions)
  {
    if calls != [] {
      var w, front, call := Initial(admins, host), calls[..|calls| - 1], calls[|calls| - 1];
      assert call in calls && forall c | c in front :: c in calls;
      ChangesAreExecutions(admins, host, front);
      var s := Run(w, front).s;
      NothingChanged(Changes(w, front));
      if Apply(s, call).Ok? {
        OpsConcat(Run(w, front).executions, Executed(s, Apply(s, call).value, call));
      }
    }
  }

  /** So then the host is what those executions made of the first one. */
  lemma HostIsExecutions(admins: set<Address>, host: Host, calls: seq<Call>)
    requires NoneElsewhere(calls)
    ensures var w := Run(Initial(admins, host), calls);
            Explained(w.s.host, host, Ops(w.executions))
  {
    HostIsOperations(admins, host, calls);
    ChangesAreExecutions(admins, host, calls);
  }

  // ----- an operation is what its proposer asked for -----

  /** The operation is the one that the n-th call proposed, with the threshold and lifetime then in force. */
  ghost predicate MadeBy(w: World, calls: seq<Call>, n: nat, op: Operation)
    requires n < |calls|
  {
    var before := Run(w, calls[..n]).s;
    && calls[n].step == DoPropose(op.proposer, op.kind, op.feeBps, op.withdrawTo) && Apply(before, calls[n]).Ok?
    && op.id == before.counter + 1 && op.proposer in before.admins
    && op.proposedAt == calls[n].now && op.threshold == before.threshold && op.ttl == before.ttl
    && op.approvers != [] && op.approvers[0] == op.proposer
  }

  ghost predicate WasProposed(w: World, calls: seq<Call>, op: Operation) {
    exists n | 0 <= n < |calls| :: MadeBy(w, calls, n, op)
  }

  /** The same operation, perhaps with more approvals. */
  predicate SameOperation(op: Operation, op': Operation) {
    op' == op.(approvers := op'.approvers) && op.approvers <= op'.approvers
  }

  lemma StillProposed(w: World, calls: seq<Call>, call: Call, op: Operation, op': Operation)
    requires WasProposed(w, calls, op) && SameOperation(op, op')
    ensures WasProposed(w, calls + [call], op')
  {
    var n :| 0 <= n < |calls| && MadeBy(w, calls, n, op);
    assert (calls + [call])[..n] == calls[..n];
    assert MadeBy(w, calls + [call], n, op');
  }

  ghost predicate AllProposed(w: World, calls: seq<Call>) {
    var now := Run(w, calls);
    && (forall id | id in now.s.pending :: WasProposed(w, calls, now.s.pending[id]))
    && (forall i | 0 <= i < |now.executions| :: WasProposed(w, calls, now.executions[i].op))
  }

  /** An operation after a successful call was there before, was approved by the call, or was proposed by it. */
  lemma OperationFrom(s: State, call: Call, op: Operation)
    requires Apply(s, call).Ok?
    requires var s' := Apply(s, call).value;
             || (op.id in s'.pending && s'.pending[op.id] == op)
             || (exists e :: e in Executed(s, s', call) && e.op == op)
    requires forall id | id in s.pending :: s.pending[id].id == id
    ensures || (op.id in s.pending && SameOperation(s.pending[op.id], op))
            || (&& call.step == DoPropose(op.proposer, op.kind, op.feeBps, op.withdrawTo)
                && op == Operation(s.counter + 1, op.kind, op.proposer, [op.proposer], s.threshold, call.now, s.ttl,
                                   op.feeBps, op.withdrawTo)
                && op.proposer in s.admins)
  {
  }

  lemma NextProposed(w: World, calls: seq<Call>, call: Call, op: Operation)
    requires Inv(Run(w, calls)) && AllProposed(w, calls)
    requires var s := Run(w, calls).s;
             && Apply(s, call).Ok?
             && (|| (op.id in Apply(s, call).value.pending && Apply(s, call).value.pending[op.id] == op)
                 || (exists e :: e in Executed(s, Apply(s, call).value, call) && e.op == op))
    ensures WasProposed(w, calls + [call], op)
  {
    var s := Run(w, calls).s;
    assert forall id | id in s.pending :: PendingOk(Run(w, calls), id);
    OperationFrom(s, call, op);
    if op.id in s.pending && SameOperation(s.pending[op.id], op) {
      StillProposed(w, calls, call, s.pending[op.id], op);
    } else {
      assert (calls + [call])[..|calls|] == calls;
      assert MadeBy(w, calls + [call], |calls|, op);
    }
  }

  lemma {:induction false} EarlierProposed(w: World, calls: seq<Call>, call: Call)
    requires Inv(Run(w, calls)) && AllProposed(w, calls)
    ensures AllProposed(w, calls + [call])
  {
    assert (calls + [call])[..|calls|] == calls;
    var before, after := Run(w, calls), Run(w, calls + [call]);
    assert forall id | id in before.s.pending :: PendingOk(before, id);
    forall id | id in after.s.pending
      ensures WasProposed(w, calls + [call], after.s.pending[id])
    {
      RunNextInv(w, calls, call);
      assert PendingOk(after, id);
      if Apply(before.s, call).Ok? {
        NextProposed(w, calls, call, after.s.pending[id]);
      } else {
        StillProposed(w, calls, call, before.s.pending[id], before.s.pending[id]);
      }
    }
    forall i | 0 <= i < |after.executions|
      ensures WasProposed(w, calls + [call], after.executions[i].op)
    {
      if i < |before.executions| {
        assert after.executions[i] == before.executions[i];
        StillProposed(w, calls, call, before.executions[i].op, before.executions[i].op);
      } else {
        assert after.executions[i] in Executed(before.s, Apply(before.s, call).value, call);
        NextProposed(w, calls, call, after.executions[i].op);
      }
    }
  }

  lemma RunNextInv(w: World, calls: seq<Call>, call: Call)
    requires Inv(Run(w, calls))
    ensures Inv(Run(w, calls + [call]))
  {
    assert (calls + [call])[..|calls|] == calls;
    if call.step.DoPropose? {
      ProposeKeepsInv(Run(w, calls), call);
    } else if call.step.DoApprove? {
      ApproveKeepsInv(Run(w, calls), call);
    } else {
      OthersKeepInv(Run(w, calls), call);
    }
  }

  /**
   In every run each pending and each executed operation was proposed by an admin, in a call of its own
   that named its kind, rate and recipient, and has the threshold and the lifetime of that moment.
   */
  lemma {:induction false} OperationsAreCalls(admins: set<Address>, host: Host, calls: seq<Call>)
    ensures AllProposed(Initial(admins, host), calls)
  {
    if calls != [] {
      var front, call := calls[..|calls| - 1], calls[|calls| - 1];
      OperationsAreCalls(admins, host, front);
      RunKeepsInv(Initial(admins, host), front);
      EarlierProposed(Initial(admins, host), front, call);
      assert calls == front + [call];
    }
  }

  // ----- when a call is accepted -----

  /** Everything can be carried out but a withdrawal without fees, without a recipient, or refused by the token. */
  predicate Feasible(host: Host, kind: OperationType, to: Option<Address>, tokenOk: bool) {
    kind == WithdrawFees ==> host.fees > 0 && to.Some? && tokenOk
  }

  /** An admin proposes; with a threshold of one the operation is carried out at once, or not proposed at all. */
  lemma ProposesIff(s: State, now: nat, who: Address, kind: OperationType, bps: nat, to: Option<Address>, tokenOk: bool)
    ensures Propose(s, now, who, kind, bps, to, tokenOk).Ok?
       <==> && who in s.admins && s.counter < U64_MAX && (s.threshold == 1 ==> Feasible(s.host, kind, to, tokenOk))
    ensures Propose(s, now, who, kind, bps, to, tokenOk).Ok? ==>
              var s', id := Propose(s, now, who, kind, bps, to, tokenOk).value, s.counter + 1;
              var op := Operation(id, kind, who, [who], s.threshold, now, s.ttl, bps, to);
              && s' == s.(counter := id, pending := s'.pending, host := s'.host)
              && s'.pending == (if s.threshold == 1 then s.pending else s.pending[id := op])
              && (s.threshold != 1 ==> s'.host == s.host)
  {
  }

  /**
   In every run an admin approves once, within the lifetime of the operation; the approval that reaches
   the threshold carries it out and removes it, any other one is added to those before.
   */
  lemma ApprovesIff(admins: set<Address>, host: Host, calls: seq<Call>, now: nat, who: Address, id: nat, tokenOk: bool)
    ensures var s := Run(Initial(admins, host), calls).s;
            Approve(s, now, who, id, tokenOk).Ok?
            <==> && who in s.admins && id in s.pending
                 && var op := s.pending[id];
                    && who !in op.approvers && now <= op.proposedAt + op.ttl <= U64_MAX
                    && (|op.approvers| + 1 == op.threshold ==> Feasible(s.host, op.kind, op.withdrawTo, tokenOk))
    ensures var s := Run(Initial(admins, host), calls).s;
            Approve(s, now, who, id, tokenOk).Ok? ==>
              var s', op := Approve(s, now, who, id, tokenOk).value, s.pending[id];
              if |op.approvers| + 1 == op.threshold
              then s'.pending == s.pending - {id}
              else s'.host == s.host && s'.pending == s.pending[id := op.(approvers := op.approvers + [who])]
  {
    RunKeepsInv(Initial(admins, host), calls);
    var w := Run(Initial(admins, host), calls);
    if id in w.s.pending {
      assert PendingOk(w, id);
    }
  }

  /** Anybody removes an operation once its lifetime is over; nobody before. */
  lemma ExpiresIff(s: State, now: nat, id: nat)
    ensures Expire(s, now, id).Ok?
       <==> id in s.pending && s.pending[id].proposedAt + s.pending[id].ttl < now
            && s.pending[id].proposedAt + s.pending[id].ttl <= U64_MAX
    ensures Expire(s, now, id).Ok? ==> Expire(s, now, id).value == s.(pending := s.pending - {id})
  {
  }

  /** An admin sets threshold and lifetime, neither of them to zero; what is pending keeps its own. */
  lemma ConfiguresIff(s: State, who: Address, threshold: nat, ttl: nat)
    ensures Configure(s, who, threshold, ttl).Ok? <==> who in s.admins && threshold > 0 && ttl > 0
    ensures Configure(s, who, threshold, ttl).Ok? ==>
              Configure(s, who, threshold, ttl).value == s.(threshold := threshold, ttl := ttl)
  {
  }
}
