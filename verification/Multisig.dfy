/**
 High-impact admin operations that need M of N approvals: proposed, approved one by one, executed
 automatically by the approval that reaches the threshold, or swept after their lifetime.
 */
module Multisig {
  import opened Common
  import opened Sums
  import FeeService
  import Types

  type Address = Types.Address
  type FeeStrategy = FeeService.FeeStrategy

  const DEFAULT_TTL: nat := 86_400

  datatype OperationType = UpdateFee | WithdrawFees | PauseContract | UnpauseContract

  datatype Operation = Operation(
    id: nat,
    kind: OperationType,
    proposer: Address,
    approvers: seq<Address>,
    threshold: nat,
    proposedAt: nat,
    ttl: nat,
    feeBps: nat,
    withdrawTo: Option<Address>)

  /** The part of the contract that operations change; a fee update sets the rate and the strategy. */
  datatype Host = Host(feeBps: nat, strategy: FeeStrategy, paused: bool, fees: int)

  datatype State = State(
    admins: set<Address>,
    threshold: nat,
    ttl: nat,
    counter: nat,
    pending: map<nat, Operation>,
    host: Host)

  // ----- specification of the steps -----

  function Configure(s: State, caller: Address, threshold: nat, ttl: nat): Result<State> {
    if caller !in s.admins then Err(Unauthorized) else
    :- Need(threshold != 0, InvalidMultiSigThreshold);
    :- Need(ttl != 0, InvalidAmount);
    Ok(s.(threshold := threshold, ttl := ttl))
  }

  /** `tokenOk`: whether the token contract carries out the transfer of a withdrawal. */
  function ExecuteOperation(host: Host, op: Operation, tokenOk: bool): Result<Host> {
    match op.kind
    case UpdateFee => Ok(host.(feeBps := op.feeBps, strategy := FeeService.Percentage(op.feeBps)))
    case WithdrawFees =>
      :- Need(host.fees > 0, NoFeesToWithdraw);
      :- Need(op.withdrawTo.Some?, InvalidAddress);
      :- Need(tokenOk, HostTrap);
      Ok(host.(fees := 0))
    case PauseContract => Ok(host.(paused := true))
    case UnpauseContract => Ok(host.(paused := false))
  }

  function Propose(s: State, now: nat, proposer: Address, kind: OperationType, feeBps: nat, to: Option<Address>,
                   tokenOk: bool)
    : Result<State>
  {
    if proposer !in s.admins then Err(Unauthorized) else
    :- Need(s.counter + 1 <= U64_MAX, HostTrap);
    var op := Operation(s.counter + 1, kind, proposer, [proposer], s.threshold, now, s.ttl, feeBps, to);
    if s.threshold == 1 then
      var host :- ExecuteOperation(s.host, op, tokenOk);
      Ok(s.(counter := op.id, host := host))
    else
      Ok(s.(counter := op.id, pending := s.pending[op.id := op]))
  }

  function Approved(op: Operation, approver: Address): Operation {
    op.(approvers := op.approvers + [approver])
  }

  /** An approval that comes too late fails, and with it the removal it had started. */
  function Approve(s: State, now: nat, approver: Address, id: nat, tokenOk: bool): Result<State> {
    if approver !in s.admins then Err(Unauthorized) else
    :- Need(id in s.pending, OperationNotFound);
    var op := s.pending[id];
    :- Need(op.proposedAt + op.ttl <= U64_MAX, HostTrap);
    :- Need(now <= op.proposedAt + op.ttl, OperationExpired);
    :- Need(approver !in op.approvers, AlreadyApproved);
    var op' := Approved(op, approver);
    if |op'.approvers| >= op.threshold then
      var host :- ExecuteOperation(s.host, op', tokenOk);
      Ok(s.(pending := s.pending - {id}, host := host))
    else
      Ok(s.(pending := s.pending[id := op']))
  }

  function Expire(s: State, now: nat, id: nat): Result<State> {
    if id !in s.pending then Err(OperationNotFound) else
    var op := s.pending[id];
    :- Need(op.proposedAt + op.ttl <= U64_MAX, HostTrap);
    :- Need(now > op.proposedAt + op.ttl, OperationNotFound);
    Ok(s.(pending := s.pending - {id}))
  }

  // ----- the program -----

  class MultisigStore {
    var admins: set<Address>
    var threshold: nat
    var ttl: nat
    var counter: nat
    var pending: map<nat, Operation>
    var host: Host

    function Snapshot(): State
      reads this
    {
      State(admins, threshold, ttl, counter, pending, host)
    }

    /** The answer and the stored state agree with the specification; an error stores nothing. */
    ghost predicate Follows(was: State, spec: Result<State>, answer: Result<()>)
      reads this
    {
      match spec
      case Ok(s') => answer == Ok(()) && Snapshot() == s'
      case Err(error) => answer == Err(error) && Snapshot() == was
    }

    constructor (admins: set<Address>, host: Host)
      ensures Snapshot() == State(admins, 1, DEFAULT_TTL, 0, map[], host)
    {
      this.admins, this.host := admins, host;
      threshold, ttl, counter, pending := 1, DEFAULT_TTL, 0, map[];
    }

    method SetMultisigConfig(caller: Address, newThreshold: nat, ttlSeconds: nat) returns (r: Result<()>)
      modifies this
      ensures Follows(old(Snapshot()), Configure(old(Snapshot()), caller, newThreshold, ttlSeconds), r)
    {
      if caller !in admins {
        return Err(Unauthorized);
      }
      if newThreshold == 0 {
        return Err(InvalidMultiSigThreshold);
      }
      if ttlSeconds == 0 {
        return Err(InvalidAmount);
      }
      threshold := newThreshold;
      ttl := ttlSeconds;
      r := Ok(());
    }

    method Execute(op: Operation, tokenOk: bool) returns (r: Result<()>)
      modifies this`host
      ensures var spec := ExecuteOperation(old(host), op, tokenOk);
              if spec.Ok? then r == Ok(()) && host == spec.value else r == Err(spec.error) && host == old(host)
    {
      match op.kind {
        case UpdateFee =>
          host := host.(feeBps := op.feeBps);
          host := host.(strategy := FeeService.Percentage(op.feeBps));
        case WithdrawFees =>
          if host.fees <= 0 {
            return Err(NoFeesToWithdraw);
          }
          if op.withdrawTo == None {
            return Err(InvalidAddress);
          }
          if !tokenOk {
            return Err(HostTrap);
          }
          host := host.(fees := 0);
        case PauseContract =>
          host := host.(paused := true);
        case UnpauseContract =>
          host := host.(paused := false);
      }
      r := Ok(());
    }

    method ProposeOperation(now: nat, proposer: Address, kind: OperationType, feeBps: nat,
                            withdrawTo: Option<Address>, tokenOk: bool)
      returns (r: Result<()>)
      modifies this
      ensures Follows(old(Snapshot()), Propose(old(Snapshot()), now, proposer, kind, feeBps, withdrawTo, tokenOk), r)
    {
      if proposer !in admins {
        return Err(Unauthorized);
      }
      if counter + 1 > U64_MAX {
        return Err(HostTrap);
      }
      var op := Operation(counter + 1, kind, proposer, [proposer], threshold, now, ttl, feeBps, withdrawTo);
      if threshold == 1 {
        var _ :- Execute(op, tokenOk);
      } else {
        pending := pending[op.id := op];
      }
      counter := op.id;
      r := Ok(());
    }

    method ApproveOperation(now: nat, approver: Address, id: nat, tokenOk: bool) returns (r: Result<()>)
      modifies this
      ensures Follows(old(Snapshot()), Approve(old(Snapshot()), now, approver, id, tokenOk), r)
    {
      if approver !in admins {
        return Err(Unauthorized);
      }
      if id !in pending {
        return Err(OperationNotFound);
      }
      var op := pending[id];
      if op.proposedAt + op.ttl > U64_MAX {
        return Err(HostTrap);
      }
      if now > op.proposedAt + op.ttl {
        return Err(OperationExpired); // the host undoes the removal made just before
      }
      for i := 0 to |op.approvers|
        invariant approver !in op.approvers[..i]
        invariant Snapshot() == old(Snapshot())
      {
        if op.approvers[i] == approver {
          return Err(AlreadyApproved);
        }
      }
      assert op.approvers[..|op.approvers|] == op.approvers;
      op := op.(approvers := op.approvers + [approver]);
      if |op.approvers| >= op.threshold {
        var _ :- Execute(op, tokenOk);
        pending := pending - {id};
      } else {
        pending := pending[id := op];
      }
      r := Ok(());
    }

    method ExpireOperation(now: nat, id: nat) returns (r: Result<()>)
      modifies this
      ensures Follows(old(Snapshot()), Expire(old(Snapshot()), now, id), r)
    {
      if id !in pending {
        return Err(OperationNotFound);
      }
      var op := pending[id];
      if op.proposedAt + op.ttl > U64_MAX {
        return Err(HostTrap);
      }
      if now <= op.proposedAt + op.ttl {
        return Err(OperationNotFound);
      }
      pending := pending - {id};
      r := Ok(());
    }
  }

  // ----- runs -----

  datatype Step =
    | DoConfigure(caller: Address, threshold: nat, ttl: nat)
    | DoPropose(proposer: Address, kind: OperationType, feeBps: nat, withdrawTo: Option<Address>)
    | DoApprove(approver: Address, id: nat)
    | DoExpire(id: nat)
    | ChangeAdmins(admins: set<Address>) // whatever admin management does
    | ChangeHost(host: Host) // whatever else the contract does

  datatype Call = Call(now: nat, tokenOk: bool, step: Step)

  /** One approval, by somebody who was an admin then. */
  datatype Approval = Approval(id: nat, who: Address)

  datatype Execution = Execution(op: Operation, at: nat)

  datatype World = World(s: State, approvals: set<Approval>, executions: seq<Execution>)

  function Apply(s: State, call: Call): Result<State> {
    match call.step
    case DoConfigure(caller, threshold, ttl) => Configure(s, caller, threshold, ttl)
    case DoPropose(proposer, kind, feeBps, to) => Propose(s, call.now, proposer, kind, feeBps, to, call.tokenOk)
    case DoApprove(approver, id) => Approve(s, call.now, approver, id, call.tokenOk)
    case DoExpire(id) => Expire(s, call.now, id)
    case ChangeAdmins(admins) => Ok(s.(admins := admins))
    case ChangeHost(host) => Ok(s.(host := host))
  }

  /** The operation that a successful call executed. */
  function Executed(s: State, s': State, call: Call): seq<Execution> {
    match call.step
    case DoPropose(proposer, kind, feeBps, to) =>
      if s.threshold == 1
      then [Execution(Operation(s.counter + 1, kind, proposer, [proposer], 1, call.now, s.ttl, feeBps, to), call.now)]
      else []
    case DoApprove(approver, id) =>
      if id in s.pending && id !in s'.pending then [Execution(Approved(s.pending[id], approver), call.now)] else []
    case _ => []
  }

  function NewApproval(s: State, call: Call): set<Approval> {
    match call.step
    case DoPropose(proposer, _, _, _) => {Approval(s.counter + 1, proposer)}
    case DoApprove(approver, id) => {Approval(id, approver)}
    case _ => {}
  }

  /** A failed call changes nothing; approvals and executions are written down. */
  function Next(w: World, call: Call): World {
    match Apply(w.s, call)
    case Err(_) => w
    case Ok(s') => World(s', w.approvals + NewApproval(w.s, call), w.executions + Executed(w.s, s', call))
  }

  function Initial(admins: set<Address>, host: Host): World {
    World(State(admins, 1, DEFAULT_TTL, 0, map[], host), {}, [])
  }

  function Run(w: World, calls: seq<Call>): World {
    if calls == [] then w else Next(Run(w, calls[..|calls| - 1]), calls[|calls| - 1])
  }

  // ----- the invariant -----

  ghost predicate Backed(op: Operation, approvals: set<Approval>) {
    Distinct(op.approvers) && forall who | who in op.approvers :: Approval(op.id, who) in approvals
  }

  ghost predicate PendingOk(w: World, id: nat)
    requires id in w.s.pending
  {
    var op := w.s.pending[id];
    op.id == id <= w.s.counter && 1 <= |op.approvers| < op.threshold && Backed(op, w.approvals)
  }

  ghost predicate ExecutionOk(w: World, e: Execution) {
    && e.op.id <= w.s.counter && e.op.id !in w.s.pending
    && |e.op.approvers| == e.op.threshold && Backed(e.op, w.approvals)
    && e.at <= e.op.proposedAt + e.op.ttl
  }

  ghost predicate Inv(w: World) {
    && w.s.threshold >= 1
    && (forall id | id in w.s.pending :: PendingOk(w, id))
    && (forall i | 0 <= i < |w.executions| :: ExecutionOk(w, w.executions[i]))
    && (forall i, j | 0 <= i < j < |w.executions| :: w.executions[i].op.id != w.executions[j].op.id)
  }

  lemma DistinctSnoc<T>(xs: seq<T>, x: T)
    requires Distinct(xs) && x !in xs
    ensures Distinct(xs + [x])
  {
    forall i, j | 0 <= i < j < |xs + [x]|
      ensures (xs + [x])[i] != (xs + [x])[j]
    {
      assert xs[i] in xs;
    }
  }

  lemma ProposeKeepsInv(w: World, call: Call)
    requires Inv(w) && call.step.DoPropose?
    ensures Inv(Next(w, call))
  {
    if Apply(w.s, call).Ok? {
      var w' := Next(w, call);
      assert forall id | id in w.s.pending :: PendingOk(w, id);
      assert forall i | 0 <= i < |w.executions| :: ExecutionOk(w, w.executions[i]);
    }
  }

  lemma ApproveKeepsInv(w: World, call: Call)
    requires Inv(w) && call.step.DoApprove?
    ensures Inv(Next(w, call))
  {
    if Apply(w.s, call).Ok? {
      var w', id := Next(w, call), call.step.id;
      assert PendingOk(w, id);
      DistinctSnoc(w.s.pending[id].approvers, call.step.approver);
      forall other | other in w'.s.pending
        ensures PendingOk(w', other)
      {
        assert PendingOk(w, other);
      }
      assert forall i | 0 <= i < |w.executions| :: ExecutionOk(w, w.executions[i]);
    }
  }

  lemma OthersKeepInv(w: World, call: Call)
    requires Inv(w) && !call.step.DoPropose? && !call.step.DoApprove?
    ensures Inv(Next(w, call))
  {
    if Apply(w.s, call).Ok? {
      var w' := Next(w, call);
      assert w'.executions == w.executions && w'.approvals == w.approvals;
      forall other | other in w'.s.pending
        ensures PendingOk(w', other)
      {
        assert PendingOk(w, other);
      }
      forall i | 0 <= i < |w.executions|
        ensures ExecutionOk(w', w.executions[i])
      {
        assert ExecutionOk(w, w.executions[i]);
      }
    }
  }

  lemma {:induction false} RunKeepsInv(w: World, calls: seq<Call>)
    requires Inv(w)
    ensures Inv(Run(w, calls))
  {
    if calls != [] {
      var front, call := calls[..|calls| - 1], calls[|calls| - 1];
      RunKeepsInv(w, front);
      if call.step.DoPropose? {
        ProposeKeepsInv(Run(w, front), call);
      } else if call.step.DoApprove? {
        ApproveKeepsInv(Run(w, front), call);
      } else {
        OthersKeepInv(Run(w, front), call);
      }
    }
  }

  /**
   Over every run an operation executes at most once, within its lifetime, and with exactly as many
   distinct approvals as the threshold in force when it was proposed asked for, every one of them
   given by an admin.
   */
  lemma ExecutedOnceByThreshold(admins: set<Address>, host: Host, calls: seq<Call>)
    ensures var w := Run(Initial(admins, host), calls);
            && (forall i, j | 0 <= i < j < |w.executions| :: w.executions[i].op.id != w.executions[j].op.id)
            && (forall i | 0 <= i < |w.executions| ::
                  var e := w.executions[i];
                  && |e.op.approvers| == e.op.threshold && Distinct(e.op.approvers)
                  && e.at <= e.op.proposedAt + e.op.ttl
                  && forall who | who in e.op.approvers :: Approval(e.op.id, who) in w.approvals)
  {
    RunKeepsInv(Initial(admins, host), calls);
    var w := Run(Initial(admins, host), calls);
    assert forall i | 0 <= i < |w.executions| :: ExecutionOk(w, w.executions[i]);
  }

  ghost predicate ApprovedByAdmins(calls: seq<Call>, admins: set<Address>, host: Host, a: Approval) {
    exists n | 0 <= n < |calls| ::
      var before := Run(Initial(admins, host), calls[..n]);
      && a in NewApproval(before.s, calls[n]) && Apply(before.s, calls[n]).Ok? && a.who in before.s.admins
  }

  /** Every recorded approval was a call of its own, made while the approver was an admin. */
  lemma {:induction false} ApprovalsAreCalls(admins: set<Address>, host: Host, calls: seq<Call>, a: Approval)
    requires a in Run(Initial(admins, host), calls).approvals
    ensures ApprovedByAdmins(calls, admins, host, a)
  {
    var front, n := calls[..|calls| - 1], |calls| - 1;
    var before := Run(Initial(admins, host), front);
    if a in before.approvals {
      ApprovalsAreCalls(admins, host, front, a);
      var k :| 0 <= k < |front| &&
        var b := Run(Initial(admins, host), front[..k]);
        a in NewApproval(b.s, front[k]) && Apply(b.s, front[k]).Ok? && a.who in b.s.admins;
      assert calls[..k] == front[..k] && calls[k] == front[k];
    } else {
      assert calls[..n] == front;
      assert a in NewApproval(before.s, calls[n]);
    }
  }

  /**
   A late approval is refused and, because the host undoes the failed call, leaves the operation
   stored: only `Expire` ever removes it.
   */
  lemma LateApprovalChangesNothing(w: World, call: Call)
    requires call.step.DoApprove? && call.step.id in w.s.pending
    requires var op := w.s.pending[call.step.id]; call.now > op.proposedAt + op.ttl
    ensures Next(w, call) == w
    ensures Expire(w.s, call.now, call.step.id).Ok?
       <==> w.s.pending[call.step.id].proposedAt + w.s.pending[call.step.id].ttl <= U64_MAX
  {
  }
}
