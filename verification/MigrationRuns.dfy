/**
 Runs of migration steps: when the contract is locked, which batch is expected next, and when a
 batch that was already imported is accepted again.
 */
module MigrationRuns {
  import opened Common
  import opened Migration
  import L = Ledger

  datatype Step = DoImport(batch: Batch) | DoLock | DoAbort

  function Next(s: Store, hash: Hasher, step: Step): Result<Store> {
    match step
    case DoImport(b) => Import(s, hash, b)
    case DoLock => Lock(s)
    case DoAbort => Abort(s)
  }

  /** A step that fails leaves the store as it was. */
  function Apply(s: Store, hash: Hasher, step: Step): Store {
    match Next(s, hash, step)
    case Ok(s') => s'
    case Err(_) => s
  }

  function Run(s: Store, hash: Hasher, log: seq<Step>): Store {
    if log == [] then s else Apply(Run(s, hash, log[..|log| - 1]), hash, log[|log| - 1])
  }

  /** No migration has begun. */
  predicate Idle(s: Store) {
    s.expectedNext == 0 && !s.inProgress
  }

  // ----- beginning and end of a migration -----

  /** An accepted export lock, or an accepted first batch of several. */
  predicate Begins(s: Store, hash: Hasher, step: Step) {
    Next(s, hash, step).Ok? && (step.DoLock? || (step.DoImport? && step.batch.number == 0 && step.batch.total != 1))
  }

  /** An accepted abort, or an accepted last batch. */
  predicate Finishes(s: Store, hash: Hasher, step: Step) {
    Next(s, hash, step).Ok? && (step.DoAbort? || (step.DoImport? && step.batch.number + 1 == step.batch.total))
  }

  predicate BeginsAt(s: Store, hash: Hasher, log: seq<Step>, i: nat)
    requires i < |log|
  {
    Begins(Run(s, hash, log[..i]), hash, log[i])
  }

  predicate FinishesAt(s: Store, hash: Hasher, log: seq<Step>, i: nat)
    requires i < |log|
  {
    Finishes(Run(s, hash, log[..i]), hash, log[i])
  }

  ghost predicate FinishedSince(s: Store, hash: Hasher, log: seq<Step>, i: nat) {
    exists j | i <= j < |log| :: FinishesAt(s, hash, log, j)
  }

  /** Some migration has begun and has not been finished since. */
  ghost predicate Underway(s: Store, hash: Hasher, log: seq<Step>) {
    exists i | 0 <= i < |log| :: BeginsAt(s, hash, log, i) && !FinishedSince(s, hash, log, i + 1)
  }

  lemma StepFlag(s: Store, hash: Hasher, step: Step)
    ensures var s' := Apply(s, hash, step);
            && s'.inProgress == (Begins(s, hash, step) || (s.inProgress && !Finishes(s, hash, step)))
            && (Begins(s, hash, step) ==> !Finishes(s, hash, step))
  {
  }

  lemma SameBefore(s: Store, hash: Hasher, front: seq<Step>, step: Step, i: nat)
    requires i < |front|
    ensures BeginsAt(s, hash, front + [step], i) == BeginsAt(s, hash, front, i)
    ensures FinishesAt(s, hash, front + [step], i) == FinishesAt(s, hash, front, i)
  {
    assert (front + [step])[..i] == front[..i];
  }

  lemma AtLast(s: Store, hash: Hasher, front: seq<Step>, step: Step)
    ensures BeginsAt(s, hash, front + [step], |front|) == Begins(Run(s, hash, front), hash, step)
    ensures FinishesAt(s, hash, front + [step], |front|) == Finishes(Run(s, hash, front), hash, step)
    ensures Run(s, hash, front + [step]) == Apply(Run(s, hash, front), hash, step)
  {
    assert (front + [step])[..|front|] == front;
  }

  lemma FinishedSinceSnoc(s: Store, hash: Hasher, front: seq<Step>, step: Step, i: nat)
    requires i <= |front|
    ensures FinishedSince(s, hash, front + [step], i)
       <==> FinishedSince(s, hash, front, i) || Finishes(Run(s, hash, front), hash, step)
  {
    AtLast(s, hash, front, step);
    if j :| i <= j < |front| && FinishesAt(s, hash, front, j) {
      SameBefore(s, hash, front, step, j);
      assert FinishesAt(s, hash, front + [step], j);
    } else if FinishedSince(s, hash, front + [step], i) {
      var j :| i <= j < |front + [step]| && FinishesAt(s, hash, front + [step], j);
      if j < |front| {
        SameBefore(s, hash, front, step, j);
      }
    }
  }

  lemma UnderwaySnoc(s: Store, hash: Hasher, front: seq<Step>, step: Step)
    ensures Underway(s, hash, front + [step])
       <==> Begins(Run(s, hash, front), hash, step)
            || (Underway(s, hash, front) && !Finishes(Run(s, hash, front), hash, step))
  {
    var log, before := front + [step], Run(s, hash, front);
    AtLast(s, hash, front, step);
    if Begins(before, hash, step) {
      assert BeginsAt(s, hash, log, |front|) && !FinishedSince(s, hash, log, |front| + 1);
    }
    if i :| 0 <= i < |front| && BeginsAt(s, hash, front, i) && !FinishedSince(s, hash, front, i + 1) {
      SameBefore(s, hash, front, step, i);
      FinishedSinceSnoc(s, hash, front, step, i + 1);
    }
    if i :| 0 <= i < |log| && BeginsAt(s, hash, log, i) && !FinishedSince(s, hash, log, i + 1) {
      if i < |front| {
        SameBefore(s, hash, front, step, i);
        FinishedSinceSnoc(s, hash, front, step, i + 1);
      }
    }
  }

  /** The flag is up exactly between the beginning of a migration and its end. */
  lemma {:induction false} FlagUpIff(s: Store, hash: Hasher, log: seq<Step>)
    requires Idle(s)
    ensures Run(s, hash, log).inProgress <==> Underway(s, hash, log)
  {
    if log != [] {
      var front, step := log[..|log| - 1], log[|log| - 1];
      assert log == front + [step];
      FlagUpIff(s, hash, front);
      UnderwaySnoc(s, hash, front, step);
      StepFlag(Run(s, hash, front), hash, step);
    }
  }

  /** An abort succeeds exactly then. It keeps what was imported, and batch 0 is expected again. */
  lemma AbortIff(s: Store, hash: Hasher, log: seq<Step>, b: Batch)
    requires Idle(s) && b.number == 0 < b.total && b.hash == hash(b.remittances, 0)
    ensures Abort(Run(s, hash, log)).Ok? <==> Underway(s, hash, log)
    ensures Underway(s, hash, log) ==>
              var aborted := Abort(Run(s, hash, log)).value;
              && Idle(aborted) && aborted.remittances == Run(s, hash, log).remittances
              && Import(aborted, hash, b).Ok?
  {
    FlagUpIff(s, hash, log);
  }

  // ----- the batches since then -----

  /** The batches imported since the last end of a migration. */
  function SinceFinish(s: Store, hash: Hasher, log: seq<Step>): seq<Batch> {
    if log == [] then [] else
      var front, step := log[..|log| - 1], log[|log| - 1];
      var before := Run(s, hash, front);
      if Finishes(before, hash, step) then []
      else if step.DoImport? && Next(before, hash, step).Ok? then SinceFinish(s, hash, front) + [step.batch]
      else SinceFinish(s, hash, front)
  }

  ghost predicate Numbered(batches: seq<Batch>) {
    forall k | 0 <= k < |batches| :: batches[k].number == k
  }

  /** They are the batches 0, 1, .. in order, and the next one is expected; between them the flag is up. */
  lemma {:induction false} ExpectedIsCount(s: Store, hash: Hasher, log: seq<Step>)
    requires Idle(s)
    ensures var s', batches := Run(s, hash, log), SinceFinish(s, hash, log);
            Numbered(batches) && s'.expectedNext == |batches| && (batches != [] ==> s'.inProgress)
  {
    if log != [] {
      ExpectedIsCount(s, hash, log[..|log| - 1]);
    }
  }

  /** Without an export lock the flag says exactly that batches have been imported and more are to come. */
  lemma {:induction false} FlagOfImports(s: Store, hash: Hasher, log: seq<Step>)
    requires Idle(s) && DoLock !in log
    ensures Run(s, hash, log).inProgress <==> SinceFinish(s, hash, log) != []
  {
    if log != [] {
      assert log[|log| - 1] in log && forall step | step in log[..|log| - 1] :: step in log;
      FlagOfImports(s, hash, log[..|log| - 1]);
      ExpectedIsCount(s, hash, log);
    }
  }

  lemma {:induction false} StillCounted(s: Store, hash: Hasher, log: seq<Step>, i: nat)
    requires Idle(s) && i < |log| && log[i].DoImport? && Next(Run(s, hash, log[..i]), hash, log[i]).Ok?
    requires !FinishedSince(s, hash, log, i)
    ensures |SinceFinish(s, hash, log)| > log[i].batch.number
  {
    var front, step := log[..|log| - 1], log[|log| - 1];
    assert log == front + [step];
    FinishedSinceSnoc(s, hash, front, step, i);
    if i < |front| {
      assert front[..i] == log[..i];
      StillCounted(s, hash, front, i);
    } else {
      assert log[..i] == front;
      ExpectedIsCount(s, hash, front);
    }
  }

  /**
   A number that was already imported is accepted again exactly when a migration has ended since and
   the new one has reached that number.
   */
  lemma AcceptedAgainIff(s: Store, hash: Hasher, log: seq<Step>, i: nat, b: Batch)
    requires Idle(s) && i < |log| && log[i].DoImport? && Next(Run(s, hash, log[..i]), hash, log[i]).Ok?
    requires b.number == log[i].batch.number < b.total <= U32_MAX && b.hash == hash(b.remittances, b.number)
    ensures Import(Run(s, hash, log), hash, b).Ok?
       <==> FinishedSince(s, hash, log, i) && |SinceFinish(s, hash, log)| == b.number
  {
    ExpectedIsCount(s, hash, log);
    if !FinishedSince(s, hash, log, i) {
      StillCounted(s, hash, log, i);
    }
  }

  // ----- what the lock blocks -----

  /** While a migration is under way creation, batch creation and confirmation are refused. */
  lemma MigrationBlocks(s: Store, hash: Hasher, log: seq<Step>, l: L.State, env: L.Env, who: string, id: nat,
                        e: L.Entry, entries: seq<L.Entry>)
    requires Idle(s) && Underway(s, hash, log) && l.cfg.migrating == Run(s, hash, log).inProgress
    ensures L.Create(l, env, who, e) == Err(MigrationInProgress)
    ensures L.BatchCreate(l, env, who, entries) == Err(MigrationInProgress)
    ensures L.Confirm(l, env, who, id) == Err(MigrationInProgress)
  {
    FlagUpIff(s, hash, log);
  }
}
