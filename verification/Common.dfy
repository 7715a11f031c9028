/**
 Machine-integer bounds, checked arithmetic and the result types shared by the whole model.
 The contract is built with overflow checks, so an unchecked Rust operation that leaves its type
 aborts the invocation; that outcome is `Err(HostTrap)`.
 */
module Common {

  const U32_MAX: int := 0xFFFF_FFFF
  const U64_MAX: int := 0xFFFF_FFFF_FFFF_FFFF
  const I128_MAX: int := 0x7FFF_FFFF_FFFF_FFFF_FFFF_FFFF_FFFF_FFFF
  const I128_MIN: int := -0x8000_0000_0000_0000_0000_0000_0000_0000

  datatype Option<+T> = None | Some(value: T)

  datatype Error =
    | AgentAlreadyRegistered
    | AgentNotRegistered
    | AlreadyAdmin
    | AlreadyApproved
    | AlreadyPaused
    | AlreadyVoted
    | AdminNotFound
    | ContractPaused
    | DailySendLimitExceeded
    | DisputeWindowExpired
    | DuplicateSettlement
    | EscrowNotFound
    | GovernanceAlreadyInitialized
    | HostTrap // a panic in the contract or in the token contract
    | InsufficientAdmins
    | InvalidAddress
    | InvalidAmount
    | InvalidBatchSize
    | InvalidEscrowStatus
    | InvalidFeeBps
    | InvalidMigrationBatch
    | InvalidMigrationHash
    | InvalidMultiSigThreshold
    | InvalidProposalState
    | InvalidQuorum
    | InvalidReputationScore
    | InvalidStateTransition
    | InvalidStatus
    | InvalidTimelockDuration
    | MigrationInProgress
    | NetSettlementValidationFailed
    | NoFeesToWithdraw
    | NotDisputed
    | NotFound
    | NotPaused
    | OperationExpired
    | OperationNotFound
    | Overflow
    | ProposalAlreadyPending
    | ProposalNotFound
    | RateLimitExceeded
    | Rejected // a check outside this model (authorization, roles, KYC, caps, proofs) said no
    | RemittanceNotFound
    | SettlementExpired
    | TimelockActive
    | TokenAlreadyWhitelisted
    | Unauthorized
    | Underflow
    | UserBlacklisted

  datatype Result<+T> = Ok(value: T) | Err(error: Error) {
    predicate IsFailure() {
      Err?
    }

    function PropagateFailure<U>(): Result<U>
      requires Err?
    {
      Err(error)
    }

    function Extract(): T
      requires Ok?
    {
      value
    }
  }

  /** `:- Need(condition, error)` stops with `error` unless the condition holds. */
  datatype Outcome = Pass | Fail(error: Error) {
    predicate IsFailure() {
      Fail?
    }

    function PropagateFailure<U>(): Result<U>
      requires Fail?
    {
      Err(error)
    }
  }

  function Need(condition: bool, error: Error): Outcome {
    if condition then Pass else Fail(error)
  }

  predicate InI128(x: int) {
    I128_MIN <= x <= I128_MAX
  }

  /** Rust's `checked_*` followed by `.ok_or(Overflow)` on i128. */
  function Checked(x: int): Result<int> {
    if InI128(x) then Ok(x) else Err(Overflow)
  }

  /** Rust's `saturating_add` on i128. */
  function Saturated(x: int): int {
    if x > I128_MAX then I128_MAX else if x < I128_MIN then I128_MIN else x
  }

  /** Rust's `saturating_sub` on an unsigned type. */
  function SaturatingSub(a: nat, b: nat): nat {
    if a >= b then a - b else 0
  }

  /** Rust's `saturating_add` on u64. */
  function SaturatingAddU64(a: nat, b: nat): nat {
    if a + b > U64_MAX then U64_MAX else a + b
  }

  function Min(a: int, b: int): int {
    if a <= b then a else b
  }

  function Max(a: int, b: int): int {
    if a >= b then a else b
  }

  function Abs(a: int): int {
    if a < 0 then -a else a
  }
}
