/** Addresses, remittance and escrow records, and the remittance status machine. */
module Types {
  import opened Common

  /** An address is its strkey text; netting orders addresses by that text. */
  type Address = string

  datatype RemittanceStatus =
    | Pending
    | Processing
    | Completed
    | Cancelled
    | Failed
    | Disputed
  {
    predicate IsTerminal() {
      Completed? || Cancelled?
    }

    predicate CanTransitionTo(to: RemittanceStatus) {
      match (this, to)
      case (Pending, Processing) => true
      case (Pending, Cancelled) => true
      case (Processing, Completed) => true
      case (Processing, Cancelled) => true
      case (Pending, Failed) => true
      case (Processing, Failed) => true
      case (Failed, Disputed) => true
      case (Completed, _) => false
      case (Cancelled, _) => false
      case (a, b) => a == b
    }

    /** Strictly increases along every change of status. */
    function Rank(): nat {
      match this
      case Pending => 0
      case Processing => 1
      case Failed => 2
      case Disputed => 3
      case Completed => 4
      case Cancelled => 4
    }
  }

  function ValidateTransition(from: RemittanceStatus, to: RemittanceStatus): Outcome {
    if from == to || from.CanTransitionTo(to) then Pass else Fail(InvalidStateTransition)
  }

  /** Validated transitions only climb, and a terminal status admits none. */
  lemma TransitionsClimb(from: RemittanceStatus, to: RemittanceStatus)
    requires ValidateTransition(from, to).Pass?
    ensures from == to || (from.Rank() < to.Rank() && !from.IsTerminal())
  {
  }

  /** The changes that validation lets through, and no others. */
  lemma AllowedTransitions(from: RemittanceStatus, to: RemittanceStatus)
    ensures ValidateTransition(from, to).Pass?
       <==> || from == to
            || (from.Pending? && to in {Processing, Cancelled, Failed})
            || (from.Processing? && to in {Completed, Cancelled, Failed})
            || (from.Failed? && to.Disputed?)
  {
  }

  datatype Remittance = Remittance(
    id: nat,
    sender: Address,
    agent: Address,
    amount: int,
    fee: int,
    status: RemittanceStatus,
    expiry: Option<nat>,
    createdAt: nat,
    failedAt: Option<nat>,
    expiresAt: Option<nat>)

  datatype EscrowStatus = Locked | Released | Refunded

  datatype Escrow = Escrow(
    id: nat,
    sender: Address,
    recipient: Address,
    amount: int,
    expiry: Option<nat>,
    status: EscrowStatus)

  predicate Expired(expiry: Option<nat>, now: nat) {
    expiry.Some? && now > expiry.value
  }
}
