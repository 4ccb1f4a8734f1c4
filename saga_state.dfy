/** The order saga's state machine: eight states, the legal transitions, display names. */
module Saga {
  import opened DomainPrimitives

  datatype SagaState =
    | Created
    | PaymentPending
    | Paid
    | KitchenPending
    | DeliveryPending
    | Completed(completedAt: Instant)
    | Cancelled(reason: string, cancelledAt: Instant)
    | Failed(error: string, failedAt: Instant)

  /** SagaState.isValidTransition: decided by the two variants alone. */
  predicate IsValidTransition(from: SagaState, to: SagaState)
  {
    match from
    case Created => to.PaymentPending? || to.Cancelled?
    case PaymentPending => to.Paid? || to.Cancelled? || to.Failed?
    case Paid => to.KitchenPending? || to.Cancelled?
    case KitchenPending => to.DeliveryPending? || to.Cancelled?
    case DeliveryPending => to.Completed? || to.Cancelled? || to.Failed?
    case Completed(_) => false
    case Cancelled(_, _) => false
    case Failed(_, _) => false
  }

  /** SagaState.isTerminal */
  predicate IsTerminal(s: SagaState)
  {
    s.Completed? || s.Cancelled? || s.Failed?
  }

  /** SagaState.displayName */
  function DisplayName(s: SagaState): string
  {
    match s
    case Created => "CREATED"
    case PaymentPending => "PAYMENT_PENDING"
    case Paid => "PAID"
    case KitchenPending => "KITCHEN_PENDING"
    case DeliveryPending => "DELIVERY_PENDING"
    case Completed(_) => "COMPLETED"
    case Cancelled(_, _) => "CANCELLED"
    case Failed(_, _) => "FAILED"
  }

  /** The variant of a state, numbered in declaration order, payload ignored. */
  function Tag(s: SagaState): (t: nat)
    ensures t < 8
  {
    match s
    case Created => 0
    case PaymentPending => 1
    case Paid => 2
    case KitchenPending => 3
    case DeliveryPending => 4
    case Completed(_) => 5
    case Cancelled(_, _) => 6
    case Failed(_, _) => 7
  }

  /** The legal transitions as pairs of variant numbers. */
  const TransitionTable: set<(nat, nat)> := {
    (0, 1), (0, 6),
    (1, 2), (1, 6), (1, 7),
    (2, 3), (2, 6),
    (3, 4), (3, 6),
    (4, 5), (4, 6), (4, 7)
  }

  /** isValidTransition holds for exactly the twelve tabled variant pairs. */
  lemma ValidTransitionsAreTheTable(from: SagaState, to: SagaState)
    ensures IsValidTransition(from, to) <==> (Tag(from), Tag(to)) in TransitionTable
  {
  }

  /** The table has twelve pairs, so 52 of the 64 variant pairs are illegal. */
  lemma TableSize()
    ensures |TransitionTable| == 12
  {
    var early: set<(nat, nat)> := {(0, 1), (0, 6), (1, 2), (1, 6), (1, 7), (2, 3)};
    var late: set<(nat, nat)> := {(2, 6), (3, 4), (3, 6), (4, 5), (4, 6), (4, 7)};
    assert |early| == 6;
    assert |late| == 6;
    assert early !! late;
    assert TransitionTable == early + late;
  }

  lemma TerminalStatesHaveNoSuccessor(from: SagaState, to: SagaState)
    requires IsTerminal(from)
    ensures !IsValidTransition(from, to)
  {
  }

  lemma IsTerminalIsLastThree(s: SagaState)
    ensures IsTerminal(s) <==> Tag(s) >= 5
  {
  }

  /** A legal step leaves a non-terminal state, changes the variant, and never re-enters Created. */
  lemma ValidTransitionShape(from: SagaState, to: SagaState)
    requires IsValidTransition(from, to)
    ensures !IsTerminal(from) && Tag(from) != Tag(to) && !to.Created?
  {
  }

  /** Reasons and timestamps never affect legality. */
  lemma TransitionIgnoresPayload(a: SagaState, a': SagaState, b: SagaState, b': SagaState)
    requires Tag(a) == Tag(a') && Tag(b) == Tag(b')
    ensures IsValidTransition(a, b) == IsValidTransition(a', b')
  {
  }

  lemma NonTerminalCanBeCancelled(from: SagaState, reason: string, at: Instant)
    requires !IsTerminal(from)
    ensures IsValidTransition(from, Cancelled(reason, at))
  {
  }

  /** The eight display names are pairwise distinct. */
  lemma DisplayNameIdentifiesVariant(a: SagaState, b: SagaState)
    ensures DisplayName(a) == DisplayName(b) <==> Tag(a) == Tag(b)
  {
  }
}
