/** The payout saga's persisted vocabulary, and the moves its status column can make. */
module SagaTypes {

  datatype Status =
    | SagaPending | SagaReserved | GatewayPending | GatewaySucceeded | GatewayFailed
    | Compensating | Completed | Compensated | SagaFailed | NeedsManualReview

  predicate Terminal(s: Status)
  {
    s == Completed || s == Compensated || s == SagaFailed || s == NeedsManualReview
  }

  datatype Step = ReserveStep | GatewayStep | SettleStep

  datatype StepDirection = Forward | Compensation

  datatype StepStatus = Attempted | StepSucceeded | StepFailed

  /** One status write: a retry that stays, or an edge of the state machine. */
  predicate Follows(s: Status, t: Status)
  {
    || s == t
    || (s == SagaPending && (t == SagaReserved || t == SagaFailed))
    || (s == SagaReserved && t == GatewayPending)
    || (s == GatewayPending && (t == GatewaySucceeded || t == GatewayFailed || t == NeedsManualReview))
    || (s == GatewaySucceeded && (t == Completed || t == Compensating))
    || (s == GatewayFailed && t == Compensating)
    || (s == Compensating && (t == Compensated || t == NeedsManualReview))
  }

  /** How far along the machine a status is; no write ever goes back. */
  function Rank(s: Status): nat
  {
    match s
    case SagaPending => 0
    case SagaReserved => 1
    case GatewayPending => 2
    case GatewaySucceeded => 3
    case GatewayFailed => 3
    case Compensating => 4
    case _ => 5
  }

  /** Everything a status can still become, over any number of writes. */
  predicate Reaches(s: Status, t: Status)
  {
    || s == t
    || s == SagaPending
    || (s == SagaReserved && t != SagaPending && t != SagaFailed)
    || (s == GatewayPending && t != SagaPending && t != SagaFailed && t != SagaReserved)
    || (s == GatewaySucceeded && (t == Completed || t == Compensating || t == Compensated || t == NeedsManualReview))
    || (s == GatewayFailed && (t == Compensating || t == Compensated || t == NeedsManualReview))
    || (s == Compensating && (t == Compensated || t == NeedsManualReview))
  }

  /** Writes compose, and a write that changes the status strictly raises its rank. */
  lemma ReachesFurther(s: Status, t: Status, u: Status)
    requires Reaches(s, t) && Follows(t, u)
    ensures Reaches(s, u)
    ensures t != u ==> Rank(t) < Rank(u)
  {
  }

  /** Statuses under which a saga's reserve transaction is on the books. */
  predicate HasReserve(s: Status)
  {
    s != SagaPending && s != SagaFailed
  }

  /** Statuses under which a saga's amount is parked in suspense. */
  predicate Holds(s: Status)
  {
    HasReserve(s) && s != Completed && s != Compensated
  }

  /** Statuses only reachable through the committed intent to call the gateway. */
  predicate PastIntent(s: Status)
  {
    HasReserve(s) && s != SagaReserved
  }
}
