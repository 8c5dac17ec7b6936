/** The budget of status writes that the configured limits give a saga. */
module PayoutBudget {
  import opened SagaTypes
  import opened Payout

  /** Writes left in a budgeted status: at least the one that leaves it. */
  function Left(budget: int, retry: nat): nat
  {
    if budget - retry >= 1 then budget - retry else 1
  }

  /** An upper bound on the status writes a saga can still make. */
  function Remaining(cfg: Config, status: Status, retry: nat): nat
  {
    var refund := Left(cfg.maxCompensationAttempts, 0);
    var settled := Left(cfg.maxStepAttempts, 0) + refund;
    match status
    case SagaPending => Left(cfg.maxStepAttempts, retry) + 1 + Left(cfg.maxProbes, 0) + settled
    case SagaReserved => 1 + Left(cfg.maxProbes, retry) + settled
    case GatewayPending => Left(cfg.maxProbes, retry) + settled
    case GatewaySucceeded => Left(cfg.maxStepAttempts, retry) + refund
    case GatewayFailed => 1 + refund
    case Compensating => Left(cfg.maxCompensationAttempts, retry)
    case _ => 0
  }

  /** The whole budget of a saga, fixed by the three configured limits. */
  function Budget(cfg: Config): nat
  {
    Left(cfg.maxStepAttempts, 0) + 1 + Left(cfg.maxProbes, 0) + Left(cfg.maxStepAttempts, 0) + Left(cfg.maxCompensationAttempts, 0)
  }

  function Count(writes: seq<nat>, i: nat): nat
  {
    if writes == [] then 0
    else Count(writes[..|writes| - 1], i) + if writes[|writes| - 1] == i then 1 else 0
  }

  lemma CountSnoc(writes: seq<nat>, x: nat, i: nat)
    ensures Count(writes + [x], i) == Count(writes, i) + if x == i then 1 else 0
  {
    assert (writes + [x])[..|writes|] == writes;
  }

  lemma {:induction false} CountNone(writes: seq<nat>, i: nat)
    requires i !in writes
    ensures Count(writes, i) == 0
  {
    if writes != [] {
      CountNone(writes[..|writes| - 1], i);
    }
  }
}
