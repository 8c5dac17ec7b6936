/** The orchestrator's bookkeeping as it runs: each method against the saga store, proved to be the protocol's step. */
module Orchestrator {
  import opened Collections
  import opened SagaTypes
  import opened SagaStore
  import opened Gateway
  import opened Payout

  class SagaDriver {
    const store: Store
    const cfg: Config

    constructor (s: Store, c: Config)
      ensures store == s && cfg == c
    {
      store, cfg := s, c;
    }

    /** Records a failed forward attempt, unless that write is lost, then retries, fails or turns to compensation. */
    method FailForwardStep(i: nat, snap: SagaRow, step: Step, number: nat, cause: Cause, lost: bool) returns (r: Result<(), StoreError>)
      requires (snap.status == SagaPending && step == ReserveStep) || (snap.status == GatewaySucceeded && step == SettleStep)
      modifies store
      ensures var noted := Noted(old(store.Rows()), FailedAttempt(i, snap.status, number), lost);
              && store.Rows() == Took(noted, AfterFailure(cfg, i, snap, cause))
              && (r.Ok? <==> Lands(noted, AfterFailure(cfg, i, snap, cause)))
    {
      if !lost {
        var recorded := store.RecordAttempt(Attempt(i, step, Forward, number, StepFailed, None));
      }
      var attempts := snap.retry + 1;
      var terminal := TerminalCause(cause) || attempts >= cfg.maxStepAttempts;
      if !terminal {
        r := store.Advance(Transition(i, snap.status, snap.status, attempts));
        return;
      }
      if step == ReserveStep {
        r := store.Advance(Transition(i, snap.status, SagaFailed, attempts));
        return;
      }
      r := store.Advance(Transition(i, snap.status, Compensating, 0));
    }

    /** Records a failed compensation, unless that write is lost, then retries or hands the saga to a person. */
    method FailCompensation(i: nat, snap: SagaRow, number: nat, cause: Cause, lost: bool) returns (r: Result<(), StoreError>)
      requires snap.status == Compensating
      modifies store
      ensures var noted := Noted(old(store.Rows()), FailedAttempt(i, Compensating, number), lost);
              && store.Rows() == Took(noted, AfterFailure(cfg, i, snap, cause))
              && (r.Ok? <==> Lands(noted, AfterFailure(cfg, i, snap, cause)))
    {
      if !lost {
        var recorded := store.RecordAttempt(Attempt(i, ReserveStep, Compensation, number, StepFailed, None));
      }
      var attempts := snap.retry + 1;
      if attempts >= cfg.maxCompensationAttempts {
        r := store.Escalate(Transition(i, Compensating, NeedsManualReview, attempts));
        return;
      }
      r := store.Advance(Transition(i, Compensating, Compensating, attempts));
    }

    /** Leaves the saga unresolved for another probe, or escalates once the probes are spent. */
    method DeferAmbiguity(i: nat, snap: SagaRow) returns (r: Result<(), StoreError>)
      modifies store
      ensures store.Rows() == Took(old(store.Rows()), AfterVerdict(cfg, i, snap, Unknown))
      ensures r.Ok? <==> Lands(old(store.Rows()), AfterVerdict(cfg, i, snap, Unknown))
    {
      var attempts := snap.retry + 1;
      if attempts >= cfg.maxProbes {
        r := store.Escalate(Transition(i, GatewayPending, NeedsManualReview, attempts));
        return;
      }
      r := store.Advance(Transition(i, GatewayPending, GatewayPending, attempts));
    }

    /** Maps what the client returned onto the state machine: close the attempt, then move, unless nothing is known. */
    method SettleGatewayOutcome(i: nat, snap: SagaRow, open: Option<nat>, payment: Option<PaymentStatus>, err: GatewayError)
      returns (r: Result<(), StoreError>)
      modifies store
      ensures var verdict := Judge(payment, err);
              var closed := if verdict == Unknown then old(store.Rows()) else Resolved(old(store.Rows()), open, verdict);
              && store.Rows() == Took(closed, AfterVerdict(cfg, i, snap, verdict))
              && (r.Ok? <==> Lands(closed, AfterVerdict(cfg, i, snap, verdict)))
    {
      if err == NoError && payment == Some(Succeeded) {
        if open.Some? {
          store.FinishAttempt(open.value, StepSucceeded);
        }
        r := store.Advance(Transition(i, GatewayPending, GatewaySucceeded, 0));
      } else if Conclusive(err) {
        if open.Some? {
          store.FinishAttempt(open.value, StepFailed);
        }
        r := store.Advance(Transition(i, GatewayPending, GatewayFailed, 0));
      } else {
        r := DeferAmbiguity(i, snap);
      }
    }

    /** Commits the intent to pay before anything is sent; only then may the caller submit. */
    method BeginGatewayCall(i: nat, snap: SagaRow) returns (r: Result<nat, StoreError>)
      modifies store
      ensures r.Ok? <==> old(CanAdvance(store.Rows(), Transition(i, SagaReserved, GatewayPending, snap.retry)))
      ensures r.Err? ==> store.Rows() == old(store.Rows())
      ensures r.Ok? ==> r.value == |old(store.steps)| < |store.steps| && IsOpen(store.steps[r.value], i, GatewayStep)
      ensures r.Ok? ==> i < |store.sagas| && store.sagas[i].status == GatewayPending
    {
      var number := store.NextAttemptNumber(i, GatewayStep, Forward);
      var a := Attempt(i, GatewayStep, Forward, number, Attempted, None);
      NextNumberFree(store.steps, a);
      var id := |store.steps|;
      var done := store.InsertAndAdvance(a, Transition(i, SagaReserved, GatewayPending, snap.retry));
      if done.Err? {
        return Err(done.error);
      }
      return Ok(id);
    }

    /** A compensation that lost its race is done if the saga is compensated, and otherwise a person's business. */
    method ConfirmCompensated(i: nat, snap: SagaRow) returns (r: Result<(), StoreError>)
      modifies store
      ensures i >= |old(store.sagas)| ==> r == Err(SagaNotFound) && store.Rows() == old(store.Rows())
      ensures i < |old(store.sagas)| ==>
                var now := old(store.sagas)[i].status;
                && r.Ok?
                && store.Rows() == if now == Compensated then old(store.Rows())
                                   else Took(old(store.Rows()), Alert(Transition(i, now, NeedsManualReview, snap.retry)))
    {
      if i >= |store.sagas| {
        return Err(SagaNotFound);
      }
      var now := store.sagas[i].status;
      if now == Compensated {
        return Ok(());
      }
      r := store.Escalate(Transition(i, now, NeedsManualReview, snap.retry));
    }
  }
}
