/** Which refusals end a payout step for good, told from what the ledger can refuse and why. */
module PayoutFailures {
  import opened Collections
  import opened LedgerTypes
  import opened Ledger
  import opened LedgerStore
  import opened SagaTypes
  import opened SagaStore
  import opened Gateway
  import opened Payout
  import opened PayoutDrives

  /** A driver whose ledger write failed notes the failure, if it can, and decides. */
  function Failing(d: nat, cause: Cause, unnoted: bool): seq<Event>
  {
    [Drive(d, Refuse(cause)), Drive(d, RecordFailure(unnoted)), Drive(d, Decide)]
  }

  /** The driver has numbered its attempt at the step its status calls for, and saw the row as it is. */
  predicate Attempting(w: World, d: nat, i: nat, status: Status)
  {
    && Current(w, d, i) && w.tb.sagas[i].status == status
    && if status == Compensating then w.drivers[d].pc.RefundReady? else w.drivers[d].pc.Numbered?
  }

  /** The saga's row afterwards, and the alerts raised on the way. */
  predicate Leaves(cfg: Config, w: World, es: seq<Event>, i: nat, status: Status, retry: nat, alerts: seq<nat>)
  {
    var w' := Play(cfg, w, es);
    && i < |w'.tb.sagas| && i < |w.tb.sagas|
    && w'.tb.sagas == w.tb.sagas[i := w.tb.sagas[i].(status := status, retry := retry)] && w'.tb.alerts == alerts
  }

  lemma DecisionTaken(cfg: Config, w: World, d: nat, cause: Cause, wr: Write)
    requires d in w.drivers && w.drivers[d].pc == Deciding(cause)
    requires wr == AfterFailure(cfg, w.drivers[d].saga, w.drivers[d].snap, cause) && !wr.NoWrite?
    ensures Apply(cfg, w, Drive(d, Decide)).tb == Took(w.tb, wr)
  {
  }

  lemma NoteTaken(cfg: Config, w: World, d: nat, n: nat, cause: Cause, unnoted: bool)
    requires d in w.drivers && w.drivers[d].pc == Refused(n, cause)
    ensures var w' := Apply(cfg, w, Drive(d, RecordFailure(unnoted)));
            && w'.drivers == w.drivers[d := w.drivers[d].(pc := Deciding(cause))]
            && w'.tb.sagas == w.tb.sagas && w'.tb.alerts == w.tb.alerts
  {
    RecordIsStep(cfg, w, d, unnoted);
  }

  lemma RefusalTaken(cfg: Config, w: World, d: nat, i: nat, status: Status, cause: Cause)
    requires Attempting(w, d, i, status) && Decidable(status)
    requires status == Compensating ==> cause != Stale && cause != Refusal(AlreadyReversed)
    ensures Apply(cfg, w, Drive(d, Refuse(cause))) == At(w, d, Refused(w.drivers[d].pc.number, cause))
  {
  }

  /** Failing at a step makes exactly the write that the failure calls for. */
  lemma FailingTakes(cfg: Config, w: World, d: nat, i: nat, status: Status, cause: Cause, unnoted: bool, wr: Write)
    requires Attempting(w, d, i, status) && Decidable(status)
    requires status == Compensating ==> cause != Stale && cause != Refusal(AlreadyReversed)
    requires wr == AfterFailure(cfg, i, w.tb.sagas[i], cause)
    ensures !wr.NoWrite? && wr.t.saga == i
    ensures var tb' := Play(cfg, w, Failing(d, cause, unnoted)).tb;
            tb'.sagas == Took(w.tb, wr).sagas && tb'.alerts == Took(w.tb, wr).alerts
  {
    var n := w.drivers[d].pc.number;
    PlayThree(cfg, w, Drive(d, Refuse(cause)), Drive(d, RecordFailure(unnoted)), Drive(d, Decide));
    var w1 := At(w, d, Refused(n, cause));
    RefusalTaken(cfg, w, d, i, status, cause);
    NoteTaken(cfg, w1, d, n, cause, unnoted);
    var w2 := Apply(cfg, w1, Drive(d, RecordFailure(unnoted)));
    DecisionTaken(cfg, w2, d, cause, wr);
  }

  lemma FaultIsTerminal(db: Db, req: Request, choice: map<Id, Id>, error: LedgerError)
    requires PostFault(db, req, choice, error)
    ensures TerminalCause(Refusal(error))
  {
  }

  lemma TerminalEnds(cfg: Config, w: World, d: nat, i: nat, status: Status, cause: Cause, unnoted: bool)
    requires Attempting(w, d, i, status) && TerminalCause(cause)
    ensures status == SagaPending ==>
              Leaves(cfg, w, Failing(d, cause, unnoted), i, SagaFailed, w.tb.sagas[i].retry + 1, w.tb.alerts)
    ensures status == GatewaySucceeded ==> Leaves(cfg, w, Failing(d, cause, unnoted), i, Compensating, 0, w.tb.alerts)
  {
    if status == SagaPending || status == GatewaySucceeded {
      FailingTakes(cfg, w, d, i, status, cause, unnoted, AfterFailure(cfg, i, w.tb.sagas[i], cause));
    }
  }

  /**
   Whatever the ledger can say against a reserve, and can say truthfully of the ledger as it stands, fails
   the saga at once, however many attempts it has left.
   */
  lemma ReserveRefusalFails(cfg: Config, w: World, d: nat, i: nat, choice: map<Id, Id>, error: LedgerError, unnoted: bool)
    requires Attempting(w, d, i, SagaPending) && PostFault(w.db, ReserveRequest(i, w.tb.sagas[i]), choice, error)
    ensures Leaves(cfg, w, Failing(d, Refusal(error), unnoted), i, SagaFailed, w.tb.sagas[i].retry + 1, w.tb.alerts)
  {
    FaultIsTerminal(w.db, ReserveRequest(i, w.tb.sagas[i]), choice, error);
    TerminalEnds(cfg, w, d, i, SagaPending, Refusal(error), unnoted);
  }

  /** And whatever it can say against a settle turns the saga to compensation at once. */
  lemma SettleRefusalCompensates(cfg: Config, w: World, d: nat, i: nat, choice: map<Id, Id>, error: LedgerError, unnoted: bool)
    requires Attempting(w, d, i, GatewaySucceeded) && ValidPayload(w.tb.sagas[i].payload)
    requires PostFault(w.db, SettleRequest(i, w.tb.sagas[i]), choice, error)
    ensures Leaves(cfg, w, Failing(d, Refusal(error), unnoted), i, Compensating, 0, w.tb.alerts)
  {
    FaultIsTerminal(w.db, SettleRequest(i, w.tb.sagas[i]), choice, error);
    TerminalEnds(cfg, w, d, i, GatewaySucceeded, Refusal(error), unnoted);
  }

  /** Lost races and lost connections: the same step may well succeed next time. */
  predicate Transient(cause: Cause)
  {
    cause == Stale || cause == Interrupted || cause == Refusal(BalanceVersionConflict)
  }

  /** A passing trouble costs one attempt and changes nothing else, until the attempts are spent. */
  lemma TransientCostsAnAttempt(cfg: Config, w: World, d: nat, i: nat, status: Status, cause: Cause, unnoted: bool)
    requires Attempting(w, d, i, status) && Transient(cause) && (status == SagaPending || status == GatewaySucceeded)
    ensures var retry := w.tb.sagas[i].retry + 1;
            if retry < cfg.maxStepAttempts
            then Leaves(cfg, w, Failing(d, cause, unnoted), i, status, retry, w.tb.alerts)
            else if status == SagaPending
            then Leaves(cfg, w, Failing(d, cause, unnoted), i, SagaFailed, retry, w.tb.alerts)
            else Leaves(cfg, w, Failing(d, cause, unnoted), i, Compensating, 0, w.tb.alerts)
  {
    FailingTakes(cfg, w, d, i, status, cause, unnoted, AfterFailure(cfg, i, w.tb.sagas[i], cause));
  }

  /** A gateway's answer moves the saga with a fresh count; silence costs a probe, and the last one calls a person. */
  lemma VerdictMoves(cfg: Config, w: World, d: nat, i: nat, verdict: Verdict)
    requires Current(w, d, i) && w.tb.sagas[i].status == GatewayPending && w.drivers[d].pc == Concluding(verdict)
    ensures var es, probes := [Drive(d, Conclude)], w.tb.sagas[i].retry + 1;
            match verdict
            case Confirmed => Leaves(cfg, w, es, i, GatewaySucceeded, 0, w.tb.alerts)
            case Refuted => Leaves(cfg, w, es, i, GatewayFailed, 0, w.tb.alerts)
            case Unknown =>
              if probes < cfg.maxProbes then Leaves(cfg, w, es, i, GatewayPending, probes, w.tb.alerts)
              else Leaves(cfg, w, es, i, NeedsManualReview, probes, w.tb.alerts + [i])
  {
    var e := Drive(d, Conclude);
    assert [e][1..] == [];
    assert Play(cfg, w, [e]) == Play(cfg, Apply(cfg, w, e), []);
    assert Apply(cfg, w, e).tb == Took(w.tb, AfterVerdict(cfg, i, w.tb.sagas[i], verdict));
  }

  /** With nothing on the books to reverse, a compensation is done at once. */
  lemma NothingToReverseCompensates(cfg: Config, w: World, d: nat, i: nat)
    requires Current(w, d, i) && w.tb.sagas[i].status == Compensating && w.drivers[d].pc == Claimed
    requires FirstCommitted(w.tb.steps, i, ReserveStep, Forward) == None
    ensures Leaves(cfg, w, [Drive(d, FindReserve), Drive(d, EmptyRefund)], i, Compensated, 0, w.tb.alerts)
  {
    var e, f := Drive(d, FindReserve), Drive(d, EmptyRefund);
    var w1 := At(w, d, NothingPosted);
    assert Apply(cfg, w, e) == w1;
    assert [e, f][1..] == [f] && [f][1..] == [];
    assert Play(cfg, w1, [f]) == Play(cfg, Apply(cfg, w1, f), []);
    assert Apply(cfg, w1, f).tb == Took(w.tb, Move(Transition(i, Compensating, Compensated, 0)));
  }

  /** Statuses a saga reaches by getting on rather than by giving up or going out to the gateway. */
  predicate Progress(status: Status)
  {
    status == SagaReserved || status == GatewaySucceeded || status == GatewayFailed || status == Completed
    || status == Compensating || status == Compensated
  }

  /** If the saga got on to one of them, it did so with no attempt spent. */
  predicate Afresh(tb: Tables, tb': Tables, i: nat)
  {
    && i < |tb.sagas| && i < |tb'.sagas|
    && (tb'.sagas[i].status != tb.sagas[i].status && Progress(tb'.sagas[i].status) ==> tb'.sagas[i].retry == 0)
  }

  predicate Fresh(t: Transition)
  {
    t.to != t.from && Progress(t.to) ==> t.retry == 0
  }

  lemma WriteIsFresh(cfg: Config, drv: Driver, act: Act)
    ensures var wr := WriteOf(cfg, drv, act); !wr.NoWrite? ==> Fresh(wr.t)
  {
  }

  lemma TookAfresh(tb: Tables, wr: Write, i: nat)
    requires i < |tb.sagas| && (!wr.NoWrite? ==> Fresh(wr.t))
    ensures Afresh(tb, Took(tb, wr), i)
  {
  }

  lemma CommitsAfresh(w: World, d: nat, db': Option<Db>, a: Attempt, t: Transition, lost: bool, i: nat)
    requires i < |w.tb.sagas| && Fresh(t)
    ensures Afresh(w.tb, Commits(w, d, db', a, t, lost).tb, i)
  {
  }

  lemma LedgerStepAfresh(w: World, d: nat, drv: Driver, act: Act, i: nat)
    requires i < |w.tb.sagas| && Committing(act)
    ensures Afresh(w.tb, LedgerStep(w, d, drv, act).tb, i)
  {
    var k, p := drv.saga, drv.snap.payload;
    match act
    case CommitReserve(stamp, choice, lost) =>
      if drv.pc.Numbered? {
        CommitsAfresh(w, d, PostAndHold(w.db, stamp, ReserveRequest(k, drv.snap), choice, p.suspense, p.amount),
                      Attempt(k, ReserveStep, Forward, drv.pc.number, StepSucceeded, Some(stamp.tx)),
                      Transition(k, SagaPending, SagaReserved, 0), lost, i);
      }
    case CommitSettle(stamp, choice, lost) =>
      if drv.pc.Numbered? && ValidPayload(p) {
        CommitsAfresh(w, d, PostAndHold(w.db, stamp, SettleRequest(k, drv.snap), choice, p.suspense, Release(p)),
                      Attempt(k, SettleStep, Forward, drv.pc.number, StepSucceeded, Some(stamp.tx)),
                      Transition(k, GatewaySucceeded, Completed, 0), lost, i);
      }
    case CommitRefund(stamp, lost) =>
      if drv.pc.RefundReady? {
        CommitsAfresh(w, d, ReverseAndHold(w.db, stamp, drv.pc.tx, p.suspense, Release(p)),
                      Attempt(k, ReserveStep, Compensation, drv.pc.number, StepSucceeded, Some(stamp.tx)),
                      Transition(k, Compensating, Compensated, 0), lost, i);
      }
  }

  lemma BeginAfresh(w: World, d: nat, lost: bool, i: nat)
    requires i < |w.tb.sagas| && d in w.drivers
    ensures Afresh(w.tb, BeginStep(w, d, lost).tb, i)
  {
  }

  /** Getting on to a new status starts its attempts from zero. */
  lemma ProgressStartsAfresh(cfg: Config, w: World, d: nat, act: Act, i: nat)
    requires i < |w.tb.sagas| && d in w.drivers
    ensures Afresh(w.tb, Apply(cfg, w, Drive(d, act)).tb, i)
  {
    if Writing(act) {
      WriteIsFresh(cfg, w.drivers[d], act);
      TookAfresh(w.tb, WriteOf(cfg, w.drivers[d], act), i);
    } else if Committing(act) {
      LedgerStepAfresh(w, d, w.drivers[d], act, i);
    } else if act.BeginGateway? {
      BeginAfresh(w, d, act.lost, i);
    }
  }

  /** A compensation is never given up for a reason: every failure costs an attempt, and the last one calls a person. */
  lemma CompensationCostsAnAttempt(cfg: Config, w: World, d: nat, i: nat, cause: Cause, unnoted: bool)
    requires Attempting(w, d, i, Compensating) && cause != Stale && cause != Refusal(AlreadyReversed)
    ensures var retry := w.tb.sagas[i].retry + 1;
            if retry < cfg.maxCompensationAttempts
            then Leaves(cfg, w, Failing(d, cause, unnoted), i, Compensating, retry, w.tb.alerts)
            else Leaves(cfg, w, Failing(d, cause, unnoted), i, NeedsManualReview, retry, w.tb.alerts + [i])
  {
    FailingTakes(cfg, w, d, i, Compensating, cause, unnoted, AfterFailure(cfg, i, w.tb.sagas[i], cause));
  }
}
