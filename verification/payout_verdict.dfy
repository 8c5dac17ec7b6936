/** When the orchestrator's verdict on a payment is right for good, and what its audit row then says. */
module PayoutVerdict {
  import opened Collections
  import opened Ledger
  import opened LedgerInvariants
  import opened SagaTypes
  import opened SagaStore
  import opened Gateway
  import opened Payout
  import opened PayoutSafety
  import opened PayoutGateway

  // ----- denials ------------------------------------------------------------------------------------------

  /** No submission for the saga is travelling, and no driver is about to send one. */
  predicate Quiet(w: World, i: nat)
  {
    i !in w.gw.inFlight && forall d | d in w.drivers && w.drivers[d].pc.Submitting? :: w.drivers[d].saga != i
  }

  predicate Denying(w: World, i: nat, resp: Response)
  {
    i !in w.gw.payments && Truthful(w.gw, i, resp) && Opinion(resp) == Refuted
  }

  /** A driver is told, in answer to a probe or to its own submission, that the saga has no payment. */
  predicate Denies(w: World, e: Event, i: nat)
  {
    && e.Drive? && e.driver in w.drivers && w.drivers[e.driver].saga == i
    && match (e.act, w.drivers[e.driver].pc)
       case (ProbeAnswer(resp), Probing(_)) => Denying(w, i, resp)
       case (PayAnswer(resp), Awaiting(_)) => Denying(w, i, resp)
       case _ => false
  }

  /** Whenever the saga is denied, every submission of its key has been recorded or lost and none is to come. */
  predicate PromptFor(cfg: Config, w: World, es: seq<Event>, i: nat)
    decreases |es|
  {
    es == [] || ((Denies(w, es[0], i) ==> Quiet(w, i)) && PromptFor(cfg, Apply(cfg, w, es[0]), es[1..], i))
  }

  // ----- a quiet saga past its intent stays quiet ------------------------------------------------------------

  predicate Past(tb: Tables, i: nat)
  {
    i < |tb.sagas| && PastIntent(tb.sagas[i].status)
  }

  lemma GrowsPast(tb: Tables, tb': Tables, i: nat)
    requires Grows(tb, tb') && Past(tb, i)
    ensures Past(tb', i)
  {
    assert Grown(tb, tb', i);
  }

  lemma ApplyPast(cfg: Config, w: World, e: Event, i: nat)
    requires Sound(w) && Past(w.tb, i)
    ensures Past(Apply(cfg, w, e).tb, i)
  {
    ApplyGrows(cfg, w, e);
    GrowsPast(w.tb, Apply(cfg, w, e).tb, i);
  }

  /** Only a driver about to submit sends, and only a saga in RESERVED gets one. */
  predicate StillQuiet(w: World, w': World, i: nat)
  {
    Quiet(w', i) && WasPaid(w'.gw, i) == WasPaid(w.gw, i)
  }

  lemma LedgerStepQuiet(w: World, d: nat, drv: Driver, act: Act, i: nat)
    requires Quiet(w, i) && Committing(act)
    ensures StillQuiet(w, LedgerStep(w, d, drv, act), i)
  {
    LedgerStepDrivers(w, d, drv, act);
  }

  predicate SameOrGone(w: World, w': World, d: nat)
  {
    w'.gw == w.gw && (w'.drivers == w.drivers || w'.drivers == w.drivers - {d})
  }

  lemma CommitsDrivers(w: World, d: nat, post: Option<Db>, a: Attempt, t: Transition, lost: bool)
    ensures SameOrGone(w, Commits(w, d, post, a, t, lost), d)
  {
  }

  lemma LedgerStepDrivers(w: World, d: nat, drv: Driver, act: Act)
    requires Committing(act)
    ensures SameOrGone(w, LedgerStep(w, d, drv, act), d)
  {
    var i, p := drv.saga, drv.snap.payload;
    match act
    case CommitReserve(stamp, choice, lost) =>
      if drv.pc.Numbered? {
        CommitsDrivers(w, d, PostAndHold(w.db, stamp, ReserveRequest(i, drv.snap), choice, p.suspense, p.amount),
                       Attempt(i, ReserveStep, Forward, drv.pc.number, StepSucceeded, Some(stamp.tx)),
                       Transition(i, SagaPending, SagaReserved, 0), lost);
      }
    case CommitSettle(stamp, choice, lost) =>
      if drv.pc.Numbered? && ValidPayload(p) {
        CommitsDrivers(w, d, PostAndHold(w.db, stamp, SettleRequest(i, drv.snap), choice, p.suspense, Release(p)),
                       Attempt(i, SettleStep, Forward, drv.pc.number, StepSucceeded, Some(stamp.tx)),
                       Transition(i, GatewaySucceeded, Completed, 0), lost);
      }
    case CommitRefund(stamp, lost) =>
      if drv.pc.RefundReady? {
        CommitsDrivers(w, d, ReverseAndHold(w.db, stamp, drv.pc.tx, p.suspense, Release(p)),
                       Attempt(i, ReserveStep, Compensation, drv.pc.number, StepSucceeded, Some(stamp.tx)),
                       Transition(i, Compensating, Compensated, 0), lost);
      }
  }

  lemma TalkStaysQuiet(w: World, d: nat, act: Act, i: nat)
    requires Quiet(w, i) && d in w.drivers
    ensures StillQuiet(w, TalkStep(w, d, act), i)
  {
  }

  lemma RowStepQuiet(w: World, d: nat, lost: bool, i: nat)
    requires Quiet(w, i) && Past(w.tb, i) && d in w.drivers
    ensures StillQuiet(w, RecordStep(w, d, lost), i) && StillQuiet(w, FinishStep(w, d), i) && StillQuiet(w, BeginStep(w, d, lost), i)
  {
  }

  lemma DriveQuiet(cfg: Config, w: World, d: nat, act: Act, i: nat)
    requires Quiet(w, i) && Past(w.tb, i) && d in w.drivers
    ensures StillQuiet(w, DriverStep(cfg, w, d, act), i)
  {
    if Committing(act) {
      CommitIsStep(cfg, w, d, act);
      LedgerStepQuiet(w, d, w.drivers[d], act, i);
    } else if act.RecordFailure? || act.FinishAttempt? || act.BeginGateway? {
      RowSteps(cfg, w, d, !act.FinishAttempt? && act.lost);
      RowStepQuiet(w, d, !act.FinishAttempt? && act.lost, i);
    } else if !Writing(act) && !Reading(act) && !act.Crash? {
      TalkStaysQuiet(w, d, act, i);
    }
  }

  lemma ApplyQuiet(cfg: Config, w: World, e: Event, i: nat)
    requires Quiet(w, i) && Past(w.tb, i)
    ensures StillQuiet(w, Apply(cfg, w, e), i)
  {
    if e.Drive? && e.driver in w.drivers {
      DriveQuiet(cfg, w, e.driver, e.act, i);
    }
  }

  /** Unpaid, and nothing can ever pay it. */
  predicate Shut(w: World, i: nat)
  {
    Past(w.tb, i) && Quiet(w, i) && !WasPaid(w.gw, i)
  }

  lemma ApplyShut(cfg: Config, w: World, e: Event, i: nat)
    requires Sound(w) && Shut(w, i)
    ensures Shut(Apply(cfg, w, e), i)
  {
    ApplyPast(cfg, w, e, i);
    ApplyQuiet(cfg, w, e, i);
  }

  lemma {:induction false} PlayShut(cfg: Config, w: World, es: seq<Event>, i: nat)
    requires Inv(w.db) && Sound(w) && Shut(w, i)
    ensures Shut(Play(cfg, w, es), i)
    decreases |es|
  {
    if es != [] {
      ApplyInv(cfg, w, es[0], Apply(cfg, w, es[0]));
      ApplySound(cfg, w, es[0]);
      ApplyShut(cfg, w, es[0], i);
      PlayShut(cfg, Apply(cfg, w, es[0]), es[1..], i);
    }
  }

  // ----- prompt runs --------------------------------------------------------------------------------------------

  predicate DeniedShut(w: World, i: nat)
  {
    i in w.gw.denied ==> Shut(w, i)
  }

  lemma DenialIsPast(w: World, e: Event, i: nat)
    requires DriversOk(w) && Denies(w, e, i)
    ensures Past(w.tb, i) && !WasPaid(w.gw, i)
  {
    assert DriverOk(w.tb, w.drivers[e.driver]);
  }

  /** Nothing but a denial enters a key among the denied. */
  lemma NewlyDenied(cfg: Config, w: World, e: Event, i: nat)
    requires i !in w.gw.denied && i in Apply(cfg, w, e).gw.denied
    ensures Denies(w, e, i)
  {
    var d, act := e.driver, e.act;
    if Committing(act) {
      CommitIsStep(cfg, w, d, act);
      LedgerStepDrivers(w, d, w.drivers[d], act);
    } else if Silent(act) {
      SilentGateway(cfg, w, d, act);
    } else {
      TalkDenied(w, d, act, i);
    }
  }

  /** Everything a driver does without talking to anybody. */
  predicate Silent(act: Act)
  {
    act.Crash? || Reading(act) || Writing(act) || act.RecordFailure? || act.BeginGateway? || act.FinishAttempt?
  }

  lemma SilentGateway(cfg: Config, w: World, d: nat, act: Act)
    requires d in w.drivers && Silent(act)
    ensures DriverStep(cfg, w, d, act).gw == w.gw
  {
  }

  lemma TalkDenied(w: World, d: nat, act: Act, i: nat)
    requires d in w.drivers && i !in w.gw.denied && i in TalkStep(w, d, act).gw.denied
    ensures Denies(w, Drive(d, act), i)
  {
  }

  lemma ApplyDenied(cfg: Config, w: World, e: Event, i: nat)
    requires Sound(w) && DeniedShut(w, i) && (Denies(w, e, i) ==> Quiet(w, i))
    ensures DeniedShut(Apply(cfg, w, e), i)
  {
    if i in w.gw.denied {
      ApplyShut(cfg, w, e, i);
    } else if i in Apply(cfg, w, e).gw.denied {
      NewlyDenied(cfg, w, e, i);
      DenialIsPast(w, e, i);
      ApplyShut(cfg, w, e, i);
    }
  }

  lemma {:induction false} PlayDenied(cfg: Config, w: World, es: seq<Event>, i: nat)
    requires Inv(w.db) && Sound(w) && DeniedShut(w, i) && PromptFor(cfg, w, es, i)
    ensures DeniedShut(Play(cfg, w, es), i)
    decreases |es|
  {
    if es != [] {
      ApplyInv(cfg, w, es[0], Apply(cfg, w, es[0]));
      ApplySound(cfg, w, es[0]);
      ApplyDenied(cfg, w, es[0], i);
      PlayDenied(cfg, Apply(cfg, w, es[0]), es[1..], i);
    }
  }

  /** If the saga was only ever denied with nothing under way, GATEWAY_FAILED means that nothing was paid. */
  lemma FailureMeansUnpaid(cfg: Config, db: Db, es: seq<Event>, i: nat)
    requires Untouched(db) && PromptFor(cfg, Opening(db), es, i) && i < |Play(cfg, Opening(db), es).tb.sagas|
    requires Play(cfg, Opening(db), es).tb.sagas[i].status == GatewayFailed
    ensures !WasPaid(Play(cfg, Opening(db), es).gw, i)
  {
    ReachableReliable(cfg, db, es);
    PlayDenied(cfg, Opening(db), es, i);
    var w := Play(cfg, Opening(db), es);
    assert StatusSupported(w.gw, w.tb.steps, w.tb.sagas[i].status, i);
  }

  // ----- and exactly prompt denials ---------------------------------------------------------------------------------

  ghost predicate CanBePaid(cfg: Config, w: World, i: nat)
  {
    exists fs :: WasPaid(Play(cfg, w, fs).gw, i)
  }

  ghost predicate CanFailYetBePaid(cfg: Config, w: World, i: nat)
  {
    exists fs :: FailedYetPaid(Play(cfg, w, fs), i)
  }

  lemma TravellingIsPaid(cfg: Config, w: World, i: nat) returns (fs: seq<Event>)
    requires i in w.gw.inFlight && i !in w.gw.payments
    ensures Play(cfg, w, fs).tb == w.tb && WasPaid(Play(cfg, w, fs).gw, i)
  {
    fs := [GatewayRecords(i, Paid)];
    PlayOne(cfg, w, GatewayRecords(i, Paid));
  }

  lemma SubmitterIsPaid(cfg: Config, w: World, d: nat, i: nat) returns (fs: seq<Event>)
    requires d in w.drivers && w.drivers[d].pc.Submitting? && w.drivers[d].saga == i && i !in w.gw.payments
    ensures Play(cfg, w, fs).tb == w.tb && WasPaid(Play(cfg, w, fs).gw, i)
  {
    fs := [Drive(d, Submit), GatewayRecords(i, Paid)];
    PlayTwo(cfg, w, Drive(d, Submit), GatewayRecords(i, Paid));
  }

  /** Anything under way can still be recorded as paid, with the tables as they are. */
  lemma UnquietIsPaid(cfg: Config, w: World, i: nat) returns (fs: seq<Event>)
    requires !Quiet(w, i) && i !in w.gw.payments
    ensures Play(cfg, w, fs).tb == w.tb && WasPaid(Play(cfg, w, fs).gw, i)
  {
    if i in w.gw.inFlight {
      fs := TravellingIsPaid(cfg, w, i);
    } else {
      var d :| d in w.drivers && w.drivers[d].pc.Submitting? && w.drivers[d].saga == i;
      fs := SubmitterIsPaid(cfg, w, d, i);
    }
  }

  /** The denied driver hears it, and neither the table nor what is under way changes. */
  lemma DenialHeard(cfg: Config, w: World, e: Event, i: nat)
    requires Denies(w, e, i)
    ensures var w' := Apply(cfg, w, e);
            && w'.tb == w.tb && Quiet(w', i) == Quiet(w, i) && i !in w'.gw.payments
            && e.driver in w'.drivers && w'.drivers[e.driver].saga == i
            && w'.drivers[e.driver].pc.Answered? && w'.drivers[e.driver].pc.verdict == Refuted
  {
    var w' := Apply(cfg, w, e);
    var pc := w'.drivers[e.driver].pc;
    assert w'.drivers == w.drivers[e.driver := w.drivers[e.driver].(pc := pc)] && !pc.Submitting?;
    SameSubmitters(w, w', e.driver, i);
  }

  /** A driver that was not about to submit, and is not now, makes no difference to what is under way. */
  lemma SameSubmitters(w: World, w': World, d: nat, i: nat)
    requires d in w.drivers && !w.drivers[d].pc.Submitting? && w'.gw.inFlight == w.gw.inFlight
    requires d in w'.drivers ==> !w'.drivers[d].pc.Submitting?
    requires forall x | x != d :: (x in w'.drivers <==> x in w.drivers) && (x in w.drivers ==> w'.drivers[x] == w.drivers[x])
    ensures Quiet(w', i) == Quiet(w, i)
  {
    if !Quiet(w, i) && i !in w.gw.inFlight {
      var x :| x in w.drivers && w.drivers[x].pc.Submitting? && w.drivers[x].saga == i;
      assert x in w'.drivers && w'.drivers[x].pc.Submitting?;
    }
  }

  /** Left alone, the denied driver writes GATEWAY_FAILED. */
  lemma DenialConcluded(cfg: Config, w: World, d: nat, i: nat)
    requires d in w.drivers && w.drivers[d].saga == i && w.drivers[d].pc.Answered? && w.drivers[d].pc.verdict == Refuted
    requires i < |w.tb.sagas| && w.tb.sagas[i].status == GatewayPending
    ensures var w' := Play(cfg, w, [Drive(d, FinishAttempt), Drive(d, Conclude)]);
            && w'.gw == w.gw && Quiet(w', i) == Quiet(w, i)
            && i < |w'.tb.sagas| && w'.tb.sagas[i].status == GatewayFailed
  {
    PlayTwo(cfg, w, Drive(d, FinishAttempt), Drive(d, Conclude));
    var w1 := Apply(cfg, w, Drive(d, FinishAttempt));
    var w2 := Apply(cfg, w1, Drive(d, Conclude));
    assert w1.drivers == w.drivers[d := w.drivers[d].(pc := Concluding(Refuted))] && w1.tb.sagas == w.tb.sagas && w1.gw == w.gw;
    assert w2.drivers == w1.drivers - {d} && w2.gw == w1.gw;
    SameSubmitters(w, w1, d, i);
    SameSubmitters(w1, w2, d, i);
  }

  lemma UnquietFailsYetPaid(cfg: Config, w: World, d: nat, i: nat)
    requires d in w.drivers && w.drivers[d].saga == i && w.drivers[d].pc.Answered? && w.drivers[d].pc.verdict == Refuted
    requires i < |w.tb.sagas| && w.tb.sagas[i].status == GatewayPending && !Quiet(w, i) && i !in w.gw.payments
    ensures CanFailYetBePaid(cfg, w, i)
  {
    var conclusion := [Drive(d, FinishAttempt), Drive(d, Conclude)];
    DenialConcluded(cfg, w, d, i);
    var w' := Play(cfg, w, conclusion);
    var fs := UnquietIsPaid(cfg, w', i);
    PlayConcat(cfg, w, conclusion, fs);
    assert FailedYetPaid(Play(cfg, w, conclusion + fs), i);
  }

  /**
   After a denial the saga can still turn out paid exactly when something was under way at the denial; and
   if it was waiting for this verdict, exactly then can it end up GATEWAY_FAILED and paid.
   */
  lemma DenialWrongIff(cfg: Config, db: Db, es: seq<Event>, e: Event, i: nat)
    requires Untouched(db) && Denies(Play(cfg, Opening(db), es), e, i)
    ensures var w := Play(cfg, Opening(db), es);
            && (CanBePaid(cfg, Apply(cfg, w, e), i) <==> !Quiet(w, i))
            && i < |w.tb.sagas|
            && (w.tb.sagas[i].status == GatewayPending ==> (CanFailYetBePaid(cfg, Apply(cfg, w, e), i) <==> !Quiet(w, i)))
  {
    ReachableSound(cfg, db, es);
    var w := Play(cfg, Opening(db), es);
    var w' := Apply(cfg, w, e);
    DenialIsPast(w, e, i);
    DenialHeard(cfg, w, e, i);
    if Quiet(w, i) {
      ApplyInv(cfg, w, e, w');
      ApplySound(cfg, w, e);
      forall fs ensures !WasPaid(Play(cfg, w', fs).gw, i) {
        PlayShut(cfg, w', fs, i);
      }
    } else {
      var fs := UnquietIsPaid(cfg, w', i);
      assert WasPaid(Play(cfg, w', fs).gw, i);
      if w.tb.sagas[i].status == GatewayPending {
        UnquietFailsYetPaid(cfg, w', e.driver, i);
      }
    }
  }

  /** A driver is told, in answer to a probe or to its own submission, that the payment itself failed. */
  predicate HearsFailure(w: World, e: Event, i: nat)
  {
    && e.Drive? && e.driver in w.drivers && w.drivers[e.driver].saga == i
    && match (e.act, w.drivers[e.driver].pc)
       case (ProbeAnswer(resp), Probing(_)) => Truthful(w.gw, i, resp) && Says(resp, "FAILED")
       case (PayAnswer(resp), Awaiting(_)) => Truthful(w.gw, i, resp) && Says(resp, "FAILED")
       case _ => false
  }

  lemma ApplyKeepsRecord(cfg: Config, w: World, e: Event, i: nat)
    requires i in w.gw.payments
    ensures i in Apply(cfg, w, e).gw.payments && Apply(cfg, w, e).gw.payments[i] == w.gw.payments[i]
  {
  }

  lemma {:induction false} PlayKeepsRecord(cfg: Config, w: World, es: seq<Event>, i: nat)
    requires i in w.gw.payments
    ensures i in Play(cfg, w, es).gw.payments && Play(cfg, w, es).gw.payments[i] == w.gw.payments[i]
    decreases |es|
  {
    if es != [] {
      ApplyKeepsRecord(cfg, w, es[0], i);
      PlayKeepsRecord(cfg, Apply(cfg, w, es[0]), es[1..], i);
    }
  }

  /** Unlike a denial, a stated failure is final: whatever is still travelling, the saga is never paid afterwards. */
  lemma StatedFailureIsFinal(cfg: Config, w: World, e: Event, i: nat, later: seq<Event>)
    requires HearsFailure(w, e, i)
    ensures !WasPaid(Play(cfg, Apply(cfg, w, e), later).gw, i)
  {
    OpinionExact(e.act.resp);
    ApplyKeepsRecord(cfg, w, e, i);
    PlayKeepsRecord(cfg, Apply(cfg, w, e), later, i);
  }

  /** A submission that is lost never arrives: recording it afterwards records nothing. */
  lemma LostNeverArrives(cfg: Config, w: World, i: nat, outcome: Outcome)
    ensures var lost := Apply(cfg, w, RequestLost(i));
            lost.gw.payments == w.gw.payments && Apply(cfg, lost, GatewayRecords(i, outcome)) == lost
  {
  }

  // ----- what the audit row of the gateway step says ------------------------------------------------------------------

  /** A closed gateway attempt says what the gateway said. */
  predicate RowSays(g: Remote, a: Attempt)
  {
    a.step == GatewayStep ==>
      (a.status == StepSucceeded ==> WasPaid(g, a.saga)) && (a.status == StepFailed ==> Negative(g, a.saga))
  }

  predicate RowsSay(g: Remote, steps: seq<Attempt>)
  {
    forall k | 0 <= k < |steps| :: RowSays(g, steps[k])
  }

  predicate OneIntent(steps: seq<Attempt>)
  {
    forall j, k | 0 <= j < k < |steps| :: steps[j].step == GatewayStep && steps[k].step == GatewayStep ==> steps[j].saga != steps[k].saga
  }

  /** The saga's gateway attempt exists and is closed. */
  predicate Closed(steps: seq<Attempt>, i: nat)
  {
    HasIntent(steps, i) && forall k | 0 <= k < |steps| && IsIntent(steps[k], i) :: steps[k].status != Attempted
  }

  /** The gateway has been heard on these sagas. */
  predicate Decided(s: Status)
  {
    s == GatewaySucceeded || s == GatewayFailed || s == Compensating || s == Completed || s == Compensated
  }

  predicate Points(steps: seq<Attempt>, open: Option<nat>, i: nat)
  {
    if open.Some? then open.value < |steps| && IsIntent(steps[open.value], i) else Closed(steps, i)
  }

  /** A driver knows its saga's attempt row, and concludes only once that row is closed. */
  predicate Aims(steps: seq<Attempt>, drv: Driver)
  {
    match drv.pc
    case Submitting(k) => Points(steps, Some(k), drv.saga)
    case Awaiting(k) => Points(steps, Some(k), drv.saga)
    case Probing(open) => Points(steps, open, drv.saga)
    case Answered(open, v) => v != Unknown && Points(steps, open, drv.saga)
    case Concluding(v) => v != Unknown ==> Closed(steps, drv.saga)
    case _ => true
  }

  predicate AllAim(steps: seq<Attempt>, drivers: map<nat, Driver>)
  {
    forall d | d in drivers :: Aims(steps, drivers[d])
  }

  predicate DecidedClosed(tb: Tables)
  {
    forall i | 0 <= i < |tb.sagas| && Decided(tb.sagas[i].status) :: Closed(tb.steps, i)
  }

  predicate Audited(w: World)
  {
    RowsSay(w.gw, w.tb.steps) && OneIntent(w.tb.steps) && AllAim(w.tb.steps, w.drivers) && DecidedClosed(w.tb)
  }

  // Attempt rows change in two ways: a row is appended, or an open one is closed.

  /** What stays closed and pointed at. */
  predicate Older(steps: seq<Attempt>, steps': seq<Attempt>)
  {
    && |steps| <= |steps'|
    && (forall k | 0 <= k < |steps| ::
          && steps'[k].saga == steps[k].saga && steps'[k].step == steps[k].step
          && (steps[k].status != Attempted ==> steps'[k].status == steps[k].status))
    && (forall k | |steps| <= k < |steps'| :: steps'[k].step == GatewayStep ==> !HasIntent(steps, steps'[k].saga))
  }

  lemma ClosedStays(steps: seq<Attempt>, steps': seq<Attempt>, i: nat)
    requires Older(steps, steps') && Closed(steps, i)
    ensures Closed(steps', i)
  {
    var k :| 0 <= k < |steps| && IsIntent(steps[k], i);
    assert IsIntent(steps'[k], i);
    forall j | 0 <= j < |steps'| && IsIntent(steps'[j], i) ensures steps'[j].status != Attempted {
      if j < |steps| {
        assert IsIntent(steps[j], i);
      }
    }
  }

  lemma AimsStay(steps: seq<Attempt>, steps': seq<Attempt>, drv: Driver)
    requires Older(steps, steps') && Aims(steps, drv)
    ensures Aims(steps', drv)
  {
    if Closed(steps, drv.saga) {
      ClosedStays(steps, steps', drv.saga);
    }
  }

  lemma AllAimStay(steps: seq<Attempt>, steps': seq<Attempt>, drivers: map<nat, Driver>, drivers': map<nat, Driver>, d: nat)
    requires Older(steps, steps') && AllAim(steps, drivers)
    requires forall x | x in drivers' && x != d :: x in drivers && drivers'[x] == drivers[x]
    requires d in drivers' ==> Aims(steps', drivers'[d])
    ensures AllAim(steps', drivers')
  {
    forall x | x in drivers' ensures Aims(steps', drivers'[x]) {
      if x != d {
        AimsStay(steps, steps', drivers[x]);
      }
    }
  }

  lemma DecidedStay(tb: Tables, tb': Tables)
    requires DecidedClosed(tb) && Older(tb.steps, tb'.steps) && |tb'.sagas| >= |tb.sagas|
    requires forall i | 0 <= i < |tb'.sagas| && Decided(tb'.sagas[i].status) ::
               (i < |tb.sagas| && Decided(tb.sagas[i].status)) || Closed(tb'.steps, i)
    ensures DecidedClosed(tb')
  {
    forall i | 0 <= i < |tb'.sagas| && Decided(tb'.sagas[i].status) ensures Closed(tb'.steps, i) {
      if i < |tb.sagas| && Decided(tb.sagas[i].status) {
        ClosedStays(tb.steps, tb'.steps, i);
      }
    }
  }

  lemma SameOlder(steps: seq<Attempt>)
    ensures Older(steps, steps)
  {
  }

  lemma InsertOlder(steps: seq<Attempt>, a: Attempt)
    requires a.step == GatewayStep ==> !HasIntent(steps, a.saga)
    ensures Older(steps, steps + [a])
  {
  }

  lemma FinishOlder(steps: seq<Attempt>, k: nat, status: StepStatus)
    ensures Older(steps, Finished(steps, k, status))
  {
  }

  lemma InsertRows(g: Remote, steps: seq<Attempt>, a: Attempt)
    requires RowsSay(g, steps) && OneIntent(steps)
    requires a.step == GatewayStep ==> a.status == Attempted && !HasIntent(steps, a.saga)
    ensures RowsSay(g, steps + [a]) && OneIntent(steps + [a])
  {
    forall j | 0 <= j < |steps| && steps[j].step == GatewayStep && a.step == GatewayStep ensures steps[j].saga != a.saga {
      assert IsIntent(steps[j], steps[j].saga);
    }
  }

  /** Closing the saga's one gateway attempt closes all there is. */
  lemma FinishRows(g: Remote, steps: seq<Attempt>, k: nat, i: nat, verdict: Verdict)
    requires RowsSay(g, steps) && OneIntent(steps) && k < |steps| && IsIntent(steps[k], i)
    requires verdict != Unknown && Supported(g, i, verdict)
    ensures var steps' := Finished(steps, k, if verdict == Confirmed then StepSucceeded else StepFailed);
            RowsSay(g, steps') && OneIntent(steps') && Closed(steps', i)
  {
    var steps' := Finished(steps, k, if verdict == Confirmed then StepSucceeded else StepFailed);
    assert IsIntent(steps'[k], i);
    forall j | 0 <= j < |steps'| && IsIntent(steps'[j], i) ensures steps'[j].status != Attempted {
      assert j == k;
    }
  }

  lemma RowsRemembered(g: Remote, g': Remote, steps: seq<Attempt>)
    requires RowsSay(g, steps) && Remembers(g, g'.(sent := g.sent))
    ensures RowsSay(g', steps)
  {
  }

  lemma {:induction false} NoneOpen(steps: seq<Attempt>, i: nat, step: Step)
    requires NewestOpen(steps, i, step).None?
    ensures forall k | 0 <= k < |steps| :: !IsOpen(steps[k], i, step)
  {
    if steps != [] {
      NoneOpen(steps[..|steps| - 1], i, step);
      assert forall k | 0 <= k < |steps| - 1 :: steps[..|steps| - 1][k] == steps[k];
    }
  }

  // ----- every event keeps it -----------------------------------------------------------------------------------------

  lemma LearnedAims(w: World, d: nat, act: Act)
    requires DriversOk(w) && Statuses(w.gw, w.tb) && Audited(w) && d in w.drivers
    ensures Aims(w.tb.steps, w.drivers[d].(pc := Learned(w.tb.steps, w.drivers[d], act)))
  {
    var drv := w.drivers[d];
    var i := drv.saga;
    assert DriverOk(w.tb, drv) && Aims(w.tb.steps, drv);
    if act == FindUnresolved && drv.snap.status == GatewayPending && drv.pc == Claimed {
      assert StatusSupported(w.gw, w.tb.steps, w.tb.sagas[i].status, i);
      if NewestOpen(w.tb.steps, i, GatewayStep).None? {
        NoneOpen(w.tb.steps, i, GatewayStep);
        assert forall k | 0 <= k < |w.tb.steps| && IsIntent(w.tb.steps[k], i) :: !IsOpen(w.tb.steps[k], i, GatewayStep);
      }
    }
  }

  /** A driver moves on without touching the tables. */
  lemma StandAudited(w: World, w': World, d: nat)
    requires Audited(w) && w'.tb == w.tb && RowsSay(w'.gw, w.tb.steps)
    requires forall x | x in w'.drivers && x != d :: x in w.drivers && w'.drivers[x] == w.drivers[x]
    requires d in w'.drivers ==> Aims(w.tb.steps, w'.drivers[d])
    ensures Audited(w')
  {
    SameOlder(w.tb.steps);
    AllAimStay(w.tb.steps, w.tb.steps, w.drivers, w'.drivers, d);
  }

  /** A verdict's write finds its row closed; every other write comes from a status that found it so. */
  lemma WriteDecided(cfg: Config, tb: Tables, drv: Driver, act: Act)
    requires DriverOk(tb, drv) && Aims(tb.steps, drv)
    ensures var wr := WriteOf(cfg, drv, act);
            wr.NoWrite? || !Decided(wr.t.to) || Decided(wr.t.from) || (wr.t.saga == drv.saga && Closed(tb.steps, drv.saga))
  {
  }

  lemma WrittenAudited(w: World, d: nat, wr: Write)
    requires Audited(w)
    requires wr.NoWrite? || !Decided(wr.t.to) || Decided(wr.t.from) || Closed(w.tb.steps, wr.t.saga)
    ensures Audited(Written(w, d, wr))
  {
    var w' := Written(w, d, wr);
    SameOlder(w.tb.steps);
    AllAimStay(w.tb.steps, w.tb.steps, w.drivers, w'.drivers, d);
    DecidedStay(w.tb, w'.tb);
  }

  lemma CommitsAudited(w: World, d: nat, post: Option<Db>, a: Attempt, t: Transition, lost: bool)
    requires Audited(w) && a.step != GatewayStep && (Decided(t.to) ==> Decided(t.from))
    ensures Audited(Commits(w, d, post, a, t, lost))
  {
    if post.Some? && CanStep(w.tb, a, t) {
      var w' := Commits(w, d, post, a, t, lost);
      InsertOlder(w.tb.steps, a);
      InsertRows(w.gw, w.tb.steps, a);
      if d in w'.drivers {
        AimsStay(w.tb.steps, w'.tb.steps, w.drivers[d]);
      }
      AllAimStay(w.tb.steps, w'.tb.steps, w.drivers, w'.drivers, d);
      DecidedStay(w.tb, w'.tb);
    }
  }

  lemma LedgerStepAudited(w: World, d: nat, drv: Driver, act: Act)
    requires Audited(w) && Committing(act)
    ensures Audited(LedgerStep(w, d, drv, act))
  {
    var i, p := drv.saga, drv.snap.payload;
    match act
    case CommitReserve(stamp, choice, lost) =>
      if drv.pc.Numbered? {
        CommitsAudited(w, d, PostAndHold(w.db, stamp, ReserveRequest(i, drv.snap), choice, p.suspense, p.amount),
                       Attempt(i, ReserveStep, Forward, drv.pc.number, StepSucceeded, Some(stamp.tx)),
                       Transition(i, SagaPending, SagaReserved, 0), lost);
      }
    case CommitSettle(stamp, choice, lost) =>
      if drv.pc.Numbered? && ValidPayload(p) {
        CommitsAudited(w, d, PostAndHold(w.db, stamp, SettleRequest(i, drv.snap), choice, p.suspense, Release(p)),
                       Attempt(i, SettleStep, Forward, drv.pc.number, StepSucceeded, Some(stamp.tx)),
                       Transition(i, GatewaySucceeded, Completed, 0), lost);
      }
    case CommitRefund(stamp, lost) =>
      if drv.pc.RefundReady? {
        CommitsAudited(w, d, ReverseAndHold(w.db, stamp, drv.pc.tx, p.suspense, Release(p)),
                       Attempt(i, ReserveStep, Compensation, drv.pc.number, StepSucceeded, Some(stamp.tx)),
                       Transition(i, Compensating, Compensated, 0), lost);
      }
  }

  lemma RecordAudited(w: World, d: nat, lost: bool)
    requires Audited(w) && d in w.drivers
    ensures Audited(RecordStep(w, d, lost))
  {
    var drv := w.drivers[d];
    if drv.pc.Refused? {
      var w' := RecordStep(w, d, lost);
      var a := FailedAttempt(drv.saga, drv.snap.status, drv.pc.number);
      SameOlder(w.tb.steps);
      InsertOlder(w.tb.steps, a);
      InsertRows(w.gw, w.tb.steps, a);
      AllAimStay(w.tb.steps, w'.tb.steps, w.drivers, w'.drivers, d);
      DecidedStay(w.tb, w'.tb);
    }
  }

  lemma FinishAudited(w: World, d: nat)
    requires Audited(w) && d in w.drivers && Belief(w.gw, w.drivers[d])
    ensures Audited(FinishStep(w, d))
  {
    var drv := w.drivers[d];
    if drv.pc.Answered? {
      var w' := FinishStep(w, d);
      assert Aims(w.tb.steps, drv);
      SameOlder(w.tb.steps);
      if drv.pc.open.Some? {
        var k := drv.pc.open.value;
        FinishOlder(w.tb.steps, k, if drv.pc.verdict == Confirmed then StepSucceeded else StepFailed);
        FinishRows(w.gw, w.tb.steps, k, drv.saga, drv.pc.verdict);
      }
      AllAimStay(w.tb.steps, w'.tb.steps, w.drivers, w'.drivers, d);
      DecidedStay(w.tb, w'.tb);
    }
  }

  lemma BegunAudited(w: World, d: nat, drv: Driver, n: nat, lost: bool)
    requires Audited(w) && Statuses(w.gw, w.tb) && d in w.drivers && drv == w.drivers[d]
    ensures Audited(Begun(w, d, drv, n, lost))
  {
    var a := Attempt(drv.saga, GatewayStep, Forward, n, Attempted, None);
    var t := Transition(drv.saga, SagaReserved, GatewayPending, drv.snap.retry);
    if CanStep(w.tb, a, t) {
      var w' := Begun(w, d, drv, n, lost);
      assert StatusSupported(w.gw, w.tb.steps, w.tb.sagas[drv.saga].status, drv.saga);
      InsertOlder(w.tb.steps, a);
      InsertRows(w.gw, w.tb.steps, a);
      AllAimStay(w.tb.steps, w'.tb.steps, w.drivers, w'.drivers, d);
      DecidedStay(w.tb, w'.tb);
    }
  }

  lemma TalkAudited(w: World, d: nat, act: Act)
    requires Audited(w) && d in w.drivers
    ensures Audited(TalkStep(w, d, act))
  {
    var w' := TalkStep(w, d, act);
    TalkStepQuiet(w, d, act);
    TalkAims(w, d, act);
    RowsRemembered(w.gw, w'.gw, w.tb.steps);
    StandAudited(w, w', d);
  }

  lemma TalkAims(w: World, d: nat, act: Act)
    requires d in w.drivers && Aims(w.tb.steps, w.drivers[d])
    ensures var w' := TalkStep(w, d, act);
            && (forall x | x in w'.drivers && x != d :: x in w.drivers && w'.drivers[x] == w.drivers[x])
            && (d in w'.drivers ==> Aims(w.tb.steps, w'.drivers[d]))
            && Remembers(w.gw, w'.gw.(sent := w.gw.sent))
  {
  }

  /** A driver that reads, or vanishes. */
  lemma ReadAudited(w: World, d: nat, act: Act)
    requires DriversOk(w) && Statuses(w.gw, w.tb) && Audited(w) && d in w.drivers
    ensures Audited(Gone(w, d)) && Audited(At(w, d, Learned(w.tb.steps, w.drivers[d], act)))
  {
    StandAudited(w, Gone(w, d), d);
    LearnedAims(w, d, act);
    StandAudited(w, At(w, d, Learned(w.tb.steps, w.drivers[d], act)), d);
  }

  lemma WriteAudited(cfg: Config, w: World, d: nat, act: Act)
    requires DriversOk(w) && Audited(w) && d in w.drivers
    ensures Audited(Written(w, d, WriteOf(cfg, w.drivers[d], act)))
  {
    assert DriverOk(w.tb, w.drivers[d]) && Aims(w.tb.steps, w.drivers[d]);
    WriteDecided(cfg, w.tb, w.drivers[d], act);
    WrittenAudited(w, d, WriteOf(cfg, w.drivers[d], act));
  }

  lemma RowStepAudited(cfg: Config, w: World, d: nat, act: Act, w': World)
    requires Reliable(w) && Audited(w) && d in w.drivers && w' == DriverStep(cfg, w, d, act)
    requires act.RecordFailure? || act.BeginGateway? || act.FinishAttempt?
    ensures Audited(w')
  {
    RowSteps(cfg, w, d, !act.FinishAttempt? && act.lost);
    var drv := w.drivers[d];
    if act.RecordFailure? {
      RecordAudited(w, d, act.lost);
    } else if act.FinishAttempt? {
      assert Belief(w.gw, drv);
      FinishAudited(w, d);
    } else if drv.pc.Numbered? {
      BegunAudited(w, d, drv, drv.pc.number, act.lost);
    }
  }

  lemma DriveAudited(cfg: Config, w: World, d: nat, act: Act, w': World)
    requires DriversOk(w) && Reliable(w) && Audited(w) && d in w.drivers && w' == DriverStep(cfg, w, d, act)
    ensures Audited(w')
  {
    if act.Crash? || Reading(act) {
      ReadAudited(w, d, act);
    } else if Writing(act) {
      WriteAudited(cfg, w, d, act);
    } else if Committing(act) {
      CommitIsStep(cfg, w, d, act);
      LedgerStepAudited(w, d, w.drivers[d], act);
    } else if act.RecordFailure? || act.BeginGateway? || act.FinishAttempt? {
      RowStepAudited(cfg, w, d, act, w');
    } else {
      TalkAudited(w, d, act);
    }
  }

  lemma StartAudited(w: World, principal: string, key: Option<string>, payload: Payload)
    requires Audited(w)
    ensures Audited(w.(tb := NewSaga(w.tb, principal, key, payload)))
  {
    SameOlder(w.tb.steps);
    DecidedStay(w.tb, NewSaga(w.tb, principal, key, payload));
  }

  lemma RemoteAudited(w: World, g: Remote)
    requires Audited(w) && Remembers(w.gw, g)
    ensures Audited(w.(gw := g))
  {
    RowsRemembered(w.gw, g, w.tb.steps);
  }

  lemma ClaimAudited(w: World, d: nat, i: nat)
    requires Audited(w) && d !in w.drivers && i < |w.tb.sagas|
    ensures Audited(w.(drivers := w.drivers[d := Driver(i, w.tb.sagas[i], Claimed)]))
  {
    StandAudited(w, w.(drivers := w.drivers[d := Driver(i, w.tb.sagas[i], Claimed)]), d);
  }

  /** The gateway moving on its own. */
  lemma FarSideAudited(w: World, i: nat, outcome: Outcome)
    requires Audited(w)
    ensures Audited(w.(gw := Recorded(w.gw, i, outcome))) && Audited(w.(gw := Lost(w.gw, i)))
  {
    RemoteAudited(w, Recorded(w.gw, i, outcome));
    RemoteAudited(w, Lost(w.gw, i));
  }

  lemma OutsideAudited(w: World, db: Db)
    requires Audited(w)
    ensures Audited(w.(db := db))
  {
  }

  lemma ApplyAudited(cfg: Config, w: World, e: Event, w': World)
    requires DriversOk(w) && Reliable(w) && Audited(w) && w' == Apply(cfg, w, e)
    ensures Audited(w')
  {
    match e
    case Start(principal, key, payload) => StartAudited(w, principal, key, payload);
    case Claim(d, i) =>
      if d !in w.drivers && i < |w.tb.sagas| {
        ClaimAudited(w, d, i);
      }
    case GatewayRecords(i, outcome) => FarSideAudited(w, i, outcome);
    case RequestLost(i) => FarSideAudited(w, i, Paid);
    case Outside(op) => OutsideAudited(w, w'.db);
    case Drive(d, act) =>
      if d in w.drivers {
        DriveAudited(cfg, w, d, act, w');
      }
  }

  lemma {:induction false} PlayAudited(cfg: Config, w: World, es: seq<Event>)
    requires Inv(w.db) && Sound(w) && Reliable(w) && Audited(w)
    ensures Audited(Play(cfg, w, es))
    decreases |es|
  {
    if es != [] {
      ApplyInv(cfg, w, es[0], Apply(cfg, w, es[0]));
      ApplySound(cfg, w, es[0]);
      ApplyReliable(cfg, w, es[0]);
      ApplyAudited(cfg, w, es[0], Apply(cfg, w, es[0]));
      PlayAudited(cfg, Apply(cfg, w, es[0]), es[1..]);
    }
  }

  /** The saga's one gateway attempt, closed, with what it says about the payment. */
  predicate Tells(w: World, k: nat, i: nat)
  {
    && k < |w.tb.steps| && IsIntent(w.tb.steps[k], i) && w.tb.steps[k].status != Attempted
    && (forall j | 0 <= j < |w.tb.steps| && IsIntent(w.tb.steps[j], i) :: j == k)
    && (w.tb.steps[k].status == StepSucceeded ==> WasPaid(w.gw, i))
  }

  lemma RowTells(w: World, i: nat)
    requires Audited(w) && i < |w.tb.sagas| && Decided(w.tb.sagas[i].status)
    ensures exists k: nat :: Tells(w, k, i) && (DeniedShut(w, i) ==> (w.tb.steps[k].status == StepSucceeded <==> WasPaid(w.gw, i)))
  {
    assert Closed(w.tb.steps, i);
    var k :| 0 <= k < |w.tb.steps| && IsIntent(w.tb.steps[k], i);
    assert RowSays(w.gw, w.tb.steps[k]);
    assert Tells(w, k, i);
  }

  /**
   Once the gateway has been heard, the saga's one gateway attempt is closed, and one closed SUCCEEDED was
   paid. If the saga was only ever denied with nothing under way, it was paid exactly when its attempt is
   closed SUCCEEDED, whether the saga went on to complete or to compensate.
   */
  lemma AuditRowTellsPayment(cfg: Config, db: Db, es: seq<Event>, i: nat)
    requires Untouched(db) && i < |Play(cfg, Opening(db), es).tb.sagas|
    requires Decided(Play(cfg, Opening(db), es).tb.sagas[i].status)
    ensures var w := Play(cfg, Opening(db), es);
            exists k: nat ::
              && Tells(w, k, i)
              && (PromptFor(cfg, Opening(db), es, i) ==> (w.tb.steps[k].status == StepSucceeded <==> WasPaid(w.gw, i)))
  {
    PlayAudited(cfg, Opening(db), es);
    if PromptFor(cfg, Opening(db), es, i) {
      PlayDenied(cfg, Opening(db), es, i);
    }
    RowTells(Play(cfg, Opening(db), es), i);
  }
}
