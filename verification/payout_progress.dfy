/** With one driver per saga at a time, every status write spends some of a fixed budget. */
module PayoutProgress {
  import opened Collections
  import opened Ledger
  import opened LedgerInvariants
  import opened SagaTypes
  import opened SagaStore
  import opened Payout
  import opened PayoutSafety
  import opened PayoutBudget

  // ----- one driver at a time ------------------------------------------------------------------------------------

  /** A saga is claimed only while no other driver works on it. */
  predicate Alone(w: World, e: Event)
  {
    e.Claim? ==> forall d | d in w.drivers :: w.drivers[d].saga != e.saga
  }

  predicate AloneRun(cfg: Config, w: World, es: seq<Event>)
    decreases |es|
  {
    es == [] || (Alone(w, es[0]) && AloneRun(cfg, Apply(cfg, w, es[0]), es[1..]))
  }

  predicate SamePlace(snap: SagaRow, row: SagaRow)
  {
    row.status == snap.status && row.retry == snap.retry
  }

  /** Its own intent is the only thing that happened since the claim. */
  predicate PastOwnIntent(drv: Driver, row: SagaRow)
  {
    && drv.snap.status == SagaReserved && row.status == GatewayPending && row.retry == drv.snap.retry
    && (drv.pc.Submitting? || drv.pc.Awaiting? || drv.pc.Answered? || drv.pc.Concluding?)
  }

  /** Its own commit went through and it has not been told. */
  predicate PastOwnCommit(drv: Driver, row: SagaRow)
  {
    && (drv.pc.Numbered? || drv.pc.RefundReady? || drv.pc.Refused? || drv.pc.Deciding? || drv.pc.Confirming?)
    && ((drv.snap.status == SagaPending && row.status == SagaReserved)
        || (drv.snap.status == GatewaySucceeded && row.status == Completed)
        || (drv.snap.status == Compensating && row.status == Compensated))
  }

  predicate UpToDate(drv: Driver, row: SagaRow)
  {
    && (SamePlace(drv.snap, row) || PastOwnIntent(drv, row) || PastOwnCommit(drv, row))
    && (drv.pc.Escalating? ==> drv.pc.from == Compensating)
  }

  predicate OnePerSaga(drivers: map<nat, Driver>)
  {
    forall d, e | d in drivers && e in drivers && d != e :: drivers[d].saga != drivers[e].saga
  }

  predicate AllUpToDate(tb: Tables, drivers: map<nat, Driver>)
  {
    forall d | d in drivers :: drivers[d].saga < |tb.sagas| && UpToDate(drivers[d], tb.sagas[drivers[d].saga])
  }

  predicate WithinBudget(cfg: Config, tb: Tables, writes: seq<nat>)
  {
    && (forall k | 0 <= k < |writes| :: writes[k] < |tb.sagas|)
    && (forall i | 0 <= i < |tb.sagas| ::
          Count(writes, i) + Remaining(cfg, tb.sagas[i].status, tb.sagas[i].retry) <= Budget(cfg))
  }

  predicate Solo(cfg: Config, w: World)
  {
    OnePerSaga(w.drivers) && AllUpToDate(w.tb, w.drivers) && WithinBudget(cfg, w.tb, w.writes)
  }

  // ----- every write spends ----------------------------------------------------------------------------------------

  predicate Spends(cfg: Config, row: SagaRow, t: Transition)
  {
    row.status == t.from ==> Remaining(cfg, t.to, t.retry) < Remaining(cfg, row.status, row.retry)
  }

  /** Whatever an up-to-date driver writes, it lowers the saga's remaining budget. */
  lemma WriteSpends(cfg: Config, tb: Tables, drv: Driver, act: Act)
    requires DriverOk(tb, drv) && UpToDate(drv, tb.sagas[drv.saga])
    ensures var wr := WriteOf(cfg, drv, act); wr.NoWrite? || (wr.t.saga == drv.saga && Spends(cfg, tb.sagas[drv.saga], wr.t))
  {
  }

  lemma AdvanceBudget(cfg: Config, tb: Tables, writes: seq<nat>, t: Transition)
    requires WithinBudget(cfg, tb, writes) && CanAdvance(tb, t) && Spends(cfg, tb.sagas[t.saga], t)
    ensures WithinBudget(cfg, Advanced(tb, t), writes + [t.saga])
  {
    forall i | 0 <= i < |tb.sagas|
      ensures var row := Advanced(tb, t).sagas[i];
              Count(writes + [t.saga], i) + Remaining(cfg, row.status, row.retry) <= Budget(cfg)
    {
      CountSnoc(writes, t.saga, i);
    }
  }

  lemma BudgetOnlyRows(cfg: Config, tb: Tables, tb': Tables, writes: seq<nat>)
    requires WithinBudget(cfg, tb, writes) && tb'.sagas == tb.sagas
    ensures WithinBudget(cfg, tb', writes)
  {
  }

  /** A write to one driver's saga leaves the others up to date. */
  lemma OthersUpToDate(tb: Tables, t: Transition, drivers: map<nat, Driver>, d: nat)
    requires OnePerSaga(drivers) && AllUpToDate(tb, drivers) && CanAdvance(tb, t)
    requires d in drivers && drivers[d].saga == t.saga
    ensures AllUpToDate(Advanced(tb, t), drivers - {d})
  {
  }

  lemma WrittenSolo(cfg: Config, w: World, d: nat, wr: Write)
    requires Solo(cfg, w) && d in w.drivers
    requires wr.NoWrite? || (wr.t.saga == w.drivers[d].saga && Spends(cfg, w.tb.sagas[w.drivers[d].saga], wr.t))
    ensures Solo(cfg, Written(w, d, wr))
  {
    if !wr.NoWrite? && CanAdvance(w.tb, wr.t) {
      AdvanceBudget(cfg, w.tb, w.writes, wr.t);
      OthersUpToDate(w.tb, wr.t, w.drivers, d);
      BudgetOnlyRows(cfg, Advanced(w.tb, wr.t), Escalated(w.tb, wr.t), w.writes + [wr.t.saga]);
    }
  }

  lemma StandSolo(cfg: Config, w: World, w': World, d: nat, pc: Pc)
    requires Solo(cfg, w) && d in w.drivers && UpToDate(w.drivers[d].(pc := pc), w.tb.sagas[w.drivers[d].saga])
    requires w'.drivers == w.drivers[d := w.drivers[d].(pc := pc)] && w'.tb.sagas == w.tb.sagas && w'.writes == w.writes
    ensures Solo(cfg, w')
  {
    BudgetOnlyRows(cfg, w.tb, w'.tb, w.writes);
  }

  lemma SteppedUpToDate(tb: Tables, tb': Tables, t: Transition, drivers: map<nat, Driver>, drivers': map<nat, Driver>, d: nat)
    requires OnePerSaga(drivers) && AllUpToDate(tb, drivers) && CanAdvance(tb, t) && tb'.sagas == Advanced(tb, t).sagas
    requires d in drivers && drivers[d].saga == t.saga
    requires drivers' == drivers - {d} ||
             (d in drivers' && drivers' == drivers[d := drivers'[d]] && drivers'[d].saga == t.saga
              && UpToDate(drivers'[d], tb'.sagas[t.saga]))
    ensures OnePerSaga(drivers') && AllUpToDate(tb', drivers')
  {
  }

  lemma CommitsSolo(cfg: Config, w: World, d: nat, post: Option<Db>, a: Attempt, t: Transition, lost: bool)
    requires Solo(cfg, w) && d in w.drivers && w.drivers[d].saga == t.saga
    requires Spends(cfg, w.tb.sagas[t.saga], t)
    requires PastOwnCommit(w.drivers[d], w.tb.sagas[t.saga].(status := t.to, retry := t.retry))
    ensures Solo(cfg, Commits(w, d, post, a, t, lost))
  {
    if post.Some? && CanStep(w.tb, a, t) {
      var w' := Commits(w, d, post, a, t, lost);
      AdvanceBudget(cfg, w.tb, w.writes, t);
      BudgetOnlyRows(cfg, Advanced(w.tb, t), w'.tb, w'.writes);
      assert lost ==> w'.drivers == w.drivers[d := w.drivers[d]];
      SteppedUpToDate(w.tb, w'.tb, t, w.drivers, w'.drivers, d);
    }
  }

  lemma LedgerStepSolo(cfg: Config, w: World, d: nat, act: Act)
    requires DriversOk(w) && Solo(cfg, w) && d in w.drivers && Committing(act)
    ensures Solo(cfg, LedgerStep(w, d, w.drivers[d], act))
  {
    var drv := w.drivers[d];
    var i, p := drv.saga, drv.snap.payload;
    assert DriverOk(w.tb, drv);
    match act
    case CommitReserve(stamp, choice, lost) =>
      if drv.pc.Numbered? && drv.snap.status == SagaPending {
        CommitsSolo(cfg, w, d, PostAndHold(w.db, stamp, ReserveRequest(i, drv.snap), choice, p.suspense, p.amount),
                    Attempt(i, ReserveStep, Forward, drv.pc.number, StepSucceeded, Some(stamp.tx)),
                    Transition(i, SagaPending, SagaReserved, 0), lost);
      }
    case CommitSettle(stamp, choice, lost) =>
      if drv.pc.Numbered? && drv.snap.status == GatewaySucceeded && ValidPayload(p) {
        CommitsSolo(cfg, w, d, PostAndHold(w.db, stamp, SettleRequest(i, drv.snap), choice, p.suspense, Release(p)),
                    Attempt(i, SettleStep, Forward, drv.pc.number, StepSucceeded, Some(stamp.tx)),
                    Transition(i, GatewaySucceeded, Completed, 0), lost);
      }
    case CommitRefund(stamp, lost) =>
      if drv.pc.RefundReady? {
        CommitsSolo(cfg, w, d, ReverseAndHold(w.db, stamp, drv.pc.tx, p.suspense, Release(p)),
                    Attempt(i, ReserveStep, Compensation, drv.pc.number, StepSucceeded, Some(stamp.tx)),
                    Transition(i, Compensating, Compensated, 0), lost);
      }
  }

  lemma BegunSolo(cfg: Config, w: World, d: nat, n: nat, lost: bool)
    requires Solo(cfg, w) && d in w.drivers && w.drivers[d].snap.status == SagaReserved && w.drivers[d].pc.Numbered?
    ensures Solo(cfg, Begun(w, d, w.drivers[d], n, lost))
  {
    var drv := w.drivers[d];
    var a := Attempt(drv.saga, GatewayStep, Forward, n, Attempted, None);
    var t := Transition(drv.saga, SagaReserved, GatewayPending, drv.snap.retry);
    if CanStep(w.tb, a, t) {
      var w' := Begun(w, d, drv, n, lost);
      AdvanceBudget(cfg, w.tb, w.writes, t);
      BudgetOnlyRows(cfg, Advanced(w.tb, t), w'.tb, w'.writes);
      SteppedUpToDate(w.tb, w'.tb, t, w.drivers, w'.drivers, d);
    }
  }

  lemma RowStepSolo(cfg: Config, w: World, d: nat, lost: bool)
    requires Solo(cfg, w) && d in w.drivers
    ensures Solo(cfg, RecordStep(w, d, lost)) && Solo(cfg, FinishStep(w, d))
  {
    var drv := w.drivers[d];
    if drv.pc.Refused? {
      StandSolo(cfg, w, RecordStep(w, d, lost), d, Deciding(drv.pc.cause));
    } else if drv.pc.Answered? {
      StandSolo(cfg, w, FinishStep(w, d), d, Concluding(drv.pc.verdict));
    }
  }

  lemma TalkStepSolo(cfg: Config, w: World, d: nat, act: Act)
    requires DriversOk(w) && Solo(cfg, w) && d in w.drivers
    ensures Solo(cfg, TalkStep(w, d, act))
  {
    var w' := TalkStep(w, d, act);
    assert DriverOk(w.tb, w.drivers[d]);
    if w'.drivers != w.drivers && d in w'.drivers {
      StandSolo(cfg, w, w', d, w'.drivers[d].pc);
    }
  }

  lemma LearnedUpToDate(steps: seq<Attempt>, drv: Driver, row: SagaRow, act: Act)
    requires UpToDate(drv, row)
    ensures UpToDate(drv.(pc := Learned(steps, drv, act)), row)
  {
  }

  lemma DriverStepSolo(cfg: Config, w: World, d: nat, act: Act)
    requires DriversOk(w) && Solo(cfg, w) && d in w.drivers
    ensures Solo(cfg, DriverStep(cfg, w, d, act))
  {
    var drv := w.drivers[d];
    assert DriverOk(w.tb, drv);
    if act.Crash? {
    } else if Reading(act) {
      LearnedUpToDate(w.tb.steps, drv, w.tb.sagas[drv.saga], act);
      StandSolo(cfg, w, At(w, d, Learned(w.tb.steps, drv, act)), d, Learned(w.tb.steps, drv, act));
    } else if Writing(act) {
      WriteSpends(cfg, w.tb, drv, act);
      WrittenSolo(cfg, w, d, WriteOf(cfg, drv, act));
    } else if Committing(act) {
      LedgerStepSolo(cfg, w, d, act);
    } else if act.RecordFailure? || act.FinishAttempt? {
      RowStepSolo(cfg, w, d, act.RecordFailure? && act.lost);
    } else if act.BeginGateway? {
      if drv.pc.Numbered? && drv.snap.status == SagaReserved {
        BegunSolo(cfg, w, d, drv.pc.number, act.lost);
      }
    } else {
      TalkStepSolo(cfg, w, d, act);
    }
  }

  lemma StartSolo(cfg: Config, w: World, principal: string, key: Option<string>, payload: Payload)
    requires Solo(cfg, w)
    ensures Solo(cfg, w.(tb := NewSaga(w.tb, principal, key, payload)))
  {
    var tb' := NewSaga(w.tb, principal, key, payload);
    if tb' != w.tb {
      CountNone(w.writes, |w.tb.sagas|);
    }
  }

  lemma ApplySolo(cfg: Config, w: World, e: Event)
    requires DriversOk(w) && Solo(cfg, w) && Alone(w, e)
    ensures Solo(cfg, Apply(cfg, w, e))
  {
    match e
    case Start(principal, key, payload) => StartSolo(cfg, w, principal, key, payload);
    case Claim(d, i) =>
    case Drive(d, act) =>
      if d in w.drivers {
        DriverStepSolo(cfg, w, d, act);
      }
    case _ =>
  }

  lemma {:induction false} PlaySolo(cfg: Config, w: World, es: seq<Event>)
    requires Inv(w.db) && Sound(w) && Solo(cfg, w) && AloneRun(cfg, w, es)
    ensures Solo(cfg, Play(cfg, w, es))
    decreases |es|
  {
    if es != [] {
      ApplyInv(cfg, w, es[0], Apply(cfg, w, es[0]));
      ApplySound(cfg, w, es[0]);
      ApplySolo(cfg, w, es[0]);
      PlaySolo(cfg, Apply(cfg, w, es[0]), es[1..]);
    }
  }

  /** A saga makes at most its budget of status writes, and once they are spent it is in a terminal status. */
  lemma SagaEnds(cfg: Config, db: Db, es: seq<Event>, i: nat)
    requires Untouched(db) && AloneRun(cfg, Opening(db), es) && i < |Play(cfg, Opening(db), es).tb.sagas|
    ensures var w := Play(cfg, Opening(db), es);
            && Count(w.writes, i) <= Budget(cfg)
            && (Count(w.writes, i) == Budget(cfg) ==> Terminal(w.tb.sagas[i].status))
  {
    PlaySolo(cfg, Opening(db), es);
  }

  // ----- without one driver at a time --------------------------------------------------------------------------------

  /** It moves an unfinished saga on, or counts an attempt nobody has counted since the writer looked. */
  predicate Counting(row: SagaRow, snap: SagaRow, t: Transition)
  {
    !Terminal(row.status) && (t.to != t.from || row.retry <= snap.retry)
  }

  /** A landing write, however old the snapshot behind it, spends some of the budget exactly when it counts. */
  lemma WriteSpendsIff(cfg: Config, drv: Driver, act: Act, row: SagaRow)
    requires var wr := WriteOf(cfg, drv, act); !wr.NoWrite? && row.status == wr.t.from
    ensures var t := WriteOf(cfg, drv, act).t; Spends(cfg, row, t) <==> Counting(row, drv.snap, t)
  {
  }

  /** The event writes no status, or one that counts. */
  predicate Thrifty(cfg: Config, w: World, e: Event)
  {
    e.Drive? && e.driver in w.drivers && Writing(e.act) ==>
      var drv := w.drivers[e.driver];
      var wr := WriteOf(cfg, drv, e.act);
      Lands(w.tb, wr) ==> Counting(w.tb.sagas[wr.t.saga], drv.snap, wr.t)
  }

  predicate ThriftyRun(cfg: Config, w: World, es: seq<Event>)
    decreases |es|
  {
    es == [] || (Thrifty(cfg, w, es[0]) && ThriftyRun(cfg, Apply(cfg, w, es[0]), es[1..]))
  }

  /** A saga in RESERVED has used no attempt of the gateway's yet, and whoever saw it there knows. */
  predicate Untried(row: SagaRow)
  {
    row.status == SagaReserved ==> row.retry == 0
  }

  predicate Saving(cfg: Config, w: World)
  {
    && WithinBudget(cfg, w.tb, w.writes)
    && (forall i | 0 <= i < |w.tb.sagas| :: Untried(w.tb.sagas[i]))
    && (forall d | d in w.drivers :: Untried(w.drivers[d].snap))
  }

  lemma AdvanceSaving(cfg: Config, w: World, w': World, t: Transition)
    requires Saving(cfg, w) && CanAdvance(w.tb, t) && Spends(cfg, w.tb.sagas[t.saga], t) && (t.to == SagaReserved ==> t.retry == 0)
    requires w'.tb.sagas == Advanced(w.tb, t).sagas && w'.writes == w.writes + [t.saga]
    requires forall d | d in w'.drivers :: d in w.drivers && w'.drivers[d].snap == w.drivers[d].snap
    ensures Saving(cfg, w')
  {
    AdvanceBudget(cfg, w.tb, w.writes, t);
    BudgetOnlyRows(cfg, Advanced(w.tb, t), w'.tb, w'.writes);
  }

  lemma StandSaving(cfg: Config, w: World, w': World)
    requires Saving(cfg, w) && w'.tb.sagas == w.tb.sagas && w'.writes == w.writes
    requires forall d | d in w'.drivers :: d in w.drivers && w'.drivers[d].snap == w.drivers[d].snap
    ensures Saving(cfg, w')
  {
    BudgetOnlyRows(cfg, w.tb, w'.tb, w.writes);
  }

  lemma WriteSaving(cfg: Config, w: World, d: nat, act: Act)
    requires Saving(cfg, w) && d in w.drivers && Writing(act) && Thrifty(cfg, w, Drive(d, act))
    ensures Saving(cfg, Written(w, d, WriteOf(cfg, w.drivers[d], act)))
  {
    var drv := w.drivers[d];
    var wr := WriteOf(cfg, drv, act);
    var w' := Written(w, d, wr);
    if Lands(w.tb, wr) {
      WriteSpendsIff(cfg, drv, act, w.tb.sagas[wr.t.saga]);
      AdvanceSaving(cfg, w, w', wr.t);
    } else {
      StandSaving(cfg, w, w');
    }
  }

  lemma CommitsSaving(cfg: Config, w: World, d: nat, post: Option<Db>, a: Attempt, t: Transition, lost: bool)
    requires Saving(cfg, w) && Follows(t.from, t.to) && !Terminal(t.from) && t.from != t.to && t.retry == 0
    requires t.to == SagaReserved || Terminal(t.to)
    ensures Saving(cfg, Commits(w, d, post, a, t, lost))
  {
    if post.Some? && CanStep(w.tb, a, t) {
      AdvanceSaving(cfg, w, Commits(w, d, post, a, t, lost), t);
    }
  }

  lemma LedgerStepSaving(cfg: Config, w: World, d: nat, drv: Driver, act: Act)
    requires Saving(cfg, w) && Committing(act)
    ensures Saving(cfg, LedgerStep(w, d, drv, act))
  {
    var i, p := drv.saga, drv.snap.payload;
    match act
    case CommitReserve(stamp, choice, lost) =>
      if drv.pc.Numbered? {
        CommitsSaving(cfg, w, d, PostAndHold(w.db, stamp, ReserveRequest(i, drv.snap), choice, p.suspense, p.amount),
                      Attempt(i, ReserveStep, Forward, drv.pc.number, StepSucceeded, Some(stamp.tx)),
                      Transition(i, SagaPending, SagaReserved, 0), lost);
      }
    case CommitSettle(stamp, choice, lost) =>
      if drv.pc.Numbered? && ValidPayload(p) {
        CommitsSaving(cfg, w, d, PostAndHold(w.db, stamp, SettleRequest(i, drv.snap), choice, p.suspense, Release(p)),
                      Attempt(i, SettleStep, Forward, drv.pc.number, StepSucceeded, Some(stamp.tx)),
                      Transition(i, GatewaySucceeded, Completed, 0), lost);
      }
    case CommitRefund(stamp, lost) =>
      if drv.pc.RefundReady? {
        CommitsSaving(cfg, w, d, ReverseAndHold(w.db, stamp, drv.pc.tx, p.suspense, Release(p)),
                      Attempt(i, ReserveStep, Compensation, drv.pc.number, StepSucceeded, Some(stamp.tx)),
                      Transition(i, Compensating, Compensated, 0), lost);
      }
  }

  lemma BeginSaving(cfg: Config, w: World, d: nat, lost: bool)
    requires Saving(cfg, w) && d in w.drivers
    ensures Saving(cfg, BeginStep(w, d, lost))
  {
    var drv := w.drivers[d];
    if drv.pc.Numbered? && drv.snap.status == SagaReserved {
      var t := Transition(drv.saga, SagaReserved, GatewayPending, drv.snap.retry);
      var w' := BeginStep(w, d, lost);
      assert Untried(drv.snap);
      if CanStep(w.tb, Attempt(drv.saga, GatewayStep, Forward, drv.pc.number, Attempted, None), t) {
        assert Untried(w.tb.sagas[drv.saga]);
        AdvanceSaving(cfg, w, w', t);
      }
    }
  }

  lemma TalkSaving(cfg: Config, w: World, d: nat, act: Act)
    requires Saving(cfg, w) && d in w.drivers
    ensures Saving(cfg, TalkStep(w, d, act))
  {
    TalkStepQuiet(w, d, act);
    StandSaving(cfg, w, TalkStep(w, d, act));
  }

  lemma DriveSaving(cfg: Config, w: World, d: nat, act: Act)
    requires Saving(cfg, w) && d in w.drivers && Thrifty(cfg, w, Drive(d, act))
    ensures Saving(cfg, DriverStep(cfg, w, d, act))
  {
    if Writing(act) {
      WriteSaving(cfg, w, d, act);
    } else if Committing(act) {
      LedgerStepSaving(cfg, w, d, w.drivers[d], act);
    } else if act.BeginGateway? {
      BeginSaving(cfg, w, d, act.lost);
    } else if act.Crash? || Reading(act) || act.RecordFailure? || act.FinishAttempt? {
      StandSaving(cfg, w, DriverStep(cfg, w, d, act));
    } else {
      TalkSaving(cfg, w, d, act);
    }
  }

  lemma StartSaving(cfg: Config, w: World, principal: string, key: Option<string>, payload: Payload)
    requires Saving(cfg, w)
    ensures Saving(cfg, w.(tb := NewSaga(w.tb, principal, key, payload)))
  {
    CountNone(w.writes, |w.tb.sagas|);
  }

  lemma ApplySaving(cfg: Config, w: World, e: Event)
    requires Saving(cfg, w) && Thrifty(cfg, w, e)
    ensures Saving(cfg, Apply(cfg, w, e))
  {
    match e
    case Start(principal, key, payload) => StartSaving(cfg, w, principal, key, payload);
    case Claim(d, i) =>
    case Drive(d, act) =>
      if d in w.drivers {
        DriveSaving(cfg, w, d, act);
      }
    case _ => StandSaving(cfg, w, Apply(cfg, w, e));
  }

  lemma {:induction false} PlaySaving(cfg: Config, w: World, es: seq<Event>)
    requires Saving(cfg, w) && ThriftyRun(cfg, w, es)
    ensures Saving(cfg, Play(cfg, w, es))
    decreases |es|
  {
    if es != [] {
      ApplySaving(cfg, w, es[0]);
      PlaySaving(cfg, Apply(cfg, w, es[0]), es[1..]);
    }
  }

  /** Any number of drivers on one saga keep within its budget too, as long as each of their writes counts. */
  lemma ThriftyRunsEnd(cfg: Config, db: Db, es: seq<Event>, i: nat)
    requires ThriftyRun(cfg, Opening(db), es) && i < |Play(cfg, Opening(db), es).tb.sagas|
    ensures var w := Play(cfg, Opening(db), es);
            && Count(w.writes, i) <= Budget(cfg)
            && (Count(w.writes, i) == Budget(cfg) ==> Terminal(w.tb.sagas[i].status))
  {
    PlaySaving(cfg, Opening(db), es);
  }
}
