/** What the orchestrator may conclude about money outside the ledger, and how often it asks for it to move. */
module PayoutGateway {
  import opened Collections
  import opened Ledger
  import opened LedgerInvariants
  import opened SagaTypes
  import opened SagaStore
  import opened Gateway
  import opened Payout
  import opened PayoutBooks
  import opened PayoutSafety

  // ----- the invariant ------------------------------------------------------------------------------------

  predicate IsIntent(a: Attempt, i: nat)
  {
    a.saga == i && a.step == GatewayStep
  }

  predicate HasIntent(steps: seq<Attempt>, i: nat)
  {
    exists k | 0 <= k < |steps| :: IsIntent(steps[k], i)
  }

  /** Known not to have paid when it was asked: refused on record, or no record at the time. */
  predicate Negative(g: Remote, i: nat)
  {
    i in g.denied || (i in g.payments && g.payments[i] == Declined)
  }

  predicate Supported(g: Remote, i: nat, v: Verdict)
  {
    (v == Confirmed ==> WasPaid(g, i)) && (v == Refuted ==> Negative(g, i))
  }

  /** The status column claims no more about the gateway than the gateway said. */
  predicate StatusSupported(g: Remote, steps: seq<Attempt>, status: Status, i: nat)
  {
    && (status == GatewaySucceeded || status == Completed ==> WasPaid(g, i))
    && (status == GatewayFailed ==> Negative(g, i))
    && (PastIntent(status) <==> HasIntent(steps, i))
  }

  predicate Statuses(g: Remote, tb: Tables)
  {
    forall i | 0 <= i < |tb.sagas| :: StatusSupported(g, tb.steps, tb.sagas[i].status, i)
  }

  predicate SentOnce(g: Remote, tb: Tables)
  {
    && (forall k | 0 <= k < |g.sent| :: g.sent[k] < |tb.sagas| && PastIntent(tb.sagas[g.sent[k]].status))
    && (forall j, k | 0 <= j < k < |g.sent| :: g.sent[j] != g.sent[k])
  }

  predicate Belief(g: Remote, drv: Driver)
  {
    match drv.pc
    case Submitting(_) => drv.saga !in g.sent
    case Answered(_, v) => Supported(g, drv.saga, v)
    case Concluding(v) => Supported(g, drv.saga, v)
    case _ => true
  }

  /** At most one driver is about to submit for a saga, and only if nobody has. */
  predicate Beliefs(g: Remote, drivers: map<nat, Driver>)
  {
    && (forall d | d in drivers :: Belief(g, drivers[d]))
    && (forall d, e | d in drivers && e in drivers && d != e && drivers[d].pc.Submitting? && drivers[e].pc.Submitting? ::
          drivers[d].saga != drivers[e].saga)
  }

  predicate Alerted(tb: Tables)
  {
    && (forall k | 0 <= k < |tb.alerts| :: tb.alerts[k] < |tb.sagas|)
    && (forall i | 0 <= i < |tb.sagas| :: tb.sagas[i].status == NeedsManualReview <==> i in tb.alerts)
  }

  predicate Reliable(w: World)
  {
    && Honest(w.gw) && Statuses(w.gw, w.tb) && SentOnce(w.gw, w.tb)
    && Beliefs(w.gw, w.drivers) && Alerted(w.tb)
  }

  // ----- what each kind of change keeps -----------------------------------------------------------------------

  /** The gateway's memory only grows. */
  predicate Remembers(g: Remote, g': Remote)
  {
    && (forall i | i in g.payments :: i in g'.payments && g'.payments[i] == g.payments[i])
    && (forall i | i in g.denied :: i in g'.denied)
    && g'.sent == g.sent
  }

  lemma RemembersKeeps(g: Remote, g': Remote, tb: Tables, drivers: map<nat, Driver>)
    requires Remembers(g, g') && Statuses(g, tb) && SentOnce(g, tb) && Beliefs(g, drivers)
    ensures Statuses(g', tb) && SentOnce(g', tb) && Beliefs(g', drivers)
  {
    forall i | 0 <= i < |tb.sagas| ensures StatusSupported(g', tb.steps, tb.sagas[i].status, i) {
      assert StatusSupported(g, tb.steps, tb.sagas[i].status, i);
    }
  }

  /** A status write whose new status is supported, between statuses on the same side of the intent. */
  predicate Backed(g: Remote, t: Transition)
  {
    && PastIntent(t.from) == PastIntent(t.to) && (t.from == NeedsManualReview ==> t.to == NeedsManualReview)
    && (t.to == GatewaySucceeded || t.to == Completed ==> t.from == GatewaySucceeded || WasPaid(g, t.saga))
    && (t.to == GatewayFailed ==> Negative(g, t.saga))
  }

  lemma AdvanceStatuses(g: Remote, tb: Tables, t: Transition)
    requires Statuses(g, tb) && SentOnce(g, tb) && CanAdvance(tb, t) && Backed(g, t)
    ensures Statuses(g, Advanced(tb, t)) && SentOnce(g, Advanced(tb, t))
  {
    assert StatusSupported(g, tb.steps, tb.sagas[t.saga].status, t.saga);
  }

  lemma AdvanceAlerts(tb: Tables, t: Transition)
    requires Alerted(tb) && CanAdvance(tb, t) && (t.from == NeedsManualReview ==> t.to == NeedsManualReview)
    ensures t.to == NeedsManualReview ==> Alerted(Escalated(tb, t))
    ensures t.to != NeedsManualReview ==> Alerted(Advanced(tb, t))
  {
  }

  /** A row that is not an intent changes nobody's intent. */
  lemma OtherRowIntent(steps: seq<Attempt>, a: Attempt, i: nat)
    requires !IsIntent(a, i)
    ensures HasIntent(steps + [a], i) == HasIntent(steps, i)
  {
    if HasIntent(steps, i) {
      var k :| 0 <= k < |steps| && IsIntent(steps[k], i);
      assert IsIntent((steps + [a])[k], i);
    }
  }

  lemma InsertStatuses(g: Remote, tb: Tables, a: Attempt)
    requires Statuses(g, tb) && a.step != GatewayStep
    ensures Statuses(g, tb.(steps := tb.steps + [a]))
  {
    forall i | 0 <= i < |tb.sagas| ensures StatusSupported(g, tb.steps + [a], tb.sagas[i].status, i) {
      assert StatusSupported(g, tb.steps, tb.sagas[i].status, i);
      OtherRowIntent(tb.steps, a, i);
    }
  }

  lemma FinishStatuses(g: Remote, tb: Tables, k: nat, status: StepStatus)
    requires Statuses(g, tb)
    ensures Statuses(g, tb.(steps := Finished(tb.steps, k, status)))
  {
    var steps' := Finished(tb.steps, k, status);
    forall i | 0 <= i < |tb.sagas| ensures StatusSupported(g, steps', tb.sagas[i].status, i) {
      assert StatusSupported(g, tb.steps, tb.sagas[i].status, i);
      assert |steps'| == |tb.steps| && forall j | 0 <= j < |steps'| :: IsIntent(steps'[j], i) == IsIntent(tb.steps[j], i);
      assert HasIntent(steps', i) == HasIntent(tb.steps, i) by {
        if HasIntent(tb.steps, i) {
          var j :| 0 <= j < |tb.steps| && IsIntent(tb.steps[j], i);
          assert IsIntent(steps'[j], i);
        }
      }
    }
  }

  lemma GoneBeliefs(g: Remote, drivers: map<nat, Driver>, d: nat)
    requires Beliefs(g, drivers)
    ensures Beliefs(g, drivers - {d})
  {
  }

  lemma StandBeliefs(g: Remote, drivers: map<nat, Driver>, d: nat, pc: Pc)
    requires Beliefs(g, drivers) && d in drivers && Belief(g, drivers[d].(pc := pc))
    requires pc.Submitting? ==> forall e | e in drivers && e != d && drivers[e].pc.Submitting? :: drivers[e].saga != drivers[d].saga
    ensures Beliefs(g, drivers[d := drivers[d].(pc := pc)])
  {
  }

  // ----- events ------------------------------------------------------------------------------------------------

  lemma WriteBacked(cfg: Config, tb: Tables, g: Remote, drv: Driver, act: Act)
    requires DriverOk(tb, drv) && Belief(g, drv)
    ensures var wr := WriteOf(cfg, drv, act);
            wr.NoWrite? || (Backed(g, wr.t) && wr.t.saga == drv.saga && (wr.Alert? <==> wr.t.to == NeedsManualReview))
  {
  }

  lemma WrittenReliable(w: World, d: nat, wr: Write)
    requires Reliable(w) && (wr.NoWrite? || (Backed(w.gw, wr.t) && (wr.Alert? <==> wr.t.to == NeedsManualReview)))
    ensures Reliable(Written(w, d, wr))
  {
    GoneBeliefs(w.gw, w.drivers, d);
    if !wr.NoWrite? && CanAdvance(w.tb, wr.t) {
      AdvanceStatuses(w.gw, w.tb, wr.t);
      AdvanceAlerts(w.tb, wr.t);
    }
  }

  lemma SteppedReliable(g: Remote, tb: Tables, a: Attempt, t: Transition)
    requires Statuses(g, tb) && SentOnce(g, tb) && Alerted(tb) && CanStep(tb, a, t)
    requires a.step != GatewayStep && Backed(g, t) && t.to != NeedsManualReview
    ensures Statuses(g, Stepped(tb, a, t)) && SentOnce(g, Stepped(tb, a, t)) && Alerted(Stepped(tb, a, t))
  {
    AdvanceStatuses(g, tb, t);
    AdvanceAlerts(tb, t);
    InsertStatuses(g, Advanced(tb, t), a);
  }

  lemma CommitsReliable(w: World, d: nat, post: Option<Db>, a: Attempt, t: Transition, lost: bool)
    requires Reliable(w) && a.step != GatewayStep && Backed(w.gw, t) && t.to != NeedsManualReview
    ensures Reliable(Commits(w, d, post, a, t, lost))
  {
    if post.Some? && CanStep(w.tb, a, t) {
      SteppedReliable(w.gw, w.tb, a, t);
      GoneBeliefs(w.gw, w.drivers, d);
    }
  }

  lemma LedgerStepReliable(w: World, d: nat, drv: Driver, act: Act)
    requires Reliable(w) && Committing(act)
    ensures Reliable(LedgerStep(w, d, drv, act))
  {
    var i, p := drv.saga, drv.snap.payload;
    match act
    case CommitReserve(stamp, choice, lost) =>
      if drv.pc.Numbered? {
        CommitsReliable(w, d, PostAndHold(w.db, stamp, ReserveRequest(i, drv.snap), choice, p.suspense, p.amount),
                        Attempt(i, ReserveStep, Forward, drv.pc.number, StepSucceeded, Some(stamp.tx)),
                        Transition(i, SagaPending, SagaReserved, 0), lost);
      }
    case CommitSettle(stamp, choice, lost) =>
      if drv.pc.Numbered? && ValidPayload(p) {
        CommitsReliable(w, d, PostAndHold(w.db, stamp, SettleRequest(i, drv.snap), choice, p.suspense, Release(p)),
                        Attempt(i, SettleStep, Forward, drv.pc.number, StepSucceeded, Some(stamp.tx)),
                        Transition(i, GatewaySucceeded, Completed, 0), lost);
      }
    case CommitRefund(stamp, lost) =>
      if drv.pc.RefundReady? {
        CommitsReliable(w, d, ReverseAndHold(w.db, stamp, drv.pc.tx, p.suspense, Release(p)),
                        Attempt(i, ReserveStep, Compensation, drv.pc.number, StepSucceeded, Some(stamp.tx)),
                        Transition(i, Compensating, Compensated, 0), lost);
      }
  }

  lemma IntentStatuses(g: Remote, tb: Tables, a: Attempt, t: Transition)
    requires Statuses(g, tb) && SentOnce(g, tb) && Alerted(tb) && CanStep(tb, a, t)
    requires t.from == SagaReserved && t.to == GatewayPending && IsIntent(a, t.saga)
    ensures Statuses(g, Stepped(tb, a, t)) && SentOnce(g, Stepped(tb, a, t)) && Alerted(Stepped(tb, a, t))
    ensures t.saga !in g.sent
  {
    var tb' := Stepped(tb, a, t);
    forall i | 0 <= i < |tb.sagas| ensures StatusSupported(g, tb'.steps, tb'.sagas[i].status, i) {
      assert StatusSupported(g, tb.steps, tb.sagas[i].status, i);
      if i == t.saga {
        assert IsIntent(tb'.steps[|tb.steps|], i);
      } else {
        OtherRowIntent(tb.steps, a, i);
      }
    }
    AdvanceAlerts(tb, t);
  }

  lemma NobodySubmits(w: World, d: nat)
    requires DriversOk(w) && d in w.drivers && w.drivers[d].saga < |w.tb.sagas|
    requires w.tb.sagas[w.drivers[d].saga].status == SagaReserved
    ensures forall e | e in w.drivers && e != d && w.drivers[e].pc.Submitting? :: w.drivers[e].saga != w.drivers[d].saga
  {
    forall e | e in w.drivers && e != d && w.drivers[e].pc.Submitting? ensures w.drivers[e].saga != w.drivers[d].saga {
      assert DriverOk(w.tb, w.drivers[e]);
    }
  }

  /** Committing the intent makes its driver the only one about to submit. */
  lemma BegunReliable(w: World, d: nat, drv: Driver, n: nat, lost: bool)
    requires DriversOk(w) && Reliable(w) && d in w.drivers && drv == w.drivers[d]
    ensures Reliable(Begun(w, d, drv, n, lost))
  {
    var a := Attempt(drv.saga, GatewayStep, Forward, n, Attempted, None);
    var t := Transition(drv.saga, SagaReserved, GatewayPending, drv.snap.retry);
    if CanStep(w.tb, a, t) {
      IntentStatuses(w.gw, w.tb, a, t);
      if lost {
        GoneBeliefs(w.gw, w.drivers, d);
      } else {
        NobodySubmits(w, d);
        StandBeliefs(w.gw, w.drivers, d, Submitting(|w.tb.steps|));
      }
    }
  }

  lemma RecordStepReliable(w: World, d: nat, lost: bool)
    requires Reliable(w) && d in w.drivers
    ensures Reliable(RecordStep(w, d, lost))
  {
    var drv := w.drivers[d];
    if drv.pc.Refused? {
      StandBeliefs(w.gw, w.drivers, d, Deciding(drv.pc.cause));
      InsertStatuses(w.gw, w.tb, FailedAttempt(drv.saga, drv.snap.status, drv.pc.number));
    }
  }

  lemma FinishStepReliable(w: World, d: nat)
    requires Reliable(w) && d in w.drivers
    ensures Reliable(FinishStep(w, d))
  {
    var drv := w.drivers[d];
    if drv.pc.Answered? {
      var verdict := drv.pc.verdict;
      assert Belief(w.gw, drv);
      StandBeliefs(w.gw, w.drivers, d, Concluding(verdict));
      if drv.pc.open.Some? {
        FinishStatuses(w.gw, w.tb, drv.pc.open.value, if verdict == Confirmed then StepSucceeded else StepFailed);
      }
    }
  }

  lemma SubmitBeliefs(g: Remote, drivers: map<nat, Driver>, d: nat, k: nat)
    requires Beliefs(g, drivers) && d in drivers && drivers[d].pc == Submitting(k)
    ensures Beliefs(Sent(g, drivers[d].saga), drivers[d := drivers[d].(pc := Awaiting(k))])
  {
    var g', after := Sent(g, drivers[d].saga), drivers[d := drivers[d].(pc := Awaiting(k))];
    forall x | x in after ensures Belief(g', after[x]) {
      assert x != d ==> Belief(g, drivers[x]);
    }
  }

  lemma SubmitStatuses(g: Remote, tb: Tables, i: nat)
    requires Statuses(g, tb) && SentOnce(g, tb) && i < |tb.sagas| && PastIntent(tb.sagas[i].status) && i !in g.sent
    ensures Statuses(Sent(g, i), tb) && SentOnce(Sent(g, i), tb)
  {
    forall j | 0 <= j < |tb.sagas| ensures StatusSupported(Sent(g, i), tb.steps, tb.sagas[j].status, j) {
      assert StatusSupported(g, tb.steps, tb.sagas[j].status, j);
    }
  }

  lemma SubmitReliable(w: World, d: nat, k: nat)
    requires DriversOk(w) && Reliable(w) && d in w.drivers && w.drivers[d].pc == Submitting(k)
    ensures Reliable(At(w, d, Awaiting(k)).(gw := Sent(w.gw, w.drivers[d].saga)))
  {
    var i := w.drivers[d].saga;
    assert DriverOk(w.tb, w.drivers[d]) && Belief(w.gw, w.drivers[d]);
    HonestKept(w.gw, i, Paid, NoResponse);
    SubmitStatuses(w.gw, w.tb, i);
    SubmitBeliefs(w.gw, w.drivers, d, k);
  }

  lemma HeardReliable(w: World, d: nat, open: Option<nat>, resp: Response)
    requires Reliable(w) && d in w.drivers && Truthful(w.gw, w.drivers[d].saga, resp)
    ensures Reliable(Heard(w, d, open, resp))
  {
    var i := w.drivers[d].saga;
    var g' := Told(w.gw, i, resp);
    var pc := Heard(w, d, open, resp).drivers[d].pc;
    HonestKept(w.gw, i, Paid, resp);
    RemembersKeeps(w.gw, g', w.tb, w.drivers);
    assert Supported(g', i, Opinion(resp));
    StandBeliefs(g', w.drivers, d, pc);
  }

  lemma TalkStepReliable(w: World, d: nat, act: Act)
    requires DriversOk(w) && Reliable(w) && d in w.drivers
    ensures Reliable(TalkStep(w, d, act))
  {
    var i := w.drivers[d].saga;
    match (act, w.drivers[d].pc)
    case (Submit, Submitting(k)) => SubmitReliable(w, d, k);
    case (PayAnswer(resp), Awaiting(k)) =>
      if Truthful(w.gw, i, resp) {
        HeardReliable(w, d, Some(k), resp);
      }
    case (ProbeAnswer(resp), Probing(open)) =>
      if Truthful(w.gw, i, resp) {
        HeardReliable(w, d, open, resp);
      }
    case (Confirm, Confirming) =>
      GoneBeliefs(w.gw, w.drivers, d);
      if i < |w.tb.sagas| {
        StandBeliefs(w.gw, w.drivers, d, Escalating(w.tb.sagas[i].status));
      }
    case _ =>
  }

  lemma LearnedBelief(steps: seq<Attempt>, g: Remote, drv: Driver, act: Act)
    requires Belief(g, drv)
    ensures Belief(g, drv.(pc := Learned(steps, drv, act)))
    ensures Learned(steps, drv, act).Submitting? ==> drv.pc.Submitting?
  {
  }

  lemma DriverStepReliable(cfg: Config, w: World, d: nat, act: Act)
    requires DriversOk(w) && Reliable(w) && d in w.drivers
    ensures Reliable(DriverStep(cfg, w, d, act))
  {
    var drv := w.drivers[d];
    if act.Crash? {
      GoneBeliefs(w.gw, w.drivers, d);
    } else if Reading(act) {
      LearnedBelief(w.tb.steps, w.gw, drv, act);
      StandBeliefs(w.gw, w.drivers, d, Learned(w.tb.steps, drv, act));
    } else if Writing(act) {
      WriteBacked(cfg, w.tb, w.gw, drv, act);
      WrittenReliable(w, d, WriteOf(cfg, drv, act));
    } else if Committing(act) {
      LedgerStepReliable(w, d, drv, act);
    } else if act.RecordFailure? {
      RecordStepReliable(w, d, act.lost);
    } else if act.BeginGateway? {
      if drv.pc.Numbered? {
        BegunReliable(w, d, drv, drv.pc.number, act.lost);
      }
    } else if act.FinishAttempt? {
      FinishStepReliable(w, d);
    } else {
      TalkStepReliable(w, d, act);
    }
  }

  lemma StartReliable(w: World, principal: string, key: Option<string>, payload: Payload)
    requires NoStrays(w.db, w.tb) && Reliable(w)
    ensures Reliable(w.(tb := NewSaga(w.tb, principal, key, payload)))
  {
    var tb' := NewSaga(w.tb, principal, key, payload);
    forall i | 0 <= i < |tb'.sagas| ensures StatusSupported(w.gw, tb'.steps, tb'.sagas[i].status, i) {
      assert i < |w.tb.sagas| ==> StatusSupported(w.gw, w.tb.steps, w.tb.sagas[i].status, i);
    }
  }

  /** The far side moving on its own. */
  lemma RemoteReliable(w: World, i: nat, outcome: Outcome)
    requires Reliable(w)
    ensures Reliable(w.(gw := Recorded(w.gw, i, outcome))) && Reliable(w.(gw := Lost(w.gw, i)))
  {
    HonestKept(w.gw, i, outcome, NoResponse);
    RemembersKeeps(w.gw, Recorded(w.gw, i, outcome), w.tb, w.drivers);
    RemembersKeeps(w.gw, Lost(w.gw, i), w.tb, w.drivers);
  }

  lemma ClaimReliable(w: World, d: nat, drv: Driver)
    requires Reliable(w) && d !in w.drivers && drv.pc == Claimed
    ensures Reliable(w.(drivers := w.drivers[d := drv]))
  {
  }

  lemma ApplyReliable(cfg: Config, w: World, e: Event)
    requires NoStrays(w.db, w.tb) && DriversOk(w) && Reliable(w)
    ensures Reliable(Apply(cfg, w, e))
  {
    match e
    case Start(principal, key, payload) => StartReliable(w, principal, key, payload);
    case Claim(d, i) =>
      if d !in w.drivers && i < |w.tb.sagas| {
        ClaimReliable(w, d, Driver(i, w.tb.sagas[i], Claimed));
      }
    case GatewayRecords(i, outcome) => RemoteReliable(w, i, outcome);
    case RequestLost(i) => RemoteReliable(w, i, Paid);
    case Outside(op) =>
    case Drive(d, act) =>
      if d in w.drivers {
        DriverStepReliable(cfg, w, d, act);
      }
  }

  lemma {:induction false} PlayReliable(cfg: Config, w: World, es: seq<Event>)
    requires Inv(w.db) && Sound(w) && Reliable(w)
    ensures Reliable(Play(cfg, w, es))
    decreases |es|
  {
    if es != [] {
      ApplyInv(cfg, w, es[0], Apply(cfg, w, es[0]));
      ApplySound(cfg, w, es[0]);
      ApplyReliable(cfg, w, es[0]);
      PlayReliable(cfg, Apply(cfg, w, es[0]), es[1..]);
    }
  }

  lemma ReachableReliable(cfg: Config, db: Db, es: seq<Event>)
    requires Untouched(db)
    ensures Reliable(Play(cfg, Opening(db), es))
  {
    PlayReliable(cfg, Opening(db), es);
  }

  // ----- what the runs prove -------------------------------------------------------------------------------------

  /** Success is only ever recorded for a payment the gateway made. */
  lemma SuccessMeansPaid(cfg: Config, db: Db, es: seq<Event>, i: nat)
    requires Untouched(db) && i < |Play(cfg, Opening(db), es).tb.sagas|
    requires var status := Play(cfg, Opening(db), es).tb.sagas[i].status; status == GatewaySucceeded || status == Completed
    ensures WasPaid(Play(cfg, Opening(db), es).gw, i)
  {
    ReachableReliable(cfg, db, es);
    var w := Play(cfg, Opening(db), es);
    assert StatusSupported(w.gw, w.tb.steps, w.tb.sagas[i].status, i);
  }

  /** Pay is called at most once per saga, and only after the intent row and the status that admit it. */
  lemma PaysAtMostOnce(cfg: Config, db: Db, es: seq<Event>, i: nat)
    requires Untouched(db)
    ensures var w := Play(cfg, Opening(db), es);
            && (forall j, k | 0 <= j < |w.gw.sent| && 0 <= k < |w.gw.sent| && w.gw.sent[j] == i && w.gw.sent[k] == i :: j == k)
            && (i in w.gw.payments || i in w.gw.sent ==>
                  i < |w.tb.sagas| && HasIntent(w.tb.steps, i) && PastIntent(w.tb.sagas[i].status))
  {
    ReachableReliable(cfg, db, es);
    var w := Play(cfg, Opening(db), es);
    if i in w.gw.payments || i in w.gw.sent {
      var k :| 0 <= k < |w.gw.sent| && w.gw.sent[k] == i;
      assert StatusSupported(w.gw, w.tb.steps, w.tb.sagas[i].status, i);
    }
  }

  /** A person is alerted about exactly the sagas that wait for one. */
  lemma AlertsExact(cfg: Config, db: Db, es: seq<Event>, i: nat)
    requires Untouched(db) && i < |Play(cfg, Opening(db), es).tb.sagas|
    ensures var w := Play(cfg, Opening(db), es); w.tb.sagas[i].status == NeedsManualReview <==> i in w.tb.alerts
  {
    ReachableReliable(cfg, db, es);
  }

  /** An unknown answer moves no money and decides nothing: the saga keeps waiting or goes to a person. */
  lemma UnknownDecidesNothing(cfg: Config, w: World, d: nat, j: nat)
    requires d in w.drivers && w.drivers[d].pc == Concluding(Unknown) && j < |w.tb.sagas|
    ensures var w' := Apply(cfg, w, Drive(d, Conclude));
            && w'.db == w.db && w'.tb.steps == w.tb.steps && w'.gw == w.gw && |w'.tb.sagas| == |w.tb.sagas|
            && (w'.tb.sagas[j].status == w.tb.sagas[j].status
                || (j == w.drivers[d].saga && w.tb.sagas[j].status == GatewayPending
                    && w'.tb.sagas[j].status == NeedsManualReview && w.drivers[d].snap.retry + 1 >= cfg.maxProbes))
  {
  }
}
