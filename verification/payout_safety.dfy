/** Every event keeps the books, the drivers' beliefs and the ledger's own invariant; so every run does. */
module PayoutSafety {
  import opened Collections
  import opened LedgerTypes
  import opened Ledger
  import opened LedgerInvariants
  import opened SagaTypes
  import opened SagaStore
  import opened Gateway
  import opened Payout
  import opened PayoutBooks
  import Consistency

  // ----- what a stale driver may still rely on ---------------------------------------------------------

  /** Tables only ever move forward: rows stay, statuses follow the machine, committed reserves stay committed. */
  predicate Grown(tb: Tables, tb': Tables, i: nat)
  {
    i < |tb.sagas| ==>
      && i < |tb'.sagas|
      && tb'.sagas[i].payload == tb.sagas[i].payload && tb'.sagas[i].principal == tb.sagas[i].principal
      && Follows(tb.sagas[i].status, tb'.sagas[i].status)
      && (var found := FirstCommitted(tb.steps, i, ReserveStep, Forward);
          found.Some? ==> FirstCommitted(tb'.steps, i, ReserveStep, Forward) == found)
  }

  ghost predicate Grows(tb: Tables, tb': Tables)
  {
    forall i: nat :: Grown(tb, tb', i)
  }

  predicate PcOk(steps: seq<Attempt>, drv: Driver, now: Status)
  {
    var was := drv.snap.status;
    match drv.pc
    case ReserveFound(tx) => was == Compensating && FirstCommitted(steps, drv.saga, ReserveStep, Forward) == Some(tx)
    case RefundReady(tx, _) => was == Compensating && FirstCommitted(steps, drv.saga, ReserveStep, Forward) == Some(tx)
    case NothingPosted => false
    case Submitting(_) => PastIntent(now)
    case Awaiting(_) => PastIntent(now)
    case Probing(_) => was == GatewayPending
    case Confirming => was == Compensating
    case Escalating(from) => was == Compensating && (from == Compensating || from == NeedsManualReview)
    case _ => true
  }

  predicate DriverOk(tb: Tables, drv: Driver)
  {
    && drv.saga < |tb.sagas|
    && drv.snap.payload == tb.sagas[drv.saga].payload && drv.snap.principal == tb.sagas[drv.saga].principal
    && Reaches(drv.snap.status, tb.sagas[drv.saga].status)
    && PcOk(tb.steps, drv, tb.sagas[drv.saga].status)
  }

  predicate DriversOk(w: World)
  {
    forall d | d in w.drivers :: DriverOk(w.tb, w.drivers[d])
  }

  predicate Sound(w: World)
  {
    Linked(w.db, w.tb) && DriversOk(w)
  }

  lemma DriverSurvives(tb: Tables, tb': Tables, drv: Driver)
    requires DriverOk(tb, drv) && Grows(tb, tb')
    ensures DriverOk(tb', drv)
  {
    assert Grown(tb, tb', drv.saga);
    ReachesFurther(drv.snap.status, tb.sagas[drv.saga].status, tb'.sagas[drv.saga].status);
  }

  /** An event that grows the tables and leaves its own driver consistent keeps every driver consistent. */
  lemma DriversSurvive(w: World, w': World, d: nat)
    requires DriversOk(w) && Grows(w.tb, w'.tb)
    requires forall x | x in w'.drivers && x != d :: x in w.drivers && w'.drivers[x] == w.drivers[x]
    requires d in w'.drivers ==> DriverOk(w'.tb, w'.drivers[d])
    ensures DriversOk(w')
  {
    forall x | x in w'.drivers ensures DriverOk(w'.tb, w'.drivers[x]) {
      if x != d {
        DriverSurvives(w.tb, w'.tb, w.drivers[x]);
      }
    }
  }

  // ----- how each statement grows the tables ---------------------------------------------------------------

  lemma SameGrows(tb: Tables)
    ensures Grows(tb, tb)
  {
  }

  lemma AdvanceGrows(tb: Tables, t: Transition)
    requires CanAdvance(tb, t) && Follows(t.from, t.to)
    ensures Grows(tb, Advanced(tb, t)) && Grows(tb, Escalated(tb, t))
  {
  }

  lemma InsertGrows(tb: Tables, tb': Tables, a: Attempt)
    requires tb'.steps == tb.steps + [a] && (forall i: nat :: Grown(tb, tb'.(steps := tb.steps), i))
    ensures Grows(tb, tb')
  {
    forall i: nat ensures Grown(tb, tb', i) {
      assert Grown(tb, tb'.(steps := tb.steps), i);
      FirstCommittedSnoc(tb.steps, a, i, ReserveStep, Forward);
    }
  }

  lemma StepGrows(tb: Tables, a: Attempt, t: Transition)
    requires CanStep(tb, a, t) && Follows(t.from, t.to)
    ensures Grows(tb, Stepped(tb, a, t))
  {
    AdvanceGrows(tb, t);
    assert Stepped(tb, a, t).(steps := tb.steps) == Advanced(tb, t);
    InsertGrows(tb, Stepped(tb, a, t), a);
  }

  lemma FinishGrows(tb: Tables, k: nat, status: StepStatus)
    ensures Grows(tb, tb.(steps := Finished(tb.steps, k, status)))
  {
    forall i: nat ensures Grown(tb, tb.(steps := Finished(tb.steps, k, status)), i) {
      FirstCommittedFinished(tb.steps, k, status, i, ReserveStep, Forward);
    }
  }

  // ----- events, by the shape of what they do -----------------------------------------------------------------

  /** A driver that only reads, decides or listens changes nothing but where it stands. */
  lemma LocalSound(w: World, w': World, d: nat)
    requires Sound(w) && w'.db == w.db && w'.tb == w.tb
    requires forall x | x in w'.drivers && x != d :: x in w.drivers && w'.drivers[x] == w.drivers[x]
    requires d in w'.drivers ==> DriverOk(w.tb, w'.drivers[d])
    ensures Sound(w')
  {
    SameGrows(w.tb);
    DriversSurvive(w, w', d);
  }

  /** A status move the machine allows and the books do not notice. */
  predicate Legal(wr: Write)
  {
    wr.NoWrite? || (Follows(wr.t.from, wr.t.to) && SameMoney(wr.t.from, wr.t.to))
  }

  lemma WrittenSound(w: World, d: nat, wr: Write)
    requires Sound(w) && Legal(wr)
    ensures Sound(Written(w, d, wr))
  {
    var w' := Written(w, d, wr);
    if !wr.NoWrite? && CanAdvance(w.tb, wr.t) {
      AdvanceGrows(w.tb, wr.t);
      AdvanceKeepsLinks(w.db, w.tb, wr.t);
      DriversSurvive(w, w', d);
    } else {
      LocalSound(w, w', d);
    }
  }

  lemma CommitsSound(w: World, d: nat, db': Option<Db>, a: Attempt, t: Transition, lost: bool)
    requires Sound(w) && Follows(t.from, t.to)
    requires db'.Some? && CanStep(w.tb, a, t) ==> Linked(db'.value, Stepped(w.tb, a, t))
    requires d in w.drivers
    ensures Sound(Commits(w, d, db', a, t, lost))
  {
    if db'.Some? && CanStep(w.tb, a, t) {
      StepGrows(w.tb, a, t);
      DriverSurvives(w.tb, Stepped(w.tb, a, t), w.drivers[d]);
      DriversSurvive(w, Commits(w, d, db', a, t, lost), d);
    }
  }

  /** What a forward ledger step left behind: a transaction with the step's mark and the legs it asked for. */
  ghost predicate Stepping(db: Db, db': Db, tx: Id, header: Header, asked: seq<Leg>, legs: seq<Leg>)
  {
    && Appended(db, db', tx, legs) && db'.accounts == db.accounts && db'.headers == db.headers[tx := header]
    && header.status == Posted && Routed(db.accounts, asked, legs)
  }

  lemma ReserveSound(w: World, d: nat, n: nat, tx: Id, header: Header, legs: seq<Leg>, post: Option<Db>, lost: bool)
    requires Sound(w) && d in w.drivers && header.meta == SagaMeta(w.drivers[d].saga, ReserveStep)
    requires post.Some? ==> Stepping(w.db, post.value, tx, header, ReserveLegs(w.drivers[d].snap.payload), legs)
    ensures Sound(Commits(w, d, post, Attempt(w.drivers[d].saga, ReserveStep, Forward, n, StepSucceeded, Some(tx)),
                          Transition(w.drivers[d].saga, SagaPending, SagaReserved, 0), lost))
  {
    var i := w.drivers[d].saga;
    var a := Attempt(i, ReserveStep, Forward, n, StepSucceeded, Some(tx));
    var t := Transition(i, SagaPending, SagaReserved, 0);
    if post.Some? && CanStep(w.tb, a, t) {
      assert DriverOk(w.tb, w.drivers[d]) && BooksOf(w.db, w.tb.steps, w.tb.sagas[i], i);
      OwnAfterReserve(w.db, post.value, w.tb.steps, w.tb.sagas[i], tx, legs, header, a);
      PostLinks(w.db, post.value, w.tb, tx, legs, header, a, t);
    }
    CommitsSound(w, d, post, a, t, lost);
  }

  lemma SettleSound(w: World, d: nat, n: nat, tx: Id, header: Header, legs: seq<Leg>, post: Option<Db>, lost: bool)
    requires Sound(w) && d in w.drivers && header.meta == SagaMeta(w.drivers[d].saga, SettleStep)
    requires ValidPayload(w.drivers[d].snap.payload)
    requires post.Some? ==> Stepping(w.db, post.value, tx, header, SettleLegs(w.drivers[d].snap.payload), legs)
    ensures Sound(Commits(w, d, post, Attempt(w.drivers[d].saga, SettleStep, Forward, n, StepSucceeded, Some(tx)),
                          Transition(w.drivers[d].saga, GatewaySucceeded, Completed, 0), lost))
  {
    var i := w.drivers[d].saga;
    var a := Attempt(i, SettleStep, Forward, n, StepSucceeded, Some(tx));
    var t := Transition(i, GatewaySucceeded, Completed, 0);
    if post.Some? && CanStep(w.tb, a, t) {
      assert DriverOk(w.tb, w.drivers[d]) && BooksOf(w.db, w.tb.steps, w.tb.sagas[i], i);
      OwnAfterSettle(w.db, post.value, w.tb.steps, w.tb.sagas[i], tx, legs, header, a);
      PostLinks(w.db, post.value, w.tb, tx, legs, header, a, t);
    }
    CommitsSound(w, d, post, a, t, lost);
  }

  lemma RefundSound(w: World, d: nat, n: nat, tx: Id, original: Id, legs: seq<Leg>, post: Option<Db>, lost: bool)
    requires Sound(w) && d in w.drivers && w.drivers[d].pc == RefundReady(original, n)
    requires post.Some? ==> Appended(w.db, post.value, tx, legs) && Flipped(w.db, post.value, tx, original)
    ensures Sound(Commits(w, d, post, Attempt(w.drivers[d].saga, ReserveStep, Compensation, n, StepSucceeded, Some(tx)),
                          Transition(w.drivers[d].saga, Compensating, Compensated, 0), lost))
  {
    var i := w.drivers[d].saga;
    var a := Attempt(i, ReserveStep, Compensation, n, StepSucceeded, Some(tx));
    var t := Transition(i, Compensating, Compensated, 0);
    if post.Some? && CanStep(w.tb, a, t) {
      assert DriverOk(w.tb, w.drivers[d]) && BooksOf(w.db, w.tb.steps, w.tb.sagas[i], i);
      OwnAfterRefund(w.db, post.value, w.tb.steps, w.tb.sagas[i], tx, legs, original, a);
      RefundLinks(w.db, post.value, w.tb, tx, legs, original, a, t);
    }
    CommitsSound(w, d, post, a, t, lost);
  }

  lemma ReservedSound(w: World, d: nat, drv: Driver, n: nat, stamp: Stamp, choice: map<Id, Id>, lost: bool)
    requires Schema(w.db) && Sound(w) && d in w.drivers && drv == w.drivers[d]
    ensures Sound(Reserved(w, d, drv, n, stamp, choice, lost))
  {
    var p := drv.snap.payload;
    var req := ReserveRequest(drv.saga, drv.snap);
    var post := PostAndHold(w.db, stamp, req, choice, p.suspense, p.amount);
    if post.Some? {
      PostShape(w.db, stamp, req, choice, p.suspense, p.amount, post.value);
    }
    ReserveSound(w, d, n, stamp.tx, HeaderFor(req), RouteLegs(choice, req.legs), post, lost);
  }

  lemma SettledSound(w: World, d: nat, drv: Driver, n: nat, stamp: Stamp, choice: map<Id, Id>, lost: bool)
    requires Schema(w.db) && Sound(w) && d in w.drivers && drv == w.drivers[d] && ValidPayload(drv.snap.payload)
    ensures Sound(Settled(w, d, drv, n, stamp, choice, lost))
  {
    var p := drv.snap.payload;
    var req := SettleRequest(drv.saga, drv.snap);
    var post := PostAndHold(w.db, stamp, req, choice, p.suspense, Release(p));
    if post.Some? {
      PostShape(w.db, stamp, req, choice, p.suspense, Release(p), post.value);
    }
    SettleSound(w, d, n, stamp.tx, HeaderFor(req), RouteLegs(choice, req.legs), post, lost);
  }

  lemma RefundedSound(w: World, d: nat, drv: Driver, tx: Id, n: nat, stamp: Stamp, lost: bool)
    requires Schema(w.db) && Sound(w) && d in w.drivers && drv == w.drivers[d] && drv.pc == RefundReady(tx, n)
    ensures Sound(Refunded(w, d, drv, tx, n, stamp, lost))
  {
    var p := drv.snap.payload;
    var post := ReverseAndHold(w.db, stamp, tx, p.suspense, Release(p));
    if post.Some? {
      ReverseShape(w.db, stamp, tx, p.suspense, Release(p), post.value);
    }
    RefundSound(w, d, n, stamp.tx, tx, Mirror(LegsOf(w.db.journal, tx)), post, lost);
  }

  lemma NotedLinks(db: Db, tb: Tables, a: Attempt, lost: bool)
    requires Linked(db, tb) && a.saga < |tb.sagas| && a.tx.None?
    ensures Linked(db, Noted(tb, a, lost)) && Grows(tb, Noted(tb, a, lost))
  {
    SameGrows(tb);
    if !lost && CanInsert(tb.steps, a) {
      InsertKeepsLinks(db, tb, a);
      InsertGrows(tb, Noted(tb, a, lost), a);
    }
  }

  /** A driver moves on as the tables grow under it. */
  lemma AtSound(w: World, w': World, d: nat, pc: Pc)
    requires Sound(w) && d in w.drivers && w'.db == w.db && w'.drivers == w.drivers[d := w.drivers[d].(pc := pc)]
    requires Linked(w.db, w'.tb) && Grows(w.tb, w'.tb) && DriverOk(w'.tb, w.drivers[d].(pc := pc))
    ensures Sound(w')
  {
    ReplacedSound(w, w', d, w.drivers[d].(pc := pc));
  }

  lemma ReplacedSound(w: World, w': World, d: nat, drv: Driver)
    requires DriversOk(w) && w'.db == w.db && w'.drivers == w.drivers[d := drv]
    requires Linked(w.db, w'.tb) && Grows(w.tb, w'.tb) && DriverOk(w'.tb, drv)
    ensures Sound(w')
  {
    DriversSurvive(w, w', d);
  }

  lemma GoneSound(w: World, w': World, d: nat)
    requires Sound(w) && w'.db == w.db && w'.drivers == w.drivers - {d} && Linked(w.db, w'.tb) && Grows(w.tb, w'.tb)
    ensures Sound(w')
  {
    DriversSurvive(w, w', d);
  }

  /** A driver past its step relies on nothing but the row it read. */
  lemma FreeDriver(tb: Tables, tb': Tables, drv: Driver, pc: Pc)
    requires DriverOk(tb, drv) && Grows(tb, tb') && (pc.Deciding? || pc.Concluding?)
    ensures DriverOk(tb', drv.(pc := pc))
  {
    DriverSurvives(tb, tb', drv);
  }

  lemma NotedSound(w: World, d: nat, a: Attempt, pc: Pc, lost: bool)
    requires Sound(w) && d in w.drivers && a.saga == w.drivers[d].saga && a.tx.None? && pc.Deciding?
    ensures Sound(At(w, d, pc).(tb := Noted(w.tb, a, lost)))
  {
    var tb' := Noted(w.tb, a, lost);
    assert DriverOk(w.tb, w.drivers[d]);
    NotedLinks(w.db, w.tb, a, lost);
    FreeDriver(w.tb, tb', w.drivers[d], pc);
    AtSound(w, At(w, d, pc).(tb := tb'), d, pc);
  }

  lemma ResolvedLinks(db: Db, tb: Tables, open: Option<nat>, verdict: Verdict)
    requires Linked(db, tb)
    ensures Linked(db, Resolved(tb, open, verdict)) && Grows(tb, Resolved(tb, open, verdict))
  {
    SameGrows(tb);
    if open.Some? {
      var status := if verdict == Confirmed then StepSucceeded else StepFailed;
      FinishKeepsLinks(db, tb, open.value, status);
      FinishGrows(tb, open.value, status);
    }
  }

  lemma ResolvedSound(w: World, d: nat, open: Option<nat>, verdict: Verdict)
    requires Sound(w) && d in w.drivers
    ensures Sound(At(w, d, Concluding(verdict)).(tb := Resolved(w.tb, open, verdict)))
  {
    var tb' := Resolved(w.tb, open, verdict);
    assert DriverOk(w.tb, w.drivers[d]);
    ResolvedLinks(w.db, w.tb, open, verdict);
    FreeDriver(w.tb, tb', w.drivers[d], Concluding(verdict));
    AtSound(w, At(w, d, Concluding(verdict)).(tb := tb'), d, Concluding(verdict));
  }

  lemma BeginLinks(db: Db, tb: Tables, a: Attempt, t: Transition)
    requires Linked(db, tb) && CanStep(tb, a, t) && a.saga == t.saga && a.tx.None?
    requires t.from == SagaReserved && t.to == GatewayPending
    ensures Linked(db, Stepped(tb, a, t)) && Grows(tb, Stepped(tb, a, t))
  {
    AdvanceKeepsLinks(db, tb, t);
    InsertKeepsLinks(db, Advanced(tb, t), a);
    StepGrows(tb, a, t);
  }

  lemma BegunSound(w: World, d: nat, drv: Driver, n: nat, lost: bool)
    requires Sound(w) && d in w.drivers && drv == w.drivers[d] && drv.pc.Numbered?
    ensures Sound(Begun(w, d, drv, n, lost))
  {
    var a := Attempt(drv.saga, GatewayStep, Forward, n, Attempted, None);
    var t := Transition(drv.saga, SagaReserved, GatewayPending, drv.snap.retry);
    if CanStep(w.tb, a, t) {
      var w' := Begun(w, d, drv, n, lost);
      BeginLinks(w.db, w.tb, a, t);
      if lost {
        GoneSound(w, w', d);
      } else {
        BegunDriver(w, d, drv, a, t, |w.tb.steps|);
        AtSound(w, w', d, Submitting(|w.tb.steps|));
      }
    }
  }

  lemma BegunDriver(w: World, d: nat, drv: Driver, a: Attempt, t: Transition, k: nat)
    requires DriversOk(w) && d in w.drivers && drv == w.drivers[d] && CanStep(w.tb, a, t) && t.saga == drv.saga
    requires t.to == GatewayPending && Grows(w.tb, Stepped(w.tb, a, t))
    ensures DriverOk(Stepped(w.tb, a, t), drv.(pc := Submitting(k)))
  {
    DriverSurvives(w.tb, Stepped(w.tb, a, t), drv);
  }

  // ----- every event, every run -------------------------------------------------------------------------------

  /** A compensating saga always finds the transaction it must reverse. */
  lemma ReserveIsThere(w: World, d: nat)
    requires Sound(w) && d in w.drivers && w.drivers[d].snap.status == Compensating
    ensures FirstCommitted(w.tb.steps, w.drivers[d].saga, ReserveStep, Forward).Some?
  {
    var i := w.drivers[d].saga;
    assert DriverOk(w.tb, w.drivers[d]);
    assert BooksOf(w.db, w.tb.steps, w.tb.sagas[i], i);
  }

  lemma LedgerStepSound(w: World, d: nat, act: Act)
    requires Schema(w.db) && Sound(w) && d in w.drivers && Committing(act)
    ensures Sound(LedgerStep(w, d, w.drivers[d], act))
  {
    var drv := w.drivers[d];
    match act
    case CommitReserve(stamp, choice, lost) =>
      if drv.pc.Numbered? && drv.snap.status == SagaPending {
        ReservedSound(w, d, drv, drv.pc.number, stamp, choice, lost);
      }
    case CommitSettle(stamp, choice, lost) =>
      if drv.pc.Numbered? && drv.snap.status == GatewaySucceeded && ValidPayload(drv.snap.payload) {
        SettledSound(w, d, drv, drv.pc.number, stamp, choice, lost);
      }
    case CommitRefund(stamp, lost) =>
      if drv.pc.RefundReady? {
        RefundedSound(w, d, drv, drv.pc.tx, drv.pc.number, stamp, lost);
      }
  }

  lemma WriteLegal(cfg: Config, tb: Tables, drv: Driver, act: Act)
    requires DriverOk(tb, drv)
    ensures Legal(WriteOf(cfg, drv, act))
  {
  }

  /** What a driver learns is true when it learns it. */
  lemma LearnedPc(steps: seq<Attempt>, drv: Driver, act: Act, now: Status)
    requires PcOk(steps, drv, now) && Reading(act)
    requires drv.snap.status == Compensating ==> FirstCommitted(steps, drv.saga, ReserveStep, Forward).Some?
    ensures PcOk(steps, drv.(pc := Learned(steps, drv, act)), now)
  {
  }

  lemma LearnedOk(w: World, d: nat, act: Act)
    requires Sound(w) && d in w.drivers && Reading(act)
    ensures DriverOk(w.tb, w.drivers[d].(pc := Learned(w.tb.steps, w.drivers[d], act)))
  {
    var drv := w.drivers[d];
    assert DriverOk(w.tb, drv);
    if drv.snap.status == Compensating {
      ReserveIsThere(w, d);
    }
    LearnedPc(w.tb.steps, drv, act, w.tb.sagas[drv.saga].status);
  }

  lemma FailedAttemptOf(i: nat, status: Status, n: nat)
    ensures FailedAttempt(i, status, n).saga == i && FailedAttempt(i, status, n).tx == None
  {
  }

  lemma RecordStepSound(w: World, d: nat, lost: bool)
    requires Sound(w) && d in w.drivers
    ensures Sound(RecordStep(w, d, lost))
  {
    var drv := w.drivers[d];
    if drv.pc.Refused? {
      var a := FailedAttempt(drv.saga, drv.snap.status, drv.pc.number);
      FailedAttemptOf(drv.saga, drv.snap.status, drv.pc.number);
      NotedSound(w, d, a, Deciding(drv.pc.cause), lost);
    }
  }

  lemma BeginStepSound(w: World, d: nat, lost: bool)
    requires Sound(w) && d in w.drivers
    ensures Sound(BeginStep(w, d, lost))
  {
    var drv := w.drivers[d];
    if drv.pc.Numbered? && drv.snap.status == SagaReserved {
      BegunSound(w, d, drv, drv.pc.number, lost);
    }
  }

  lemma FinishStepSound(w: World, d: nat)
    requires Sound(w) && d in w.drivers
    ensures Sound(FinishStep(w, d))
  {
    var drv := w.drivers[d];
    if drv.pc.Answered? {
      ResolvedSound(w, d, drv.pc.open, drv.pc.verdict);
    }
  }

  /** Talking changes neither the ledger nor the tables, and leaves the talker with a belief that holds. */
  lemma TalkIsLocal(w: World, d: nat, act: Act)
    requires d in w.drivers && DriverOk(w.tb, w.drivers[d])
    ensures var w' := TalkStep(w, d, act);
            && w'.db == w.db && w'.tb == w.tb && w'.drivers - {d} == w.drivers - {d}
            && (d in w'.drivers ==> DriverOk(w.tb, w'.drivers[d]))
  {
  }

  lemma RestSame(drivers: map<nat, Driver>, drivers': map<nat, Driver>, d: nat)
    requires drivers' - {d} == drivers - {d}
    ensures forall x | x in drivers' && x != d :: x in drivers && drivers'[x] == drivers[x]
  {
    forall x | x in drivers' && x != d ensures x in drivers && drivers'[x] == drivers[x] {
      assert x in drivers' - {d};
    }
  }

  lemma TalkStepSound(w: World, d: nat, act: Act)
    requires Sound(w) && d in w.drivers
    ensures Sound(TalkStep(w, d, act))
  {
    var w' := TalkStep(w, d, act);
    TalkIsLocal(w, d, act);
    RestSame(w.drivers, w'.drivers, d);
    LocalSound(w, w', d);
  }

  lemma ReadStepSound(w: World, d: nat, act: Act)
    requires Sound(w) && d in w.drivers && Reading(act)
    ensures Sound(At(w, d, Learned(w.tb.steps, w.drivers[d], act)))
  {
    LearnedOk(w, d, act);
    SameGrows(w.tb);
    AtSound(w, At(w, d, Learned(w.tb.steps, w.drivers[d], act)), d, Learned(w.tb.steps, w.drivers[d], act));
  }

  lemma WriteStepSound(cfg: Config, w: World, d: nat, act: Act)
    requires Sound(w) && d in w.drivers
    ensures Sound(Written(w, d, WriteOf(cfg, w.drivers[d], act)))
  {
    WriteLegal(cfg, w.tb, w.drivers[d], act);
    WrittenSound(w, d, WriteOf(cfg, w.drivers[d], act));
  }

  lemma DriverStepSound(cfg: Config, w: World, d: nat, act: Act)
    requires Schema(w.db) && Sound(w) && d in w.drivers
    ensures Sound(DriverStep(cfg, w, d, act))
  {
    if act.Crash? {
      LocalSound(w, Gone(w, d), d);
    } else if Reading(act) {
      ReadStepSound(w, d, act);
    } else if Writing(act) {
      WriteStepSound(cfg, w, d, act);
    } else if Committing(act) {
      LedgerStepSound(w, d, act);
    } else if act.RecordFailure? {
      RecordStepSound(w, d, act.lost);
    } else if act.BeginGateway? {
      BeginStepSound(w, d, act.lost);
    } else if act.FinishAttempt? {
      FinishStepSound(w, d);
    } else {
      TalkStepSound(w, d, act);
    }
  }

  lemma StartSound(w: World, principal: string, key: Option<string>, payload: Payload)
    requires Sound(w) && ValidPayload(payload)
    ensures Sound(w.(tb := NewSaga(w.tb, principal, key, payload)))
  {
    var tb' := NewSaga(w.tb, principal, key, payload);
    StartKeepsLinks(w.db, w.tb, principal, key, payload);
    forall i: nat ensures Grown(w.tb, tb', i) {
    }
    forall d | d in w.drivers ensures DriverOk(tb', w.drivers[d]) {
      DriverSurvives(w.tb, tb', w.drivers[d]);
    }
  }

  lemma ClaimSound(w: World, d: nat, i: nat)
    requires Sound(w) && d !in w.drivers && i < |w.tb.sagas|
    ensures Sound(w.(drivers := w.drivers[d := Driver(i, w.tb.sagas[i], Claimed)]))
  {
    LocalSound(w, w.(drivers := w.drivers[d := Driver(i, w.tb.sagas[i], Claimed)]), d);
  }

  lemma ApplySound(cfg: Config, w: World, e: Event)
    requires Inv(w.db) && Sound(w)
    ensures Sound(Apply(cfg, w, e))
  {
    match e
    case Start(principal, key, payload) =>
      if ValidPayload(payload) {
        StartSound(w, principal, key, payload);
      }
    case Claim(d, i) =>
      if d !in w.drivers && i < |w.tb.sagas| {
        ClaimSound(w, d, i);
      }
    case GatewayRecords(i, outcome) => LocalSound(w, w.(gw := Recorded(w.gw, i, outcome)), 0);
    case RequestLost(i) => LocalSound(w, w.(gw := Lost(w.gw, i)), 0);
    case Outside(op) =>
      if Permitted(w.db, op) {
        OutsideKeepsLinks(w.db, w.tb, op);
      }
    case Drive(d, act) =>
      if d in w.drivers {
        DriverStepSound(cfg, w, d, act);
      }
  }

  /** No event takes a row away, moves a status against the machine or uncommits a reserve. */
  lemma ApplyGrows(cfg: Config, w: World, e: Event)
    requires Sound(w)
    ensures Grows(w.tb, Apply(cfg, w, e).tb)
  {
    SameGrows(w.tb);
    if e.Drive? && e.driver in w.drivers {
      DriveGrows(cfg, w, e.driver, e.act, Apply(cfg, w, e).tb);
    }
  }

  lemma CommitsGrow(w: World, d: nat, db': Option<Db>, a: Attempt, t: Transition, lost: bool)
    requires Follows(t.from, t.to)
    ensures Grows(w.tb, Commits(w, d, db', a, t, lost).tb)
  {
    SameGrows(w.tb);
    if CanStep(w.tb, a, t) {
      StepGrows(w.tb, a, t);
    }
  }

  lemma LedgerStepGrows(w: World, d: nat, drv: Driver, act: Act)
    requires Committing(act)
    ensures Grows(w.tb, LedgerStep(w, d, drv, act).tb)
  {
    SameGrows(w.tb);
    var i, p := drv.saga, drv.snap.payload;
    match act
    case CommitReserve(stamp, choice, lost) =>
      if drv.pc.Numbered? {
        CommitsGrow(w, d, PostAndHold(w.db, stamp, ReserveRequest(i, drv.snap), choice, p.suspense, p.amount),
                    Attempt(i, ReserveStep, Forward, drv.pc.number, StepSucceeded, Some(stamp.tx)),
                    Transition(i, SagaPending, SagaReserved, 0), lost);
      }
    case CommitSettle(stamp, choice, lost) =>
      if drv.pc.Numbered? && ValidPayload(p) {
        CommitsGrow(w, d, PostAndHold(w.db, stamp, SettleRequest(i, drv.snap), choice, p.suspense, Release(p)),
                    Attempt(i, SettleStep, Forward, drv.pc.number, StepSucceeded, Some(stamp.tx)),
                    Transition(i, GatewaySucceeded, Completed, 0), lost);
      }
    case CommitRefund(stamp, lost) =>
      if drv.pc.RefundReady? {
        CommitsGrow(w, d, ReverseAndHold(w.db, stamp, drv.pc.tx, p.suspense, Release(p)),
                    Attempt(i, ReserveStep, Compensation, drv.pc.number, StepSucceeded, Some(stamp.tx)),
                    Transition(i, Compensating, Compensated, 0), lost);
      }
  }

  lemma RecordGrows(w: World, d: nat, lost: bool)
    requires Sound(w) && d in w.drivers
    ensures Grows(w.tb, RecordStep(w, d, lost).tb)
  {
    SameGrows(w.tb);
    var drv := w.drivers[d];
    if drv.pc.Refused? {
      var a := FailedAttempt(drv.saga, drv.snap.status, drv.pc.number);
      assert DriverOk(w.tb, drv);
      FailedAttemptOf(drv.saga, drv.snap.status, drv.pc.number);
      NotedLinks(w.db, w.tb, a, lost);
    }
  }

  lemma FinishStepGrows(w: World, d: nat)
    requires Sound(w) && d in w.drivers
    ensures Grows(w.tb, FinishStep(w, d).tb)
  {
    SameGrows(w.tb);
    var drv := w.drivers[d];
    if drv.pc.Answered? {
      ResolvedLinks(w.db, w.tb, drv.pc.open, drv.pc.verdict);
    }
  }

  lemma BeginGrows(w: World, d: nat, lost: bool)
    requires d in w.drivers
    ensures Grows(w.tb, BeginStep(w, d, lost).tb)
  {
    SameGrows(w.tb);
    var drv := w.drivers[d];
    if drv.pc.Numbered? {
      var a := Attempt(drv.saga, GatewayStep, Forward, drv.pc.number, Attempted, None);
      var t := Transition(drv.saga, SagaReserved, GatewayPending, drv.snap.retry);
      if CanStep(w.tb, a, t) {
        StepGrows(w.tb, a, t);
      }
    }
  }

  lemma WriteGrows(w: World, d: nat, wr: Write)
    requires Legal(wr)
    ensures Grows(w.tb, Written(w, d, wr).tb)
  {
    SameGrows(w.tb);
    if Lands(w.tb, wr) {
      AdvanceGrows(w.tb, wr.t);
    }
  }

  lemma QuietTables(cfg: Config, w: World, d: nat, act: Act)
    requires d in w.drivers && !Writing(act) && !Committing(act)
    requires !act.RecordFailure? && !act.FinishAttempt? && !act.BeginGateway?
    ensures DriverStep(cfg, w, d, act).tb == w.tb
  {
    TalkStepQuiet(w, d, act);
  }

  lemma WriteStepGrows(cfg: Config, w: World, d: nat, act: Act)
    requires Sound(w) && d in w.drivers && Writing(act)
    ensures Grows(w.tb, DriverStep(cfg, w, d, act).tb)
  {
    WriteLegal(cfg, w.tb, w.drivers[d], act);
    WriteGrows(w, d, WriteOf(cfg, w.drivers[d], act));
  }

  lemma RowStepGrows(cfg: Config, w: World, d: nat, act: Act)
    requires Sound(w) && d in w.drivers && (act.RecordFailure? || act.FinishAttempt? || act.BeginGateway?)
    ensures Grows(w.tb, DriverStep(cfg, w, d, act).tb)
  {
    RowSteps(cfg, w, d, !act.FinishAttempt? && act.lost);
    if act.RecordFailure? {
      RecordGrows(w, d, act.lost);
    } else if act.FinishAttempt? {
      FinishStepGrows(w, d);
    } else {
      BeginGrows(w, d, act.lost);
    }
  }

  lemma DriveGrows(cfg: Config, w: World, d: nat, act: Act, tb': Tables)
    requires Sound(w) && d in w.drivers && tb' == DriverStep(cfg, w, d, act).tb
    ensures Grows(w.tb, tb')
  {
    if Writing(act) {
      WriteStepGrows(cfg, w, d, act);
    } else if Committing(act) {
      CommitIsStep(cfg, w, d, act);
      LedgerStepGrows(w, d, w.drivers[d], act);
    } else if act.RecordFailure? || act.FinishAttempt? || act.BeginGateway? {
      RowStepGrows(cfg, w, d, act);
    } else {
      QuietTables(cfg, w, d, act);
      SameGrows(w.tb);
    }
  }

  // ----- the saga layer asks nothing special of the ledger ------------------------------------------------------

  lemma RunTwo(db: Db, x: Op, y: Op)
    ensures Run(db, [x, y]) == Ledger.Step(Ledger.Step(db, x), y)
  {
    var db' := Ledger.Step(db, x);
    assert [x, y][1..] == [y] && [y][1..] == [];
    assert Run(db, [x, y]) == Run(db', [y]);
    assert Run(db', [y]) == Run(Ledger.Step(db', y), []);
  }

  lemma PostAndHoldRuns(db: Db, stamp: Stamp, req: Request, choice: map<Id, Id>, id: Id, delta: int, post: Option<Db>)
    requires post == PostAndHold(db, stamp, req, choice, id, delta) && !req.meta.Reverses?
    ensures post.Some? ==> post.value == Run(db, [PostOp(stamp, req, choice), Hold(id, delta)])
  {
    RunTwo(db, PostOp(stamp, req, choice), Hold(id, delta));
  }

  lemma ReverseAndHoldRuns(db: Db, stamp: Stamp, original: Id, id: Id, delta: int, post: Option<Db>)
    requires post == ReverseAndHold(db, stamp, original, id, delta)
    ensures post.Some? ==> post.value == Run(db, [ReverseOp(stamp, original, "", None), Hold(id, delta)])
  {
    RunTwo(db, ReverseOp(stamp, original, "", None), Hold(id, delta));
  }

  lemma CommitsRuns(w: World, d: nat, post: Option<Db>, a: Attempt, t: Transition, lost: bool, ops: seq<Op>) returns (did: seq<Op>)
    requires post.Some? ==> post.value == Run(w.db, ops)
    ensures Commits(w, d, post, a, t, lost).db == Run(w.db, did)
  {
    did := if post.Some? && CanStep(w.tb, a, t) then ops else [];
  }

  /** A ledger step is a post or a reversal followed by a hold, or nothing. */
  lemma LedgerStepRuns(w: World, d: nat, drv: Driver, act: Act) returns (ops: seq<Op>)
    requires Committing(act)
    ensures LedgerStep(w, d, drv, act).db == Run(w.db, ops)
  {
    ops := [];
    match act
    case CommitReserve(stamp, choice, lost) =>
      if drv.pc.Numbered? && drv.snap.status == SagaPending {
        ops := ReservedRuns(w, d, drv, drv.pc.number, stamp, choice, lost);
      }
    case CommitSettle(stamp, choice, lost) =>
      if drv.pc.Numbered? && drv.snap.status == GatewaySucceeded && ValidPayload(drv.snap.payload) {
        ops := SettledRuns(w, d, drv, drv.pc.number, stamp, choice, lost);
      }
    case CommitRefund(stamp, lost) =>
      if drv.pc.RefundReady? {
        ops := RefundedRuns(w, d, drv, drv.pc.tx, drv.pc.number, stamp, lost);
      }
  }

  lemma ReservedRuns(w: World, d: nat, drv: Driver, n: nat, stamp: Stamp, choice: map<Id, Id>, lost: bool) returns (ops: seq<Op>)
    ensures Reserved(w, d, drv, n, stamp, choice, lost).db == Run(w.db, ops)
  {
    var i, p, req := drv.saga, drv.snap.payload, ReserveRequest(drv.saga, drv.snap);
    var post := PostAndHold(w.db, stamp, req, choice, p.suspense, p.amount);
    PostAndHoldRuns(w.db, stamp, req, choice, p.suspense, p.amount, post);
    ops := CommitsRuns(w, d, post, Attempt(i, ReserveStep, Forward, n, StepSucceeded, Some(stamp.tx)),
                       Transition(i, SagaPending, SagaReserved, 0), lost, [PostOp(stamp, req, choice), Hold(p.suspense, p.amount)]);
  }

  lemma SettledRuns(w: World, d: nat, drv: Driver, n: nat, stamp: Stamp, choice: map<Id, Id>, lost: bool) returns (ops: seq<Op>)
    requires ValidPayload(drv.snap.payload)
    ensures Settled(w, d, drv, n, stamp, choice, lost).db == Run(w.db, ops)
  {
    var i, p, req := drv.saga, drv.snap.payload, SettleRequest(drv.saga, drv.snap);
    var post := PostAndHold(w.db, stamp, req, choice, p.suspense, Release(p));
    PostAndHoldRuns(w.db, stamp, req, choice, p.suspense, Release(p), post);
    ops := CommitsRuns(w, d, post, Attempt(i, SettleStep, Forward, n, StepSucceeded, Some(stamp.tx)),
                       Transition(i, GatewaySucceeded, Completed, 0), lost, [PostOp(stamp, req, choice), Hold(p.suspense, Release(p))]);
  }

  lemma RefundedRuns(w: World, d: nat, drv: Driver, tx: Id, n: nat, stamp: Stamp, lost: bool) returns (ops: seq<Op>)
    ensures Refunded(w, d, drv, tx, n, stamp, lost).db == Run(w.db, ops)
  {
    var i, p := drv.saga, drv.snap.payload;
    var post := ReverseAndHold(w.db, stamp, tx, p.suspense, Release(p));
    ReverseAndHoldRuns(w.db, stamp, tx, p.suspense, Release(p), post);
    ops := CommitsRuns(w, d, post, Attempt(i, ReserveStep, Compensation, n, StepSucceeded, Some(stamp.tx)),
                       Transition(i, Compensating, Compensated, 0), lost, [ReverseOp(stamp, tx, "", None), Hold(p.suspense, Release(p))]);
  }

  lemma TalkStepQuiet(w: World, d: nat, act: Act)
    requires d in w.drivers
    ensures TalkStep(w, d, act).db == w.db && TalkStep(w, d, act).tb == w.tb
  {
  }

  lemma QuietStep(cfg: Config, w: World, d: nat, act: Act)
    requires d in w.drivers && !Committing(act)
    ensures DriverStep(cfg, w, d, act).db == w.db
  {
    TalkStepQuiet(w, d, act);
  }

  lemma OneWrite(db: Db, op: Op)
    ensures Run(db, [op]) == Ledger.Step(db, op)
  {
    assert [op][1..] == [];
    assert Run(Ledger.Step(db, op), []) == Ledger.Step(db, op);
  }

  lemma DriveRuns(cfg: Config, w: World, d: nat, act: Act) returns (ops: seq<Op>)
    requires d in w.drivers
    ensures DriverStep(cfg, w, d, act).db == Run(w.db, ops)
  {
    ops := [];
    if Committing(act) {
      CommitIsStep(cfg, w, d, act);
      ops := LedgerStepRuns(w, d, w.drivers[d], act);
    } else {
      QuietStep(cfg, w, d, act);
    }
  }

  /** Whatever an event does to the ledger is a run of ordinary ledger writes. */
  lemma ApplyRuns(cfg: Config, w: World, e: Event) returns (ops: seq<Op>)
    ensures Apply(cfg, w, e).db == Run(w.db, ops)
  {
    ops := [];
    match e
    case Outside(op) =>
      if Permitted(w.db, op) {
        OneWrite(w.db, op);
        ops := [op];
      }
    case Drive(d, act) =>
      if d in w.drivers {
        ops := DriveRuns(cfg, w, d, act);
      }
    case _ =>
  }

  lemma ApplyInv(cfg: Config, w: World, e: Event, w': World)
    requires Inv(w.db) && w' == Apply(cfg, w, e)
    ensures Inv(w'.db)
  {
    var ops := ApplyRuns(cfg, w, e);
    RunKeepsInv(w.db, ops);
  }

  /** Every event keeps the ledger's invariant, the books of every saga and every driver's beliefs. */
  lemma {:induction false} PlaySound(cfg: Config, w: World, es: seq<Event>)
    requires Inv(w.db) && Sound(w)
    ensures Inv(Play(cfg, w, es).db) && Sound(Play(cfg, w, es))
    decreases |es|
  {
    if es != [] {
      ApplyInv(cfg, w, es[0], Apply(cfg, w, es[0]));
      ApplySound(cfg, w, es[0]);
      PlaySound(cfg, Apply(cfg, w, es[0]), es[1..]);
    }
  }

  // ----- what the runs prove -------------------------------------------------------------------------------------

  /** A ledger in good order on which no saga has acted. */
  ghost predicate Untouched(db: Db)
  {
    Inv(db) && forall t | t in db.headers :: !db.headers[t].meta.SagaMeta?
  }

  lemma ReachableSound(cfg: Config, db: Db, es: seq<Event>)
    requires Untouched(db)
    ensures var w := Play(cfg, Opening(db), es); Inv(w.db) && Sound(w)
  {
    PlaySound(cfg, Opening(db), es);
  }

  function OwnedTxs(db: Db, i: nat): set<Id>
  {
    set t | t in db.headers && OwnedBy(db, t, i)
  }

  /** The transactions a status stands for, leg by leg. */
  ghost predicate BooksSay(db: Db, row: SagaRow, i: nat)
    requires ValidPayload(row.payload)
  {
    if !HasReserve(row.status) then OwnedTxs(db, i) == {}
    else
      exists r: Id ::
        && Routed(db.accounts, ReserveLegs(row.payload), LegsOf(db.journal, r))
        && match row.status
           case Completed =>
             exists s: Id ::
               && s != r && OwnedTxs(db, i) == {r, s}
               && Routed(db.accounts, SettleLegs(row.payload), LegsOf(db.journal, s))
           case Compensated =>
             exists m: Id ::
               && m != r && OwnedTxs(db, i) == {r, m}
               && LegsOf(db.journal, m) == Mirror(LegsOf(db.journal, r))
           case _ => OwnedTxs(db, i) == {r}
  }

  predicate NamedBySteps(steps: seq<Attempt>, i: nat, t: Id)
  {
    || FirstCommitted(steps, i, ReserveStep, Forward) == Some(t)
    || FirstCommitted(steps, i, SettleStep, Forward) == Some(t)
    || FirstCommitted(steps, i, ReserveStep, Compensation) == Some(t)
  }

  /** Only the reserve of a refunded saga has a reversal, and the audit row names it. */
  lemma ReversalIsRefund(db: Db, steps: seq<Attempt>, row: SagaRow, i: nat, t: Id, u: Id)
    requires BooksOf(db, steps, row, i) && ReversalsExact(db)
    requires IsReversalOf(db, t, u) && db.headers[u].meta.SagaMeta? && db.headers[u].meta.saga == i
    ensures FirstCommitted(steps, i, ReserveStep, Compensation) == Some(t)
  {
    var step := db.headers[u].meta.step;
    assert db.headers[u].status == Reversed;
    assert step == ReserveStep && row.status == Compensated;
    var refund := FirstCommitted(steps, i, ReserveStep, Compensation);
    assert IsReversalOf(db, refund.value, u);
  }

  /** A saga owns its marked transactions and, once refunded, the one reversal of its reserve. */
  lemma OwnedIsNamed(db: Db, steps: seq<Attempt>, row: SagaRow, i: nat, t: Id)
    requires BooksOf(db, steps, row, i) && ReversalsExact(db) && t in OwnedTxs(db, i)
    ensures NamedBySteps(steps, i, t)
  {
    var meta := db.headers[t].meta;
    if meta.Reverses? {
      assert IsReversalOf(db, t, meta.tx);
      ReversalIsRefund(db, steps, row, i, t, meta.tx);
    } else {
      assert meta == SagaMeta(i, meta.step);
      match meta.step {
        case ReserveStep =>
        case GatewayStep =>
        case SettleStep =>
      }
    }
  }

  lemma CompletedSaid(db: Db, steps: seq<Attempt>, row: SagaRow, i: nat, r: Id, t: Id)
    requires BooksOf(db, steps, row, i) && ReversalsExact(db) && row.status == Completed
    requires FirstCommitted(steps, i, ReserveStep, Forward) == Some(r) && FirstCommitted(steps, i, SettleStep, Forward) == Some(t)
    ensures t != r && OwnedTxs(db, i) == {r, t} && Routed(db.accounts, SettleLegs(row.payload), LegsOf(db.journal, t))
  {
    forall x | x in OwnedTxs(db, i) ensures x in {r, t} {
      OwnedIsNamed(db, steps, row, i, x);
    }
  }

  lemma CompensatedSaid(db: Db, steps: seq<Attempt>, row: SagaRow, i: nat, r: Id, m: Id)
    requires BooksOf(db, steps, row, i) && ReversalsExact(db) && row.status == Compensated
    requires FirstCommitted(steps, i, ReserveStep, Forward) == Some(r) && FirstCommitted(steps, i, ReserveStep, Compensation) == Some(m)
    ensures m != r && OwnedTxs(db, i) == {r, m} && LegsOf(db.journal, m) == Mirror(LegsOf(db.journal, r))
  {
    assert IsReversalOf(db, m, r);
    forall x | x in OwnedTxs(db, i) ensures x in {r, m} {
      OwnedIsNamed(db, steps, row, i, x);
    }
  }

  lemma HeldSaid(db: Db, steps: seq<Attempt>, row: SagaRow, i: nat, r: Id)
    requires BooksOf(db, steps, row, i) && ReversalsExact(db) && Holds(row.status)
    requires FirstCommitted(steps, i, ReserveStep, Forward) == Some(r)
    ensures OwnedTxs(db, i) == {r}
  {
    forall x | x in OwnedTxs(db, i) ensures x == r {
      OwnedIsNamed(db, steps, row, i, x);
    }
  }

  lemma NothingSaid(db: Db, steps: seq<Attempt>, row: SagaRow, i: nat)
    requires BooksOf(db, steps, row, i) && ReversalsExact(db) && !HasReserve(row.status)
    ensures OwnedTxs(db, i) == {}
  {
    forall x | x in OwnedTxs(db, i) ensures false {
      OwnedIsNamed(db, steps, row, i, x);
    }
  }

  lemma BooksAreSaid(db: Db, steps: seq<Attempt>, row: SagaRow, i: nat)
    requires BooksOf(db, steps, row, i) && ReversalsExact(db)
    ensures BooksSay(db, row, i)
  {
    if HasReserve(row.status) {
      var r := FirstCommitted(steps, i, ReserveStep, Forward).value;
      assert Routed(db.accounts, ReserveLegs(row.payload), LegsOf(db.journal, r));
      if row.status == Completed {
        CompletedSaid(db, steps, row, i, r, FirstCommitted(steps, i, SettleStep, Forward).value);
      } else if row.status == Compensated {
        CompensatedSaid(db, steps, row, i, r, FirstCommitted(steps, i, ReserveStep, Compensation).value);
      } else {
        HeldSaid(db, steps, row, i, r);
      }
    } else {
      NothingSaid(db, steps, row, i);
    }
  }

  /** In every reachable world a saga's transactions, and their legs, are a function of its status. */
  lemma BooksFollowStatus(cfg: Config, db: Db, es: seq<Event>, i: nat)
    requires Untouched(db) && i < |Play(cfg, Opening(db), es).tb.sagas|
    ensures var w := Play(cfg, Opening(db), es);
            ValidPayload(w.tb.sagas[i].payload) && BooksSay(w.db, w.tb.sagas[i], i)
  {
    ReachableSound(cfg, db, es);
    var w := Play(cfg, Opening(db), es);
    BooksAreSaid(w.db, w.tb.steps, w.tb.sagas[i], i);
  }

  /** No driver ever finds a compensating saga with nothing to reverse. */
  lemma AlwaysSomethingToReverse(cfg: Config, db: Db, es: seq<Event>, d: nat)
    requires Untouched(db) && d in Play(cfg, Opening(db), es).drivers
    ensures Play(cfg, Opening(db), es).drivers[d].pc != NothingPosted
  {
    ReachableSound(cfg, db, es);
    assert DriverOk(Play(cfg, Opening(db), es).tb, Play(cfg, Opening(db), es).drivers[d]);
  }

  function TxEffect(db: Db, a: Id): Id -> int
    requires a in db.accounts
  {
    (t: Id) => Sum(EffectOn(a, NormalOf(db.accounts[a])), LegsOf(db.journal, t))
  }

  lemma MirrorPairNeutral(db: Db, r: Id, m: Id, a: Id)
    requires Schema(db) && a in db.accounts && r != m && LegsOf(db.journal, m) == Mirror(LegsOf(db.journal, r))
    ensures SumOver(TxEffect(db, a), {r, m}) == 0
  {
    ReadBackProper(db, r);
    MirrorNegates(LegsOf(db.journal, r), a, NormalOf(db.accounts[a]));
    SumOverPair(TxEffect(db, a), r, m);
  }

  lemma SaidNeutral(db: Db, row: SagaRow, i: nat, a: Id)
    requires Schema(db) && a in db.accounts && ValidPayload(row.payload) && BooksSay(db, row, i)
    requires row.status == Compensated || !HasReserve(row.status)
    ensures SumOver(TxEffect(db, a), OwnedTxs(db, i)) == 0
  {
    if row.status == Compensated {
      var r, m :| r != m && OwnedTxs(db, i) == {r, m} && LegsOf(db.journal, m) == Mirror(LegsOf(db.journal, r));
      MirrorPairNeutral(db, r, m, a);
    }
  }

  /** A saga that failed or was compensated has moved nothing on any account, net. */
  lemma FailureIsNeutral(cfg: Config, db: Db, es: seq<Event>, i: nat, a: Id)
    requires Untouched(db) && i < |Play(cfg, Opening(db), es).tb.sagas| && a in Play(cfg, Opening(db), es).db.accounts
    requires var status := Play(cfg, Opening(db), es).tb.sagas[i].status; status == Compensated || status == SagaFailed
    ensures var w := Play(cfg, Opening(db), es); SumOver(TxEffect(w.db, a), OwnedTxs(w.db, i)) == 0
  {
    ReachableSound(cfg, db, es);
    BooksFollowStatus(cfg, db, es, i);
    var w := Play(cfg, Opening(db), es);
    SaidNeutral(w.db, w.tb.sagas[i], i, a);
  }

  predicate PlainKey(key: Option<Key>)
  {
    key.None? || key.value.ClientKey?
  }

  /** Sagas stand in nobody's way: what clients post, reverse, open, close or hold takes effect between their steps as ever. */
  lemma ClientsAreServed(cfg: Config, w: World, op: Op)
    requires op.PostOp? ==> PlainKey(op.req.key) && op.req.meta == NoMeta
    requires op.ReverseOp? ==> PlainKey(op.key) && op.original in w.db.headers && w.db.headers[op.original].meta == NoMeta
    ensures Apply(cfg, w, Outside(op)) == w.(db := Ledger.Step(w.db, op))
  {
  }

  /** A payout that names too little, or whose fee eats the amount, starts nothing; any other starts as one PENDING saga. */
  lemma StartIsGuarded(cfg: Config, w: World, principal: string, payload: Payload)
    ensures var p := payload;
            Apply(cfg, w, Start(principal, None, p))
            == if p.wallet == NIL || p.suspense == NIL || p.merchant == NIL || p.feeAccount == NIL || p.currency == ""
                  || p.amount <= 0 || p.fee < 0 || p.fee >= p.amount then w
               else w.(tb := w.tb.(sagas := w.tb.sagas + [SagaRow(principal, None, p, SagaPending, 0)]))
  {
  }

  /** A crash takes its driver away and nothing else: whatever was committed stays, and the saga may be claimed anew. */
  lemma CrashTakesOnlyItsDriver(cfg: Config, w: World, d: nat, i: nat)
    requires d in w.drivers && i < |w.tb.sagas|
    ensures var w' := Apply(cfg, w, Drive(d, Crash));
            && w'.db == w.db && w'.tb == w.tb && w'.gw == w.gw && w'.writes == w.writes && w'.drivers == w.drivers - {d}
            && Apply(cfg, w', Claim(d, i)).drivers == w.drivers[d := Driver(i, w.tb.sagas[i], Claimed)]
  {
  }

  /** A claim starts a driver on the row as it is, and disturbs no driver at work. */
  lemma ClaimStartsDriver(cfg: Config, w: World, d: nat, i: nat)
    requires i < |w.tb.sagas|
    ensures Apply(cfg, w, Claim(d, i))
         == if d in w.drivers then w else w.(drivers := w.drivers[d := Driver(i, w.tb.sagas[i], Claimed)])
  {
  }

  /** However sagas interleave, the three consistency checks find nothing. */
  lemma PayoutsKeepChecksClean(cfg: Config, db: Db, es: seq<Event>)
    requires Untouched(db)
    ensures var after := Play(cfg, Opening(db), es).db;
            && Consistency.Violations(after.journal) == {} && Consistency.Drifted(after) == {}
            && Consistency.FewEntries(after) == {} && Consistency.OrphanEntries(after) == {}
  {
    ReachableSound(cfg, db, es);
    Consistency.InvMeansClean(Play(cfg, Opening(db), es).db);
  }
}
