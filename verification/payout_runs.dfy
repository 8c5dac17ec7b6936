/** Runs that show what the payout protocol does not promise, each from a ledger on which a reserve can post. */
module PayoutRuns {
  import opened Collections
  import opened Int64
  import opened LedgerTypes
  import opened Posting
  import opened Ledger
  import opened SagaTypes
  import opened SagaStore
  import opened Gateway
  import opened Payout
  import opened PayoutBudget

  // ----- up to the intent -----------------------------------------------------------------------------------

  /** A payout someone asks for, and where its reserve would go. */
  datatype Order = Order(principal: string, key: Option<string>, payload: Payload, stamp: Stamp, choice: map<Id, Id>)

  function NewRow(o: Order): SagaRow
  {
    SagaRow(o.principal, o.key, o.payload, SagaPending, 0)
  }

  function ReservePost(db: Db, o: Order): Option<Db>
  {
    PostAndHold(db, o.stamp, ReserveRequest(0, NewRow(o)), o.choice, o.payload.suspense, o.payload.amount)
  }

  /** The ledger would take the reserve. */
  predicate Fundable(db: Db, o: Order)
  {
    ValidPayload(o.payload) && ReservePost(db, o).Some?
  }

  /** An open, unsharded, credit-normal account that holds the payout's currency. */
  predicate Plain(db: Db, id: Id, currency: string)
  {
    && id in db.accounts && id in db.balances && db.accounts[id].status == Active && db.accounts[id].currency == currency
    && NormalOf(db.accounts[id]) == Credit && ActiveShards(db.accounts, id) == {}
  }

  /** Two plain accounts with the money in the wallet are enough. */
  lemma FundedIsFundable(db: Db, o: Order)
    requires ValidPayload(o.payload) && ValidCurrency(o.payload.currency) && o.payload.wallet != o.payload.suspense
    requires Plain(db, o.payload.wallet, o.payload.currency) && Plain(db, o.payload.suspense, o.payload.currency)
    requires o.choice == map[] && FreshStamp(db, o.stamp, 2) && KeyFree(db, o.principal, Some(StepKey(0, ReserveStep, Forward)))
    requires o.payload.amount <= db.balances[o.payload.wallet].available <= MAX_INT64
    requires var row := db.balances[o.payload.suspense];
             && 0 <= row.available && row.available + o.payload.amount <= MAX_INT64
             && 0 <= row.pending && row.pending + o.payload.amount <= MAX_INT64
    ensures Fundable(db, o)
  {
    var req := ReserveRequest(0, NewRow(o));
    ReserveAccepted(o.payload);
    assert RouteLegs(map[], req.legs) == req.legs;
    assert Touched(req.legs) == {o.payload.wallet, o.payload.suspense};
    ReserveAdmissible(db, o.payload);
    ReserveHolds(db, o.stamp, req, o.payload);
  }

  lemma ReserveHolds(db: Db, stamp: Stamp, req: Request, p: Payload)
    requires CanPost(db, stamp, req, map[]) && p.suspense in db.balances && p.amount > 0
    requires 0 <= db.balances[p.suspense].pending && db.balances[p.suspense].pending + p.amount <= MAX_INT64
    ensures PostAndHold(db, stamp, req, map[], p.suspense, p.amount).Some?
  {
  }

  lemma ReserveAdmissible(db: Db, p: Payload)
    requires ValidPayload(p) && p.wallet != p.suspense && Plain(db, p.wallet, p.currency) && Plain(db, p.suspense, p.currency)
    requires p.amount <= db.balances[p.wallet].available <= MAX_INT64
    requires 0 <= db.balances[p.suspense].available && db.balances[p.suspense].available + p.amount <= MAX_INT64
    ensures Admissible(db, ReserveLegs(p))
  {
    assert Touched(ReserveLegs(p)) == {p.wallet, p.suspense};
    ReserveEffect(p);
  }

  lemma ReserveAccepted(p: Payload)
    requires ValidPayload(p) && ValidCurrency(p.currency)
    ensures Accepts(TransactionType.Payout, ReserveLegs(p)) && Accepts(Transfer, ReserveLegs(p))
  {
    var legs := ReserveLegs(p);
    SumPair(SideOf(Debit), legs[0], legs[1]);
    SumPair(SideOf(Credit), legs[0], legs[1]);
  }

  /** A settle balances too, with or without a fee leg. */
  lemma SettleAccepted(p: Payload)
    requires ValidPayload(p) && ValidCurrency(p.currency)
    ensures Accepts(TransactionType.Payout, SettleLegs(p)) && Accepts(Transfer, SettleLegs(p))
  {
    var legs := SettleLegs(p);
    forall d: Direction
      ensures Sum(SideOf(d), legs) == SideOf(d)(legs[0]) + SideOf(d)(legs[1]) + if p.fee > 0 then SideOf(d)(legs[2]) else 0
    {
      SumPair(SideOf(d), legs[0], legs[1]);
      if p.fee > 0 {
        SumSnoc(SideOf(d), legs[..2], legs[2]);
        assert legs == legs[..2] + [legs[2]] && legs[..2] == [legs[0], legs[1]];
      } else {
        assert legs == [legs[0], legs[1]];
      }
    }
  }

  lemma ReserveEffect(p: Payload)
    requires ValidPayload(p) && p.wallet != p.suspense
    ensures Sum(EffectOn(p.wallet, Credit), ReserveLegs(p)) == 0 - p.amount
    ensures Sum(EffectOn(p.suspense, Credit), ReserveLegs(p)) == p.amount
  {
    var legs := ReserveLegs(p);
    SumPair(EffectOn(p.wallet, Credit), legs[0], legs[1]);
    SumPair(EffectOn(p.suspense, Credit), legs[0], legs[1]);
  }

  function Reserving(o: Order): seq<Event>
  {
    [Start(o.principal, o.key, o.payload), Claim(1, 0)]
    + [Drive(1, ReadNumber), Drive(1, CommitReserve(o.stamp, o.choice, false))]
  }

  function ReserveRow(o: Order): Attempt
  {
    Attempt(0, ReserveStep, Forward, 1, StepSucceeded, Some(o.stamp.tx))
  }

  const INTENT: Attempt := Attempt(0, GatewayStep, Forward, 1, Attempted, None)

  function Held(db: Db, o: Order): World
  {
    World(db, Tables([NewRow(o).(status := SagaReserved)], [ReserveRow(o)], []), map[], FRESH, [0])
  }

  function Ready(db: Db, o: Order): World
  {
    World(db, Tables([NewRow(o)], [], []), map[1 := Driver(0, NewRow(o), Claimed)], FRESH, [])
  }

  lemma ReadyReached(cfg: Config, db: Db, o: Order)
    requires ValidPayload(o.payload)
    ensures Play(cfg, Opening(db), [Start(o.principal, o.key, o.payload), Claim(1, 0)]) == Ready(db, o)
  {
    PlayTwo(cfg, Opening(db), Start(o.principal, o.key, o.payload), Claim(1, 0));
    var w1 := Apply(cfg, Opening(db), Start(o.principal, o.key, o.payload));
    assert w1.tb == Tables([NewRow(o)], [], []);
  }

  lemma ReserveCommitted(db: Db, o: Order, post: Option<Db>)
    requires post.Some?
    ensures Commits(At(Ready(db, o), 1, Numbered(1)), 1, post, ReserveRow(o), Transition(0, SagaPending, SagaReserved, 0), false)
         == Held(post.value, o)
  {
    var w := At(Ready(db, o), 1, Numbered(1));
    assert w.drivers - {1} == map[];
    assert Stepped(w.tb, ReserveRow(o), Transition(0, SagaPending, SagaReserved, 0)) == Held(post.value, o).tb;
    assert w.writes + [0] == [0];
  }

  lemma ReserveNumbered(cfg: Config, db: Db, o: Order)
    ensures Apply(cfg, Ready(db, o), Drive(1, ReadNumber)) == At(Ready(db, o), 1, Numbered(1))
  {
  }

  lemma ReserveMade(cfg: Config, db: Db, o: Order)
    requires ReservePost(db, o).Some?
    ensures var w := At(Ready(db, o), 1, Numbered(1));
            Apply(cfg, w, Drive(1, CommitReserve(o.stamp, o.choice, false))) == Held(ReservePost(db, o).value, o)
  {
    var w := At(Ready(db, o), 1, Numbered(1));
    CommitIsStep(cfg, w, 1, CommitReserve(o.stamp, o.choice, false));
    ReserveStepOf(w, 1, w.drivers[1], o);
    ReserveCommitted(db, o, ReservePost(db, o));
  }

  lemma HeldReached(cfg: Config, db: Db, o: Order)
    requires Fundable(db, o)
    ensures Play(cfg, Opening(db), Reserving(o)) == Held(ReservePost(db, o).value, o)
  {
    var first := [Start(o.principal, o.key, o.payload), Claim(1, 0)];
    var commit := CommitReserve(o.stamp, o.choice, false);
    PlayConcat(cfg, Opening(db), first, [Drive(1, ReadNumber), Drive(1, commit)]);
    ReadyReached(cfg, db, o);
    PlayTwo(cfg, Ready(db, o), Drive(1, ReadNumber), Drive(1, commit));
    ReserveNumbered(cfg, db, o);
    ReserveMade(cfg, db, o);
  }

  lemma ReserveStepOf(w: World, d: nat, drv: Driver, o: Order)
    requires drv == Driver(0, NewRow(o), Numbered(1))
    ensures LedgerStep(w, d, drv, CommitReserve(o.stamp, o.choice, false))
         == Commits(w, d, ReservePost(w.db, o), ReserveRow(o), Transition(0, SagaPending, SagaReserved, 0), false)
  {
  }

  function Intending(lost: bool): seq<Event>
  {
    [Claim(1, 0), Drive(1, ReadNumber), Drive(1, BeginGateway(lost))]
  }

  function Waiting(db: Db, o: Order, drivers: map<nat, Driver>): World
  {
    World(db, Tables([NewRow(o).(status := GatewayPending)], [ReserveRow(o), INTENT], []), drivers, FRESH, [0, 0])
  }

  /** The driver that committed the intent, before it sends anything. */
  function Sender(o: Order): Driver
  {
    Driver(0, NewRow(o).(status := SagaReserved), Submitting(1))
  }

  lemma FirstIntent(a: Attempt)
    requires a.step != GatewayStep
    ensures NextNumber([a], 0, GatewayStep, Forward) == 1
  {
    assert [a][..0] == [];
    assert NextNumber([a][..0], 0, GatewayStep, Forward) == 1;
  }

  /** The intent commits; its driver then sends, or never learns that it may. */
  lemma IntentReached(cfg: Config, db: Db, o: Order, lost: bool)
    ensures Play(cfg, Held(db, o), Intending(lost)) == Waiting(db, o, if lost then map[] else map[1 := Sender(o)])
  {
    var w := Held(db, o);
    PlayThree(cfg, w, Claim(1, 0), Drive(1, ReadNumber), Drive(1, BeginGateway(lost)));
    var drv := Driver(0, NewRow(o).(status := SagaReserved), Claimed);
    var w1 := Apply(cfg, w, Claim(1, 0));
    assert w1.drivers == map[1 := drv];
    FirstIntent(ReserveRow(o));
    var w2 := Apply(cfg, w1, Drive(1, ReadNumber));
    assert w2.drivers == map[1 := drv.(pc := Numbered(1))] && w2.tb == w.tb;
    var w3 := Apply(cfg, w2, Drive(1, BeginGateway(lost)));
    assert w3.tb == Waiting(db, o, map[]).tb;
    assert w3.writes == [0, 0];
    assert w3.drivers == if lost then map[] else map[1 := Sender(o)];
  }

  lemma WaitingReached(cfg: Config, db: Db, o: Order, lost: bool)
    requires Fundable(db, o)
    ensures Play(cfg, Opening(db), Reserving(o) + Intending(lost))
         == Waiting(ReservePost(db, o).value, o, if lost then map[] else map[1 := Sender(o)])
  {
    PlayConcat(cfg, Opening(db), Reserving(o), Intending(lost));
    HeldReached(cfg, db, o);
    IntentReached(cfg, ReservePost(db, o).value, o, lost);
  }

  // ----- single steps ---------------------------------------------------------------------------------------------

  lemma AttemptClosed(cfg: Config, w: World, d: nat, verdict: Verdict)
    requires d in w.drivers && w.drivers[d].pc.Answered? && w.drivers[d].pc.verdict == verdict
    ensures var w' := Apply(cfg, w, Drive(d, FinishAttempt));
            w'.drivers == w.drivers[d := w.drivers[d].(pc := Concluding(verdict))] && w'.tb.sagas == w.tb.sagas && w'.gw == w.gw
  {
  }

  lemma VerdictWritten(cfg: Config, w: World, d: nat, verdict: Verdict)
    requires d in w.drivers && w.drivers[d].saga == 0 && w.drivers[d].pc == Concluding(verdict) && verdict != Unknown
    requires |w.tb.sagas| == 1 && w.tb.sagas[0].status == GatewayPending
    ensures var w' := Apply(cfg, w, Drive(d, Conclude));
            && w'.drivers == w.drivers - {d} && w'.gw == w.gw && |w'.tb.sagas| == 1 && w'.tb.sagas[0].retry == 0
            && w'.tb.sagas[0].status == if verdict == Confirmed then GatewaySucceeded else GatewayFailed
  {
  }

  /** A conclusive answer closes the attempt and moves the status. */
  lemma Concluded(cfg: Config, w: World, d: nat, verdict: Verdict)
    requires d in w.drivers && w.drivers[d].saga == 0 && w.drivers[d].pc.Answered? && w.drivers[d].pc.verdict == verdict
    requires verdict != Unknown && |w.tb.sagas| == 1 && w.tb.sagas[0].status == GatewayPending
    ensures var w' := Play(cfg, w, [Drive(d, FinishAttempt), Drive(d, Conclude)]);
            && w'.drivers == w.drivers - {d} && w'.gw == w.gw && |w'.tb.sagas| == 1 && w'.tb.sagas[0].retry == 0
            && w'.tb.sagas[0].status == if verdict == Confirmed then GatewaySucceeded else GatewayFailed
  {
    PlayTwo(cfg, w, Drive(d, FinishAttempt), Drive(d, Conclude));
    AttemptClosed(cfg, w, d, verdict);
    var w1 := Apply(cfg, w, Drive(d, FinishAttempt));
    VerdictWritten(cfg, w1, d, verdict);
    assert w1.drivers - {d} == w.drivers - {d};
  }

  // ----- a denial too early ------------------------------------------------------------------------------------

  /** Another driver probes the saga, is told there is no payment, and concludes. */
  const PROBE: seq<Event> :=
    [Claim(2, 0), Drive(2, FindUnresolved), Drive(2, ProbeAnswer(Reply(404, Unreadable)))]
    + [Drive(2, FinishAttempt), Drive(2, Conclude)]

  /** A driver claims the saga and looks for its open attempt. */
  lemma ProbeStarted(cfg: Config, w: World, d: nat)
    requires d !in w.drivers && |w.tb.sagas| == 1 && w.tb.sagas[0].status == GatewayPending
    ensures Apply(cfg, Apply(cfg, w, Claim(d, 0)), Drive(d, FindUnresolved))
         == w.(drivers := w.drivers[d := Driver(0, w.tb.sagas[0], Probing(NewestOpen(w.tb.steps, 0, GatewayStep)))])
  {
    var w1 := Apply(cfg, w, Claim(d, 0));
    assert w1 == w.(drivers := w.drivers[d := Driver(0, w.tb.sagas[0], Claimed)]);
  }

  lemma DenialReceived(cfg: Config, w: World, open: Option<nat>)
    requires 2 in w.drivers && w.drivers[2].saga == 0 && w.drivers[2].pc == Probing(open) && 0 !in w.gw.payments
    ensures Apply(cfg, w, Drive(2, ProbeAnswer(Reply(404, Unreadable))))
         == At(w, 2, Answered(open, Refuted)).(gw := w.gw.(denied := w.gw.denied + {0}))
  {
    OpinionExact(Reply(404, Unreadable));
  }

  lemma ProbeDenied(cfg: Config, w: World)
    requires 2 !in w.drivers && |w.tb.sagas| == 1 && w.tb.sagas[0].status == GatewayPending && 0 !in w.gw.payments
    ensures var w' := Play(cfg, w, [Claim(2, 0), Drive(2, FindUnresolved), Drive(2, ProbeAnswer(Reply(404, Unreadable)))]);
            && w'.tb == w.tb && w'.gw == w.gw.(denied := w.gw.denied + {0})
            && 2 in w'.drivers && w'.drivers[2].saga == 0 && w'.drivers - {2} == w.drivers
            && w'.drivers[2].pc.Answered? && w'.drivers[2].pc.verdict == Refuted
  {
    var open := NewestOpen(w.tb.steps, 0, GatewayStep);
    PlayThree(cfg, w, Claim(2, 0), Drive(2, FindUnresolved), Drive(2, ProbeAnswer(Reply(404, Unreadable))));
    ProbeStarted(cfg, w, 2);
    DenialReceived(cfg, w.(drivers := w.drivers[2 := Driver(0, w.tb.sagas[0], Probing(open))]), open);
  }

  lemma ProbeFails(cfg: Config, w: World)
    requires 2 !in w.drivers && |w.tb.sagas| == 1 && w.tb.sagas[0].status == GatewayPending && 0 !in w.gw.payments
    ensures var w' := Play(cfg, w, PROBE);
            && |w'.tb.sagas| == 1 && w'.tb.sagas[0].status == GatewayFailed
            && w'.gw == w.gw.(denied := w.gw.denied + {0}) && w'.drivers == w.drivers
  {
    var first := [Claim(2, 0), Drive(2, FindUnresolved), Drive(2, ProbeAnswer(Reply(404, Unreadable)))];
    PlayConcat(cfg, w, first, [Drive(2, FinishAttempt), Drive(2, Conclude)]);
    ProbeDenied(cfg, w);
    Concluded(cfg, Play(cfg, w, first), 2, Refuted);
  }

  lemma ArrivesLate(cfg: Config, w: World, k: nat)
    requires w.drivers.Keys == {1} && w.drivers[1].saga == 0 && w.drivers[1].pc == Submitting(k)
    requires |w.tb.sagas| == 1 && w.tb.sagas[0].status == GatewayPending && 0 !in w.gw.payments
    ensures FailedYetPaid(Play(cfg, w, [Drive(1, Submit)] + (PROBE + [GatewayRecords(0, Paid)])), 0)
  {
    PlayConcat(cfg, w, [Drive(1, Submit)], PROBE + [GatewayRecords(0, Paid)]);
    PlayOne(cfg, w, Drive(1, Submit));
    Submitted(cfg, w, 1, k);
    var w1 := At(w, 1, Awaiting(k)).(gw := Sent(w.gw, 0));
    ProbeFails(cfg, w1);
    PlayConcat(cfg, w1, PROBE, [GatewayRecords(0, Paid)]);
    PlayOne(cfg, Play(cfg, w1, PROBE), GatewayRecords(0, Paid));
  }

  lemma SendsLate(cfg: Config, w: World, k: nat)
    requires w.drivers.Keys == {1} && w.drivers[1].saga == 0 && w.drivers[1].pc == Submitting(k)
    requires |w.tb.sagas| == 1 && w.tb.sagas[0].status == GatewayPending && 0 !in w.gw.payments
    ensures FailedYetPaid(Play(cfg, w, PROBE + [Drive(1, Submit), GatewayRecords(0, Paid)]), 0)
  {
    PlayConcat(cfg, w, PROBE, [Drive(1, Submit), GatewayRecords(0, Paid)]);
    ProbeFails(cfg, w);
    var w1 := Play(cfg, w, PROBE);
    PlayTwo(cfg, w1, Drive(1, Submit), GatewayRecords(0, Paid));
    Submitted(cfg, w1, 1, k);
  }

  /** The submission is still travelling when the saga is probed and denied; it arrives after GATEWAY_FAILED. */
  lemma LateArrivalPaysFailedSaga(cfg: Config, db: Db, o: Order)
    requires Fundable(db, o)
    ensures FailedYetPaid(Play(cfg, Opening(db), Reserving(o) + Intending(false)
                                                 + ([Drive(1, Submit)] + (PROBE + [GatewayRecords(0, Paid)]))), 0)
  {
    WaitingReached(cfg, db, o, false);
    PlayConcat(cfg, Opening(db), Reserving(o) + Intending(false), [Drive(1, Submit)] + (PROBE + [GatewayRecords(0, Paid)]));
    ArrivesLate(cfg, Waiting(ReservePost(db, o).value, o, map[1 := Sender(o)]), 1);
  }

  /** Nothing is travelling at the probe, but the first driver has yet to send; it sends after GATEWAY_FAILED. */
  lemma StalledSenderPaysFailedSaga(cfg: Config, db: Db, o: Order)
    requires Fundable(db, o)
    ensures FailedYetPaid(Play(cfg, Opening(db), Reserving(o) + Intending(false)
                                                 + (PROBE + [Drive(1, Submit), GatewayRecords(0, Paid)])), 0)
    ensures Play(cfg, Opening(db), Reserving(o) + Intending(false)).gw.inFlight == {}
  {
    WaitingReached(cfg, db, o, false);
    PlayConcat(cfg, Opening(db), Reserving(o) + Intending(false), PROBE + [Drive(1, Submit), GatewayRecords(0, Paid)]);
    SendsLate(cfg, Waiting(ReservePost(db, o).value, o, map[1 := Sender(o)]), 1);
  }

  // ----- paid, and compensated all the same ---------------------------------------------------------------------

  const CONFIRMATION: Response := Reply(200, Wire("SUCCEEDED"))

  /** The gateway pays and says so. */
  const PAYMENT: seq<Event> :=
    [Drive(1, Submit), GatewayRecords(0, Paid), Drive(1, PayAnswer(CONFIRMATION))]
    + [Drive(1, FinishAttempt), Drive(1, Conclude)]

  /** A settle attempt during which the database goes away. */
  const BROKEN_SETTLE: seq<Event> :=
    [Claim(1, 0), Drive(1, ReadNumber)] + [Drive(1, Refuse(Interrupted)), Drive(1, RecordFailure(false)), Drive(1, Decide)]

  function BrokenSettles(n: nat): seq<Event>
  {
    if n == 0 then [] else BROKEN_SETTLE + BrokenSettles(n - 1)
  }

  predicate PaidAt(w: World, status: Status, retry: nat)
  {
    w.drivers == map[] && |w.tb.sagas| == 1 && w.tb.sagas[0].status == status && w.tb.sagas[0].retry == retry && WasPaid(w.gw, 0)
  }

  lemma PaymentHeard(cfg: Config, w: World, k: nat)
    requires w.drivers.Keys == {1} && w.drivers[1].saga == 0 && w.drivers[1].pc == Submitting(k) && 0 !in w.gw.payments
    ensures var w' := Play(cfg, w, [Drive(1, Submit), GatewayRecords(0, Paid), Drive(1, PayAnswer(CONFIRMATION))]);
            w'.tb == w.tb && w'.drivers == w.drivers[1 := w.drivers[1].(pc := Answered(Some(k), Confirmed))] && WasPaid(w'.gw, 0)
  {
    PlayThree(cfg, w, Drive(1, Submit), GatewayRecords(0, Paid), Drive(1, PayAnswer(CONFIRMATION)));
    OpinionExact(CONFIRMATION);
    Submitted(cfg, w, 1, k);
    var w2 := Apply(cfg, Apply(cfg, w, Drive(1, Submit)), GatewayRecords(0, Paid));
    assert w2.drivers[1].pc == Awaiting(k) && w2.tb == w.tb && WasPaid(w2.gw, 0);
  }

  lemma PaymentConfirmed(cfg: Config, w: World, k: nat)
    requires w.drivers.Keys == {1} && w.drivers[1].saga == 0 && w.drivers[1].pc == Submitting(k) && 0 !in w.gw.payments
    requires |w.tb.sagas| == 1 && w.tb.sagas[0].status == GatewayPending
    ensures PaidAt(Play(cfg, w, PAYMENT), GatewaySucceeded, 0)
  {
    var first := [Drive(1, Submit), GatewayRecords(0, Paid), Drive(1, PayAnswer(CONFIRMATION))];
    PlayConcat(cfg, w, first, [Drive(1, FinishAttempt), Drive(1, Conclude)]);
    PaymentHeard(cfg, w, k);
    var w1 := Play(cfg, w, first);
    Concluded(cfg, w1, 1, Confirmed);
    assert w1.drivers - {1} == map[];
  }

  lemma SettleNumbered(cfg: Config, w: World)
    requires w.drivers == map[] && |w.tb.sagas| == 1 && w.tb.sagas[0].status == GatewaySucceeded
    ensures var n := NextNumber(w.tb.steps, 0, SettleStep, Forward);
            Play(cfg, w, [Claim(1, 0), Drive(1, ReadNumber)]) == w.(drivers := map[1 := Driver(0, w.tb.sagas[0], Numbered(n))])
  {
    PlayTwo(cfg, w, Claim(1, 0), Drive(1, ReadNumber));
    var w1 := Apply(cfg, w, Claim(1, 0));
    assert w1 == w.(drivers := map[1 := Driver(0, w.tb.sagas[0], Claimed)]);
  }

  lemma RefusalNoted(cfg: Config, w: World, n: nat)
    requires w.drivers.Keys == {1} && w.drivers[1].pc == Numbered(n) && w.drivers[1].snap.status == GatewaySucceeded
    ensures var w' := Apply(cfg, Apply(cfg, w, Drive(1, Refuse(Interrupted))), Drive(1, RecordFailure(false)));
            && w'.drivers == w.drivers[1 := w.drivers[1].(pc := Deciding(Interrupted))]
            && w'.tb.sagas == w.tb.sagas && w'.gw == w.gw
  {
    var w1 := Apply(cfg, w, Drive(1, Refuse(Interrupted)));
    assert w1 == At(w, 1, Refused(n, Interrupted));
  }

  lemma RefusalDecided(cfg: Config, w: World, retry: nat)
    requires w.drivers.Keys == {1} && w.drivers[1].saga == 0 && w.drivers[1].pc == Deciding(Interrupted)
    requires |w.tb.sagas| == 1 && w.drivers[1].snap == w.tb.sagas[0] && w.tb.sagas[0].status == GatewaySucceeded
    requires w.tb.sagas[0].retry == retry && WasPaid(w.gw, 0)
    ensures var w' := Apply(cfg, w, Drive(1, Decide));
            if retry + 1 >= cfg.maxStepAttempts then PaidAt(w', Compensating, 0) else PaidAt(w', GatewaySucceeded, retry + 1)
  {
    assert Apply(cfg, w, Drive(1, Decide)).drivers == map[];
  }

  lemma SettleBroken(cfg: Config, w: World, retry: nat)
    requires PaidAt(w, GatewaySucceeded, retry)
    ensures var w' := Play(cfg, w, BROKEN_SETTLE);
            if retry + 1 >= cfg.maxStepAttempts then PaidAt(w', Compensating, 0) else PaidAt(w', GatewaySucceeded, retry + 1)
  {
    var n := NextNumber(w.tb.steps, 0, SettleStep, Forward);
    var rest := [Drive(1, Refuse(Interrupted)), Drive(1, RecordFailure(false)), Drive(1, Decide)];
    PlayConcat(cfg, w, [Claim(1, 0), Drive(1, ReadNumber)], rest);
    SettleNumbered(cfg, w);
    var w1 := w.(drivers := map[1 := Driver(0, w.tb.sagas[0], Numbered(n))]);
    PlayThree(cfg, w1, Drive(1, Refuse(Interrupted)), Drive(1, RecordFailure(false)), Drive(1, Decide));
    RefusalNoted(cfg, w1, n);
    RefusalDecided(cfg, Apply(cfg, Apply(cfg, w1, Drive(1, Refuse(Interrupted))), Drive(1, RecordFailure(false))), retry);
  }

  lemma NextBrokenSettle(cfg: Config, w: World, n: nat, w1: World)
    requires n >= 1 && w1 == Play(cfg, w, BROKEN_SETTLE)
    ensures Play(cfg, w, BrokenSettles(n)) == Play(cfg, w1, BrokenSettles(n - 1))
  {
    PlayConcat(cfg, w, BROKEN_SETTLE, BrokenSettles(n - 1));
  }

  lemma {:induction false} SettlesRunOut(cfg: Config, w: World, retry: nat)
    requires PaidAt(w, GatewaySucceeded, retry)
    ensures PaidAt(Play(cfg, w, BrokenSettles(Left(cfg.maxStepAttempts, retry))), Compensating, 0)
    decreases cfg.maxStepAttempts - retry
  {
    var n := Left(cfg.maxStepAttempts, retry);
    var w1 := Play(cfg, w, BROKEN_SETTLE);
    SettleBroken(cfg, w, retry);
    NextBrokenSettle(cfg, w, n, w1);
    if retry + 1 < cfg.maxStepAttempts {
      SettlesRunOut(cfg, w1, retry + 1);
    } else {
      assert n == 1 && BrokenSettles(0) == [];
    }
  }

  /** The gateway paid and said so, and a settle step that keeps failing sends the saga into compensation. */
  lemma PaidSagaCompensates(cfg: Config, db: Db, o: Order)
    requires Fundable(db, o)
    ensures PaidAt(Play(cfg, Opening(db), Reserving(o) + Intending(false) + (PAYMENT + BrokenSettles(Left(cfg.maxStepAttempts, 0)))),
                   Compensating, 0)
  {
    var w := Waiting(ReservePost(db, o).value, o, map[1 := Sender(o)]);
    var failures := BrokenSettles(Left(cfg.maxStepAttempts, 0));
    WaitingReached(cfg, db, o, false);
    PlayConcat(cfg, Opening(db), Reserving(o) + Intending(false), PAYMENT + failures);
    PlayConcat(cfg, w, PAYMENT, failures);
    PaymentConfirmed(cfg, w, 1);
    SettlesRunOut(cfg, Play(cfg, w, PAYMENT), 0);
  }

  // ----- a stale writer hands attempts back -----------------------------------------------------------------------

  /** A driver probes, hears nothing, and stalls before it writes. */
  const STALL: seq<Event> := [Claim(1, 0), Drive(1, FindUnresolved), Drive(1, ProbeAnswer(NoResponse))]

  /** Another one probes, hears nothing, and counts the attempt. */
  const DEFERRAL: seq<Event> :=
    [Claim(2, 0), Drive(2, FindUnresolved), Drive(2, ProbeAnswer(NoResponse))] + [Drive(2, Conclude)]

  lemma SilenceReceived(cfg: Config, w: World, d: nat)
    requires d in w.drivers && w.drivers[d].pc.Probing?
    ensures Apply(cfg, w, Drive(d, ProbeAnswer(NoResponse))) == At(w, d, Concluding(Unknown))
  {
    OpinionExact(NoResponse);
  }

  lemma ProbeUnanswered(cfg: Config, w: World, d: nat)
    requires d !in w.drivers && |w.tb.sagas| == 1 && w.tb.sagas[0].status == GatewayPending
    ensures Play(cfg, w, [Claim(d, 0), Drive(d, FindUnresolved), Drive(d, ProbeAnswer(NoResponse))])
         == w.(drivers := w.drivers[d := Driver(0, w.tb.sagas[0], Concluding(Unknown))])
  {
    var open := NewestOpen(w.tb.steps, 0, GatewayStep);
    PlayThree(cfg, w, Claim(d, 0), Drive(d, FindUnresolved), Drive(d, ProbeAnswer(NoResponse)));
    ProbeStarted(cfg, w, d);
    SilenceReceived(cfg, w.(drivers := w.drivers[d := Driver(0, w.tb.sagas[0], Probing(open))]), d);
  }

  predicate StalledAt(w: World, retry: nat)
  {
    && |w.tb.sagas| == 1 && w.tb.sagas[0].status == GatewayPending && w.tb.sagas[0].retry == retry
    && w.drivers.Keys == {1} && w.drivers[1].saga == 0 && w.drivers[1].pc == Concluding(Unknown) && w.drivers[1].snap.retry == 0
  }

  lemma SilenceCounted(cfg: Config, w: World)
    requires 2 in w.drivers && w.drivers[2].saga == 0 && w.drivers[2].pc == Concluding(Unknown)
    requires |w.tb.sagas| == 1 && w.tb.sagas[0].status == GatewayPending && w.drivers[2].snap.retry + 1 < cfg.maxProbes
    ensures var w' := Apply(cfg, w, Drive(2, Conclude));
            && w'.drivers == w.drivers - {2} && |w'.tb.sagas| == 1
            && w'.tb.sagas[0].status == GatewayPending && w'.tb.sagas[0].retry == w.drivers[2].snap.retry + 1
  {
  }

  lemma DeferralCounts(cfg: Config, w: World, retry: nat)
    requires StalledAt(w, retry) && retry + 1 < cfg.maxProbes
    ensures StalledAt(Play(cfg, w, DEFERRAL), retry + 1)
  {
    PlayConcat(cfg, w, [Claim(2, 0), Drive(2, FindUnresolved), Drive(2, ProbeAnswer(NoResponse))], [Drive(2, Conclude)]);
    ProbeUnanswered(cfg, w, 2);
    var w1 := w.(drivers := w.drivers[2 := Driver(0, w.tb.sagas[0], Concluding(Unknown))]);
    PlayOne(cfg, w1, Drive(2, Conclude));
    SilenceCounted(cfg, w1);
    assert w1.drivers - {2} == w.drivers;
  }

  /** The write takes back what others have counted since. */
  predicate HandsBack(cfg: Config, w: World, w': World)
  {
    && |w.tb.sagas| == 1 && |w'.tb.sagas| == 1
    && var row, row' := w.tb.sagas[0], w'.tb.sagas[0];
       && row.status == GatewayPending && row'.status == GatewayPending && row'.retry < row.retry
       && Remaining(cfg, row'.status, row'.retry) > Remaining(cfg, row.status, row.retry)
  }

  lemma StalledWrites(cfg: Config, w: World)
    requires StalledAt(w, 2) && cfg.maxProbes >= 3
    ensures HandsBack(cfg, w, Apply(cfg, w, Drive(1, Conclude)))
  {
  }

  lemma StallCounts(cfg: Config, w: World)
    requires w.drivers == map[] && |w.tb.sagas| == 1 && w.tb.sagas[0].status == GatewayPending && w.tb.sagas[0].retry == 0
    requires cfg.maxProbes >= 3
    ensures StalledAt(Play(cfg, w, STALL + (DEFERRAL + DEFERRAL)), 2)
  {
    PlayConcat(cfg, w, STALL, DEFERRAL + DEFERRAL);
    ProbeUnanswered(cfg, w, 1);
    var w1 := Play(cfg, w, STALL);
    PlayConcat(cfg, w1, DEFERRAL, DEFERRAL);
    DeferralCounts(cfg, w1, 0);
    DeferralCounts(cfg, Play(cfg, w1, DEFERRAL), 1);
  }

  /** Two probes are counted while a third driver stalls; its write then takes one of them back. */
  lemma StaleWriterRefundsBudget(cfg: Config, db: Db, o: Order)
    requires Fundable(db, o) && cfg.maxProbes >= 3
    ensures var w := Play(cfg, Opening(db), Reserving(o) + Intending(true) + (STALL + (DEFERRAL + DEFERRAL)));
            HandsBack(cfg, w, Apply(cfg, w, Drive(1, Conclude)))
  {
    var w := Waiting(ReservePost(db, o).value, o, map[]);
    WaitingReached(cfg, db, o, true);
    PlayConcat(cfg, Opening(db), Reserving(o) + Intending(true), STALL + (DEFERRAL + DEFERRAL));
    StallCounts(cfg, w);
    StalledWrites(cfg, Play(cfg, w, STALL + (DEFERRAL + DEFERRAL)));
  }
}
