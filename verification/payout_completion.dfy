/** A payout can go all the way: no step is ever mistaken for one already taken, and a paid saga can settle. */
module PayoutCompletion {
  import opened Collections
  import opened Int64
  import opened LedgerTypes
  import opened Posting
  import opened Ledger
  import opened LedgerInvariants
  import opened SagaTypes
  import opened SagaStore
  import opened Payout
  import opened PayoutBooks
  import opened PayoutSafety
  import opened PayoutSuspense
  import opened PayoutDrives
  import opened PayoutRuns

  // ----- the headers of saga steps -----------------------------------------------------------------------------

  /** A step's transaction is a payout of the saga's principal under the step's own key, and nobody else uses that key. */
  predicate Proper(sagas: seq<SagaRow>, h: Header)
  {
    && (h.key.Some? && h.key.value.StepKey? ==> h.meta == SagaMeta(h.key.value.saga, h.key.value.step))
    && (h.meta.SagaMeta? ==>
          && h.meta.saga < |sagas| && h.principal == sagas[h.meta.saga].principal && h.ttype == TransactionType.Payout
          && h.key == Some(StepKey(h.meta.saga, h.meta.step, Forward)))
  }

  predicate HeadersProper(db: Db, sagas: seq<SagaRow>)
  {
    forall t | t in db.headers :: Proper(sagas, db.headers[t])
  }

  /** Before any saga has acted, step keys are unused. */
  predicate PlainKeys(db: Db)
  {
    forall t | t in db.headers :: PlainKey(db.headers[t].key)
  }

  lemma PostProper(db: Db, sagas: seq<SagaRow>, stamp: Stamp, req: Request, choice: map<Id, Id>)
    requires HeadersProper(db, sagas) && CanPost(db, stamp, req, choice) && Proper(sagas, HeaderFor(req))
    ensures HeadersProper(Post(db, stamp, req, choice), sagas)
  {
  }

  lemma ReverseProper(db: Db, sagas: seq<SagaRow>, stamp: Stamp, original: Id, principal: string, key: Option<Key>)
    requires HeadersProper(db, sagas) && CanReverse(db, stamp, original, principal, key) && PlainKey(key)
    ensures HeadersProper(Reverse(db, stamp, original, principal, key), sagas)
  {
  }

  lemma OutsideProper(db: Db, sagas: seq<SagaRow>, op: Op)
    requires HeadersProper(db, sagas) && Permitted(db, op)
    ensures HeadersProper(Ledger.Step(db, op), sagas)
  {
    match op
    case PostOp(stamp, req, choice) =>
      if CanPost(db, stamp, req, choice) {
        PostProper(db, sagas, stamp, req, choice);
      }
    case ReverseOp(stamp, original, principal, key) =>
      if CanReverse(db, stamp, original, principal, key) {
        ReverseProper(db, sagas, stamp, original, principal, key);
      }
    case _ =>
  }

  lemma PostAndHoldProper(db: Db, sagas: seq<SagaRow>, stamp: Stamp, req: Request, choice: map<Id, Id>, id: Id, delta: int)
    requires HeadersProper(db, sagas) && Proper(sagas, HeaderFor(req))
    ensures var r := PostAndHold(db, stamp, req, choice, id, delta); r.Some? ==> HeadersProper(r.value, sagas)
  {
    if CanPost(db, stamp, req, choice) {
      PostProper(db, sagas, stamp, req, choice);
    }
  }

  lemma ReverseAndHoldProper(db: Db, sagas: seq<SagaRow>, stamp: Stamp, original: Id, id: Id, delta: int)
    requires HeadersProper(db, sagas)
    ensures var r := ReverseAndHold(db, stamp, original, id, delta); r.Some? ==> HeadersProper(r.value, sagas)
  {
    if CanReverse(db, stamp, original, "", None) {
      ReverseProper(db, sagas, stamp, original, "", None);
    }
  }

  lemma LedgerStepProper(w: World, d: nat, drv: Driver, act: Act)
    requires HeadersProper(w.db, w.tb.sagas) && Committing(act) && DriverOk(w.tb, drv)
    ensures HeadersProper(LedgerStep(w, d, drv, act).db, w.tb.sagas)
  {
    var i, p, sagas := drv.saga, drv.snap.payload, w.tb.sagas;
    match act
    case CommitReserve(stamp, choice, _) =>
      PostAndHoldProper(w.db, sagas, stamp, ReserveRequest(i, drv.snap), choice, p.suspense, p.amount);
    case CommitSettle(stamp, choice, _) =>
      if ValidPayload(p) {
        PostAndHoldProper(w.db, sagas, stamp, SettleRequest(i, drv.snap), choice, p.suspense, Release(p));
      }
    case CommitRefund(stamp, _) =>
      if drv.pc.RefundReady? {
        ReverseAndHoldProper(w.db, sagas, stamp, drv.pc.tx, p.suspense, Release(p));
      }
  }

  lemma DriveProper(cfg: Config, w: World, d: nat, act: Act)
    requires Sound(w) && HeadersProper(w.db, w.tb.sagas) && d in w.drivers
    ensures HeadersProper(DriverStep(cfg, w, d, act).db, w.tb.sagas)
  {
    if Committing(act) {
      CommitIsStep(cfg, w, d, act);
      LedgerStepProper(w, d, w.drivers[d], act);
    } else {
      QuietStep(cfg, w, d, act);
    }
  }

  lemma GrowsProper(db: Db, tb: Tables, tb': Tables)
    requires HeadersProper(db, tb.sagas) && Grows(tb, tb')
    ensures HeadersProper(db, tb'.sagas)
  {
    forall t | t in db.headers ensures Proper(tb'.sagas, db.headers[t]) {
      assert Proper(tb.sagas, db.headers[t]);
      if db.headers[t].meta.SagaMeta? {
        assert Grown(tb, tb', db.headers[t].meta.saga);
      }
    }
  }

  lemma ApplyProper(cfg: Config, w: World, e: Event, w': World)
    requires Sound(w) && HeadersProper(w.db, w.tb.sagas) && w' == Apply(cfg, w, e)
    ensures HeadersProper(w'.db, w'.tb.sagas)
  {
    ApplyGrows(cfg, w, e);
    if e.Outside? && Permitted(w.db, e.op) {
      OutsideProper(w.db, w.tb.sagas, e.op);
    } else if e.Drive? && e.driver in w.drivers {
      DriveProper(cfg, w, e.driver, e.act);
    }
    GrowsProper(w'.db, w.tb, w'.tb);
  }

  lemma {:induction false} PlayProper(cfg: Config, w: World, es: seq<Event>)
    requires Inv(w.db) && Sound(w) && HeadersProper(w.db, w.tb.sagas)
    ensures HeadersProper(Play(cfg, w, es).db, Play(cfg, w, es).tb.sagas)
    decreases |es|
  {
    if es != [] {
      var w' := Apply(cfg, w, es[0]);
      ApplyInv(cfg, w, es[0], w');
      ApplySound(cfg, w, es[0]);
      ApplyProper(cfg, w, es[0], w');
      PlayProper(cfg, w', es[1..]);
    }
  }

  /** In every reachable world each saga transaction is a payout of its saga's principal, under the key of its own step. */
  lemma HeadersNameTheirSaga(cfg: Config, db: Db, es: seq<Event>, t: Id)
    requires Untouched(db) && PlainKeys(db) && t in Play(cfg, Opening(db), es).db.headers
    ensures var w := Play(cfg, Opening(db), es); Proper(w.tb.sagas, w.db.headers[t])
  {
    PlayProper(cfg, Opening(db), es);
  }

  lemma UnusedKey(db: Db, sagas: seq<SagaRow>, steps: seq<Attempt>, i: nat, principal: string, step: Step)
    requires HeadersProper(db, sagas) && i < |sagas| && BooksOf(db, steps, sagas[i], i)
    requires (step == ReserveStep && sagas[i].status == SagaPending) || (step == SettleStep && sagas[i].status == GatewaySucceeded)
    ensures KeyFree(db, principal, Some(StepKey(i, step, Forward)))
  {
    forall t | t in db.headers ensures db.headers[t].key != Some(StepKey(i, step, Forward)) {
      assert Proper(sagas, db.headers[t]);
    }
  }

  /** In every reachable world a step still to be taken finds its key unused: it is never refused as a duplicate. */
  lemma StepKeysFree(cfg: Config, db: Db, es: seq<Event>, i: nat, w: World)
    requires Untouched(db) && PlainKeys(db) && w == Play(cfg, Opening(db), es) && i < |w.tb.sagas|
    ensures ValidPayload(w.tb.sagas[i].payload)
    ensures w.tb.sagas[i].status == SagaPending ==>
              var req := ReserveRequest(i, w.tb.sagas[i]); KeyFree(w.db, req.principal, req.key)
    ensures w.tb.sagas[i].status == GatewaySucceeded ==>
              var req := SettleRequest(i, w.tb.sagas[i]); KeyFree(w.db, req.principal, req.key)
  {
    ReachableSound(cfg, db, es);
    PlayProper(cfg, Opening(db), es);
    var row := w.tb.sagas[i];
    assert BooksOf(w.db, w.tb.steps, row, i);
    if row.status == SagaPending {
      UnusedKey(w.db, w.tb.sagas, w.tb.steps, i, row.principal, ReserveStep);
    }
    if row.status == GatewaySucceeded {
      UnusedKey(w.db, w.tb.sagas, w.tb.steps, i, row.principal, SettleStep);
    }
  }

  // ----- settling ---------------------------------------------------------------------------------------------

  lemma SettleSum(p: Payload, f: Leg -> int)
    requires ValidPayload(p)
    ensures var legs := SettleLegs(p);
            Sum(f, legs) == f(legs[0]) + f(legs[1]) + if p.fee > 0 then f(legs[2]) else 0
  {
    var legs := SettleLegs(p);
    SumPair(f, legs[0], legs[1]);
    if p.fee > 0 {
      SumSnoc(f, legs[..2], legs[2]);
      assert legs == legs[..2] + [legs[2]] && legs[..2] == [legs[0], legs[1]];
    } else {
      assert legs == [legs[0], legs[1]];
    }
  }

  lemma SettleCredits(p: Payload, a: Id)
    requires ValidPayload(p) && a != p.suspense
    ensures 0 <= Sum(EffectOn(a, Credit), SettleLegs(p)) <= p.amount
  {
    SettleSum(p, EffectOn(a, Credit));
  }

  /** Open, unsharded and roomy enough for the amount. */
  predicate Receives(db: Db, id: Id, p: Payload)
  {
    Plain(db, id, p.currency) && 0 <= db.balances[id].available && db.balances[id].available + p.amount <= MAX_INT64
  }

  lemma SettleTouches(p: Payload)
    requires ValidPayload(p)
    ensures Touched(SettleLegs(p)) == {p.suspense, p.merchant} + if p.fee > 0 then {p.feeAccount} else {}
  {
    var legs := SettleLegs(p);
    assert legs[0] in legs && legs[1] in legs && (p.fee > 0 ==> legs[2] in legs);
  }

  /** Suspense can pay out, and the others are in service. */
  predicate Settleable(db: Db, p: Payload)
  {
    && ValidPayload(p) && Apart(p, p.suspense) && Plain(db, p.suspense, p.currency)
    && Receives(db, p.merchant, p) && (p.fee > 0 ==> Receives(db, p.feeAccount, p))
    && Affordable(db.balances[p.suspense], Sum(EffectOn(p.suspense, Credit), SettleLegs(p)))
  }

  lemma SettlePostable(db: Db, p: Payload)
    requires Settleable(db, p)
    ensures Postable(db, SettleLegs(p))
  {
    SettleTouches(p);
  }

  lemma SettleAffordable(db: Db, p: Payload, id: Id)
    requires Settleable(db, p) && id in Touched(SettleLegs(p))
    ensures id in db.accounts && id in db.balances && NormalOf(db.accounts[id]) == Credit
    ensures Affordable(db.balances[id], Sum(EffectOn(id, Credit), SettleLegs(p)))
  {
    SettleTouches(p);
    if id != p.suspense {
      SettleCredits(p, id);
    }
  }

  lemma SettleAdmissible(db: Db, p: Payload)
    requires Settleable(db, p)
    ensures Admissible(db, SettleLegs(p))
  {
    SettlePostable(db, p);
    forall id | id in Touched(SettleLegs(p))
      ensures Affordable(db.balances[id], Sum(EffectOn(id, View(db)[id].normal), SettleLegs(p)))
    {
      SettleAffordable(db, p, id);
    }
  }

  lemma SettlePosts(db: Db, stamp: Stamp, i: nat, row: SagaRow)
    requires ValidPayload(row.payload) && ValidCurrency(row.payload.currency)
    requires Admissible(db, SettleLegs(row.payload)) && FreshStamp(db, stamp, |SettleLegs(row.payload)|)
    requires KeyFree(db, SettleRequest(i, row).principal, SettleRequest(i, row).key)
    requires forall id | id in Touched(SettleLegs(row.payload)) :: ActiveShards(db.accounts, id) == {}
    requires CanHold(db, row.payload.suspense, Release(row.payload))
    ensures PostAndHold(db, stamp, SettleRequest(i, row), map[], row.payload.suspense, Release(row.payload)).Some?
  {
    var req := SettleRequest(i, row);
    SettleAccepted(row.payload);
    assert RouteLegs(map[], req.legs) == req.legs;
    assert CanPost(db, stamp, req, map[]);
  }

  /** Its driver has just read its number, and its accounts are in service. */
  predicate ReadyToSettle(w: World, d: nat, i: nat, stamp: Stamp)
  {
    && Current(w, d, i) && w.tb.sagas[i].status == GatewaySucceeded
    && w.drivers[d].pc == Numbered(NextNumber(w.tb.steps, i, SettleStep, Forward))
    && var p := w.tb.sagas[i].payload;
       && ValidPayload(p) && ValidCurrency(p.currency) && FreshStamp(w.db, stamp, |SettleLegs(p)|)
       && Plain(w.db, p.suspense, p.currency)
       && Receives(w.db, p.merchant, p) && (p.fee > 0 ==> Receives(w.db, p.feeAccount, p))
  }

  lemma CommitLands(w: World, d: nat, db': Option<Db>, a: Attempt, t: Transition, lost: bool)
    requires db'.Some? && CanStep(w.tb, a, t)
    ensures Commits(w, d, db', a, t, lost).tb == Stepped(w.tb, a, t)
  {
  }

  lemma SettleCommits(w: World, d: nat, i: nat, stamp: Stamp, lost: bool, post: Option<Db>)
    requires ReadyToSettle(w, d, i, stamp) && post.Some?
    requires var row := w.tb.sagas[i];
             post == PostAndHold(w.db, stamp, SettleRequest(i, row), map[], row.payload.suspense, Release(row.payload))
    ensures Completes(w, LedgerStep(w, d, w.drivers[d], CommitSettle(stamp, map[], lost)), i)
  {
    var a := Attempt(i, SettleStep, Forward, w.drivers[d].pc.number, StepSucceeded, Some(stamp.tx));
    NextNumberFree(w.tb.steps, a);
    CommitLands(w, d, post, a, Transition(i, GatewaySucceeded, Completed, 0), lost);
  }

  /** The saga, and no other, has become COMPLETED. */
  predicate Completes(w: World, w': World, i: nat)
  {
    i < |w.tb.sagas| && w'.tb.sagas == w.tb.sagas[i := w.tb.sagas[i].(status := Completed, retry := 0)]
  }

  /** Money in suspense, a hold to release, and an unused key. */
  predicate Covered(w: World, i: nat)
  {
    && i < |w.tb.sagas| && ValidPayload(w.tb.sagas[i].payload)
    && var row := w.tb.sagas[i];
       && Apart(row.payload, row.payload.suspense) && row.payload.suspense in w.db.balances
       && KeyFree(w.db, SettleRequest(i, row).principal, SettleRequest(i, row).key)
       && CanHold(w.db, row.payload.suspense, Release(row.payload))
       && Affordable(w.db.balances[row.payload.suspense], Sum(EffectOn(row.payload.suspense, Credit), SettleLegs(row.payload)))
  }

  lemma ReadyRoutesNothing(w: World, d: nat, i: nat, stamp: Stamp)
    requires ReadyToSettle(w, d, i, stamp)
    ensures forall id | id in Touched(SettleLegs(w.tb.sagas[i].payload)) :: ActiveShards(w.db.accounts, id) == {}
  {
    SettleTouches(w.tb.sagas[i].payload);
  }

  function UnroutedSettle(w: World, i: nat, stamp: Stamp): Option<Db>
    requires i < |w.tb.sagas| && ValidPayload(w.tb.sagas[i].payload)
  {
    var row := w.tb.sagas[i];
    PostAndHold(w.db, stamp, SettleRequest(i, row), map[], row.payload.suspense, Release(row.payload))
  }

  lemma CoveredPosts(w: World, d: nat, i: nat, stamp: Stamp)
    requires ReadyToSettle(w, d, i, stamp) && Covered(w, i)
    ensures UnroutedSettle(w, i, stamp).Some?
  {
    ReadyRoutesNothing(w, d, i, stamp);
    SettleAdmissible(w.db, w.tb.sagas[i].payload);
    SettlePosts(w.db, stamp, i, w.tb.sagas[i]);
  }

  lemma CoveredSettles(w: World, d: nat, i: nat, stamp: Stamp, lost: bool)
    requires ReadyToSettle(w, d, i, stamp) && Covered(w, i)
    ensures Completes(w, LedgerStep(w, d, w.drivers[d], CommitSettle(stamp, map[], lost)), i)
  {
    CoveredPosts(w, d, i, stamp);
    SettleCommits(w, d, i, stamp, lost, UnroutedSettle(w, i, stamp));
  }

  /** Accounts without shards are routed nowhere. */
  lemma NothingToRoute(accounts: map<Id, Account>, legs: seq<Leg>)
    requires forall id | id in Touched(legs) :: ActiveShards(accounts, id) == {}
    ensures ValidChoice(accounts, legs, map[]) && RouteLegs(map[], legs) == legs
  {
  }

  lemma PaidIsCovered(cfg: Config, db: Db, es: seq<Event>, s: Id, i: nat, w: World)
    requires EmptyVault(db, s) && PlainKeys(db) && RespectfulRun(cfg, Opening(db), es, s) && w == Play(cfg, Opening(db), es)
    requires i < |w.tb.sagas| && w.tb.sagas[i].status == GatewaySucceeded && w.tb.sagas[i].payload.suspense == s
    requires ValidPayload(w.tb.sagas[i].payload)
    requires forall id | id in Touched(SettleLegs(w.tb.sagas[i].payload)) :: ActiveShards(w.db.accounts, id) == {}
    ensures Covered(w, i)
  {
    StepKeysFree(cfg, db, es, i, w);
    NothingToRoute(w.db.accounts, SettleLegs(w.tb.sagas[i].payload));
    SuspenseCovers(cfg, db, es, s, i, map[]);
    SuspenseExact(cfg, db, es, s);
  }

  lemma ReadySettles(cfg: Config, w: World, d: nat, i: nat, stamp: Stamp, lost: bool)
    requires ReadyToSettle(w, d, i, stamp) && Covered(w, i)
    ensures Completes(w, Apply(cfg, w, Drive(d, CommitSettle(stamp, map[], lost))), i)
  {
    CoveredSettles(w, d, i, stamp, lost);
    CommitIsStep(cfg, w, d, CommitSettle(stamp, map[], lost));
  }

  /**
   In every reachable world a saga the gateway has paid settles when its driver commits: suspense has the money,
   the hold is there to release and the key is unused, so accounts in service are all it takes.
   */
  lemma SettleGoesThrough(cfg: Config, db: Db, es: seq<Event>, s: Id, d: nat, i: nat, stamp: Stamp, lost: bool, w: World)
    requires EmptyVault(db, s) && PlainKeys(db) && RespectfulRun(cfg, Opening(db), es, s) && w == Play(cfg, Opening(db), es)
    requires ReadyToSettle(w, d, i, stamp) && w.tb.sagas[i].payload.suspense == s
    ensures Completes(w, Apply(cfg, w, Drive(d, CommitSettle(stamp, map[], lost))), i)
  {
    ReadyRoutesNothing(w, d, i, stamp);
    PaidIsCovered(cfg, db, es, s, i, w);
    ReadySettles(cfg, w, d, i, stamp, lost);
  }
}
