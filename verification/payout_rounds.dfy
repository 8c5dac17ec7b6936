/** A driver left to itself always lands a status write; so a fixed number of drives ends a saga. */
module PayoutRounds {
  import opened Collections
  import opened Ledger
  import opened LedgerInvariants
  import opened SagaTypes
  import opened SagaStore
  import opened Payout
  import opened PayoutBooks
  import opened PayoutSafety
  import opened PayoutBudget
  import opened PayoutProgress
  import opened PayoutDrives

  /** In every world with its books in order, a drive that starts with nobody else at work writes the saga's status. */
  lemma DriveLands(cfg: Config, w: World, d: nat, i: nat, env: Surroundings)
    requires Linked(w.db, w.tb) && Free(w, d, i) && !Terminal(w.tb.sagas[i].status)
    ensures Landed(w, Play(cfg, w, DriveOf(cfg, w, d, i, env)), d, i)
  {
    var w1 := Claiming(w, d, i);
    PlayOne(cfg, w, Claim(d, i));
    PlayConcat(cfg, w, [Claim(d, i)], Working(cfg, w1, d, i, env));
    assert BooksOf(w.db, w.tb.steps, w.tb.sagas[i], i);
    WorkLands(cfg, w1, d, i, env);
    assert w1.drivers - {d} == w.drivers - {d};
  }

  // ----- rounds ---------------------------------------------------------------------------------------------------

  /** Anything at all, by anyone, and then one uninterrupted drive. */
  datatype Round = Round(meanwhile: seq<Event>, env: Surroundings)

  function AfterMeanwhile(cfg: Config, w: World, r: Round): World
  {
    Play(cfg, w, r.meanwhile)
  }

  /** One driver per saga at a time throughout, and each drive starts with nobody else at work on the saga. */
  predicate Orderly(cfg: Config, w: World, d: nat, i: nat, rounds: seq<Round>)
    decreases |rounds|
  {
    rounds != [] ==>
      var w1 := AfterMeanwhile(cfg, w, rounds[0]);
      && AloneRun(cfg, w, rounds[0].meanwhile) && Free(w1, d, i)
      && Orderly(cfg, Play(cfg, w1, DriveOf(cfg, w1, d, i, rounds[0].env)), d, i, rounds[1..])
  }

  function After(cfg: Config, w: World, d: nat, i: nat, rounds: seq<Round>): World
    requires Orderly(cfg, w, d, i, rounds)
    decreases |rounds|
  {
    if rounds == [] then w
    else
      var w1 := AfterMeanwhile(cfg, w, rounds[0]);
      After(cfg, Play(cfg, w1, DriveOf(cfg, w1, d, i, rounds[0].env)), d, i, rounds[1..])
  }

  predicate Ended(w: World, i: nat)
  {
    i < |w.tb.sagas| && Terminal(w.tb.sagas[i].status)
  }

  /** What every orderly round starts from. */
  ghost predicate Orderable(cfg: Config, w: World)
  {
    Inv(w.db) && Sound(w) && Solo(cfg, w)
  }

  lemma PlayOrderable(cfg: Config, w: World, es: seq<Event>)
    requires Orderable(cfg, w) && AloneRun(cfg, w, es)
    ensures Orderable(cfg, Play(cfg, w, es))
  {
    PlaySound(cfg, w, es);
    PlaySolo(cfg, w, es);
  }

  /** At most one write was added. */
  predicate Adds(writes: seq<nat>, writes': seq<nat>)
  {
    writes' == writes || (writes' != [] && writes'[..|writes'| - 1] == writes)
  }

  lemma AddsCount(writes: seq<nat>, writes': seq<nat>, i: nat)
    requires Adds(writes, writes')
    ensures Count(writes', i) >= Count(writes, i)
  {
  }

  /** Status writes are never taken back, and a terminal status is never left. */
  lemma ApplyForward(cfg: Config, w: World, e: Event, i: nat)
    requires Sound(w) && i < |w.tb.sagas|
    ensures var w' := Apply(cfg, w, e);
            Adds(w.writes, w'.writes) && i < |w'.tb.sagas| && (Ended(w, i) ==> Ended(w', i))
  {
    ApplyGrows(cfg, w, e);
    GrowsForward(w.tb, Apply(cfg, w, e).tb, i);
    if e.Drive? && e.driver in w.drivers {
      DriveWrites(cfg, w, e.driver, e.act);
    }
  }

  lemma GrowsForward(tb: Tables, tb': Tables, i: nat)
    requires Grows(tb, tb') && i < |tb.sagas|
    ensures i < |tb'.sagas| && (Terminal(tb.sagas[i].status) ==> Terminal(tb'.sagas[i].status))
  {
    assert Grown(tb, tb', i);
  }

  lemma DriveWrites(cfg: Config, w: World, d: nat, act: Act)
    requires d in w.drivers
    ensures Adds(w.writes, DriverStep(cfg, w, d, act).writes)
  {
    if Committing(act) {
      CommitIsStep(cfg, w, d, act);
      LedgerWrites(w, d, w.drivers[d], act);
    } else if !Writing(act) && !act.BeginGateway? {
      QuietWrites(cfg, w, d, act);
    }
  }

  lemma QuietWrites(cfg: Config, w: World, d: nat, act: Act)
    requires d in w.drivers && !Committing(act) && !Writing(act) && !act.BeginGateway?
    ensures DriverStep(cfg, w, d, act).writes == w.writes
  {
  }

  lemma CommitsWrites(w: World, d: nat, post: Option<Db>, a: Attempt, t: Transition, lost: bool)
    ensures Adds(w.writes, Commits(w, d, post, a, t, lost).writes)
  {
  }

  lemma LedgerWrites(w: World, d: nat, drv: Driver, act: Act)
    requires Committing(act)
    ensures Adds(w.writes, LedgerStep(w, d, drv, act).writes)
  {
    var i, p := drv.saga, drv.snap.payload;
    match act
    case CommitReserve(stamp, choice, lost) =>
      if drv.pc.Numbered? {
        CommitsWrites(w, d, PostAndHold(w.db, stamp, ReserveRequest(i, drv.snap), choice, p.suspense, p.amount),
                      Attempt(i, ReserveStep, Forward, drv.pc.number, StepSucceeded, Some(stamp.tx)),
                      Transition(i, SagaPending, SagaReserved, 0), lost);
      }
    case CommitSettle(stamp, choice, lost) =>
      if drv.pc.Numbered? && ValidPayload(p) {
        CommitsWrites(w, d, PostAndHold(w.db, stamp, SettleRequest(i, drv.snap), choice, p.suspense, Release(p)),
                      Attempt(i, SettleStep, Forward, drv.pc.number, StepSucceeded, Some(stamp.tx)),
                      Transition(i, GatewaySucceeded, Completed, 0), lost);
      }
    case CommitRefund(stamp, lost) =>
      if drv.pc.RefundReady? {
        CommitsWrites(w, d, ReverseAndHold(w.db, stamp, drv.pc.tx, p.suspense, Release(p)),
                      Attempt(i, ReserveStep, Compensation, drv.pc.number, StepSucceeded, Some(stamp.tx)),
                      Transition(i, Compensating, Compensated, 0), lost);
      }
  }

  lemma {:induction false} PlayForward(cfg: Config, w: World, es: seq<Event>, i: nat)
    requires Inv(w.db) && Sound(w) && i < |w.tb.sagas|
    ensures Count(Play(cfg, w, es).writes, i) >= Count(w.writes, i)
    ensures i < |Play(cfg, w, es).tb.sagas|
    ensures Ended(w, i) ==> Ended(Play(cfg, w, es), i)
    decreases |es|
  {
    if es != [] {
      var w' := Apply(cfg, w, es[0]);
      ApplyInv(cfg, w, es[0], w');
      ApplySound(cfg, w, es[0]);
      ApplyForward(cfg, w, es[0], i);
      AddsCount(w.writes, w'.writes, i);
      PlayForward(cfg, w', es[1..], i);
    }
  }

  lemma {:induction false} NoClaims(cfg: Config, w: World, es: seq<Event>)
    requires forall e | e in es :: !e.Claim?
    ensures AloneRun(cfg, w, es)
    decreases |es|
  {
    if es != [] {
      NoClaims(cfg, Apply(cfg, w, es[0]), es[1..]);
    }
  }

  lemma DriveAlone(cfg: Config, w: World, d: nat, i: nat, env: Surroundings)
    requires Free(w, d, i)
    ensures AloneRun(cfg, w, DriveOf(cfg, w, d, i, env))
  {
    if !Terminal(w.tb.sagas[i].status) {
      var work := Working(cfg, Claiming(w, d, i), d, i, env);
      NoClaims(cfg, Claiming(w, d, i), work);
      assert ([Claim(d, i)] + work)[1..] == work;
    }
  }

  lemma LandedCounts(w: World, w': World, d: nat, i: nat)
    requires Landed(w, w', d, i)
    ensures Count(w'.writes, i) >= Count(w.writes, i) + 1
  {
    CountSnoc(w.writes, i, i);
    CountSnoc(w.writes + [i], i, i);
    assert w.writes + [i] + [i] == w.writes + [i, i];
  }

  /** A round either finds or leaves the saga ended, or adds to its writes. */
  lemma RoundCounts(cfg: Config, w: World, d: nat, i: nat, env: Surroundings)
    requires Orderable(cfg, w) && Free(w, d, i)
    ensures var w' := Play(cfg, w, DriveOf(cfg, w, d, i, env));
            && Orderable(cfg, w') && i < |w'.tb.sagas|
            && if Ended(w, i) then Ended(w', i) else Count(w'.writes, i) >= Count(w.writes, i) + 1
  {
    DriveAlone(cfg, w, d, i, env);
    PlayOrderable(cfg, w, DriveOf(cfg, w, d, i, env));
    PlayForward(cfg, w, DriveOf(cfg, w, d, i, env), i);
    if !Ended(w, i) {
      DriveLands(cfg, w, d, i, env);
      LandedCounts(w, Play(cfg, w, DriveOf(cfg, w, d, i, env)), d, i);
    }
  }

  lemma {:induction false} RoundsCount(cfg: Config, w: World, d: nat, i: nat, rounds: seq<Round>)
    requires Orderable(cfg, w) && Orderly(cfg, w, d, i, rounds) && i < |w.tb.sagas|
    ensures var w' := After(cfg, w, d, i, rounds);
            && Orderable(cfg, w') && i < |w'.tb.sagas| && (Ended(w, i) ==> Ended(w', i))
            && (Ended(w', i) || Count(w'.writes, i) >= Count(w.writes, i) + |rounds|)
    decreases |rounds|
  {
    if rounds != [] {
      var w1 := AfterMeanwhile(cfg, w, rounds[0]);
      PlayOrderable(cfg, w, rounds[0].meanwhile);
      PlayForward(cfg, w, rounds[0].meanwhile, i);
      RoundCounts(cfg, w1, d, i, rounds[0].env);
      RoundsCount(cfg, Play(cfg, w1, DriveOf(cfg, w1, d, i, rounds[0].env)), d, i, rounds[1..]);
    }
  }

  lemma SpentMeansEnded(cfg: Config, w: World, i: nat)
    requires Solo(cfg, w) && i < |w.tb.sagas| && Count(w.writes, i) >= Budget(cfg)
    ensures Ended(w, i)
  {
  }

  lemma RoundsEndFrom(cfg: Config, w: World, d: nat, i: nat, rounds: seq<Round>)
    requires Orderable(cfg, w) && Orderly(cfg, w, d, i, rounds) && i < |w.tb.sagas|
    requires |rounds| + Count(w.writes, i) >= Budget(cfg)
    ensures Ended(After(cfg, w, d, i, rounds), i)
  {
    RoundsCount(cfg, w, d, i, rounds);
    var w' := After(cfg, w, d, i, rounds);
    if !Ended(w', i) {
      SpentMeansEnded(cfg, w', i);
    }
  }

  /**
   Whatever the ledger and the gateway answer and whatever happens in between, a saga that gets as many
   uninterrupted drives as its budget has writes left is in a terminal status.
   */
  lemma RoundsEnd(cfg: Config, db: Db, es: seq<Event>, w: World, d: nat, i: nat, rounds: seq<Round>)
    requires Untouched(db) && AloneRun(cfg, Opening(db), es) && w == Play(cfg, Opening(db), es)
    requires i < |w.tb.sagas| && Orderly(cfg, w, d, i, rounds) && |rounds| + Count(w.writes, i) >= Budget(cfg)
    ensures Ended(After(cfg, w, d, i, rounds), i)
  {
    OpeningOrderable(cfg, db);
    PlayOrderable(cfg, Opening(db), es);
    RoundsEndFrom(cfg, w, d, i, rounds);
  }

  lemma OpeningOrderable(cfg: Config, db: Db)
    requires Untouched(db)
    ensures Orderable(cfg, Opening(db))
  {
  }
}
