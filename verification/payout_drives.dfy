/** One uninterrupted drive, whatever its surroundings answer: it lands a status write. */
module PayoutDrives {
  import opened Collections
  import opened LedgerTypes
  import opened Ledger
  import opened SagaTypes
  import opened SagaStore
  import opened Gateway
  import opened Payout

  // ----- one uninterrupted drive ----------------------------------------------------------------------------

  /**
   Everything a drive does not choose: the ids a ledger write would be given and the shards it would be
   routed to, how the ledger refuses when it does and whether the note of that is lost, whether and how the
   gateway records a submission, and what it answers.
   */
  datatype Surroundings = Surroundings(
    stamp: Stamp, choice: map<Id, Id>, cause: Cause, unnoted: bool, recorded: Option<Outcome>, reply: Response)

  /** Nobody works on the saga, and this driver works on nothing. */
  predicate Free(w: World, d: nat, i: nat)
  {
    d !in w.drivers && i < |w.tb.sagas| && forall x | x in w.drivers :: w.drivers[x].saga != i
  }

  /** A write the ledger accepts is committed; a refused one is noted and decided on. */
  function Attempting(d: nat, accepted: bool, commit: Act, cause: Cause, unnoted: bool): (es: seq<Event>)
    ensures forall e | e in es :: !e.Claim?
  {
    if accepted then [Drive(d, commit)] else [Drive(d, Refuse(cause)), Drive(d, RecordFailure(unnoted)), Drive(d, Decide)]
  }

  function Refunding(d: nat, accepted: bool, commit: Act, cause: Cause, unnoted: bool): (es: seq<Event>)
    ensures forall e | e in es :: !e.Claim?
  {
    if !accepted && (cause == Stale || cause == Refusal(AlreadyReversed))
    then [Drive(d, Refuse(cause)), Drive(d, Confirm), Drive(d, EscalateNow)]
    else Attempting(d, accepted, commit, cause, unnoted)
  }

  /** An answer the gateway could not honestly give does not arrive. */
  function Heeded(g: Remote, i: nat, reply: Response): Response
  {
    if Truthful(g, i, reply) then reply else NoResponse
  }

  function Listening(d: nat, resp: Response, answer: Act): (es: seq<Event>)
    ensures forall e | e in es :: !e.Claim?
  {
    [Drive(d, answer)] + if Opinion(resp) == Unknown then [Drive(d, Conclude)] else [Drive(d, FinishAttempt), Drive(d, Conclude)]
  }

  function Paying(d: nat, i: nat, recorded: Option<Outcome>): (es: seq<Event>)
    ensures forall e | e in es :: !e.Claim?
  {
    [Drive(d, ReadNumber), Drive(d, BeginGateway(false)), Drive(d, Submit)]
    + if recorded.Some? then [GatewayRecords(i, recorded.value)] else []
  }

  /** The settle step's ledger write, if the payload is one the source accepts and the ledger takes it. */
  function SettlePost(db: Db, i: nat, row: SagaRow, env: Surroundings): Option<Db>
  {
    if ValidPayload(row.payload)
    then PostAndHold(db, env.stamp, SettleRequest(i, row), env.choice, row.payload.suspense, Release(row.payload))
    else None
  }

  /** What a driver does with the row it has just claimed, until its drive is over. */
  function Working(cfg: Config, w: World, d: nat, i: nat, env: Surroundings): (es: seq<Event>)
    requires i < |w.tb.sagas|
    ensures forall e | e in es :: !e.Claim?
  {
    var row := w.tb.sagas[i];
    var p := row.payload;
    match row.status
    case SagaPending =>
      [Drive(d, ReadNumber)]
      + Attempting(d, PostAndHold(w.db, env.stamp, ReserveRequest(i, row), env.choice, p.suspense, p.amount).Some?,
                  CommitReserve(env.stamp, env.choice, false), env.cause, env.unnoted)
    case SagaReserved =>
      var sending := Paying(d, i, env.recorded);
      var resp := Heeded(Play(cfg, w, sending).gw, i, env.reply);
      sending + Listening(d, resp, PayAnswer(resp))
    case GatewayPending =>
      var resp := Heeded(w.gw, i, env.reply);
      [Drive(d, FindUnresolved)] + Listening(d, resp, ProbeAnswer(resp))
    case GatewaySucceeded =>
      [Drive(d, ReadNumber)]
      + Attempting(d, SettlePost(w.db, i, row, env).Some?, CommitSettle(env.stamp, env.choice, false), env.cause, env.unnoted)
    case GatewayFailed => [Drive(d, BeginRefund)]
    case Compensating =>
      var found := FirstCommitted(w.tb.steps, i, ReserveStep, Forward);
      [Drive(d, FindReserve), Drive(d, ReadNumber)]
      + Refunding(d, found.Some? && ReverseAndHold(w.db, env.stamp, found.value, p.suspense, Release(p)).Some?,
                  CommitRefund(env.stamp, false), env.cause, env.unnoted)
    case _ => []
  }

  function Claiming(w: World, d: nat, i: nat): World
    requires i < |w.tb.sagas|
  {
    w.(drivers := w.drivers[d := Driver(i, w.tb.sagas[i], Claimed)])
  }

  /** A claim and all that follows it. */
  function DriveOf(cfg: Config, w: World, d: nat, i: nat, env: Surroundings): seq<Event>
    requires i < |w.tb.sagas|
  {
    if Terminal(w.tb.sagas[i].status) then [] else [Claim(d, i)] + Working(cfg, Claiming(w, d, i), d, i, env)
  }

  // ----- it lands ---------------------------------------------------------------------------------------------

  /** The driver is done, the others stand where they stood, and the saga's status was written. */
  predicate Landed(w: World, w': World, d: nat, i: nat)
  {
    w'.drivers == w.drivers - {d} && (w'.writes == w.writes + [i] || w'.writes == w.writes + [i, i])
  }

  /** A driver in the middle of its drive, acting on the row as it is. */
  predicate Current(w: World, d: nat, i: nat)
  {
    d in w.drivers && w.drivers[d].saga == i && i < |w.tb.sagas| && w.drivers[d].snap == w.tb.sagas[i]
  }

  predicate Decidable(status: Status)
  {
    status == SagaPending || status == GatewaySucceeded || status == Compensating
  }

  lemma DecisionLands(cfg: Config, w: World, d: nat, i: nat, cause: Cause)
    requires Current(w, d, i) && w.drivers[d].pc == Deciding(cause) && Decidable(w.drivers[d].snap.status)
    ensures Landed(w, Apply(cfg, w, Drive(d, Decide)), d, i)
  {
  }

  lemma RefusalNoted(cfg: Config, w: World, d: nat, n: nat, cause: Cause, unnoted: bool)
    requires d in w.drivers && w.drivers[d].pc == Refused(n, cause)
    ensures var w' := Apply(cfg, w, Drive(d, RecordFailure(unnoted)));
            && w'.drivers == w.drivers[d := w.drivers[d].(pc := Deciding(cause))]
            && w'.tb.sagas == w.tb.sagas && w'.writes == w.writes
  {
  }

  /** A decision on a refused step always lands on the row it was taken from. */
  lemma RefusalLands(cfg: Config, w: World, d: nat, i: nat, n: nat, cause: Cause, unnoted: bool)
    requires Current(w, d, i) && Decidable(w.drivers[d].snap.status)
    requires Learned(w.tb.steps, w.drivers[d], Refuse(cause)) == Refused(n, cause)
    ensures Landed(w, Play(cfg, w, [Drive(d, Refuse(cause)), Drive(d, RecordFailure(unnoted)), Drive(d, Decide)]), d, i)
  {
    PlayThree(cfg, w, Drive(d, Refuse(cause)), Drive(d, RecordFailure(unnoted)), Drive(d, Decide));
    var w1 := At(w, d, Refused(n, cause));
    assert Apply(cfg, w, Drive(d, Refuse(cause))) == w1;
    RefusalNoted(cfg, w1, d, n, cause, unnoted);
    var w2 := Apply(cfg, w1, Drive(d, RecordFailure(unnoted)));
    DecisionLands(cfg, w2, d, i, cause);
    assert w2.drivers - {d} == w.drivers - {d};
  }

  lemma AttemptLands(cfg: Config, w: World, d: nat, i: nat, n: nat, accepted: bool, commit: Act, cause: Cause, unnoted: bool)
    requires Current(w, d, i)
    requires accepted ==> Landed(w, Apply(cfg, w, Drive(d, commit)), d, i)
    requires !accepted ==> Learned(w.tb.steps, w.drivers[d], Refuse(cause)) == Refused(n, cause)
    requires Decidable(w.drivers[d].snap.status)
    ensures Landed(w, Play(cfg, w, Attempting(d, accepted, commit, cause, unnoted)), d, i)
  {
    if accepted {
      PlayOne(cfg, w, Drive(d, commit));
    } else {
      RefusalLands(cfg, w, d, i, n, cause, unnoted);
    }
  }

  /** A number is read, and then the attempt is made. */
  lemma NumberedLands(cfg: Config, w: World, d: nat, i: nat, n: nat, accepted: bool, commit: Act, cause: Cause, unnoted: bool)
    requires Current(w, d, i) && Learned(w.tb.steps, w.drivers[d], ReadNumber) == Numbered(n)
    requires accepted ==> Landed(At(w, d, Numbered(n)), Apply(cfg, At(w, d, Numbered(n)), Drive(d, commit)), d, i)
    requires var status := w.drivers[d].snap.status; status == SagaPending || status == GatewaySucceeded
    ensures Landed(w, Play(cfg, w, [Drive(d, ReadNumber)] + Attempting(d, accepted, commit, cause, unnoted)), d, i)
  {
    var w1 := At(w, d, Numbered(n));
    PlayOne(cfg, w, Drive(d, ReadNumber));
    PlayConcat(cfg, w, [Drive(d, ReadNumber)], Attempting(d, accepted, commit, cause, unnoted));
    AttemptLands(cfg, w1, d, i, n, accepted, commit, cause, unnoted);
    assert w1.drivers - {d} == w.drivers - {d};
  }

  lemma CommitLands(w: World, d: nat, post: Option<Db>, a: Attempt, t: Transition)
    requires post.Some? && CanAdvance(w.tb, t) && a.number >= NextNumber(w.tb.steps, a.saga, a.step, a.direction)
    ensures Landed(w, Commits(w, d, post, a, t, false), d, t.saga)
  {
    NextNumberFree(w.tb.steps, a);
  }

  lemma ReserveStepped(w: World, d: nat, drv: Driver, stamp: Stamp, choice: map<Id, Id>)
    requires drv.pc.Numbered? && drv.snap.status == SagaPending
    ensures LedgerStep(w, d, drv, CommitReserve(stamp, choice, false)) == Reserved(w, d, drv, drv.pc.number, stamp, choice, false)
  {
  }

  lemma SettleStepped(w: World, d: nat, drv: Driver, stamp: Stamp, choice: map<Id, Id>)
    requires drv.pc.Numbered? && drv.snap.status == GatewaySucceeded && ValidPayload(drv.snap.payload)
    ensures LedgerStep(w, d, drv, CommitSettle(stamp, choice, false)) == Settled(w, d, drv, drv.pc.number, stamp, choice, false)
  {
  }

  lemma RefundStepped(w: World, d: nat, drv: Driver, stamp: Stamp)
    requires drv.pc.RefundReady?
    ensures LedgerStep(w, d, drv, CommitRefund(stamp, false)) == Refunded(w, d, drv, drv.pc.tx, drv.pc.number, stamp, false)
  {
  }

  lemma ReserveCommits(w: World, d: nat, i: nat, n: nat, env: Surroundings, post: Option<Db>)
    requires Current(w, d, i) && w.tb.sagas[i].status == SagaPending
    requires n == NextNumber(w.tb.steps, i, ReserveStep, Forward) && post.Some?
    requires var row, p := w.tb.sagas[i], w.tb.sagas[i].payload;
             post == PostAndHold(w.db, env.stamp, ReserveRequest(i, row), env.choice, p.suspense, p.amount)
    ensures var w1 := At(w, d, Numbered(n)); Landed(w1, Reserved(w1, d, w1.drivers[d], n, env.stamp, env.choice, false), d, i)
  {
    CommitLands(At(w, d, Numbered(n)), d, post, Attempt(i, ReserveStep, Forward, n, StepSucceeded, Some(env.stamp.tx)),
                Transition(i, SagaPending, SagaReserved, 0));
  }

  lemma ReserveReady(cfg: Config, w: World, d: nat, i: nat, n: nat, env: Surroundings, post: Option<Db>)
    requires Current(w, d, i) && w.tb.sagas[i].status == SagaPending
    requires n == NextNumber(w.tb.steps, i, ReserveStep, Forward) && post.Some?
    requires var row, p := w.tb.sagas[i], w.tb.sagas[i].payload;
             post == PostAndHold(w.db, env.stamp, ReserveRequest(i, row), env.choice, p.suspense, p.amount)
    ensures var w1 := At(w, d, Numbered(n)); Landed(w1, Apply(cfg, w1, Drive(d, CommitReserve(env.stamp, env.choice, false))), d, i)
  {
    ReserveCommits(w, d, i, n, env, post);
    ReserveStepped(At(w, d, Numbered(n)), d, w.drivers[d].(pc := Numbered(n)), env.stamp, env.choice);
    CommitIsStep(cfg, At(w, d, Numbered(n)), d, CommitReserve(env.stamp, env.choice, false));
  }

  lemma ReserveLands(cfg: Config, w: World, d: nat, i: nat, env: Surroundings)
    requires Current(w, d, i) && w.drivers[d].pc == Claimed && w.tb.sagas[i].status == SagaPending
    ensures Landed(w, Play(cfg, w, Working(cfg, w, d, i, env)), d, i)
  {
    var row, p := w.tb.sagas[i], w.tb.sagas[i].payload;
    var n := NextNumber(w.tb.steps, i, ReserveStep, Forward);
    var post := PostAndHold(w.db, env.stamp, ReserveRequest(i, row), env.choice, p.suspense, p.amount);
    if post.Some? {
      ReserveReady(cfg, w, d, i, n, env, post);
    }
    NumberedLands(cfg, w, d, i, n, post.Some?, CommitReserve(env.stamp, env.choice, false), env.cause, env.unnoted);
  }

  lemma SettleCommits(w: World, d: nat, i: nat, n: nat, env: Surroundings, post: Option<Db>)
    requires Current(w, d, i) && w.tb.sagas[i].status == GatewaySucceeded && ValidPayload(w.tb.sagas[i].payload)
    requires n == NextNumber(w.tb.steps, i, SettleStep, Forward) && post.Some? && post == SettlePost(w.db, i, w.tb.sagas[i], env)
    ensures var w1 := At(w, d, Numbered(n)); Landed(w1, Settled(w1, d, w1.drivers[d], n, env.stamp, env.choice, false), d, i)
  {
    CommitLands(At(w, d, Numbered(n)), d, post, Attempt(i, SettleStep, Forward, n, StepSucceeded, Some(env.stamp.tx)),
                Transition(i, GatewaySucceeded, Completed, 0));
  }

  lemma SettleReady(cfg: Config, w: World, d: nat, i: nat, n: nat, env: Surroundings, post: Option<Db>)
    requires Current(w, d, i) && w.tb.sagas[i].status == GatewaySucceeded
    requires n == NextNumber(w.tb.steps, i, SettleStep, Forward) && post.Some? && post == SettlePost(w.db, i, w.tb.sagas[i], env)
    ensures var w1 := At(w, d, Numbered(n)); Landed(w1, Apply(cfg, w1, Drive(d, CommitSettle(env.stamp, env.choice, false))), d, i)
  {
    SettleCommits(w, d, i, n, env, post);
    SettleStepped(At(w, d, Numbered(n)), d, w.drivers[d].(pc := Numbered(n)), env.stamp, env.choice);
    CommitIsStep(cfg, At(w, d, Numbered(n)), d, CommitSettle(env.stamp, env.choice, false));
  }

  lemma SettleLands(cfg: Config, w: World, d: nat, i: nat, env: Surroundings)
    requires Current(w, d, i) && w.drivers[d].pc == Claimed && w.tb.sagas[i].status == GatewaySucceeded
    ensures Landed(w, Play(cfg, w, Working(cfg, w, d, i, env)), d, i)
  {
    var n := NextNumber(w.tb.steps, i, SettleStep, Forward);
    var commit := CommitSettle(env.stamp, env.choice, false);
    var post := SettlePost(w.db, i, w.tb.sagas[i], env);
    if post.Some? {
      SettleReady(cfg, w, d, i, n, env, post);
    }
    NumberedLands(cfg, w, d, i, n, post.Some?, commit, env.cause, env.unnoted);
  }

  lemma RaceConfirmed(cfg: Config, w: World, d: nat, i: nat)
    requires Current(w, d, i) && w.drivers[d].pc == Confirming && w.tb.sagas[i].status == Compensating
    ensures Apply(cfg, w, Drive(d, Confirm)) == At(w, d, Escalating(Compensating))
  {
  }

  lemma EscalationLands(cfg: Config, w: World, d: nat, i: nat)
    requires Current(w, d, i) && w.drivers[d].pc == Escalating(Compensating) && w.tb.sagas[i].status == Compensating
    ensures Landed(w, Apply(cfg, w, Drive(d, EscalateNow)), d, i)
  {
  }

  /** A lost race that left the saga uncompensated goes to a person. */
  lemma RaceLands(cfg: Config, w: World, d: nat, i: nat, cause: Cause)
    requires Current(w, d, i) && w.drivers[d].pc.RefundReady? && w.tb.sagas[i].status == Compensating
    requires cause == Stale || cause == Refusal(AlreadyReversed)
    ensures Landed(w, Play(cfg, w, [Drive(d, Refuse(cause)), Drive(d, Confirm), Drive(d, EscalateNow)]), d, i)
  {
    PlayThree(cfg, w, Drive(d, Refuse(cause)), Drive(d, Confirm), Drive(d, EscalateNow));
    var w1 := At(w, d, Confirming);
    assert Apply(cfg, w, Drive(d, Refuse(cause))) == w1;
    RaceConfirmed(cfg, w1, d, i);
    EscalationLands(cfg, At(w1, d, Escalating(Compensating)), d, i);
    assert At(w1, d, Escalating(Compensating)).drivers - {d} == w.drivers - {d};
  }

  lemma RefundingLands(cfg: Config, w: World, d: nat, i: nat, accepted: bool, commit: Act, cause: Cause, unnoted: bool)
    requires Current(w, d, i) && w.drivers[d].pc.RefundReady? && w.tb.sagas[i].status == Compensating
    requires accepted ==> Landed(w, Apply(cfg, w, Drive(d, commit)), d, i)
    ensures Landed(w, Play(cfg, w, Refunding(d, accepted, commit, cause, unnoted)), d, i)
  {
    if !accepted && (cause == Stale || cause == Refusal(AlreadyReversed)) {
      RaceLands(cfg, w, d, i, cause);
    } else {
      AttemptLands(cfg, w, d, i, w.drivers[d].pc.number, accepted, commit, cause, unnoted);
    }
  }

  lemma RefundFound(cfg: Config, w: World, d: nat, i: nat, tx: Id)
    requires Current(w, d, i) && w.drivers[d].pc == Claimed && w.tb.sagas[i].status == Compensating
    requires FirstCommitted(w.tb.steps, i, ReserveStep, Forward) == Some(tx)
    ensures var n := NextNumber(w.tb.steps, i, ReserveStep, Compensation);
            Play(cfg, w, [Drive(d, FindReserve), Drive(d, ReadNumber)]) == At(w, d, RefundReady(tx, n))
  {
    PlayTwo(cfg, w, Drive(d, FindReserve), Drive(d, ReadNumber));
    var w1 := Apply(cfg, w, Drive(d, FindReserve));
    assert w1 == At(w, d, ReserveFound(tx));
  }

  lemma RefundCommits(w: World, d: nat, i: nat, tx: Id, n: nat, env: Surroundings, post: Option<Db>)
    requires Current(w, d, i) && w.tb.sagas[i].status == Compensating
    requires n == NextNumber(w.tb.steps, i, ReserveStep, Compensation) && post.Some?
    requires post == ReverseAndHold(w.db, env.stamp, tx, w.tb.sagas[i].payload.suspense, Release(w.tb.sagas[i].payload))
    ensures var w1 := At(w, d, RefundReady(tx, n)); Landed(w1, Refunded(w1, d, w1.drivers[d], tx, n, env.stamp, false), d, i)
  {
    CommitLands(At(w, d, RefundReady(tx, n)), d, post,
                Attempt(i, ReserveStep, Compensation, n, StepSucceeded, Some(env.stamp.tx)),
                Transition(i, Compensating, Compensated, 0));
  }

  lemma RefundReadyLands(cfg: Config, w: World, d: nat, i: nat, tx: Id, n: nat, accepted: bool, stamp: Stamp, cause: Cause, unnoted: bool)
    requires Current(w, d, i) && w.drivers[d].pc == Claimed && w.tb.sagas[i].status == Compensating
    requires FirstCommitted(w.tb.steps, i, ReserveStep, Forward) == Some(tx)
    requires n == NextNumber(w.tb.steps, i, ReserveStep, Compensation)
    requires var w1 := At(w, d, RefundReady(tx, n));
             accepted ==> Landed(w1, Refunded(w1, d, w1.drivers[d], tx, n, stamp, false), d, i)
    ensures Landed(w, Play(cfg, w, [Drive(d, FindReserve), Drive(d, ReadNumber)]
                                   + Refunding(d, accepted, CommitRefund(stamp, false), cause, unnoted)), d, i)
  {
    var w1 := At(w, d, RefundReady(tx, n));
    var commit := CommitRefund(stamp, false);
    RefundFound(cfg, w, d, i, tx);
    PlayConcat(cfg, w, [Drive(d, FindReserve), Drive(d, ReadNumber)], Refunding(d, accepted, commit, cause, unnoted));
    RefundStepped(w1, d, w1.drivers[d], stamp);
    CommitIsStep(cfg, w1, d, commit);
    RefundingLands(cfg, w1, d, i, accepted, commit, cause, unnoted);
    assert w1.drivers - {d} == w.drivers - {d};
  }

  lemma RefundLands(cfg: Config, w: World, d: nat, i: nat, env: Surroundings)
    requires Current(w, d, i) && w.drivers[d].pc == Claimed && w.tb.sagas[i].status == Compensating
    requires FirstCommitted(w.tb.steps, i, ReserveStep, Forward).Some?
    ensures Landed(w, Play(cfg, w, Working(cfg, w, d, i, env)), d, i)
  {
    var p, tx := w.tb.sagas[i].payload, FirstCommitted(w.tb.steps, i, ReserveStep, Forward).value;
    var n := NextNumber(w.tb.steps, i, ReserveStep, Compensation);
    var post := ReverseAndHold(w.db, env.stamp, tx, p.suspense, Release(p));
    if post.Some? {
      RefundCommits(w, d, i, tx, n, env, post);
    }
    RefundReadyLands(cfg, w, d, i, tx, n, post.Some?, env.stamp, env.cause, env.unnoted);
  }

  lemma ConclusionLands(cfg: Config, w: World, d: nat, i: nat)
    requires d in w.drivers && w.drivers[d].saga == i && i < |w.tb.sagas| && w.tb.sagas[i].status == GatewayPending
    requires w.drivers[d].pc.Concluding?
    ensures var w' := Apply(cfg, w, Drive(d, Conclude)); w'.drivers == w.drivers - {d} && w'.writes == w.writes + [i]
  {
  }

  lemma AnswerHeard(cfg: Config, w: World, d: nat, i: nat, resp: Response, answer: Act)
    requires d in w.drivers && w.drivers[d].saga == i && Truthful(w.gw, i, resp)
    requires (answer == PayAnswer(resp) && w.drivers[d].pc.Awaiting?) || (answer == ProbeAnswer(resp) && w.drivers[d].pc.Probing?)
    ensures var w1 := Apply(cfg, w, Drive(d, answer));
            && d in w1.drivers && w1.drivers[d].saga == i && w1.drivers - {d} == w.drivers - {d}
            && w1.tb == w.tb && w1.writes == w.writes
            && (if Opinion(resp) == Unknown then w1.drivers[d].pc == Concluding(Unknown)
                else w1.drivers[d].pc.Answered? && w1.drivers[d].pc.verdict == Opinion(resp))
  {
  }

  /** A conclusive answer closes the attempt first. */
  lemma AnswerLands(cfg: Config, w: World, d: nat, i: nat)
    requires d in w.drivers && w.drivers[d].saga == i && i < |w.tb.sagas| && w.tb.sagas[i].status == GatewayPending
    requires w.drivers[d].pc.Answered?
    ensures var w' := Play(cfg, w, [Drive(d, FinishAttempt), Drive(d, Conclude)]);
            w'.drivers == w.drivers - {d} && w'.writes == w.writes + [i]
  {
    PlayTwo(cfg, w, Drive(d, FinishAttempt), Drive(d, Conclude));
    RowSteps(cfg, w, d, false);
    var w1 := FinishStep(w, d);
    assert w1.drivers == w.drivers[d := w.drivers[d].(pc := Concluding(w.drivers[d].pc.verdict))];
    assert w1.drivers - {d} == w.drivers - {d} && w1.tb.sagas == w.tb.sagas && w1.writes == w.writes;
    ConclusionLands(cfg, w1, d, i);
  }

  /** Whatever the gateway answers, the verdict lands. */
  lemma VerdictLands(cfg: Config, w: World, d: nat, i: nat, resp: Response, answer: Act)
    requires d in w.drivers && w.drivers[d].saga == i && i < |w.tb.sagas| && w.tb.sagas[i].status == GatewayPending
    requires Truthful(w.gw, i, resp)
    requires (answer == PayAnswer(resp) && w.drivers[d].pc.Awaiting?) || (answer == ProbeAnswer(resp) && w.drivers[d].pc.Probing?)
    ensures var w' := Play(cfg, w, Listening(d, resp, answer));
            w'.drivers == w.drivers - {d} && w'.writes == w.writes + [i]
  {
    AnswerHeard(cfg, w, d, i, resp, answer);
    PlayOne(cfg, w, Drive(d, answer));
    var w1 := Apply(cfg, w, Drive(d, answer));
    if Opinion(resp) == Unknown {
      PlayConcat(cfg, w, [Drive(d, answer)], [Drive(d, Conclude)]);
      PlayOne(cfg, w1, Drive(d, Conclude));
      ConclusionLands(cfg, w1, d, i);
    } else {
      PlayConcat(cfg, w, [Drive(d, answer)], [Drive(d, FinishAttempt), Drive(d, Conclude)]);
      AnswerLands(cfg, w1, d, i);
    }
  }

  lemma HeededTruthful(g: Remote, i: nat, reply: Response)
    ensures Truthful(g, i, Heeded(g, i, reply))
  {
    OpinionExact(NoResponse);
  }

  lemma ProbeLands(cfg: Config, w: World, d: nat, i: nat, env: Surroundings)
    requires Current(w, d, i) && w.drivers[d].pc == Claimed && w.tb.sagas[i].status == GatewayPending
    ensures Landed(w, Play(cfg, w, Working(cfg, w, d, i, env)), d, i)
  {
    var resp := Heeded(w.gw, i, env.reply);
    var w1 := Apply(cfg, w, Drive(d, FindUnresolved));
    assert w1 == At(w, d, Probing(NewestOpen(w.tb.steps, i, GatewayStep)));
    PlayOne(cfg, w, Drive(d, FindUnresolved));
    PlayConcat(cfg, w, [Drive(d, FindUnresolved)], Listening(d, resp, ProbeAnswer(resp)));
    HeededTruthful(w.gw, i, env.reply);
    VerdictLands(cfg, w1, d, i, resp, ProbeAnswer(resp));
    assert w1.drivers - {d} == w.drivers - {d};
  }

  lemma IntentLands(cfg: Config, w: World, d: nat, i: nat)
    requires Current(w, d, i) && w.tb.sagas[i].status == SagaReserved
    requires w.drivers[d].pc == Numbered(NextNumber(w.tb.steps, i, GatewayStep, Forward))
    ensures var w' := Apply(cfg, w, Drive(d, BeginGateway(false)));
            && w'.drivers == w.drivers[d := w.drivers[d].(pc := Submitting(|w.tb.steps|))] && w'.writes == w.writes + [i]
            && i < |w'.tb.sagas| && w'.tb.sagas[i].status == GatewayPending
  {
    NextNumberFree(w.tb.steps, Attempt(i, GatewayStep, Forward, w.drivers[d].pc.number, Attempted, None));
  }

  /** The intent commits, the submission leaves, and the driver waits for its answer. */
  predicate Sending(w: World, w': World, d: nat, i: nat)
  {
    && d in w'.drivers && w'.drivers[d].saga == i && w'.drivers[d].pc.Awaiting? && w'.drivers - {d} == w.drivers - {d}
    && w'.writes == w.writes + [i] && i < |w'.tb.sagas| && w'.tb.sagas[i].status == GatewayPending
  }

  lemma SubmissionLeaves(cfg: Config, w: World, d: nat, i: nat)
    requires Current(w, d, i) && w.drivers[d].pc == Claimed && w.tb.sagas[i].status == SagaReserved
    ensures Sending(w, Play(cfg, w, [Drive(d, ReadNumber), Drive(d, BeginGateway(false)), Drive(d, Submit)]), d, i)
  {
    var n := NextNumber(w.tb.steps, i, GatewayStep, Forward);
    PlayThree(cfg, w, Drive(d, ReadNumber), Drive(d, BeginGateway(false)), Drive(d, Submit));
    var w1 := At(w, d, Numbered(n));
    assert Apply(cfg, w, Drive(d, ReadNumber)) == w1;
    IntentLands(cfg, w1, d, i);
    var w2 := Apply(cfg, w1, Drive(d, BeginGateway(false)));
    Submitted(cfg, w2, d, |w.tb.steps|);
    assert w2.drivers - {d} == w.drivers - {d};
    assert At(w2, d, Awaiting(|w.tb.steps|)).drivers - {d} == w2.drivers - {d};
  }

  lemma PaymentSent(cfg: Config, w: World, d: nat, i: nat, recorded: Option<Outcome>)
    requires Current(w, d, i) && w.drivers[d].pc == Claimed && w.tb.sagas[i].status == SagaReserved
    ensures Sending(w, Play(cfg, w, Paying(d, i, recorded)), d, i)
  {
    var first := [Drive(d, ReadNumber), Drive(d, BeginGateway(false)), Drive(d, Submit)];
    SubmissionLeaves(cfg, w, d, i);
    if recorded.Some? {
      PlayConcat(cfg, w, first, [GatewayRecords(i, recorded.value)]);
      PlayOne(cfg, Play(cfg, w, first), GatewayRecords(i, recorded.value));
    } else {
      assert Paying(d, i, recorded) == first;
    }
  }

  lemma PaymentLands(cfg: Config, w: World, d: nat, i: nat, env: Surroundings)
    requires Current(w, d, i) && w.drivers[d].pc == Claimed && w.tb.sagas[i].status == SagaReserved
    ensures Landed(w, Play(cfg, w, Working(cfg, w, d, i, env)), d, i)
  {
    var sending := Paying(d, i, env.recorded);
    PaymentSent(cfg, w, d, i, env.recorded);
    var w' := Play(cfg, w, sending);
    var resp := Heeded(w'.gw, i, env.reply);
    PlayConcat(cfg, w, sending, Listening(d, resp, PayAnswer(resp)));
    HeededTruthful(w'.gw, i, env.reply);
    VerdictLands(cfg, w', d, i, resp, PayAnswer(resp));
    assert w.writes + [i] + [i] == w.writes + [i, i];
  }

  lemma GiveUpLands(cfg: Config, w: World, d: nat, i: nat, env: Surroundings)
    requires Current(w, d, i) && w.drivers[d].pc == Claimed && w.tb.sagas[i].status == GatewayFailed
    ensures Landed(w, Play(cfg, w, Working(cfg, w, d, i, env)), d, i)
  {
    PlayOne(cfg, w, Drive(d, BeginRefund));
  }

  /** Whatever ledger and gateway answer, one uninterrupted drive of an unfinished saga writes its status. */
  lemma WorkLands(cfg: Config, w: World, d: nat, i: nat, env: Surroundings)
    requires Current(w, d, i) && w.drivers[d].pc == Claimed && !Terminal(w.tb.sagas[i].status)
    requires w.tb.sagas[i].status == Compensating ==> FirstCommitted(w.tb.steps, i, ReserveStep, Forward).Some?
    ensures Landed(w, Play(cfg, w, Working(cfg, w, d, i, env)), d, i)
  {
    match w.tb.sagas[i].status
    case SagaPending => ReserveLands(cfg, w, d, i, env);
    case SagaReserved => PaymentLands(cfg, w, d, i, env);
    case GatewayPending => ProbeLands(cfg, w, d, i, env);
    case GatewaySucceeded => SettleLands(cfg, w, d, i, env);
    case GatewayFailed => GiveUpLands(cfg, w, d, i, env);
    case Compensating => RefundLands(cfg, w, d, i, env);
  }
}
