/**
 The payout protocol: any number of drivers advance sagas from snapshots that may be stale, each
 database transaction is one atomic guarded event, and any driver may vanish between two of them.
 */
module Payout {
  import opened Collections
  import opened LedgerTypes
  import opened Ledger
  import opened SagaTypes
  import opened SagaStore
  import opened Gateway

  datatype Config = Config(maxStepAttempts: int, maxProbes: int, maxCompensationAttempts: int)

  // ----- what a payload asks the ledger to do ------------------------------------------------------

  predicate ValidPayload(p: Payload)
  {
    && p.wallet != NIL && p.suspense != NIL && p.merchant != NIL && p.feeAccount != NIL
    && 0 <= p.fee < p.amount && p.currency != ""
  }

  function ReserveLegs(p: Payload): seq<Leg>
  {
    [Leg(p.wallet, Debit, Money(p.amount, p.currency)), Leg(p.suspense, Credit, Money(p.amount, p.currency))]
  }

  /** A zero fee gets no leg. */
  function SettleLegs(p: Payload): seq<Leg>
    requires 0 <= p.fee < p.amount
  {
    [Leg(p.suspense, Debit, Money(p.amount, p.currency)),
     Leg(p.merchant, Credit, Money(p.amount - p.fee, p.currency))]
    + if p.fee > 0 then [Leg(p.feeAccount, Credit, Money(p.fee, p.currency))] else []
  }

  /** The change to suspense's pending_minor when a hold ends. */
  function Release(p: Payload): int
  {
    0 - p.amount
  }

  function ReserveRequest(i: nat, row: SagaRow): Request
  {
    Request(TransactionType.Payout, row.principal, Some(StepKey(i, ReserveStep, Forward)),
            SagaMeta(i, ReserveStep), ReserveLegs(row.payload))
  }

  function SettleRequest(i: nat, row: SagaRow): Request
    requires 0 <= row.payload.fee < row.payload.amount
  {
    Request(TransactionType.Payout, row.principal, Some(StepKey(i, SettleStep, Forward)),
            SagaMeta(i, SettleStep), SettleLegs(row.payload))
  }

  // ----- ledger writes that carry a hold in the same transaction --------------------------------------

  /** Posts and moves pending_minor in one transaction, or changes nothing. */
  function PostAndHold(db: Db, stamp: Stamp, req: Request, choice: map<Id, Id>, id: Id, delta: int): Option<Db>
  {
    if CanPost(db, stamp, req, choice) then
      var posted := Post(db, stamp, req, choice);
      if CanHold(posted, id, delta) then Some(HoldPending(posted, id, delta)) else None
    else None
  }

  function ReverseAndHold(db: Db, stamp: Stamp, original: Id, id: Id, delta: int): Option<Db>
  {
    if CanReverse(db, stamp, original, "", None) then
      var reversed := Reverse(db, stamp, original, "", None);
      if CanHold(reversed, id, delta) then Some(HoldPending(reversed, id, delta)) else None
    else None
  }

  // ----- drivers --------------------------------------------------------------------------------------

  datatype Cause = Refusal(error: LedgerError) | Stale | Interrupted

  /** Refusals that a retry would only repeat. */
  predicate TerminalCause(c: Cause)
  {
    c.Refusal? && c.error != BalanceVersionConflict && c.error != TransactionNotFound && c.error != ReversalReasonRequired
  }

  /** Where a driver is between two of its own database transactions or gateway calls. */
  datatype Pc =
    | Claimed
    | Numbered(number: nat)
    | ReserveFound(tx: Id)
    | RefundReady(tx: Id, number: nat)
    | NothingPosted
    | Refused(number: nat, cause: Cause)
    | Deciding(cause: Cause)
    | Submitting(attempt: nat)
    | Awaiting(attempt: nat)
    | Probing(open: Option<nat>)
    | Answered(open: Option<nat>, verdict: Verdict)
    | Concluding(verdict: Verdict)
    | Confirming
    | Escalating(from: Status)

  /** A driver acts on the row as it was when claimed. */
  datatype Driver = Driver(saga: nat, snap: SagaRow, pc: Pc)

  /** `writes` lists the saga of every committed status write, oldest first. */
  datatype World = World(db: Db, tb: Tables, drivers: map<nat, Driver>, gw: Remote, writes: seq<nat>)

  /** What one driver can do between two interruptions. */
  datatype Act =
    | Crash
    | ReadNumber
    | FindReserve
    | FindUnresolved
    | Refuse(cause: Cause)
    | CommitReserve(stamp: Stamp, choice: map<Id, Id>, lost: bool)
    | CommitSettle(stamp: Stamp, choice: map<Id, Id>, lost: bool)
    | CommitRefund(stamp: Stamp, lost: bool)
    | RecordFailure(lost: bool)
    | BeginGateway(lost: bool)
    | FinishAttempt
    | Submit
    | PayAnswer(resp: Response)
    | ProbeAnswer(resp: Response)
    | Confirm
    | Decide
    | Conclude
    | BeginRefund
    | EmptyRefund
    | EscalateNow

  datatype Event =
    | Start(principal: string, key: Option<string>, payload: Payload)
    | Claim(driver: nat, saga: nat)
    | Drive(driver: nat, act: Act)
    | GatewayRecords(saga: nat, outcome: Outcome)
    | RequestLost(saga: nat)
    | Outside(op: Op)

  // ----- pieces of a step ---------------------------------------------------------------------------------

  function Gone(w: World, d: nat): World
  {
    w.(drivers := w.drivers - {d})
  }

  function At(w: World, d: nat, pc: Pc): World
    requires d in w.drivers
  {
    w.(drivers := w.drivers[d := w.drivers[d].(pc := pc)])
  }

  /** A driver's last act: nothing, a guarded status move, or one that also raises an alert. */
  datatype Write = NoWrite | Move(t: Transition) | Alert(t: Transition)

  predicate Lands(tb: Tables, wr: Write)
  {
    !wr.NoWrite? && CanAdvance(tb, wr.t)
  }

  /** The tables after a write, which applies only if its guard still holds. */
  function Took(tb: Tables, wr: Write): Tables
  {
    if !Lands(tb, wr) then tb else if wr.Move? then Advanced(tb, wr.t) else Escalated(tb, wr.t)
  }

  /** Whether or not it landed, the drive is over. */
  function Written(w: World, d: nat, wr: Write): World
  {
    if wr.NoWrite? then w
    else Gone(w, d).(tb := Took(w.tb, wr), writes := if Lands(w.tb, wr) then w.writes + [wr.t.saga] else w.writes)
  }

  /** A ledger step: money, hold, audit row and status in one commit, whose answer may still be lost. */
  function Commits(w: World, d: nat, db': Option<Db>, a: Attempt, t: Transition, lost: bool): World
  {
    if db'.Some? && CanStep(w.tb, a, t) then
      var w' := w.(db := db'.value, tb := Stepped(w.tb, a, t), writes := w.writes + [t.saga]);
      if lost then w' else Gone(w', d)
    else w
  }

  /** The wallet's amount moves into suspense and is held there. */
  function Reserved(w: World, d: nat, drv: Driver, n: nat, stamp: Stamp, choice: map<Id, Id>, lost: bool): World
  {
    var i := drv.saga;
    var p := drv.snap.payload;
    Commits(w, d, PostAndHold(w.db, stamp, ReserveRequest(i, drv.snap), choice, p.suspense, p.amount),
            Attempt(i, ReserveStep, Forward, n, StepSucceeded, Some(stamp.tx)),
            Transition(i, SagaPending, SagaReserved, 0), lost)
  }

  /** Suspense drains to the merchant and to fee revenue, and the hold is released. */
  function Settled(w: World, d: nat, drv: Driver, n: nat, stamp: Stamp, choice: map<Id, Id>, lost: bool): World
    requires ValidPayload(drv.snap.payload)
  {
    var i := drv.saga;
    var p := drv.snap.payload;
    Commits(w, d, PostAndHold(w.db, stamp, SettleRequest(i, drv.snap), choice, p.suspense, Release(p)),
            Attempt(i, SettleStep, Forward, n, StepSucceeded, Some(stamp.tx)),
            Transition(i, GatewaySucceeded, Completed, 0), lost)
  }

  /** The reserve transaction is reversed and the hold is released. */
  function Refunded(w: World, d: nat, drv: Driver, tx: Id, n: nat, stamp: Stamp, lost: bool): World
  {
    var i := drv.saga;
    var p := drv.snap.payload;
    Commits(w, d, ReverseAndHold(w.db, stamp, tx, p.suspense, Release(p)),
            Attempt(i, ReserveStep, Compensation, n, StepSucceeded, Some(stamp.tx)),
            Transition(i, Compensating, Compensated, 0), lost)
  }

  /** What a failed forward step or compensation does next. */
  function AfterFailure(cfg: Config, i: nat, snap: SagaRow, cause: Cause): Write
  {
    var attempts := snap.retry + 1;
    var spent := TerminalCause(cause) || attempts >= cfg.maxStepAttempts;
    match snap.status
    case SagaPending => Move(Transition(i, SagaPending, if spent then SagaFailed else SagaPending, attempts))
    case GatewaySucceeded =>
      if spent then Move(Transition(i, GatewaySucceeded, Compensating, 0))
      else Move(Transition(i, GatewaySucceeded, GatewaySucceeded, attempts))
    case Compensating =>
      if attempts >= cfg.maxCompensationAttempts then Alert(Transition(i, Compensating, NeedsManualReview, attempts))
      else Move(Transition(i, Compensating, Compensating, attempts))
    case _ => NoWrite
  }

  /** What a gateway verdict does to the saga. */
  function AfterVerdict(cfg: Config, i: nat, snap: SagaRow, verdict: Verdict): Write
  {
    var attempts := snap.retry + 1;
    match verdict
    case Confirmed => Move(Transition(i, GatewayPending, GatewaySucceeded, 0))
    case Refuted => Move(Transition(i, GatewayPending, GatewayFailed, 0))
    case Unknown =>
      if attempts >= cfg.maxProbes then Alert(Transition(i, GatewayPending, NeedsManualReview, attempts))
      else Move(Transition(i, GatewayPending, GatewayPending, attempts))
  }

  /** The failed attempt is noted unless its number is taken or the write itself is lost; either is only logged. */
  function Noted(tb: Tables, a: Attempt, lost: bool): Tables
  {
    if !lost && CanInsert(tb.steps, a) then tb.(steps := tb.steps + [a]) else tb
  }

  function Resolved(tb: Tables, open: Option<nat>, verdict: Verdict): Tables
  {
    if open.None? then tb
    else tb.(steps := Finished(tb.steps, open.value, if verdict == Confirmed then StepSucceeded else StepFailed))
  }

  /** The intent to pay is committed before anything is sent; a lost answer means nothing ever is. */
  function Begun(w: World, d: nat, drv: Driver, n: nat, lost: bool): World
    requires d in w.drivers
  {
    var i := drv.saga;
    var a := Attempt(i, GatewayStep, Forward, n, Attempted, None);
    var t := Transition(i, SagaReserved, GatewayPending, drv.snap.retry);
    if !CanStep(w.tb, a, t) then w
    else
      var w' := w.(tb := Stepped(w.tb, a, t), writes := w.writes + [i]);
      if lost then Gone(w', d) else At(w', d, Submitting(|w.tb.steps|))
  }

  /** An unknown answer closes no attempt; a conclusive one closes it before the status moves. */
  function Heard(w: World, d: nat, open: Option<nat>, resp: Response): World
    requires d in w.drivers
  {
    var verdict := Opinion(resp);
    At(w, d, if verdict == Unknown then Concluding(Unknown) else Answered(open, verdict))
      .(gw := Told(w.gw, w.drivers[d].saga, resp))
  }

  // ----- one event -------------------------------------------------------------------------------------------

  /** What a driver knows after reading the tables, or after the ledger refused its step. */
  function Learned(steps: seq<Attempt>, drv: Driver, act: Act): Pc
  {
    match act
    case ReadNumber => LearnedNumber(steps, drv.saga, drv.snap.status, drv.pc)
    case FindReserve =>
      if drv.snap.status == Compensating && drv.pc == Claimed then
        var found := FirstCommitted(steps, drv.saga, ReserveStep, Forward);
        if found.Some? then ReserveFound(found.value) else NothingPosted
      else drv.pc
    case FindUnresolved =>
      if drv.snap.status == GatewayPending && drv.pc == Claimed
      then Probing(NewestOpen(steps, drv.saga, GatewayStep)) else drv.pc
    case Refuse(cause) => LearnedRefusal(drv.snap.status, drv.pc, cause)
    case _ => drv.pc
  }

  /** The attempt number of the step that a status calls for. */
  function LearnedNumber(steps: seq<Attempt>, i: nat, status: Status, pc: Pc): Pc
  {
    if pc.ReserveFound? then RefundReady(pc.tx, NextNumber(steps, i, ReserveStep, Compensation))
    else if !pc.Claimed? then pc
    else if status == SagaPending then Numbered(NextNumber(steps, i, ReserveStep, Forward))
    else if status == SagaReserved then Numbered(NextNumber(steps, i, GatewayStep, Forward))
    else if status == GatewaySucceeded then Numbered(NextNumber(steps, i, SettleStep, Forward))
    else pc
  }

  /** A compensation refused because it is already done is checked rather than counted as a failure. */
  function LearnedRefusal(status: Status, pc: Pc, cause: Cause): Pc
  {
    if pc.RefundReady? then
      if cause == Stale || cause == Refusal(AlreadyReversed) then Confirming else Refused(pc.number, cause)
    else if pc.Numbered? && (status == SagaPending || status == GatewaySucceeded) then Refused(pc.number, cause)
    else pc
  }

  /** The status write an event makes, if the driver is at the point of making it. */
  function WriteOf(cfg: Config, drv: Driver, act: Act): Write
  {
    var i := drv.saga;
    match act
    case Decide => if drv.pc.Deciding? then AfterFailure(cfg, i, drv.snap, drv.pc.cause) else NoWrite
    case Conclude => if drv.pc.Concluding? then AfterVerdict(cfg, i, drv.snap, drv.pc.verdict) else NoWrite
    case BeginRefund =>
      if drv.pc.Claimed? && drv.snap.status == GatewayFailed then Move(Transition(i, GatewayFailed, Compensating, 0)) else NoWrite
    case EmptyRefund => if drv.pc.NothingPosted? then Move(Transition(i, Compensating, Compensated, 0)) else NoWrite
    case EscalateNow =>
      if drv.pc.Escalating? then Alert(Transition(i, drv.pc.from, NeedsManualReview, drv.snap.retry)) else NoWrite
    case _ => NoWrite
  }

  predicate Reading(act: Act)
  {
    act.ReadNumber? || act.FindReserve? || act.FindUnresolved? || act.Refuse?
  }

  predicate Writing(act: Act)
  {
    act.Decide? || act.Conclude? || act.BeginRefund? || act.EmptyRefund? || act.EscalateNow?
  }

  predicate Committing(act: Act)
  {
    act.CommitReserve? || act.CommitSettle? || act.CommitRefund?
  }

  /** A ledger step, if the driver has numbered its attempt and saw the status the step starts from. */
  function LedgerStep(w: World, d: nat, drv: Driver, act: Act): World
    requires Committing(act)
  {
    match act
    case CommitReserve(stamp, choice, lost) =>
      if drv.pc.Numbered? && drv.snap.status == SagaPending
      then Reserved(w, d, drv, drv.pc.number, stamp, choice, lost) else w
    case CommitSettle(stamp, choice, lost) =>
      if drv.pc.Numbered? && drv.snap.status == GatewaySucceeded && ValidPayload(drv.snap.payload)
      then Settled(w, d, drv, drv.pc.number, stamp, choice, lost) else w
    case CommitRefund(stamp, lost) =>
      if drv.pc.RefundReady? then Refunded(w, d, drv, drv.pc.tx, drv.pc.number, stamp, lost) else w
  }

  /** A failed ledger step leaves an attempt row of its own, or goes on without one. */
  function RecordStep(w: World, d: nat, lost: bool): World
    requires d in w.drivers
  {
    var drv := w.drivers[d];
    if drv.pc.Refused?
    then At(w, d, Deciding(drv.pc.cause)).(tb := Noted(w.tb, FailedAttempt(drv.saga, drv.snap.status, drv.pc.number), lost))
    else w
  }

  function BeginStep(w: World, d: nat, lost: bool): World
    requires d in w.drivers
  {
    var drv := w.drivers[d];
    if drv.pc.Numbered? && drv.snap.status == SagaReserved then Begun(w, d, drv, drv.pc.number, lost) else w
  }

  /** A conclusive answer closes its attempt before the status moves. */
  function FinishStep(w: World, d: nat): World
    requires d in w.drivers
  {
    var drv := w.drivers[d];
    if drv.pc.Answered?
    then At(w, d, Concluding(drv.pc.verdict)).(tb := Resolved(w.tb, drv.pc.open, drv.pc.verdict))
    else w
  }

  /** Conversations: with the gateway, or with the store about a lost compensation race. */
  function TalkStep(w: World, d: nat, act: Act): World
    requires d in w.drivers
  {
    var i, pc := w.drivers[d].saga, w.drivers[d].pc;
    match act
    case Submit => if pc.Submitting? then At(w, d, Awaiting(pc.attempt)).(gw := Sent(w.gw, i)) else w
    case PayAnswer(resp) => if pc.Awaiting? && Truthful(w.gw, i, resp) then Heard(w, d, Some(pc.attempt), resp) else w
    case ProbeAnswer(resp) => if pc.Probing? && Truthful(w.gw, i, resp) then Heard(w, d, pc.open, resp) else w
    case Confirm =>
      if !pc.Confirming? then w
      else if i < |w.tb.sagas| && w.tb.sagas[i].status != Compensated
      then At(w, d, Escalating(w.tb.sagas[i].status)) else Gone(w, d)
    case _ => w
  }

  function DriverStep(cfg: Config, w: World, d: nat, act: Act): World
    requires d in w.drivers
  {
    if act.Crash? then Gone(w, d)
    else if Reading(act) then At(w, d, Learned(w.tb.steps, w.drivers[d], act))
    else if Writing(act) then Written(w, d, WriteOf(cfg, w.drivers[d], act))
    else if Committing(act) then LedgerStep(w, d, w.drivers[d], act)
    else if act.RecordFailure? then RecordStep(w, d, act.lost)
    else if act.BeginGateway? then BeginStep(w, d, act.lost)
    else if act.FinishAttempt? then FinishStep(w, d)
    else TalkStep(w, d, act)
  }

  function FailedAttempt(i: nat, status: Status, n: nat): Attempt
  {
    match status
    case Compensating => Attempt(i, ReserveStep, Compensation, n, StepFailed, None)
    case GatewaySucceeded => Attempt(i, SettleStep, Forward, n, StepFailed, None)
    case _ => Attempt(i, ReserveStep, Forward, n, StepFailed, None)
  }

  /** The ledger's other users: they never use a saga's keys, never pose as one and never reverse its transactions. */
  predicate Permitted(db: Db, op: Op)
  {
    match op
    case PostOp(_, req, _) => !req.meta.SagaMeta? && (req.key.Some? ==> req.key.value.ClientKey?)
    case ReverseOp(_, original, _, key) =>
      && (key.Some? ==> key.value.ClientKey?)
      && original in db.headers && !SagaOwned(db, original)
    case _ => true
  }

  /** Posted by a saga step, or the reversal of such a transaction. */
  predicate SagaOwned(db: Db, t: Id)
    requires t in db.headers
  {
    var meta := db.headers[t].meta;
    meta.SagaMeta? || (meta.Reverses? && meta.tx in db.headers && db.headers[meta.tx].meta.SagaMeta?)
  }

  function Apply(cfg: Config, w: World, e: Event): World
  {
    match e
    case Start(principal, key, payload) =>
      if ValidPayload(payload) then w.(tb := NewSaga(w.tb, principal, key, payload)) else w
    case Claim(d, i) =>
      if d !in w.drivers && i < |w.tb.sagas|
      then w.(drivers := w.drivers[d := Driver(i, w.tb.sagas[i], Claimed)]) else w
    case GatewayRecords(i, outcome) => w.(gw := Recorded(w.gw, i, outcome))
    case RequestLost(i) => w.(gw := Lost(w.gw, i))
    case Outside(op) => if Permitted(w.db, op) then w.(db := Ledger.Step(w.db, op)) else w
    case Drive(d, act) => if d in w.drivers then DriverStep(cfg, w, d, act) else w
  }

  function Play(cfg: Config, w: World, es: seq<Event>): World
    decreases |es|
  {
    if es == [] then w else Play(cfg, Apply(cfg, w, es[0]), es[1..])
  }

  /** Any ledger on which no saga has acted yet, and nothing else. */
  function Opening(db: Db): World
  {
    World(db, Tables([], [], []), map[], FRESH, [])
  }

  /** The saga is on record as failed, and its payment went through. */
  predicate FailedYetPaid(w: World, i: nat)
  {
    i < |w.tb.sagas| && w.tb.sagas[i].status == GatewayFailed && WasPaid(w.gw, i)
  }

  lemma PlayOne(cfg: Config, w: World, e: Event)
    ensures Play(cfg, w, [e]) == Apply(cfg, w, e)
  {
    assert [e][1..] == [];
    assert Play(cfg, Apply(cfg, w, e), []) == Apply(cfg, w, e);
  }

  lemma {:induction false} PlayConcat(cfg: Config, w: World, es: seq<Event>, fs: seq<Event>)
    ensures Play(cfg, w, es + fs) == Play(cfg, Play(cfg, w, es), fs)
    decreases |es|
  {
    if es == [] {
      assert es + fs == fs;
    } else {
      assert (es + fs)[1..] == es[1..] + fs;
      PlayConcat(cfg, Apply(cfg, w, es[0]), es[1..], fs);
    }
  }

  lemma PlayTwo(cfg: Config, w: World, e: Event, f: Event)
    ensures Play(cfg, w, [e, f]) == Apply(cfg, Apply(cfg, w, e), f)
  {
    assert [e, f][1..] == [f];
    assert Play(cfg, w, [e, f]) == Play(cfg, Apply(cfg, w, e), [f]);
    PlayOne(cfg, Apply(cfg, w, e), f);
  }

  lemma PlayThree(cfg: Config, w: World, e: Event, f: Event, g: Event)
    ensures Play(cfg, w, [e, f, g]) == Apply(cfg, Apply(cfg, Apply(cfg, w, e), f), g)
  {
    assert [e, f, g] == [e] + [f, g];
    PlayConcat(cfg, w, [e], [f, g]);
    PlayOne(cfg, w, e);
    PlayTwo(cfg, Apply(cfg, w, e), f, g);
  }

  lemma RecordIsStep(cfg: Config, w: World, d: nat, lost: bool)
    requires d in w.drivers
    ensures DriverStep(cfg, w, d, RecordFailure(lost)) == RecordStep(w, d, lost)
  {
  }

  lemma FinishIsStep(cfg: Config, w: World, d: nat)
    requires d in w.drivers
    ensures DriverStep(cfg, w, d, FinishAttempt) == FinishStep(w, d)
  {
  }

  lemma BeginIsStep(cfg: Config, w: World, d: nat, lost: bool)
    requires d in w.drivers
    ensures DriverStep(cfg, w, d, BeginGateway(lost)) == BeginStep(w, d, lost)
  {
  }

  lemma RowSteps(cfg: Config, w: World, d: nat, lost: bool)
    requires d in w.drivers
    ensures DriverStep(cfg, w, d, RecordFailure(lost)) == RecordStep(w, d, lost)
    ensures DriverStep(cfg, w, d, FinishAttempt) == FinishStep(w, d)
    ensures DriverStep(cfg, w, d, BeginGateway(lost)) == BeginStep(w, d, lost)
  {
    RecordIsStep(cfg, w, d, lost);
    FinishIsStep(cfg, w, d);
    BeginIsStep(cfg, w, d, lost);
  }

  lemma CommitIsStep(cfg: Config, w: World, d: nat, act: Act)
    requires d in w.drivers && Committing(act)
    ensures DriverStep(cfg, w, d, act) == LedgerStep(w, d, w.drivers[d], act)
  {
    assert !act.Crash? && !Reading(act) && !Writing(act);
  }

  lemma Submitted(cfg: Config, w: World, d: nat, k: nat)
    requires d in w.drivers && w.drivers[d].pc == Submitting(k)
    ensures Apply(cfg, w, Drive(d, Submit)) == At(w, d, Awaiting(k)).(gw := Sent(w.gw, w.drivers[d].saga))
  {
  }
}
