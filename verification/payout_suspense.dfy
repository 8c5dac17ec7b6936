/**
 A suspense account used only by sagas holds, at every moment, exactly the amounts of the sagas whose
 status says they are holding; so it can always pay them out or hand them back.
 */
module PayoutSuspense {
  import opened Collections
  import opened LedgerTypes
  import opened Posting
  import opened Ledger
  import opened LedgerInvariants
  import opened SagaTypes
  import opened SagaStore
  import opened Payout
  import opened PayoutBooks
  import opened PayoutSafety
  import Sharding

  // ----- the account and what it should hold --------------------------------------------------------------

  /** Credit-normal, not a shard and not sharded. */
  predicate Vault(db: Db, s: Id)
  {
    && s in db.accounts && s in db.balances
    && NormalOf(db.accounts[s]) == Credit && db.accounts[s].parent == None
    && Childless(db.accounts, s)
  }

  predicate Childless(accounts: map<Id, Account>, s: Id)
  {
    forall c | c in accounts :: accounts[c].parent != Some(s)
  }

  function HeldOn(s: Id): SagaRow -> int
  {
    (row: SagaRow) => if row.payload.suspense == s && Holds(row.status) then row.payload.amount else 0
  }

  predicate VaultExact(db: Db, tb: Tables, s: Id)
  {
    && Vault(db, s)
    && db.balances[s].available == Sum(HeldOn(s), tb.sagas)
    && db.balances[s].pending == Sum(HeldOn(s), tb.sagas)
  }

  /** Sagas name the account in the suspense role only. */
  predicate RoleOnly(tb: Tables, s: Id)
  {
    forall i | 0 <= i < |tb.sagas| :: Apart(tb.sagas[i].payload, s)
  }

  predicate Apart(p: Payload, s: Id)
  {
    p.wallet != s && p.merchant != s && p.feeAccount != s
  }

  /** Everyone else leaves the account, its hold and its place in the chart alone; its status is fair game. */
  predicate KeepsOff(db: Db, op: Op, s: Id)
  {
    match op
    case OpenAccount(_, account, _) => account.parent != Some(s)
    case SetStatus(_, _) => true
    case Hold(id, _) => id != s
    case PostOp(_, req, _) => s !in Touched(req.legs)
    case ReverseOp(_, original, _, _) => s !in Touched(LegsOf(db.journal, original))
  }

  predicate Respects(db: Db, e: Event, s: Id)
  {
    match e
    case Start(_, _, payload) => Apart(payload, s)
    case Outside(op) => KeepsOff(db, op, s)
    case _ => true
  }

  predicate RespectfulRun(cfg: Config, w: World, es: seq<Event>, s: Id)
    decreases |es|
  {
    es == [] || (Respects(w.db, es[0], s) && RespectfulRun(cfg, Apply(cfg, w, es[0]), es[1..], s))
  }

  // ----- what a ledger write does to one row ------------------------------------------------------------------

  /** The account's row moves by x and its hold by y; its place in the chart stays. */
  predicate RowMoves(db: Db, db': Db, s: Id, x: int, y: int)
  {
    && db'.accounts == db.accounts && s in db.balances && s in db'.balances
    && db'.balances[s].available == db.balances[s].available + x
    && db'.balances[s].pending == db.balances[s].pending + y
  }

  lemma CommitMoves(db: Db, stamp: Stamp, header: Header, legs: seq<Leg>, s: Id)
    requires CanCommit(db, stamp, legs) && Vault(db, s)
    ensures RowMoves(db, Commit(db, stamp, header, legs), s, Sum(EffectOn(s, Credit), legs), 0)
  {
    if s !in Touched(legs) {
      UntouchedEffect(legs, s, Credit);
    }
  }

  function HoldShare(id: Id, delta: int, s: Id): int
  {
    if id == s then delta else 0
  }

  lemma HoldMoves(db: Db, id: Id, delta: int, s: Id)
    requires CanHold(db, id, delta) && s in db.balances
    ensures RowMoves(db, HoldPending(db, id, delta), s, 0, HoldShare(id, delta, s))
  {
  }

  lemma PostMoves(db: Db, stamp: Stamp, req: Request, choice: map<Id, Id>, id: Id, delta: int, db': Db, s: Id)
    requires Vault(db, s) && PostAndHold(db, stamp, req, choice, id, delta) == Some(db')
    ensures Routed(db.accounts, req.legs, RouteLegs(choice, req.legs))
    ensures RowMoves(db, db', s, Sum(EffectOn(s, Credit), RouteLegs(choice, req.legs)), HoldShare(id, delta, s))
  {
    var legs := RouteLegs(choice, req.legs);
    ChoiceRoutes(db.accounts, req.legs, choice);
    CommitMoves(db, stamp, HeaderFor(req), legs, s);
    HoldMoves(Post(db, stamp, req, choice), id, delta, s);
  }

  lemma ReverseMoves(db: Db, stamp: Stamp, original: Id, id: Id, delta: int, db': Db, s: Id)
    requires Vault(db, s) && ReverseAndHold(db, stamp, original, id, delta) == Some(db')
    ensures RowMoves(db, db', s, Sum(EffectOn(s, Credit), Mirror(LegsOf(db.journal, original))), HoldShare(id, delta, s))
  {
    CommitMoves(db, stamp, ReversalHeader(original, "", None), Mirror(LegsOf(db.journal, original)), s);
    HoldMoves(Reverse(db, stamp, original, "", None), id, delta, s);
  }

  // ----- the vault's share of each step's legs -------------------------------------------------------------------

  /** Routing neither sends a leg to the vault nor takes one away from it. */
  lemma RoutedShare(accounts: map<Id, Account>, asked: seq<Leg>, got: seq<Leg>, s: Id)
    requires Routed(accounts, asked, got) && s in accounts && accounts[s].parent == None && Childless(accounts, s)
    ensures Sum(EffectOn(s, Credit), got) == Sum(EffectOn(s, Credit), asked)
  {
    forall k | 0 <= k < |asked| ensures EffectOn(s, Credit)(got[k]) == EffectOn(s, Credit)(asked[k]) {
      assert RoutedLeg(accounts, asked[k], got[k]);
    }
    SumEqual(EffectOn(s, Credit), got, EffectOn(s, Credit), asked);
  }

  function Share(p: Payload, s: Id): int
  {
    if p.suspense == s then p.amount else 0
  }

  function Drain(p: Payload, s: Id): int
  {
    0 - Share(p, s)
  }

  lemma ReserveShare(p: Payload, s: Id)
    requires Apart(p, s)
    ensures Sum(EffectOn(s, Credit), ReserveLegs(p)) == Share(p, s)
  {
    SumPair(EffectOn(s, Credit), ReserveLegs(p)[0], ReserveLegs(p)[1]);
    assert ReserveLegs(p) == [ReserveLegs(p)[0], ReserveLegs(p)[1]];
  }

  lemma SettleShare(p: Payload, s: Id)
    requires ValidPayload(p) && Apart(p, s)
    ensures Sum(EffectOn(s, Credit), SettleLegs(p)) == Drain(p, s)
  {
    var legs := SettleLegs(p);
    var first := [legs[0], legs[1]];
    SumPair(EffectOn(s, Credit), legs[0], legs[1]);
    if p.fee > 0 {
      assert legs == first + [legs[2]];
      SumSnoc(EffectOn(s, Credit), first, legs[2]);
    } else {
      assert legs == first;
    }
  }

  lemma RefundShare(accounts: map<Id, Account>, p: Payload, legs: seq<Leg>, s: Id)
    requires Apart(p, s) && Routed(accounts, ReserveLegs(p), legs)
    requires s in accounts && accounts[s].parent == None && Childless(accounts, s)
    ensures Sum(EffectOn(s, Credit), Mirror(legs)) == Drain(p, s)
  {
    ReserveShare(p, s);
    RoutedShare(accounts, ReserveLegs(p), legs, s);
    assert RoutedLeg(accounts, ReserveLegs(p)[0], legs[0]) && RoutedLeg(accounts, ReserveLegs(p)[1], legs[1]);
    MirrorNegates(legs, s, Credit);
  }

  // ----- statements on the tables -------------------------------------------------------------------------------------

  lemma AdvanceHeld(tb: Tables, t: Transition, s: Id)
    requires CanAdvance(tb, t)
    ensures Sum(HeldOn(s), Advanced(tb, t).sagas) == Sum(HeldOn(s), tb.sagas)
            + (if Holds(t.to) then Share(tb.sagas[t.saga].payload, s) else 0)
            - (if Holds(t.from) then Share(tb.sagas[t.saga].payload, s) else 0)
  {
    SumUpdate(HeldOn(s), tb.sagas, t.saga, Advanced(tb, t).sagas[t.saga]);
  }

  lemma RoleKept(tb: Tables, t: Transition, s: Id)
    requires RoleOnly(tb, s) && CanAdvance(tb, t)
    ensures RoleOnly(Advanced(tb, t), s)
  {
  }

  // ----- events ----------------------------------------------------------------------------------------------------------

  predicate Kept(w: World, s: Id)
  {
    VaultExact(w.db, w.tb, s) && RoleOnly(w.tb, s)
  }

  lemma WrittenKept(w: World, d: nat, wr: Write, s: Id)
    requires Kept(w, s) && Legal(wr)
    ensures Kept(Written(w, d, wr), s)
  {
    if !wr.NoWrite? && CanAdvance(w.tb, wr.t) {
      AdvanceHeld(w.tb, wr.t, s);
      RoleKept(w.tb, wr.t, s);
    }
  }

  /** A ledger step keeps the balance exact when what it moves is what the status change says. */
  lemma CommitsKept(w: World, d: nat, post: Option<Db>, a: Attempt, t: Transition, lost: bool, s: Id, x: int)
    requires Kept(w, s)
    requires post.Some? && CanStep(w.tb, a, t) ==> RowMoves(w.db, post.value, s, x, x)
    requires CanStep(w.tb, a, t) ==>
               x == (if Holds(t.to) then Share(w.tb.sagas[t.saga].payload, s) else 0)
                  - (if Holds(t.from) then Share(w.tb.sagas[t.saga].payload, s) else 0)
    ensures Kept(Commits(w, d, post, a, t, lost), s)
  {
    if post.Some? && CanStep(w.tb, a, t) {
      AdvanceHeld(w.tb, t, s);
      RoleKept(w.tb, t, s);
    }
  }

  lemma ReserveMoves(db: Db, stamp: Stamp, i: nat, row: SagaRow, choice: map<Id, Id>, post: Option<Db>, s: Id)
    requires Vault(db, s) && Apart(row.payload, s)
    requires post == PostAndHold(db, stamp, ReserveRequest(i, row), choice, row.payload.suspense, row.payload.amount)
    ensures post.Some? ==> RowMoves(db, post.value, s, Share(row.payload, s), Share(row.payload, s))
  {
    if post.Some? {
      var req := ReserveRequest(i, row);
      PostMoves(db, stamp, req, choice, row.payload.suspense, row.payload.amount, post.value, s);
      RoutedShare(db.accounts, req.legs, RouteLegs(choice, req.legs), s);
      ReserveShare(row.payload, s);
    }
  }

  lemma SettleMoves(db: Db, stamp: Stamp, i: nat, row: SagaRow, choice: map<Id, Id>, post: Option<Db>, s: Id)
    requires Vault(db, s) && Apart(row.payload, s) && ValidPayload(row.payload)
    requires post == PostAndHold(db, stamp, SettleRequest(i, row), choice, row.payload.suspense, Release(row.payload))
    ensures post.Some? ==> RowMoves(db, post.value, s, Drain(row.payload, s), Drain(row.payload, s))
  {
    if post.Some? {
      var req := SettleRequest(i, row);
      PostMoves(db, stamp, req, choice, row.payload.suspense, Release(row.payload), post.value, s);
      RoutedShare(db.accounts, req.legs, RouteLegs(choice, req.legs), s);
      SettleShare(row.payload, s);
    }
  }

  lemma RefundMoves(db: Db, stamp: Stamp, p: Payload, tx: Id, post: Option<Db>, s: Id)
    requires Vault(db, s) && Apart(p, s) && Routed(db.accounts, ReserveLegs(p), LegsOf(db.journal, tx))
    requires post == ReverseAndHold(db, stamp, tx, p.suspense, Release(p))
    ensures post.Some? ==> RowMoves(db, post.value, s, Drain(p, s), Drain(p, s))
  {
    if post.Some? {
      ReverseMoves(db, stamp, tx, p.suspense, Release(p), post.value, s);
      RefundShare(db.accounts, p, LegsOf(db.journal, tx), s);
    }
  }

  lemma ReservedKept(w: World, d: nat, drv: Driver, n: nat, stamp: Stamp, choice: map<Id, Id>, lost: bool, s: Id)
    requires Kept(w, s) && DriverOk(w.tb, drv)
    ensures Kept(Reserved(w, d, drv, n, stamp, choice, lost), s)
  {
    var i, p := drv.saga, drv.snap.payload;
    var post := PostAndHold(w.db, stamp, ReserveRequest(i, drv.snap), choice, p.suspense, p.amount);
    assert Apart(p, s);
    ReserveMoves(w.db, stamp, i, drv.snap, choice, post, s);
    CommitsKept(w, d, post, Attempt(i, ReserveStep, Forward, n, StepSucceeded, Some(stamp.tx)),
                Transition(i, SagaPending, SagaReserved, 0), lost, s, Share(p, s));
  }

  lemma SettledKept(w: World, d: nat, drv: Driver, n: nat, stamp: Stamp, choice: map<Id, Id>, lost: bool, s: Id)
    requires Kept(w, s) && DriverOk(w.tb, drv) && ValidPayload(drv.snap.payload)
    ensures Kept(Settled(w, d, drv, n, stamp, choice, lost), s)
  {
    var i, p := drv.saga, drv.snap.payload;
    var post := PostAndHold(w.db, stamp, SettleRequest(i, drv.snap), choice, p.suspense, Release(p));
    assert Apart(p, s);
    SettleMoves(w.db, stamp, i, drv.snap, choice, post, s);
    CommitsKept(w, d, post, Attempt(i, SettleStep, Forward, n, StepSucceeded, Some(stamp.tx)),
                Transition(i, GatewaySucceeded, Completed, 0), lost, s, Drain(p, s));
  }

  lemma RefundedKept(w: World, d: nat, drv: Driver, tx: Id, n: nat, stamp: Stamp, lost: bool, s: Id)
    requires Kept(w, s) && DriverOk(w.tb, drv) && Routed(w.db.accounts, ReserveLegs(drv.snap.payload), LegsOf(w.db.journal, tx))
    ensures Kept(Refunded(w, d, drv, tx, n, stamp, lost), s)
  {
    var i, p := drv.saga, drv.snap.payload;
    var post := ReverseAndHold(w.db, stamp, tx, p.suspense, Release(p));
    assert Apart(p, s);
    RefundMoves(w.db, stamp, p, tx, post, s);
    CommitsKept(w, d, post, Attempt(i, ReserveStep, Compensation, n, StepSucceeded, Some(stamp.tx)),
                Transition(i, Compensating, Compensated, 0), lost, s, Drain(p, s));
  }

  /** The transaction a driver found to reverse is its saga's reserve. */
  lemma FoundIsReserve(w: World, drv: Driver)
    requires Sound(w) && DriverOk(w.tb, drv) && drv.pc.RefundReady?
    ensures Routed(w.db.accounts, ReserveLegs(drv.snap.payload), LegsOf(w.db.journal, drv.pc.tx))
  {
    assert BooksOf(w.db, w.tb.steps, w.tb.sagas[drv.saga], drv.saga);
  }

  /** What a driver must know for its ledger steps to move suspense by the right amount. */
  predicate Informed(w: World, drv: Driver)
  {
    && DriverOk(w.tb, drv)
    && (drv.pc.RefundReady? ==> Routed(w.db.accounts, ReserveLegs(drv.snap.payload), LegsOf(w.db.journal, drv.pc.tx)))
  }

  lemma AlwaysInformed(w: World, d: nat)
    requires Sound(w) && d in w.drivers
    ensures Informed(w, w.drivers[d])
  {
    assert DriverOk(w.tb, w.drivers[d]);
    if w.drivers[d].pc.RefundReady? {
      FoundIsReserve(w, w.drivers[d]);
    }
  }

  lemma LedgerStepKept(w: World, d: nat, drv: Driver, act: Act, s: Id)
    requires Informed(w, drv) && Kept(w, s) && Committing(act)
    ensures Kept(LedgerStep(w, d, drv, act), s)
  {
    match act
    case CommitReserve(stamp, choice, lost) =>
      if drv.pc.Numbered? {
        ReservedKept(w, d, drv, drv.pc.number, stamp, choice, lost, s);
      }
    case CommitSettle(stamp, choice, lost) =>
      if drv.pc.Numbered? && ValidPayload(drv.snap.payload) {
        SettledKept(w, d, drv, drv.pc.number, stamp, choice, lost, s);
      }
    case CommitRefund(stamp, lost) =>
      if drv.pc.RefundReady? {
        RefundedKept(w, d, drv, drv.pc.tx, drv.pc.number, stamp, lost, s);
      }
  }

  lemma BeginStepKept(w: World, d: nat, lost: bool, s: Id)
    requires Kept(w, s) && d in w.drivers
    ensures Kept(BeginStep(w, d, lost), s)
  {
    var drv := w.drivers[d];
    var t := Transition(drv.saga, SagaReserved, GatewayPending, drv.snap.retry);
    if CanAdvance(w.tb, t) {
      AdvanceHeld(w.tb, t, s);
      RoleKept(w.tb, t, s);
    }
  }

  lemma SameKept(w: World, w': World, s: Id)
    requires Kept(w, s) && w'.db == w.db && w'.tb.sagas == w.tb.sagas
    ensures Kept(w', s)
  {
  }

  /** Everything a driver does short of a status write leaves the ledger and the saga rows alone. */
  lemma QuietDrive(cfg: Config, w: World, d: nat, act: Act)
    requires d in w.drivers && !Writing(act) && !Committing(act) && !act.BeginGateway?
    ensures DriverStep(cfg, w, d, act).db == w.db && DriverStep(cfg, w, d, act).tb.sagas == w.tb.sagas
  {
    TalkStepQuiet(w, d, act);
  }

  lemma WriteStepKept(cfg: Config, w: World, d: nat, act: Act, s: Id, w': World)
    requires d in w.drivers && Informed(w, w.drivers[d]) && Kept(w, s) && Writing(act)
    requires w' == Written(w, d, WriteOf(cfg, w.drivers[d], act))
    ensures Kept(w', s)
  {
    WriteLegal(cfg, w.tb, w.drivers[d], act);
    WrittenKept(w, d, WriteOf(cfg, w.drivers[d], act), s);
  }

  lemma DriverStepKept(cfg: Config, w: World, d: nat, act: Act, s: Id, w': World)
    requires d in w.drivers && Informed(w, w.drivers[d]) && Kept(w, s) && w' == DriverStep(cfg, w, d, act)
    ensures Kept(w', s)
  {
    if Writing(act) {
      WriteStepKept(cfg, w, d, act, s, w');
    } else if Committing(act) {
      CommitIsStep(cfg, w, d, act);
      LedgerStepKept(w, d, w.drivers[d], act, s);
    } else if act.BeginGateway? {
      RowSteps(cfg, w, d, act.lost);
      BeginStepKept(w, d, act.lost, s);
    } else {
      QuietDrive(cfg, w, d, act);
      SameKept(w, w', s);
    }
  }

  // ----- the ledger's other users ---------------------------------------------------------------------------------------

  lemma ForeignPostMoves(db: Db, stamp: Stamp, req: Request, choice: map<Id, Id>, s: Id)
    requires Vault(db, s) && CanPost(db, stamp, req, choice) && s !in Touched(req.legs)
    ensures RowMoves(db, Post(db, stamp, req, choice), s, 0, 0)
  {
    var legs := RouteLegs(choice, req.legs);
    ChoiceRoutes(db.accounts, req.legs, choice);
    CommitMoves(db, stamp, HeaderFor(req), legs, s);
    RoutedShare(db.accounts, req.legs, legs, s);
    UntouchedEffect(req.legs, s, Credit);
  }

  lemma ForeignReverseMoves(db: Db, stamp: Stamp, original: Id, principal: string, key: Option<Key>, s: Id)
    requires Vault(db, s) && CanReverse(db, stamp, original, principal, key) && s !in Touched(LegsOf(db.journal, original))
    ensures RowMoves(db, Reverse(db, stamp, original, principal, key), s, 0, 0)
  {
    var legs := Mirror(LegsOf(db.journal, original));
    CommitMoves(db, stamp, ReversalHeader(original, principal, key), legs, s);
    UntouchedEffect(legs, s, Credit);
  }

  lemma OutsideKept(db: Db, tb: Tables, op: Op, s: Id)
    requires VaultExact(db, tb, s) && KeepsOff(db, op, s)
    ensures VaultExact(Ledger.Step(db, op), tb, s)
  {
    if Ledger.Step(db, op) != db {
      match op
      case PostOp(stamp, req, choice) => ForeignPostMoves(db, stamp, req, choice, s);
      case ReverseOp(stamp, original, principal, key) => ForeignReverseMoves(db, stamp, original, principal, key, s);
      case _ =>
    }
  }

  // ----- every run ---------------------------------------------------------------------------------------------------------

  lemma ApplyKept(cfg: Config, w: World, e: Event, s: Id)
    requires Sound(w) && Kept(w, s) && Respects(w.db, e, s)
    ensures Kept(Apply(cfg, w, e), s)
  {
    match e
    case Start(principal, key, payload) =>
      SumSnoc(HeldOn(s), w.tb.sagas, SagaRow(principal, key, payload, SagaPending, 0));
    case Outside(op) =>
      if Permitted(w.db, op) {
        OutsideKept(w.db, w.tb, op, s);
      }
    case Drive(d, act) =>
      if d in w.drivers {
        AlwaysInformed(w, d);
        DriverStepKept(cfg, w, d, act, s, Apply(cfg, w, e));
      }
    case _ =>
  }

  lemma {:induction false} PlayKept(cfg: Config, w: World, es: seq<Event>, s: Id)
    requires Inv(w.db) && Sound(w) && Kept(w, s) && RespectfulRun(cfg, w, es, s)
    ensures Kept(Play(cfg, w, es), s)
    decreases |es|
  {
    if es != [] {
      ApplyInv(cfg, w, es[0], Apply(cfg, w, es[0]));
      ApplySound(cfg, w, es[0]);
      ApplyKept(cfg, w, es[0], s);
      PlayKept(cfg, Apply(cfg, w, es[0]), es[1..], s);
    }
  }

  ghost predicate EmptyVault(db: Db, s: Id)
  {
    Untouched(db) && Vault(db, s) && db.balances[s].available == 0 && db.balances[s].pending == 0
  }

  /** Any newly opened credit-normal account that is not a shard will do. */
  lemma NewAccountIsVault(db: Db, s: Id, account: Account, allowNegative: bool)
    requires Untouched(db) && CanOpen(db, s) && Childless(db.accounts, s)
    requires NormalOf(account) == Credit && account.parent == None
    ensures EmptyVault(Open(db, s, account, allowNegative), s)
  {
    OpenKeepsInv(db, s, account, allowNegative);
  }

  /** In every reachable world suspense holds exactly what the holding sagas parked there, twice recorded. */
  lemma SuspenseExact(cfg: Config, db: Db, es: seq<Event>, s: Id)
    requires EmptyVault(db, s) && RespectfulRun(cfg, Opening(db), es, s)
    ensures var w := Play(cfg, Opening(db), es); VaultExact(w.db, w.tb, s) && RoleOnly(w.tb, s)
  {
    OpeningKept(db, s);
    PlayKept(cfg, Opening(db), es, s);
  }

  lemma OpeningKept(db: Db, s: Id)
    requires EmptyVault(db, s)
    ensures Sound(Opening(db)) && Kept(Opening(db), s)
  {
  }

  /** So that is what a balance read of suspense returns, as available and as pending alike. */
  lemma SuspenseReads(cfg: Config, db: Db, es: seq<Event>, s: Id)
    requires EmptyVault(db, s) && RespectfulRun(cfg, Opening(db), es, s)
    ensures var w := Play(cfg, Opening(db), es);
            && s in w.db.accounts
            && Sharding.LogicalAvailable(w.db, s) == Sum(HeldOn(s), w.tb.sagas)
            && Sharding.LogicalPending(w.db, s) == Sum(HeldOn(s), w.tb.sagas)
  {
    SuspenseExact(cfg, db, es, s);
    Sharding.UnshardedReadsItsRow(Play(cfg, Opening(db), es).db, s);
  }

  /** So a settle or a refund is never short of funds in suspense, and its hold can always be released. */
  lemma SuspenseCovers(cfg: Config, db: Db, es: seq<Event>, s: Id, i: nat, choice: map<Id, Id>)
    requires EmptyVault(db, s) && RespectfulRun(cfg, Opening(db), es, s)
    requires i < |Play(cfg, Opening(db), es).tb.sagas|
    requires var w := Play(cfg, Opening(db), es);
             var row := w.tb.sagas[i];
             && row.payload.suspense == s && Holds(row.status) && ValidPayload(row.payload)
             && ValidChoice(w.db.accounts, SettleLegs(row.payload), choice)
    ensures var w := Play(cfg, Opening(db), es);
            var p := w.tb.sagas[i].payload;
            && s in w.db.balances && CanHold(w.db, s, Release(p))
            && Affordable(w.db.balances[s], Sum(EffectOn(s, Credit), RouteLegs(choice, SettleLegs(p))))
            && forall t | t in OwnedTxs(w.db, i) ::
                 Affordable(w.db.balances[s], Sum(EffectOn(s, Credit), Mirror(LegsOf(w.db.journal, t))))
  {
    ReachableSound(cfg, db, es);
    SuspenseExact(cfg, db, es, s);
    var w := Play(cfg, Opening(db), es);
    CoversOne(w, s, i, choice);
  }

  lemma HoldsAtLeast(w: World, s: Id, i: nat)
    requires Linked(w.db, w.tb) && Kept(w, s) && i < |w.tb.sagas|
    requires w.tb.sagas[i].payload.suspense == s && Holds(w.tb.sagas[i].status)
    ensures w.db.balances[s].available >= w.tb.sagas[i].payload.amount && w.db.balances[s].pending >= w.tb.sagas[i].payload.amount
  {
    forall k | 0 <= k < |w.tb.sagas| ensures 0 <= HeldOn(s)(w.tb.sagas[k]) {
      assert BooksOf(w.db, w.tb.steps, w.tb.sagas[k], k);
    }
    SumNonNegative(HeldOn(s), w.tb.sagas);
    assert HeldOn(s)(w.tb.sagas[i]) == w.tb.sagas[i].payload.amount;
  }

  /** While a saga holds, the only transaction it owns is its reserve. */
  lemma HeldOwnsReserve(db: Db, steps: seq<Attempt>, row: SagaRow, i: nat, t: Id)
    requires BooksOf(db, steps, row, i) && ReversalsExact(db) && Holds(row.status) && t in OwnedTxs(db, i)
    ensures Routed(db.accounts, ReserveLegs(row.payload), LegsOf(db.journal, t))
  {
    OwnedIsNamed(db, steps, row, i, t);
  }

  lemma CoversOne(w: World, s: Id, i: nat, choice: map<Id, Id>)
    requires ReversalsExact(w.db) && Sound(w) && Kept(w, s) && i < |w.tb.sagas|
    requires var row := w.tb.sagas[i];
             && row.payload.suspense == s && Holds(row.status) && ValidPayload(row.payload)
             && ValidChoice(w.db.accounts, SettleLegs(row.payload), choice)
    ensures var p := w.tb.sagas[i].payload;
            && CanHold(w.db, s, Release(p))
            && Affordable(w.db.balances[s], Sum(EffectOn(s, Credit), RouteLegs(choice, SettleLegs(p))))
            && forall t | t in OwnedTxs(w.db, i) ::
                 Affordable(w.db.balances[s], Sum(EffectOn(s, Credit), Mirror(LegsOf(w.db.journal, t))))
  {
    var p := w.tb.sagas[i].payload;
    HoldsAtLeast(w, s, i);
    ChoiceRoutes(w.db.accounts, SettleLegs(p), choice);
    RoutedShare(w.db.accounts, SettleLegs(p), RouteLegs(choice, SettleLegs(p)), s);
    SettleShare(p, s);
    forall t | t in OwnedTxs(w.db, i)
      ensures Affordable(w.db.balances[s], Sum(EffectOn(s, Credit), Mirror(LegsOf(w.db.journal, t))))
    {
      HeldOwnsReserve(w.db, w.tb.steps, w.tb.sagas[i], i, t);
      RefundShare(w.db.accounts, p, LegsOf(w.db.journal, t), s);
    }
  }

  // ----- the documented pending equation -------------------------------------------------------------------------------------

  function InStatus(s: Id, status: Status): SagaRow -> int
  {
    (row: SagaRow) => if row.payload.suspense == s && row.status == status then row.payload.amount else 0
  }

  /** The sum the documentation names: every saga that is not in a terminal status. */
  function Unfinished(s: Id): SagaRow -> int
  {
    (row: SagaRow) => if row.payload.suspense == s && !Terminal(row.status) then row.payload.amount else 0
  }

  lemma {:induction false} HeldVersusUnfinished(rows: seq<SagaRow>, s: Id)
    ensures Sum(HeldOn(s), rows) + Sum(InStatus(s, SagaPending), rows)
         == Sum(Unfinished(s), rows) + Sum(InStatus(s, NeedsManualReview), rows)
  {
    if rows != [] {
      HeldVersusUnfinished(rows[1..], s);
      var row := rows[0];
      assert HeldOn(s)(row) + InStatus(s, SagaPending)(row) == Unfinished(s)(row) + InStatus(s, NeedsManualReview)(row);
    }
  }

  /** The documented equation holds exactly when what has not started equals what waits for a person. */
  lemma PendingEquation(cfg: Config, db: Db, es: seq<Event>, s: Id)
    requires EmptyVault(db, s) && RespectfulRun(cfg, Opening(db), es, s)
    ensures var w := Play(cfg, Opening(db), es);
            s in w.db.balances
            && (w.db.balances[s].pending == Sum(Unfinished(s), w.tb.sagas)
                <==> Sum(InStatus(s, SagaPending), w.tb.sagas) == Sum(InStatus(s, NeedsManualReview), w.tb.sagas))
  {
    SuspenseExact(cfg, db, es, s);
    HeldVersusUnfinished(Play(cfg, Opening(db), es).tb.sagas, s);
  }

  /** Starting one saga is already enough to break it. */
  lemma PendingEquationFails(cfg: Config, db: Db, s: Id, principal: string, payload: Payload)
    requires EmptyVault(db, s) && ValidPayload(payload) && payload.suspense == s
    ensures var w := Play(cfg, Opening(db), [Start(principal, None, payload)]);
            s in w.db.balances && w.db.balances[s].pending == 0 && Sum(Unfinished(s), w.tb.sagas) == payload.amount
  {
    var e := Start(principal, None, payload);
    var w := Apply(cfg, Opening(db), e);
    assert [e][1..] == [];
    assert Play(cfg, Opening(db), [e]) == Play(cfg, w, []);
    var row := SagaRow(principal, None, payload, SagaPending, 0);
    assert w.tb.sagas == [] + [row];
    SumSnoc(Unfinished(s), [], row);
  }
}
