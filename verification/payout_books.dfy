/**
 What a saga has on the books is decided by its status alone, in every state any interleaving of
 drivers, crashes, lost answers and outside postings can reach.
 */
module PayoutBooks {
  import opened Collections
  import opened LedgerTypes
  import opened Ledger
  import opened LedgerInvariants
  import opened SagaTypes
  import opened SagaStore
  import opened Payout

  // ----- a saga's transactions, as its status says they are --------------------------------------------

  /** A leg lands on the account it names or on one of that account's shards. */
  predicate RoutedLeg(accounts: map<Id, Account>, asked: Leg, got: Leg)
  {
    && got.direction == asked.direction && got.amount == asked.amount
    && (got.account == asked.account
        || (got.account in accounts && accounts[got.account].parent == Some(asked.account)))
  }

  predicate Routed(accounts: map<Id, Account>, asked: seq<Leg>, got: seq<Leg>)
  {
    |got| == |asked| && forall k | 0 <= k < |asked| :: RoutedLeg(accounts, asked[k], got[k])
  }

  predicate OnBooks(db: Db, t: Id, asked: seq<Leg>, status: TransactionStatus)
  {
    t in db.headers && db.headers[t].status == status && Routed(db.accounts, asked, LegsOf(db.journal, t))
  }

  /** A step has a transaction exactly when it should, the audit row names it, and nothing else carries its mark. */
  predicate StepBooks(db: Db, steps: seq<Attempt>, i: nat, step: Step, present: bool, asked: seq<Leg>, status: TransactionStatus)
  {
    var tx := FirstCommitted(steps, i, step, Forward);
    && (tx.Some? <==> present)
    && (forall t | t in db.headers :: db.headers[t].meta == SagaMeta(i, step) <==> tx == Some(t))
    && (tx.Some? ==> OnBooks(db, tx.value, asked, status))
  }

  predicate RefundBooks(db: Db, steps: seq<Attempt>, i: nat, present: bool)
  {
    var refund := FirstCommitted(steps, i, ReserveStep, Compensation);
    var reserve := FirstCommitted(steps, i, ReserveStep, Forward);
    && (refund.Some? <==> present)
    && (refund.Some? && reserve.Some? ==>
          && refund.value in db.headers
          && db.headers[refund.value].status == Posted && db.headers[refund.value].meta == Reverses(reserve.value))
  }

  predicate BooksOf(db: Db, steps: seq<Attempt>, row: SagaRow, i: nat)
  {
    && ValidPayload(row.payload)
    && StepBooks(db, steps, i, ReserveStep, HasReserve(row.status), ReserveLegs(row.payload),
                 if row.status == Compensated then Reversed else Posted)
    && StepBooks(db, steps, i, GatewayStep, false, [], Posted)
    && StepBooks(db, steps, i, SettleStep, row.status == Completed, SettleLegs(row.payload), Posted)
    && RefundBooks(db, steps, i, row.status == Compensated)
  }

  predicate NoStrays(db: Db, tb: Tables)
  {
    && (forall t | t in db.headers && db.headers[t].meta.SagaMeta? :: db.headers[t].meta.saga < |tb.sagas|)
    && (forall k | 0 <= k < |tb.steps| :: tb.steps[k].saga < |tb.sagas|)
  }

  predicate Linked(db: Db, tb: Tables)
  {
    && (forall j | 0 <= j < |tb.sagas| :: BooksOf(db, tb.steps, tb.sagas[j], j))
    && NoStrays(db, tb)
  }

  // ----- table statements that move no money ---------------------------------------------------------------

  /** Two statuses that describe the same books. */
  predicate SameMoney(s: Status, t: Status)
  {
    HasReserve(s) == HasReserve(t) && (s == Completed <==> t == Completed) && (s == Compensated <==> t == Compensated)
  }

  lemma AdvanceKeepsLinks(db: Db, tb: Tables, t: Transition)
    requires Linked(db, tb) && CanAdvance(tb, t) && SameMoney(t.from, t.to)
    ensures Linked(db, Advanced(tb, t)) && Linked(db, Escalated(tb, t))
  {
    assert BooksOf(db, tb.steps, tb.sagas[t.saga], t.saga);
    assert BooksOf(db, tb.steps, Advanced(tb, t).sagas[t.saga], t.saga);
  }

  /** An attempt row that names no committed transaction is invisible to the books. */
  lemma InsertKeepsLinks(db: Db, tb: Tables, a: Attempt)
    requires Linked(db, tb) && a.saga < |tb.sagas| && a.tx.None?
    ensures Linked(db, tb.(steps := tb.steps + [a]))
  {
    forall j | 0 <= j < |tb.sagas| ensures BooksOf(db, tb.steps + [a], tb.sagas[j], j) {
      assert BooksOf(db, tb.steps, tb.sagas[j], j);
      SameHistory(tb.steps, a, j);
    }
  }

  lemma SameHistory(steps: seq<Attempt>, a: Attempt, j: nat)
    requires a.tx.None? || a.saga != j
    ensures forall step, dir :: FirstCommitted(steps + [a], j, step, dir) == FirstCommitted(steps, j, step, dir)
  {
    forall step, dir ensures FirstCommitted(steps + [a], j, step, dir) == FirstCommitted(steps, j, step, dir) {
      FirstCommittedSnoc(steps, a, j, step, dir);
    }
  }

  lemma FinishKeepsLinks(db: Db, tb: Tables, k: nat, status: StepStatus)
    requires Linked(db, tb)
    ensures Linked(db, tb.(steps := Finished(tb.steps, k, status)))
  {
    var steps' := Finished(tb.steps, k, status);
    forall j | 0 <= j < |tb.sagas| ensures BooksOf(db, steps', tb.sagas[j], j) {
      assert BooksOf(db, tb.steps, tb.sagas[j], j);
      forall step, dir ensures FirstCommitted(steps', j, step, dir) == FirstCommitted(tb.steps, j, step, dir) {
        FirstCommittedFinished(tb.steps, k, status, j, step, dir);
      }
    }
  }

  lemma StartKeepsLinks(db: Db, tb: Tables, principal: string, key: Option<string>, payload: Payload)
    requires Linked(db, tb) && ValidPayload(payload)
    ensures Linked(db, NewSaga(tb, principal, key, payload))
  {
    var tb' := NewSaga(tb, principal, key, payload);
    if tb' != tb {
      var i := |tb.sagas|;
      forall j | 0 <= j < |tb'.sagas| ensures BooksOf(db, tb'.steps, tb'.sagas[j], j) {
        assert j < i ==> BooksOf(db, tb.steps, tb.sagas[j], j);
        assert j == i ==> forall step, dir :: FirstCommitted(tb.steps, i, step, dir).None?;
      }
    }
  }

  // ----- ledger writes and the sagas they are not about --------------------------------------------------------

  predicate OwnedBy(db: Db, t: Id, j: nat)
    requires t in db.headers
  {
    var meta := db.headers[t].meta;
    || (meta.SagaMeta? && meta.saga == j)
    || (meta.Reverses? && meta.tx in db.headers && db.headers[meta.tx].meta.SagaMeta? && db.headers[meta.tx].meta.saga == j)
  }

  predicate ParentsKept(accounts: map<Id, Account>, accounts': map<Id, Account>)
  {
    forall a | a in accounts :: a in accounts' && accounts'[a].parent == accounts[a].parent
  }

  /** Nothing a saga owns was touched, and nothing new carries its mark. */
  predicate Undisturbed(db: Db, db': Db, j: nat)
  {
    && ParentsKept(db.accounts, db'.accounts)
    && (forall t | t in db.headers ::
          && t in db'.headers && db'.headers[t].meta == db.headers[t].meta
          && LegsOf(db'.journal, t) == LegsOf(db.journal, t)
          && (OwnedBy(db, t, j) ==> db'.headers[t].status == db.headers[t].status))
    && (forall t | t in db'.headers && t !in db.headers && db'.headers[t].meta.SagaMeta? :: db'.headers[t].meta.saga != j)
  }

  lemma RoutedKept(accounts: map<Id, Account>, accounts': map<Id, Account>, asked: seq<Leg>, got: seq<Leg>)
    requires ParentsKept(accounts, accounts') && Routed(accounts, asked, got)
    ensures Routed(accounts', asked, got)
  {
    forall k | 0 <= k < |asked| ensures RoutedLeg(accounts', asked[k], got[k]) {
      assert RoutedLeg(accounts, asked[k], got[k]);
    }
  }

  lemma StepUndisturbed(db: Db, db': Db, steps: seq<Attempt>, i: nat, step: Step, present: bool, asked: seq<Leg>, status: TransactionStatus)
    requires StepBooks(db, steps, i, step, present, asked, status) && Undisturbed(db, db', i)
    ensures StepBooks(db', steps, i, step, present, asked, status)
  {
    var tx := FirstCommitted(steps, i, step, Forward);
    if tx.Some? {
      assert OwnedBy(db, tx.value, i);
      RoutedKept(db.accounts, db'.accounts, asked, LegsOf(db.journal, tx.value));
    }
  }

  lemma UndisturbedKeepsBooks(db: Db, db': Db, steps: seq<Attempt>, row: SagaRow, i: nat)
    requires BooksOf(db, steps, row, i) && Undisturbed(db, db', i)
    ensures BooksOf(db', steps, row, i)
  {
    StepUndisturbed(db, db', steps, i, ReserveStep, HasReserve(row.status), ReserveLegs(row.payload),
                    if row.status == Compensated then Reversed else Posted);
    StepUndisturbed(db, db', steps, i, GatewayStep, false, [], Posted);
    StepUndisturbed(db, db', steps, i, SettleStep, row.status == Completed, SettleLegs(row.payload), Posted);
    var refund := FirstCommitted(steps, i, ReserveStep, Compensation);
    var reserve := FirstCommitted(steps, i, ReserveStep, Forward);
    assert refund.Some? && reserve.Some? ==> OwnedBy(db, refund.value, i);
  }

  // ----- the shape each ledger write leaves -------------------------------------------------------------------

  /** One new transaction with these legs; every older one reads as before. */
  ghost predicate Appended(db: Db, db': Db, tx: Id, legs: seq<Leg>)
  {
    && tx !in db.headers && tx != NIL
    && (forall t :: LegsOf(db'.journal, t) == if t == tx then legs else LegsOf(db.journal, t))
  }

  lemma CommitAppends(db: Db, stamp: Stamp, header: Header, legs: seq<Leg>)
    requires Schema(db) && CanCommit(db, stamp, legs)
    ensures Appended(db, Commit(db, stamp, header, legs), stamp.tx, legs)
  {
    forall t
      ensures LegsOf(Commit(db, stamp, header, legs).journal, t) == if t == stamp.tx then legs else LegsOf(db.journal, t)
    {
      LegsAfterCommit(db, stamp, legs, t);
    }
  }

  lemma ChoiceRoutes(accounts: map<Id, Account>, legs: seq<Leg>, choice: map<Id, Id>)
    requires ValidChoice(accounts, legs, choice)
    ensures Routed(accounts, legs, RouteLegs(choice, legs))
  {
  }

  lemma PostShape(db: Db, stamp: Stamp, req: Request, choice: map<Id, Id>, id: Id, delta: int, db': Db)
    requires Schema(db) && PostAndHold(db, stamp, req, choice, id, delta) == Some(db')
    ensures Appended(db, db', stamp.tx, RouteLegs(choice, req.legs))
    ensures db'.headers == db.headers[stamp.tx := HeaderFor(req)] && db'.accounts == db.accounts
    ensures Routed(db.accounts, req.legs, RouteLegs(choice, req.legs))
  {
    CommitAppends(db, stamp, HeaderFor(req), RouteLegs(choice, req.legs));
    ChoiceRoutes(db.accounts, req.legs, choice);
  }

  lemma ReverseShape(db: Db, stamp: Stamp, original: Id, id: Id, delta: int, db': Db)
    requires Schema(db) && ReverseAndHold(db, stamp, original, id, delta) == Some(db')
    ensures Appended(db, db', stamp.tx, Mirror(LegsOf(db.journal, original)))
    ensures original in db.headers && db.headers[original].status == Posted
    ensures db'.headers == db.headers[stamp.tx := ReversalHeader(original, "", None)]
                                     [original := db.headers[original].(status := Reversed)]
    ensures db'.accounts == db.accounts
  {
    CommitAppends(db, stamp, ReversalHeader(original, "", None), Mirror(LegsOf(db.journal, original)));
  }

  // ----- committed steps ------------------------------------------------------------------------------------------

  lemma OthersUndisturbed(db: Db, db': Db, tx: Id, legs: seq<Leg>, header: Header, i: nat, j: nat)
    requires Appended(db, db', tx, legs) && db'.accounts == db.accounts && i != j
    requires db'.headers == db.headers[tx := header] && (header.meta.SagaMeta? ==> header.meta.saga == i)
    ensures Undisturbed(db, db', j)
  {
  }

  /** Posting one step's transaction and its audit row leaves every other saga's books alone. */
  lemma OthersAfterPost(db: Db, db': Db, tb: Tables, tx: Id, legs: seq<Leg>, header: Header, a: Attempt, j: nat)
    requires Linked(db, tb) && j < |tb.sagas| && a.saga != j
    requires Appended(db, db', tx, legs) && db'.accounts == db.accounts
    requires db'.headers == db.headers[tx := header] && header.meta.SagaMeta? && header.meta.saga == a.saga
    ensures BooksOf(db', tb.steps + [a], tb.sagas[j], j)
  {
    assert BooksOf(db, tb.steps, tb.sagas[j], j);
    OthersUndisturbed(db, db', tx, legs, header, a.saga, j);
    UndisturbedKeepsBooks(db, db', tb.steps, tb.sagas[j], j);
    SameHistory(tb.steps, a, j);
  }

  /** What a forward ledger step leaves: one more transaction under the step's mark, and the row that names it. */
  ghost predicate Stamped(db: Db, db': Db, tx: Id, legs: seq<Leg>, header: Header, a: Attempt)
  {
    && Appended(db, db', tx, legs) && db'.accounts == db.accounts && db'.headers == db.headers[tx := header]
    && header.status == Posted && header.meta == SagaMeta(a.saga, a.step)
    && a.direction == Forward && a.status == StepSucceeded && a.tx == Some(tx)
  }

  /** The saga's other steps are as they were. */
  lemma OtherStepKept(db: Db, db': Db, steps: seq<Attempt>, tx: Id, legs: seq<Leg>, header: Header, a: Attempt,
                      step: Step, present: bool, asked: seq<Leg>, status: TransactionStatus)
    requires StepBooks(db, steps, a.saga, step, present, asked, status) && Stamped(db, db', tx, legs, header, a) && step != a.step
    ensures StepBooks(db', steps + [a], a.saga, step, present, asked, status)
  {
    FirstCommittedSnoc(steps, a, a.saga, step, Forward);
    var found := FirstCommitted(steps, a.saga, step, Forward);
    assert found.Some? ==> OnBooks(db', found.value, asked, status);
  }

  /** The step that just committed is on the books under its own mark. */
  lemma OwnStepMade(db: Db, db': Db, steps: seq<Attempt>, tx: Id, legs: seq<Leg>, header: Header, a: Attempt, asked: seq<Leg>)
    requires StepBooks(db, steps, a.saga, a.step, false, asked, Posted)
    requires Stamped(db, db', tx, legs, header, a) && Routed(db.accounts, asked, legs)
    ensures StepBooks(db', steps + [a], a.saga, a.step, true, asked, Posted)
  {
    FirstCommittedSnoc(steps, a, a.saga, a.step, Forward);
    assert OnBooks(db', tx, asked, Posted);
  }

  lemma StillUnrefunded(db: Db, db': Db, steps: seq<Attempt>, a: Attempt)
    requires RefundBooks(db, steps, a.saga, false) && a.direction == Forward
    ensures RefundBooks(db', steps + [a], a.saga, false)
  {
    FirstCommittedSnoc(steps, a, a.saga, ReserveStep, Compensation);
  }

  lemma OwnAfterReserve(db: Db, db': Db, steps: seq<Attempt>, row: SagaRow, tx: Id, legs: seq<Leg>, header: Header, a: Attempt)
    requires BooksOf(db, steps, row, a.saga) && row.status == SagaPending && a.step == ReserveStep
    requires Stamped(db, db', tx, legs, header, a) && Routed(db.accounts, ReserveLegs(row.payload), legs)
    ensures BooksOf(db', steps + [a], row.(status := SagaReserved, retry := 0), a.saga)
  {
    OwnStepMade(db, db', steps, tx, legs, header, a, ReserveLegs(row.payload));
    OtherStepKept(db, db', steps, tx, legs, header, a, GatewayStep, false, [], Posted);
    OtherStepKept(db, db', steps, tx, legs, header, a, SettleStep, false, SettleLegs(row.payload), Posted);
    StillUnrefunded(db, db', steps, a);
  }

  lemma OwnAfterSettle(db: Db, db': Db, steps: seq<Attempt>, row: SagaRow, tx: Id, legs: seq<Leg>, header: Header, a: Attempt)
    requires BooksOf(db, steps, row, a.saga) && row.status == GatewaySucceeded && a.step == SettleStep
    requires Stamped(db, db', tx, legs, header, a) && Routed(db.accounts, SettleLegs(row.payload), legs)
    ensures BooksOf(db', steps + [a], row.(status := Completed, retry := 0), a.saga)
  {
    OtherStepKept(db, db', steps, tx, legs, header, a, ReserveStep, true, ReserveLegs(row.payload), Posted);
    OtherStepKept(db, db', steps, tx, legs, header, a, GatewayStep, false, [], Posted);
    OwnStepMade(db, db', steps, tx, legs, header, a, SettleLegs(row.payload));
    StillUnrefunded(db, db', steps, a);
  }

  lemma PostLinks(db: Db, db': Db, tb: Tables, tx: Id, legs: seq<Leg>, header: Header, a: Attempt, t: Transition)
    requires Linked(db, tb) && CanStep(tb, a, t) && a.saga == t.saga
    requires Stamped(db, db', tx, legs, header, a)
    requires BooksOf(db', tb.steps + [a], tb.sagas[a.saga].(status := t.to, retry := t.retry), a.saga)
    ensures Linked(db', Stepped(tb, a, t))
  {
    var tb' := Stepped(tb, a, t);
    forall j | 0 <= j < |tb.sagas| && j != a.saga ensures BooksOf(db', tb'.steps, tb'.sagas[j], j) {
      OthersAfterPost(db, db', tb, tx, legs, header, a, j);
    }
  }

  /** The refund flips exactly the reserve's status and adds one transaction that carries no saga mark of its own. */
  predicate Flipped(db: Db, db': Db, tx: Id, original: Id)
  {
    && tx !in db.headers && original in db.headers && db'.accounts == db.accounts
    && db'.headers == db.headers[tx := ReversalHeader(original, "", None)]
                                [original := db.headers[original].(status := Reversed)]
  }

  lemma RefundOthers(db: Db, db': Db, tx: Id, original: Id, legs: seq<Leg>, j: nat)
    requires Appended(db, db', tx, legs) && Flipped(db, db', tx, original) && !OwnedBy(db, original, j)
    ensures Undisturbed(db, db', j)
  {
  }

  lemma RefundStep(db: Db, db': Db, steps: seq<Attempt>, tx: Id, original: Id, legs: seq<Leg>, a: Attempt,
                   step: Step, present: bool, asked: seq<Leg>)
    requires StepBooks(db, steps, a.saga, step, present, asked, Posted)
    requires Appended(db, db', tx, legs) && Flipped(db, db', tx, original)
    requires a.direction == Compensation
    requires step == ReserveStep <==> FirstCommitted(steps, a.saga, step, Forward) == Some(original)
    ensures StepBooks(db', steps + [a], a.saga, step, present, asked, if step == ReserveStep then Reversed else Posted)
  {
    FirstCommittedSnoc(steps, a, a.saga, step, Forward);
    var found := FirstCommitted(steps, a.saga, step, Forward);
    assert found.Some? ==> OnBooks(db, found.value, asked, Posted);
  }

  lemma OwnAfterRefund(db: Db, db': Db, steps: seq<Attempt>, row: SagaRow, tx: Id, legs: seq<Leg>, original: Id, a: Attempt)
    requires BooksOf(db, steps, row, a.saga) && row.status == Compensating
    requires Appended(db, db', tx, legs) && Flipped(db, db', tx, original)
    requires FirstCommitted(steps, a.saga, ReserveStep, Forward) == Some(original)
    requires a.step == ReserveStep && a.direction == Compensation && a.status == StepSucceeded && a.tx == Some(tx)
    ensures BooksOf(db', steps + [a], row.(status := Compensated, retry := 0), a.saga)
  {
    RefundStep(db, db', steps, tx, original, legs, a, ReserveStep, true, ReserveLegs(row.payload));
    RefundStep(db, db', steps, tx, original, legs, a, GatewayStep, false, []);
    RefundStep(db, db', steps, tx, original, legs, a, SettleStep, false, SettleLegs(row.payload));
    FirstCommittedSnoc(steps, a, a.saga, ReserveStep, Compensation);
    FirstCommittedSnoc(steps, a, a.saga, ReserveStep, Forward);
  }

  lemma OthersAfterRefund(db: Db, db': Db, tb: Tables, tx: Id, legs: seq<Leg>, original: Id, a: Attempt, j: nat)
    requires Linked(db, tb) && j < |tb.sagas| && j != a.saga
    requires Appended(db, db', tx, legs) && Flipped(db, db', tx, original)
    requires db.headers[original].meta == SagaMeta(a.saga, ReserveStep)
    ensures BooksOf(db', tb.steps + [a], tb.sagas[j], j)
  {
    assert BooksOf(db, tb.steps, tb.sagas[j], j);
    RefundOthers(db, db', tx, original, legs, j);
    UndisturbedKeepsBooks(db, db', tb.steps, tb.sagas[j], j);
    SameHistory(tb.steps, a, j);
  }

  lemma RefundLinks(db: Db, db': Db, tb: Tables, tx: Id, legs: seq<Leg>, original: Id, a: Attempt, t: Transition)
    requires Linked(db, tb) && CanStep(tb, a, t) && a.saga == t.saga
    requires Appended(db, db', tx, legs) && Flipped(db, db', tx, original)
    requires db.headers[original].meta == SagaMeta(a.saga, ReserveStep)
    requires BooksOf(db', tb.steps + [a], tb.sagas[a.saga].(status := t.to, retry := t.retry), a.saga)
    ensures Linked(db', Stepped(tb, a, t))
  {
    var tb' := Stepped(tb, a, t);
    forall j | 0 <= j < |tb.sagas| && j != a.saga ensures BooksOf(db', tb'.steps, tb'.sagas[j], j) {
      OthersAfterRefund(db, db', tb, tx, legs, original, a, j);
    }
  }

  // ----- the ledger's other users -----------------------------------------------------------------------------------

  /** A plain write by someone else: a transaction without a saga's mark, at most one foreign status changed. */
  lemma ForeignWrite(db: Db, db': Db, tx: Id, legs: seq<Leg>, header: Header, j: nat)
    requires Appended(db, db', tx, legs) && db'.accounts == db.accounts && !header.meta.SagaMeta?
    requires db'.headers.Keys == db.headers.Keys + {tx} && db'.headers[tx].meta == header.meta
    requires forall t | t in db.headers :: db'.headers[t].meta == db.headers[t].meta
    requires forall t | t in db.headers && OwnedBy(db, t, j) :: db'.headers[t] == db.headers[t]
    ensures Undisturbed(db, db', j)
  {
  }

  lemma ForeignReversal(db: Db, stamp: Stamp, original: Id, principal: string, key: Option<Key>, db': Db, j: nat)
    requires Schema(db) && CanReverse(db, stamp, original, principal, key) && !SagaOwned(db, original)
    requires db' == Reverse(db, stamp, original, principal, key)
    ensures Undisturbed(db, db', j)
  {
    var header := ReversalHeader(original, principal, key);
    var legs := Mirror(LegsOf(db.journal, original));
    CommitAppends(db, stamp, header, legs);
    assert db'.headers == db.headers[stamp.tx := header][original := db.headers[original].(status := Reversed)];
    assert !OwnedBy(db, original, j);
    ForeignWrite(db, db', stamp.tx, legs, header, j);
  }

  lemma ForeignPost(db: Db, stamp: Stamp, req: Request, choice: map<Id, Id>, db': Db, j: nat)
    requires Schema(db) && CanPost(db, stamp, req, choice) && !req.meta.SagaMeta?
    requires db' == Post(db, stamp, req, choice)
    ensures Undisturbed(db, db', j)
  {
    CommitAppends(db, stamp, HeaderFor(req), RouteLegs(choice, req.legs));
    ForeignWrite(db, db', stamp.tx, RouteLegs(choice, req.legs), HeaderFor(req), j);
  }

  lemma OutsideUndisturbed(db: Db, op: Op, j: nat)
    requires Schema(db) && Permitted(db, op)
    ensures Undisturbed(db, Ledger.Step(db, op), j)
  {
    if Ledger.Step(db, op) != db {
      match op
      case PostOp(stamp, req, choice) => ForeignPost(db, stamp, req, choice, Ledger.Step(db, op), j);
      case ReverseOp(stamp, original, principal, key) =>
        ForeignReversal(db, stamp, original, principal, key, Ledger.Step(db, op), j);
      case _ =>
    }
  }

  lemma OutsideKeepsLinks(db: Db, tb: Tables, op: Op)
    requires Inv(db) && Linked(db, tb) && Permitted(db, op)
    ensures Linked(Ledger.Step(db, op), tb)
  {
    var db' := Ledger.Step(db, op);
    forall j | 0 <= j < |tb.sagas| ensures BooksOf(db', tb.steps, tb.sagas[j], j) {
      OutsideUndisturbed(db, op, j);
      UndisturbedKeepsBooks(db, db', tb.steps, tb.sagas[j], j);
    }
    forall t | t in db'.headers && db'.headers[t].meta.SagaMeta? ensures db'.headers[t].meta.saga < |tb.sagas| {
      OutsideUndisturbed(db, op, db'.headers[t].meta.saga);
    }
  }
}
