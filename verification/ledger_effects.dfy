/** What posts and reversals do, told by account type, account status and header rather than by sign conventions. */
module LedgerEffects {
  import opened Collections
  import opened LedgerTypes
  import opened Ledger
  import opened LedgerInvariants

  // ----- debits and credits ---------------------------------------------------------------------------

  /** What one leg puts on one side of an account. */
  function On(a: Id, side: Direction): Leg -> int
  {
    (l: Leg) => if l.account == a && l.direction == side then l.amount.amountMinor else 0
  }

  /** Assets and expenses grow by debits; liabilities, equity and revenue grow by credits. */
  function Grows(t: AccountType, debits: int, credits: int): int
  {
    match t
    case Asset => debits - credits
    case Expense => debits - credits
    case Liability => credits - debits
    case Equity => credits - debits
    case Revenue => credits - debits
  }

  /** The net effect on an account of a type, from the legs' sides alone. */
  function NetOn(t: AccountType, a: Id, legs: seq<Leg>): int
  {
    Grows(t, Sum(On(a, Debit), legs), Sum(On(a, Credit), legs))
  }

  lemma {:induction false} EffectByType(t: AccountType, a: Id, legs: seq<Leg>)
    requires forall i | 0 <= i < |legs| :: ValidDirection(legs[i].direction)
    ensures Sum(EffectOn(a, NormalBalance(t)), legs) == NetOn(t, a, legs)
  {
    if legs != [] {
      assert forall i | 0 <= i < |legs[1..]| :: legs[1..][i] == legs[i + 1];
      EffectByType(t, a, legs[1..]);
    }
  }

  lemma CommitByType(db: Db, stamp: Stamp, header: Header, legs: seq<Leg>, a: Id)
    requires CanCommit(db, stamp, legs) && a in db.accounts && a in db.balances
    ensures var db' := Commit(db, stamp, header, legs);
            a in db'.balances && db'.balances[a].available == db.balances[a].available + NetOn(db.accounts[a].atype, a, legs)
  {
    EffectByType(db.accounts[a].atype, a, legs);
    if a !in Touched(legs) {
      UntouchedEffect(legs, a, NormalOf(db.accounts[a]));
    }
  }

  /** A post moves every account by the debits and credits on it, the way its type counts them. */
  lemma PostByType(db: Db, stamp: Stamp, req: Request, choice: map<Id, Id>, a: Id)
    requires CanPost(db, stamp, req, choice) && a in db.accounts && a in db.balances
    ensures var db' := Post(db, stamp, req, choice);
            && a in db'.balances
            && db'.balances[a].available
               == db.balances[a].available + NetOn(db.accounts[a].atype, a, RouteLegs(choice, req.legs))
  {
    CommitByType(db, stamp, HeaderFor(req), RouteLegs(choice, req.legs), a);
  }

  lemma {:induction false} MirrorSides(a: Id, legs: seq<Leg>)
    requires forall i | 0 <= i < |legs| :: ValidDirection(legs[i].direction)
    ensures Sum(On(a, Debit), Mirror(legs)) == Sum(On(a, Credit), legs)
    ensures Sum(On(a, Credit), Mirror(legs)) == Sum(On(a, Debit), legs)
  {
    if legs != [] {
      assert forall i | 0 <= i < |legs[1..]| :: legs[1..][i] == legs[i + 1];
      assert Mirror(legs)[1..] == Mirror(legs[1..]);
      MirrorSides(a, legs[1..]);
    }
  }

  /** A reversal moves every account by the original's sides exchanged. */
  lemma ReverseByType(db: Db, stamp: Stamp, original: Id, principal: string, key: Option<Key>, a: Id)
    requires Schema(db) && CanReverse(db, stamp, original, principal, key) && a in db.accounts
    ensures var legs := LegsOf(db.journal, original);
            var db' := Reverse(db, stamp, original, principal, key);
            && a in db'.balances
            && db'.balances[a].available == db.balances[a].available
               + Grows(db.accounts[a].atype, Sum(On(a, Credit), legs), Sum(On(a, Debit), legs))
  {
    ReadBackProper(db, original);
    MirrorSides(a, LegsOf(db.journal, original));
    CommitByType(db, stamp, ReversalHeader(original, principal, key), Mirror(LegsOf(db.journal, original)), a);
  }

  /** In every reachable ledger a stored balance is the debits and credits journaled on the account, as its type counts them. */
  lemma BalanceByType(ops: seq<Op>, a: Id)
    requires a in Run(EMPTY, ops).accounts
    ensures var db := Run(EMPTY, ops);
            a in db.balances && db.balances[a].available == NetOn(db.accounts[a].atype, a, Legs(db.journal))
  {
    ReachableInv(ops);
    var db := Run(EMPTY, ops);
    forall i | 0 <= i < |Legs(db.journal)| ensures ValidDirection(Legs(db.journal)[i].direction) {
      assert EntryOk(db.headers.Keys, db.accounts, db.journal[i]);
    }
    EffectByType(db.accounts[a].atype, a, Legs(db.journal));
  }

  // ----- accounts that take no postings ---------------------------------------------------------------------

  /** While an account is frozen or closed, nothing moves its balance or its version. */
  lemma InactiveNeverMoves(db: Db, op: Op, a: Id)
    requires a in db.accounts && a in db.balances && db.accounts[a].status != Active
    ensures var db' := Ledger.Step(db, op);
            && a in db'.balances && db'.balances[a].available == db.balances[a].available
            && db'.balances[a].version == db.balances[a].version
  {
  }

  /** Taking an account out of service makes the ledger refuse every post that would reach it. */
  lemma FrozenRefuses(db: Db, a: Id, status: AccountStatus, stamp: Stamp, req: Request, choice: map<Id, Id>)
    requires a in db.accounts && status != Active && a in Touched(RouteLegs(choice, req.legs))
    ensures !CanPost(WithStatus(db, a, status), stamp, req, choice)
  {
  }

  // ----- what an account keeps for life ------------------------------------------------------------------------

  /** Everything about an account but its status and its money. */
  predicate SameAccount(db: Db, db': Db, a: Id)
  {
    && a in db.accounts && a in db'.accounts && a in db.balances && a in db'.balances
    && db'.accounts[a].(status := Active) == db.accounts[a].(status := Active)
    && db'.balances[a].allowNegative == db.balances[a].allowNegative
  }

  lemma StepKeepsAccount(db: Db, op: Op, a: Id)
    requires a in db.accounts && a in db.balances
    ensures SameAccount(db, Ledger.Step(db, op), a)
  {
  }

  lemma {:induction false} RunKeepsAccount(db: Db, ops: seq<Op>, a: Id)
    requires a in db.accounts && a in db.balances
    ensures SameAccount(db, Run(db, ops), a)
    decreases |ops|
  {
    if ops != [] {
      StepKeepsAccount(db, ops[0], a);
      RunKeepsAccount(Ledger.Step(db, ops[0]), ops[1..], a);
    }
  }

  /** An account opened without leave to go negative starts at zero and is never below it, whatever happens later. */
  lemma OpenedNeverOverdrawn(before: seq<Op>, id: Id, account: Account, later: seq<Op>)
    requires CanOpen(Run(EMPTY, before), id)
    ensures var db := Open(Run(EMPTY, before), id, account, false);
            && db.balances[id].available == 0 && db.balances[id].pending == 0
            && SameAccount(db, Run(db, later), id) && Run(db, later).balances[id].available >= 0
  {
    var db := Open(Run(EMPTY, before), id, account, false);
    ReachableInv(before);
    OpenKeepsInv(Run(EMPTY, before), id, account, false);
    RunKeepsInv(db, later);
    RunKeepsAccount(db, later, id);
  }

  // ----- holds -----------------------------------------------------------------------------------------------------

  predicate NoNegativeHold(db: Db)
  {
    forall a | a in db.balances :: db.balances[a].pending >= 0
  }

  lemma CommitKeepsHolds(db: Db, stamp: Stamp, header: Header, legs: seq<Leg>)
    requires NoNegativeHold(db) && CanCommit(db, stamp, legs)
    ensures NoNegativeHold(Commit(db, stamp, header, legs))
  {
  }

  lemma StepKeepsHolds(db: Db, op: Op)
    requires NoNegativeHold(db)
    ensures NoNegativeHold(Ledger.Step(db, op))
  {
    match op
    case PostOp(stamp, req, choice) =>
      if CanPost(db, stamp, req, choice) {
        CommitKeepsHolds(db, stamp, HeaderFor(req), RouteLegs(choice, req.legs));
      }
    case ReverseOp(stamp, original, principal, key) =>
      if CanReverse(db, stamp, original, principal, key) {
        CommitKeepsHolds(db, stamp, ReversalHeader(original, principal, key), Mirror(LegsOf(db.journal, original)));
      }
    case _ =>
  }

  /** No run ever takes a pending amount below zero. */
  lemma {:induction false} RunKeepsHolds(db: Db, ops: seq<Op>)
    requires NoNegativeHold(db)
    ensures NoNegativeHold(Run(db, ops))
    decreases |ops|
  {
    if ops != [] {
      StepKeepsHolds(db, ops[0]);
      RunKeepsHolds(Ledger.Step(db, ops[0]), ops[1..]);
    }
  }

  /** A hold is taken exactly when the row exists and its pending amount stays within a non-negative int64. */
  lemma HoldTaken(db: Db, id: Id, delta: int)
    requires delta != 0
    ensures Ledger.Step(db, Hold(id, delta)) != db
       <==> id in db.balances && 0 <= db.balances[id].pending + delta <= 0x7FFF_FFFF_FFFF_FFFF
  {
    if CanHold(db, id, delta) {
      assert Ledger.Step(db, Hold(id, delta)).balances[id].pending != db.balances[id].pending;
    }
  }

  // ----- headers and events ---------------------------------------------------------------------------------------

  /** A posted transaction is recorded under its request's own type, principal, key and mark. */
  lemma PostHeader(db: Db, stamp: Stamp, req: Request, choice: map<Id, Id>)
    requires CanPost(db, stamp, req, choice)
    ensures var headers := Post(db, stamp, req, choice).headers;
            && headers.Keys == db.headers.Keys + {stamp.tx} && headers - {stamp.tx} == db.headers
            && headers[stamp.tx].ttype == req.ttype && headers[stamp.tx].status == Posted
            && headers[stamp.tx].principal == req.principal && headers[stamp.tx].key == req.key
            && headers[stamp.tx].meta == req.meta
  {
  }

  /** A reversal is recorded as one, names the original, and changes nothing of it but its status. */
  lemma ReverseHeader(db: Db, stamp: Stamp, original: Id, principal: string, key: Option<Key>)
    requires CanReverse(db, stamp, original, principal, key)
    ensures var headers := Reverse(db, stamp, original, principal, key).headers;
            && headers.Keys == db.headers.Keys + {stamp.tx}
            && headers - {stamp.tx, original} == db.headers - {original}
            && headers[stamp.tx].ttype == Reversal && headers[stamp.tx].status == Posted
            && headers[stamp.tx].meta == Reverses(original)
            && headers[original] == db.headers[original].(status := Reversed)
  {
  }

  /** Every event says of its transaction whether it is a reversal. */
  predicate EventsTell(db: Db)
  {
    forall i | 0 <= i < |db.outbox| ::
      db.outbox[i].id in db.headers && (db.outbox[i].reversal <==> db.headers[db.outbox[i].id].meta.Reverses?)
  }

  lemma CommitTells(db: Db, stamp: Stamp, header: Header, legs: seq<Leg>)
    requires EventsTell(db) && CanCommit(db, stamp, legs)
    ensures EventsTell(Commit(db, stamp, header, legs))
  {
  }

  lemma StepTells(db: Db, op: Op)
    requires EventsTell(db)
    ensures EventsTell(Ledger.Step(db, op))
  {
    match op
    case PostOp(stamp, req, choice) =>
      if CanPost(db, stamp, req, choice) {
        CommitTells(db, stamp, HeaderFor(req), RouteLegs(choice, req.legs));
      }
    case ReverseOp(stamp, original, principal, key) =>
      if CanReverse(db, stamp, original, principal, key) {
        CommitTells(db, stamp, ReversalHeader(original, principal, key), Mirror(LegsOf(db.journal, original)));
      }
    case _ =>
  }

  /** Over every run, an event is a reversal event exactly when its transaction's header reverses another. */
  lemma {:induction false} RunTells(db: Db, ops: seq<Op>)
    requires EventsTell(db)
    ensures EventsTell(Run(db, ops))
    decreases |ops|
  {
    if ops != [] {
      StepTells(db, ops[0]);
      RunTells(Ledger.Step(db, ops[0]), ops[1..]);
    }
  }
}
