/** Statements and balances tell one story: what a statement closes at is what the balance read returns. */
module StatementBalance {
  import opened Collections
  import opened LedgerTypes
  import opened Ledger
  import opened LedgerInvariants
  import opened Sharding
  import opened Statement
  import LedgerEffects
  import Consistency

  // ----- entry by entry, or account by account -----------------------------------------------------------

  /** What the journal says each row of a family holds, counted on one normal side. */
  function RowSum(journal: seq<Entry>, normal: Direction): Id -> int
  {
    (x: Id) => Sum(EffectOn(x, normal), Legs(journal))
  }

  lemma RowSumSnoc(journal: seq<Entry>, e: Entry, normal: Direction, x: Id)
    ensures RowSum(journal + [e], normal)(x) == RowSum(journal, normal)(x) + EffectOn(x, normal)(e.leg)
  {
    assert Legs(journal + [e]) == Legs(journal) + [e.leg];
    SumSnoc(EffectOn(x, normal), Legs(journal), e.leg);
  }

  /** One more entry moves the family's total by what a statement says it is worth. */
  lemma RowSumsSnoc(accounts: map<Id, Account>, a: Id, journal: seq<Entry>, e: Entry)
    requires a in accounts
    ensures var n, rows := NormalOf(accounts[a]), Physical(accounts, a);
            SumOver(RowSum(journal + [e], n), rows)
            == SumOver(RowSum(journal, n), rows) + if Mine(accounts, a, e) then SignedOf(accounts, a, e) else 0
  {
    var n, rows := NormalOf(accounts[a]), Physical(accounts, a);
    forall x | x in rows ensures RowSum(journal + [e], n)(x) == RowSum(journal, n)(x) + EffectOn(x, n)(e.leg) {
      RowSumSnoc(journal, e, n, x);
    }
    if Mine(accounts, a, e) {
      SumOverOne(RowSum(journal, n), RowSum(journal + [e], n), rows, e.leg.account);
    } else {
      SumOverEqual(RowSum(journal, n), RowSum(journal + [e], n), rows);
    }
  }

  /** Summed entry by entry over the family, the journal gives what its rows give together. */
  lemma {:induction false} FamilySum(accounts: map<Id, Account>, a: Id, journal: seq<Entry>, at: int)
    requires a in accounts && forall e | e in journal :: e.createdAt <= at
    ensures Sum(Counts(accounts, a, None, Until(at)), journal)
         == SumOver(RowSum(journal, NormalOf(accounts[a])), Physical(accounts, a))
    decreases |journal|
  {
    var f := Counts(accounts, a, None, Until(at));
    if journal == [] {
      Consistency.SumOverZero(RowSum([], NormalOf(accounts[a])), Physical(accounts, a));
    } else {
      var head, e := journal[..|journal| - 1], journal[|journal| - 1];
      assert journal == head + [e];
      FamilySum(accounts, a, head, at);
      SumSnoc(f, head, e);
      RowSumsSnoc(accounts, a, head, e);
    }
  }

  lemma RowsAreBalances(db: Db, a: Id)
    requires Schema(db) && NoDrift(db) && ShardsMirrorParents(db.accounts) && Logical(db.accounts, a)
    ensures SumOver(RowSum(db.journal, NormalOf(db.accounts[a])), Physical(db.accounts, a)) == LogicalAvailable(db, a)
  {
    var n := NormalOf(db.accounts[a]);
    forall x | x in Physical(db.accounts, a) ensures RowSum(db.journal, n)(x) == AvailableOf(db.balances)(x) {
      assert NormalOf(db.accounts[x]) == n;
    }
    SumOverEqual(RowSum(db.journal, n), AvailableOf(db.balances), Physical(db.accounts, a));
  }

  /** In every reachable ledger the balance as of an instant no entry lies beyond is the balance that is read. */
  lemma AsOfIsBalance(ops: seq<Op>, a: Id, at: int)
    requires var db := Run(EMPTY, ops);
             && ShardsMirrorParents(db.accounts) && Logical(db.accounts, a)
             && forall e | e in db.journal :: e.createdAt <= at
    ensures BalanceAsOf(Run(EMPTY, ops), a, at) == LogicalAvailable(Run(EMPTY, ops), a)
  {
    ReachableInv(ops);
    var db := Run(EMPTY, ops);
    FamilySum(db.accounts, a, db.journal, at);
    RowsAreBalances(db, a);
  }

  // ----- walks --------------------------------------------------------------------------------------------------

  lemma LastOf(page: Page, rest: seq<Page>)
    requires rest != []
    ensures ([page] + rest)[|[page] + rest| - 1] == rest[|rest| - 1]
  {
  }

  /** However the ledger changes between requests, a finished walk closes at the balance its last request saw. */
  lemma {:induction false} WalkCloses(dbs: seq<Db>, a: Id, lo: Cursor, stop: int, limit: nat, pages: seq<Page>)
    requires Readable(dbs, a) && limit >= 1 && lo.at <= stop && pages == Walk(dbs, a, lo, stop, limit) && Finished(pages)
    ensures 1 <= |pages| <= |dbs| && pages[|pages| - 1].closing == BalanceAsOf(dbs[|pages| - 1], a, stop)
    decreases |dbs|
  {
    var page := PageFrom(dbs[0], a, lo, stop, limit);
    if page.next.Some? {
      var k := page.next.value;
      WalkOn(dbs, a, lo, stop, limit, page, k);
      var rest := Walk(dbs[1..], a, k, stop, limit);
      FinishedCons(page, rest);
      if rest != [] {
        NextInside(dbs[0], a, lo, stop, limit, k);
        WalkCloses(dbs[1..], a, k, stop, limit, rest);
        LastOf(page, rest);
      }
    } else {
      WalkStarts(dbs, a, lo, stop, limit, page);
      PageCloses(dbs[0], a, lo, stop, limit);
    }
  }

  /** So a statement up to an instant no entry lies beyond closes at what the balance read returns. */
  lemma StatementClosesAtBalance(ops: seq<Op>, dbs: seq<Db>, a: Id, lo: Cursor, stop: int, limit: nat, pages: seq<Page>)
    requires Readable(dbs, a) && limit >= 1 && lo.at <= stop && pages == Walk(dbs, a, lo, stop, limit) && Finished(pages)
    requires var db := Run(EMPTY, ops);
             && |pages| <= |dbs| && dbs[|pages| - 1] == db
             && ShardsMirrorParents(db.accounts) && Logical(db.accounts, a)
             && forall e | e in db.journal :: e.createdAt <= stop
    ensures pages[|pages| - 1].closing == LogicalAvailable(Run(EMPTY, ops), a)
  {
    WalkCloses(dbs, a, lo, stop, limit, pages);
    AsOfIsBalance(ops, a, stop);
  }

  // ----- what one post adds ----------------------------------------------------------------------------------------

  /** A routed leg is the account's own exactly when it was asked of the account. */
  lemma RoutedIsMine(accounts: map<Id, Account>, legs: seq<Leg>, choice: map<Id, Id>, a: Id, b: Id)
    requires ValidChoice(accounts, legs, choice) && Logical(accounts, a) && Logical(accounts, b)
    ensures Route(choice, b) in Physical(accounts, a) <==> b == a
  {
    RouteStaysHome(accounts, legs, choice, b);
    if Route(choice, b) in Physical(accounts, a) {
      RouteInjective(accounts, legs, choice, a, b);
    }
  }

  lemma NewEntryCounts(accounts: map<Id, Account>, legs: seq<Leg>, choice: map<Id, Id>, a: Id, at: int, l: Leg, e: Entry)
    requires ValidChoice(accounts, legs, choice) && Logical(accounts, a) && Logical(accounts, l.account)
    requires e.leg == l.(account := Route(choice, l.account))
    ensures Mine(accounts, a, e) <==> l.account == a
    ensures Counts(accounts, a, None, Until(at))(e) == if e.createdAt <= at then EffectOn(a, NormalOf(accounts[a]))(l) else 0
  {
    RoutedIsMine(accounts, legs, choice, a, l.account);
  }

  lemma NewEntriesCount(db: Db, stamp: Stamp, req: Request, choice: map<Id, Id>, db': Db, a: Id, at: int)
    requires LogicalPost(db, stamp, req, choice, db') && Logical(db.accounts, a)
    ensures Sum(Counts(db.accounts, a, None, Until(at)), EntriesFor(stamp, RouteLegs(choice, req.legs)))
         == if stamp.now <= at then Sum(EffectOn(a, NormalOf(db.accounts[a])), req.legs) else 0
  {
    var f, es := Counts(db.accounts, a, None, Until(at)), EntriesFor(stamp, RouteLegs(choice, req.legs));
    forall i | 0 <= i < |es|
      ensures f(es[i]) == if stamp.now <= at then EffectOn(a, NormalOf(db.accounts[a]))(req.legs[i]) else 0
    {
      NewEntryCounts(db.accounts, req.legs, choice, a, at, req.legs[i], es[i]);
    }
    if stamp.now <= at {
      SumEqual(f, es, EffectOn(a, NormalOf(db.accounts[a])), req.legs);
    } else {
      SumZero(f, es);
    }
  }

  lemma PostExtends(db: Db, stamp: Stamp, req: Request, choice: map<Id, Id>, db': Db)
    requires LogicalPost(db, stamp, req, choice, db')
    ensures |stamp.entryIds| == |req.legs| && db'.accounts == db.accounts
    ensures db'.journal == db.journal + EntriesFor(stamp, RouteLegs(choice, req.legs))
    ensures forall i | 0 <= i < |req.legs| :: ValidDirection(req.legs[i].direction)
  {
  }

  /** A post moves the balance as of every instant from its own stamp on, by what its legs are worth to the account's type. */
  lemma AsOfAfterPost(db: Db, stamp: Stamp, req: Request, choice: map<Id, Id>, db': Db, a: Id, at: int)
    requires LogicalPost(db, stamp, req, choice, db') && Logical(db.accounts, a)
    ensures a in db'.accounts
    ensures BalanceAsOf(db', a, at)
         == BalanceAsOf(db, a, at) + if stamp.now <= at then LedgerEffects.NetOn(db.accounts[a].atype, a, req.legs) else 0
  {
    PostExtends(db, stamp, req, choice, db');
    var f := Counts(db.accounts, a, None, Until(at));
    SumConcat(f, db.journal, EntriesFor(stamp, RouteLegs(choice, req.legs)));
    NewEntriesCount(db, stamp, req, choice, db', a, at);
    LedgerEffects.EffectByType(db.accounts[a].atype, a, req.legs);
  }

  lemma PostAppends(db: Db, stamp: Stamp, req: Request, choice: map<Id, Id>, db': Db, i: nat)
    requires LogicalPost(db, stamp, req, choice, db') && i < |req.legs|
    ensures db'.accounts == db.accounts && |stamp.entryIds| == |req.legs| && stamp.entryIds[i] != NIL
    ensures EntriesFor(stamp, RouteLegs(choice, req.legs))[i] in db'.journal
  {
    PostExtends(db, stamp, req, choice, db');
    assert db'.journal[|db.journal| + i] == EntriesFor(stamp, RouteLegs(choice, req.legs))[i];
  }

  lemma EntryListed(db: Db, a: Id, start: int, stop: int, e: Entry)
    requires a in db.accounts && DistinctIds(db.journal) && e in db.journal && e.id != NIL
    ensures e in Window(db, a, Cursor(start, NIL), Until(stop)) <==> Mine(db.accounts, a, e) && start <= e.createdAt <= stop
  {
    WindowExact(db, a, Cursor(start, NIL), Until(stop), e);
  }

  /** And its legs are listed by exactly the statements whose period holds that stamp. */
  lemma PostIsListed(db: Db, stamp: Stamp, req: Request, choice: map<Id, Id>, db': Db, a: Id, start: int, stop: int, i: nat)
    requires LogicalPost(db, stamp, req, choice, db') && Logical(db.accounts, a) && DistinctIds(db'.journal) && i < |req.legs|
    ensures a in db'.accounts
    ensures Entry(stamp.entryIds[i], stamp.tx, req.legs[i].(account := Route(choice, req.legs[i].account)), i, stamp.now)
            in Window(db', a, Cursor(start, NIL), Until(stop))
       <==> req.legs[i].account == a && start <= stamp.now <= stop
  {
    var e := EntriesFor(stamp, RouteLegs(choice, req.legs))[i];
    PostAppends(db, stamp, req, choice, db', i);
    NewEntryCounts(db.accounts, req.legs, choice, a, stop, req.legs[i], e);
    EntryListed(db', a, start, stop, e);
  }
}
