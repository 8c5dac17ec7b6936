/** Sharded accounts: writes go to one shard, reads add the shards up, and nobody can tell. */
module Sharding {
  import opened Collections
  import opened LedgerTypes
  import opened Posting
  import opened Ledger
  import opened LedgerInvariants

  /** A shard has an unsharded parent of the same type and currency. */
  predicate ShardsMirrorParents(accounts: map<Id, Account>)
  {
    forall c | c in accounts && accounts[c].parent.Some? ::
      var p := accounts[c].parent.value;
      && p in accounts && accounts[p].parent.None?
      && accounts[p].atype == accounts[c].atype && accounts[p].currency == accounts[c].currency
  }

  predicate Logical(accounts: map<Id, Account>, a: Id)
  {
    a in accounts && accounts[a].parent.None?
  }

  function Physical(accounts: map<Id, Account>, a: Id): set<Id>
    requires a in accounts
  {
    {a} + set c | c in accounts && accounts[c].parent == Some(a)
  }

  function AvailableOf(balances: map<Id, Balance>): Id -> int
  {
    (x: Id) => if x in balances then balances[x].available else 0
  }

  function VersionOf(balances: map<Id, Balance>): Id -> int
  {
    (x: Id) => if x in balances then balances[x].version else 0
  }

  function PendingOf(balances: map<Id, Balance>): Id -> int
  {
    (x: Id) => if x in balances then balances[x].pending else 0
  }

  ghost function LogicalAvailable(db: Db, a: Id): int
    requires a in db.accounts
  {
    SumOver(AvailableOf(db.balances), Physical(db.accounts, a))
  }

  ghost function LogicalVersion(db: Db, a: Id): int
    requires a in db.accounts
  {
    SumOver(VersionOf(db.balances), Physical(db.accounts, a))
  }

  ghost function LogicalPending(db: Db, a: Id): int
    requires a in db.accounts
  {
    SumOver(PendingOf(db.balances), Physical(db.accounts, a))
  }

  datatype LogicalBalance = LogicalBalance(available: int, pending: int, version: int)

  /** The read every caller uses: the account's own row plus every shard's row, in any order. */
  method GetBalance(db: Db, a: Id) returns (r: Result<LogicalBalance, LedgerError>)
    ensures r.Ok? <==> a in db.accounts
    ensures r.Ok? ==> r.value == LogicalBalance(LogicalAvailable(db, a), LogicalPending(db, a), LogicalVersion(db, a))
    ensures r.Err? ==> r.error == AccountNotFound
  {
    if a !in db.accounts {
      return Err(AccountNotFound);
    }
    var available, pending, version := 0, 0, 0;
    var todo := Physical(db.accounts, a);
    while todo != {}
      invariant available + SumOver(AvailableOf(db.balances), todo) == LogicalAvailable(db, a)
      invariant pending + SumOver(PendingOf(db.balances), todo) == LogicalPending(db, a)
      invariant version + SumOver(VersionOf(db.balances), todo) == LogicalVersion(db, a)
    {
      var x :| x in todo;
      SumOverSplit(AvailableOf(db.balances), todo, x);
      SumOverSplit(PendingOf(db.balances), todo, x);
      SumOverSplit(VersionOf(db.balances), todo, x);
      if x in db.balances {
        available := available + db.balances[x].available;
        pending := pending + db.balances[x].pending;
        version := version + db.balances[x].version;
      }
      todo := todo - {x};
    }
    return Ok(LogicalBalance(available, pending, version));
  }

  // ----- routing, seen from the logical accounts -----------------------------------------------

  lemma RouteStaysHome(accounts: map<Id, Account>, legs: seq<Leg>, choice: map<Id, Id>, a: Id)
    requires ValidChoice(accounts, legs, choice) && Logical(accounts, a)
    ensures Route(choice, a) in Physical(accounts, a)
  {
  }

  /** Different logical accounts are routed to different rows. */
  lemma RouteInjective(accounts: map<Id, Account>, legs: seq<Leg>, choice: map<Id, Id>, a: Id, b: Id)
    requires ValidChoice(accounts, legs, choice) && Logical(accounts, a) && Logical(accounts, b)
    requires Route(choice, b) in Physical(accounts, a)
    ensures a == b
  {
    RouteStaysHome(accounts, legs, choice, b);
  }

  /** Within one family of rows, routed legs touch only the chosen row, and exactly when they touched the account. */
  lemma RoutedTouches(accounts: map<Id, Account>, legs: seq<Leg>, choice: map<Id, Id>, a: Id, x: Id)
    requires ValidChoice(accounts, legs, choice) && Logical(accounts, a) && x in Physical(accounts, a)
    requires forall i | 0 <= i < |legs| :: Logical(accounts, legs[i].account)
    ensures x in Touched(RouteLegs(choice, legs)) <==> a in Touched(legs) && x == Route(choice, a)
  {
    var routed := RouteLegs(choice, legs);
    if x in Touched(routed) {
      var i :| 0 <= i < |routed| && routed[i].account == x;
      RouteInjective(accounts, legs, choice, a, legs[i].account);
      assert legs[i] in legs;
    }
    if a in Touched(legs) && x == Route(choice, a) {
      var i :| 0 <= i < |legs| && legs[i].account == a;
      assert routed[i] in routed;
    }
  }

  /** The chosen row feels what the logical account was asked to feel. */
  lemma RoutedEffect(accounts: map<Id, Account>, legs: seq<Leg>, choice: map<Id, Id>, a: Id, normal: Direction)
    requires ValidChoice(accounts, legs, choice) && Logical(accounts, a)
    requires forall i | 0 <= i < |legs| :: Logical(accounts, legs[i].account)
    ensures Sum(EffectOn(Route(choice, a), normal), RouteLegs(choice, legs)) == Sum(EffectOn(a, normal), legs)
  {
    var routed := RouteLegs(choice, legs);
    RouteStaysHome(accounts, legs, choice, a);
    forall i | 0 <= i < |legs|
      ensures EffectOn(Route(choice, a), normal)(routed[i]) == EffectOn(a, normal)(legs[i])
    {
      if routed[i].account == Route(choice, a) {
        RouteInjective(accounts, legs, choice, a, legs[i].account);
      }
    }
    SumEqual(EffectOn(Route(choice, a), normal), routed, EffectOn(a, normal), legs);
  }

  /** A request that names logical accounts only, posted under a routing. */
  predicate LogicalPost(db: Db, stamp: Stamp, req: Request, choice: map<Id, Id>, db': Db)
  {
    && Schema(db) && ShardsMirrorParents(db.accounts)
    && (forall i | 0 <= i < |req.legs| :: Logical(db.accounts, req.legs[i].account))
    && CanPost(db, stamp, req, choice)
    && db' == Post(db, stamp, req, choice)
  }

  lemma CommitRow(db: Db, stamp: Stamp, header: Header, legs: seq<Leg>, x: Id)
    requires CanCommit(db, stamp, legs) && x in db.accounts && x in db.balances
    ensures var db' := Commit(db, stamp, header, legs);
            && x in db'.balances
            && (if x in Touched(legs) then
                  && db'.balances[x].available == db.balances[x].available + Sum(EffectOn(x, NormalOf(db.accounts[x])), legs)
                  && db'.balances[x].version == db.balances[x].version + 1
                else db'.balances[x] == db.balances[x])
  {
  }

  /** A row that took part in some legs took exactly this part. */
  predicate TookPart(before: Balance, after: Balance, part: bool, delta: int)
  {
    if part then after.available == before.available + delta && after.version == before.version + 1 else after == before
  }

  lemma RoutedPart(accounts: map<Id, Account>, legs: seq<Leg>, choice: map<Id, Id>, a: Id, x: Id, before: Balance, after: Balance)
    requires ShardsMirrorParents(accounts) && ValidChoice(accounts, legs, choice)
    requires Logical(accounts, a) && x in Physical(accounts, a)
    requires forall i | 0 <= i < |legs| :: Logical(accounts, legs[i].account)
    requires var routed := RouteLegs(choice, legs);
             TookPart(before, after, x in Touched(routed), Sum(EffectOn(x, NormalOf(accounts[x])), routed))
    ensures TookPart(before, after, a in Touched(legs) && x == Route(choice, a), Sum(EffectOn(a, NormalOf(accounts[a])), legs))
  {
    RoutedTouches(accounts, legs, choice, a, x);
    RoutedEffect(accounts, legs, choice, a, NormalOf(accounts[a]));
    assert NormalOf(accounts[x]) == NormalOf(accounts[a]);
  }

  lemma RowAfterPost(db: Db, stamp: Stamp, req: Request, choice: map<Id, Id>, db': Db, a: Id, x: Id)
    requires LogicalPost(db, stamp, req, choice, db')
    requires Logical(db.accounts, a) && x in Physical(db.accounts, a)
    ensures x in db'.balances && x in db.balances
    ensures TookPart(db.balances[x], db'.balances[x], a in Touched(req.legs) && x == Route(choice, a),
                     Sum(EffectOn(a, NormalOf(db.accounts[a])), req.legs))
  {
    CommitRow(db, stamp, HeaderFor(req), RouteLegs(choice, req.legs), x);
    RoutedPart(db.accounts, req.legs, choice, a, x, db.balances[x], db'.balances[x]);
  }

  /** A family of rows in which one row moves: the family's totals move with it. */
  lemma FamilyMoves(rows: set<Id>, before: map<Id, Balance>, after: map<Id, Balance>, x: Id, delta: int, bump: int)
    requires x in rows && rows <= before.Keys && rows <= after.Keys
    requires forall y | y in rows && y != x :: after[y] == before[y]
    requires AvailableOf(after)(x) == AvailableOf(before)(x) + delta
    requires VersionOf(after)(x) == VersionOf(before)(x) + bump
    ensures SumOver(AvailableOf(after), rows) == SumOver(AvailableOf(before), rows) + delta
    ensures SumOver(VersionOf(after), rows) == SumOver(VersionOf(before), rows) + bump
  {
    SumOverOne(AvailableOf(before), AvailableOf(after), rows, x);
    SumOverOne(VersionOf(before), VersionOf(after), rows, x);
  }

  /** A routed post moves every logical balance by the request's own legs, and its version by one if touched. */
  lemma RoutedPostIsLogical(db: Db, stamp: Stamp, req: Request, choice: map<Id, Id>, db': Db, a: Id)
    requires LogicalPost(db, stamp, req, choice, db') && Logical(db.accounts, a)
    ensures db'.accounts == db.accounts
    ensures LogicalAvailable(db', a) == LogicalAvailable(db, a) + Sum(EffectOn(a, NormalOf(db.accounts[a])), req.legs)
    ensures LogicalVersion(db', a) == LogicalVersion(db, a) + if a in Touched(req.legs) then 1 else 0
  {
    var rows, x := Physical(db.accounts, a), Route(choice, a);
    var delta := Sum(EffectOn(a, NormalOf(db.accounts[a])), req.legs);
    var touched := a in Touched(req.legs);
    assert x in rows by {
      RouteStaysHome(db.accounts, req.legs, choice, a);
    }
    forall y | y in rows
      ensures y in db'.balances && y in db.balances
      ensures if touched && y == x
              then db'.balances[y].available == db.balances[y].available + delta
                   && db'.balances[y].version == db.balances[y].version + 1
              else db'.balances[y] == db.balances[y]
    {
      RowAfterPost(db, stamp, req, choice, db', a, y);
    }
    if !touched {
      UntouchedEffect(req.legs, a, NormalOf(db.accounts[a]));
    }
    FamilyMoves(rows, db.balances, db'.balances, x, delta, if touched then 1 else 0);
  }

  // ----- holds, seen from the logical accounts ------------------------------------------------------

  lemma FamilyPends(rows: set<Id>, before: map<Id, Balance>, after: map<Id, Balance>, x: Id, delta: int)
    requires x in before && rows <= before.Keys && rows <= after.Keys
    requires forall y | y in rows && y != x :: after[y] == before[y]
    requires x in rows ==> after[x] == before[x].(pending := after[x].pending) && after[x].pending == before[x].pending + delta
    ensures SumOver(PendingOf(after), rows) == SumOver(PendingOf(before), rows) + (if x in rows then delta else 0)
    ensures SumOver(AvailableOf(after), rows) == SumOver(AvailableOf(before), rows)
    ensures SumOver(VersionOf(after), rows) == SumOver(VersionOf(before), rows)
  {
    SumOverEqual(AvailableOf(before), AvailableOf(after), rows);
    SumOverEqual(VersionOf(before), VersionOf(after), rows);
    if x in rows {
      SumOverOne(PendingOf(before), PendingOf(after), rows, x);
    } else {
      SumOverEqual(PendingOf(before), PendingOf(after), rows);
    }
  }

  /** A hold on any row of a family moves the family's pending amount by just that, and nothing else of it. */
  lemma HoldMovesPending(db: Db, x: Id, delta: int, a: Id)
    requires CanHold(db, x, delta) && a in db.accounts && Physical(db.accounts, a) <= db.balances.Keys
    ensures var db' := HoldPending(db, x, delta);
            && db'.accounts == db.accounts
            && LogicalPending(db', a) == LogicalPending(db, a) + (if x in Physical(db.accounts, a) then delta else 0)
            && LogicalAvailable(db', a) == LogicalAvailable(db, a) && LogicalVersion(db', a) == LogicalVersion(db, a)
  {
    FamilyPends(Physical(db.accounts, a), db.balances, HoldPending(db, x, delta).balances, x, delta);
  }

  lemma CommitKeepsPending(db: Db, stamp: Stamp, header: Header, legs: seq<Leg>, a: Id)
    requires CanCommit(db, stamp, legs) && a in db.accounts
    ensures var db' := Commit(db, stamp, header, legs);
            a in db'.accounts && LogicalPending(db', a) == LogicalPending(db, a)
  {
    SumOverEqual(PendingOf(db.balances), PendingOf(Commit(db, stamp, header, legs).balances), Physical(db.accounts, a));
  }

  /** Posts and reversals move no pending amount. */
  lemma WritesKeepPending(db: Db, op: Op, a: Id)
    requires a in db.accounts && (op.PostOp? || op.ReverseOp?)
    ensures a in Ledger.Step(db, op).accounts && LogicalPending(Ledger.Step(db, op), a) == LogicalPending(db, a)
  {
    match op
    case PostOp(stamp, req, choice) =>
      if CanPost(db, stamp, req, choice) {
        CommitKeepsPending(db, stamp, HeaderFor(req), RouteLegs(choice, req.legs), a);
      }
    case ReverseOp(stamp, original, principal, key) =>
      if CanReverse(db, stamp, original, principal, key) {
        CommitKeepsPending(db, stamp, ReversalHeader(original, principal, key), Mirror(LegsOf(db.journal, original)), a);
      }
  }

  /** An account without shards reads as its own row. */
  lemma UnshardedReadsItsRow(db: Db, a: Id)
    requires a in db.accounts && a in db.balances && forall c | c in db.accounts :: db.accounts[c].parent != Some(a)
    ensures LogicalAvailable(db, a) == db.balances[a].available
    ensures LogicalPending(db, a) == db.balances[a].pending
    ensures LogicalVersion(db, a) == db.balances[a].version
  {
    assert Physical(db.accounts, a) == {a};
    SumOverSingle(AvailableOf(db.balances), a);
    SumOverSingle(PendingOf(db.balances), a);
    SumOverSingle(VersionOf(db.balances), a);
  }

  /** The per-shard overdraft check implies the logical one: a sharded account is never overdrawn either. */
  lemma ShardsNeverOverdrawn(ops: seq<Op>, a: Id)
    requires a in Run(EMPTY, ops).accounts
    requires forall x | x in Physical(Run(EMPTY, ops).accounts, a) ::
               x in Run(EMPTY, ops).balances && !Run(EMPTY, ops).balances[x].allowNegative
    ensures LogicalAvailable(Run(EMPTY, ops), a) >= 0
  {
    ReachableInv(ops);
    var db := Run(EMPTY, ops);
    SumOverNonNegative(AvailableOf(db.balances), Physical(db.accounts, a));
  }
}
