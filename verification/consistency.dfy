/** The three consistency checks, and the proof that no reachable ledger fails any of them. */
module Consistency {
  import opened Collections
  import opened LedgerTypes
  import opened Posting
  import opened Ledger
  import opened LedgerInvariants

  // ----- what each check reports ----------------------------------------------------------

  function CurrenciesOf(journal: seq<Entry>): set<string>
  {
    set e | e in journal :: e.leg.amount.currency
  }

  /** Currencies whose journal does not sum to zero. */
  function Violations(journal: seq<Entry>): set<string>
  {
    set c | c in CurrenciesOf(journal) && Sum(DebitSigned(c), Legs(journal)) != 0
  }

  /** Accounts whose stored balance disagrees with the journal; a missing row counts as zero. */
  function Drifted(db: Db): set<Id>
  {
    set a | a in db.accounts && JournalBalance(db, a) != if a in db.balances then db.balances[a].available else 0
  }

  function FewEntries(db: Db): set<Id>
  {
    set t | t in db.headers && db.headers[t].status != Pending && |LegsOf(db.journal, t)| < 2
  }

  function OrphanEntries(db: Db): set<Id>
  {
    set e | e in db.journal && e.tx !in db.headers :: e.id
  }

  // ----- the checks as the code runs them ---------------------------------------------------

  lemma NextDebitSigned(journal: seq<Entry>, i: nat, c: string)
    requires i < |journal|
    ensures Sum(DebitSigned(c), Legs(journal[..i + 1]))
         == Sum(DebitSigned(c), Legs(journal[..i])) + DebitSigned(c)(journal[i].leg)
  {
    assert Legs(journal[..i + 1]) == Legs(journal[..i]) + [journal[i].leg];
    SumSnoc(DebitSigned(c), Legs(journal[..i]), journal[i].leg);
  }

  lemma UnseenCurrency(journal: seq<Entry>, c: string)
    requires c !in CurrenciesOf(journal)
    ensures Sum(DebitSigned(c), Legs(journal)) == 0
  {
    forall i | 0 <= i < |journal| ensures DebitSigned(c)(Legs(journal)[i]) == 0 {
      assert journal[i] in journal;
    }
    SumZero(DebitSigned(c), Legs(journal));
  }

  lemma NextCurrency(journal: seq<Entry>, i: nat)
    requires i < |journal|
    ensures CurrenciesOf(journal[..i + 1]) == CurrenciesOf(journal[..i]) + {journal[i].leg.amount.currency}
  {
    assert journal[..i + 1] == journal[..i] + [journal[i]];
    assert forall e :: e in journal[..i + 1] <==> e in journal[..i] || e == journal[i];
  }

  /** Running totals, one per currency seen so far. */
  predicate TotalsRight(totals: map<string, int>, journal: seq<Entry>)
  {
    totals.Keys == CurrenciesOf(journal) && forall c | c in totals :: totals[c] == Sum(DebitSigned(c), Legs(journal))
  }

  function Tally(totals: map<string, int>, leg: Leg): map<string, int>
  {
    var c := leg.amount.currency;
    totals[c := (if c in totals then totals[c] else 0) + DebitSigned(c)(leg)]
  }

  lemma TallyRight(totals: map<string, int>, journal: seq<Entry>, i: nat)
    requires i < |journal| && TotalsRight(totals, journal[..i])
    ensures TotalsRight(Tally(totals, journal[i].leg), journal[..i + 1])
  {
    var leg := journal[i].leg;
    var totals' := Tally(totals, leg);
    NextCurrency(journal, i);
    forall c | c in totals' ensures totals'[c] == Sum(DebitSigned(c), Legs(journal[..i + 1])) {
      NextDebitSigned(journal, i, c);
      if c !in totals {
        UnseenCurrency(journal[..i], c);
      }
    }
  }

  method CheckGlobalInvariant(journal: seq<Entry>) returns (violations: set<string>)
    ensures violations == Violations(journal)
  {
    var totals: map<string, int> := map[];
    for i := 0 to |journal|
      invariant TotalsRight(totals, journal[..i])
    {
      TallyRight(totals, journal, i);
      totals := Tally(totals, journal[i].leg);
    }
    assert journal[..|journal|] == journal;
    violations := set c | c in totals && totals[c] != 0;
  }

  method CheckProjectionDrift(db: Db) returns (drifted: set<Id>)
    ensures drifted == Drifted(db)
  {
    drifted := {};
    var todo := db.accounts.Keys;
    while todo != {}
      invariant todo <= db.accounts.Keys
      invariant drifted == Drifted(db) - todo
    {
      var a :| a in todo;
      var rebuilt := JournalBalance(db, a);
      var live: int := if a in db.balances then db.balances[a].available else 0;
      if rebuilt != live {
        drifted := drifted + {a};
      }
      todo := todo - {a};
    }
  }

  method CheckOrphans(db: Db) returns (few: set<Id>, orphans: set<Id>)
    ensures few == FewEntries(db)
    ensures orphans == OrphanEntries(db)
  {
    few := {};
    var todo := db.headers.Keys;
    while todo != {}
      invariant todo <= db.headers.Keys
      invariant few == FewEntries(db) - todo
    {
      var t :| t in todo;
      if db.headers[t].status != Pending && |LegsOf(db.journal, t)| < 2 {
        few := few + {t};
      }
      todo := todo - {t};
    }
    orphans := {};
    for i := 0 to |db.journal|
      invariant orphans == set e | e in db.journal[..i] && e.tx !in db.headers :: e.id
    {
      assert db.journal[..i + 1] == db.journal[..i] + [db.journal[i]];
      if db.journal[i].tx !in db.headers {
        orphans := orphans + {db.journal[i].id};
      }
    }
    assert db.journal[..|db.journal|] == db.journal;
  }

  // ----- no run makes a check report anything ------------------------------------------------

  /** Over every run of openings, holds, posts and reversals, all three checks come back clean. */
  lemma ChecksAlwaysClean(ops: seq<Op>)
    ensures var db := Run(EMPTY, ops);
            && Violations(db.journal) == {}
            && Drifted(db) == {}
            && FewEntries(db) == {}
            && OrphanEntries(db) == {}
  {
    ReachableInv(ops);
    InvMeansClean(Run(EMPTY, ops));
  }

  lemma InvMeansClean(db: Db)
    requires BooksInv(db)
    ensures Violations(db.journal) == {} && Drifted(db) == {}
    ensures FewEntries(db) == {} && OrphanEntries(db) == {}
  {
    forall e | e in db.journal ensures e.tx in db.headers {
      var k :| 0 <= k < |db.journal| && db.journal[k] == e;
      assert EntryOk(db.headers.Keys, db.accounts, db.journal[k]);
    }
  }

  // ----- the accounting equation -----------------------------------------------------------------

  /** An account's journal balance in transaction sign: debits positive whatever the account's type. */
  function DebitBalance(journal: seq<Entry>): Id -> int
  {
    (a: Id) => Sum(EffectOn(a, Debit), Legs(journal))
  }

  /** Summing the journal account by account gives the same as summing it entry by entry. */
  lemma {:induction false} SumByAccount(journal: seq<Entry>, ids: set<Id>, c: string)
    requires forall e | e in journal && e.leg.amount.currency == c :: e.leg.account in ids
    requires forall e | e in journal && e.leg.account in ids :: e.leg.amount.currency == c
    requires forall e | e in journal :: ValidDirection(e.leg.direction)
    ensures SumOver(DebitBalance(journal), ids) == Sum(DebitSigned(c), Legs(journal))
  {
    var n := |journal|;
    if n == 0 {
      SumOverZero(DebitBalance(journal), ids);
    } else {
      var head, last := journal[..n - 1], journal[n - 1];
      assert journal == head + [last];
      SumByAccount(head, ids, c);
      NextDebitSigned(journal, n - 1, c);
      assert journal[..n] == journal;
      assert Legs(journal) == Legs(head) + [last.leg];
      forall a ensures DebitBalance(journal)(a) == DebitBalance(head)(a) + EffectOn(a, Debit)(last.leg) {
        SumSnoc(EffectOn(a, Debit), Legs(head), last.leg);
      }
      if last.leg.account in ids {
        SumOverOne(DebitBalance(head), DebitBalance(journal), ids, last.leg.account);
      } else {
        SumOverEqual(DebitBalance(head), DebitBalance(journal), ids);
      }
    }
  }

  lemma {:induction false} SumOverZero(f: Id -> int, s: set<Id>)
    requires forall x | x in s :: f(x) == 0
    ensures SumOver(f, s) == 0
    decreases s
  {
    if s != {} {
      SumOverZero(f, s - {Min(s)});
    }
  }

  function Held(db: Db): Id -> int
  {
    (a: Id) => if a in db.balances then db.balances[a].available else 0
  }

  function OnSide(db: Db, c: string, side: Direction): set<Id>
  {
    set a | a in db.accounts && db.accounts[a].currency == c && NormalOf(db.accounts[a]) == side
  }

  /** In every reachable ledger, debit-normal accounts together hold what credit-normal accounts hold. */
  lemma AccountingEquation(ops: seq<Op>, c: string)
    ensures var db := Run(EMPTY, ops);
            SumOver(Held(db), OnSide(db, c, Debit)) == SumOver(Held(db), OnSide(db, c, Credit))
  {
    ReachableInv(ops);
    SidesAgree(Run(EMPTY, ops), c);
  }

  function OfType(db: Db, c: string, t: AccountType): set<Id>
  {
    set a | a in db.accounts && db.accounts[a].currency == c && db.accounts[a].atype == t
  }

  ghost function HeldBy(db: Db, c: string, t: AccountType): int
  {
    SumOver(Held(db), OfType(db, c, t))
  }

  /** Assets and expenses equal liabilities, equity and revenue: the equation as bookkeepers write it. */
  lemma BooksBalance(ops: seq<Op>, c: string)
    ensures var db := Run(EMPTY, ops);
            HeldBy(db, c, Asset) + HeldBy(db, c, Expense)
            == HeldBy(db, c, Liability) + HeldBy(db, c, Equity) + HeldBy(db, c, Revenue)
  {
    var db := Run(EMPTY, ops);
    AccountingEquation(ops, c);
    SidesByType(db, c);
    SumOverUnion(Held(db), OfType(db, c, Asset), OfType(db, c, Expense));
    SumOverUnion(Held(db), OfType(db, c, Liability), OfType(db, c, Equity));
    SumOverUnion(Held(db), OfType(db, c, Liability) + OfType(db, c, Equity), OfType(db, c, Revenue));
  }

  lemma SidesByType(db: Db, c: string)
    ensures OnSide(db, c, Debit) == OfType(db, c, Asset) + OfType(db, c, Expense)
    ensures OnSide(db, c, Credit) == OfType(db, c, Liability) + OfType(db, c, Equity) + OfType(db, c, Revenue)
  {
    forall a | a in db.accounts && db.accounts[a].currency == c
      ensures a in OnSide(db, c, Debit) <==> a in OfType(db, c, Asset) + OfType(db, c, Expense)
      ensures a in OnSide(db, c, Credit) <==> a in OfType(db, c, Liability) + OfType(db, c, Equity) + OfType(db, c, Revenue)
    {
      match db.accounts[a].atype
      case Asset =>
      case Liability =>
      case Equity =>
      case Revenue =>
      case Expense =>
    }
  }

  // ----- what the checks do report ------------------------------------------------------------------

  /** Corrupt one stored balance of a clean ledger, and exactly that account drifts. */
  lemma DriftShows(db: Db, a: Id, row: Balance)
    requires Drifted(db) == {} && a in db.accounts && a in db.balances && row.available != db.balances[a].available
    ensures Drifted(db.(balances := db.balances[a := row])) == {a}
  {
    var db' := db.(balances := db.balances[a := row]);
    assert a !in Drifted(db);
    forall x | x in db.accounts ensures x in Drifted(db') <==> x == a {
      assert JournalBalance(db', x) == JournalBalance(db, x);
      assert x !in Drifted(db);
    }
  }

  /** Everything but a transaction's entries, except perhaps one of them. */
  function AllBut(t: Id, keep: Id): Entry -> bool
  {
    (e: Entry) => e.tx != t || e.id == keep
  }

  predicate HasEntry(journal: seq<Entry>, id: Id)
  {
    exists i | 0 <= i < |journal| :: journal[i].id == id
  }

  lemma {:induction false} StrippedLegs(journal: seq<Entry>, t: Id, keep: Id, u: Id)
    requires DistinctIds(journal)
    ensures u != t ==> LegsOf(Filter(AllBut(t, keep), journal), u) == LegsOf(journal, u)
    ensures |LegsOf(Filter(AllBut(t, keep), journal), t)| <= if HasEntry(journal, keep) then 1 else 0
  {
    if journal != [] {
      var e, rest := journal[0], journal[1..];
      assert forall i | 0 <= i < |rest| :: rest[i] == journal[i + 1];
      assert HasEntry(journal, keep) <==> e.id == keep || HasEntry(rest, keep);
      StrippedLegs(rest, t, keep, u);
      assert journal == [e] + rest;
      LegsOfCons(e, rest, u);
      LegsOfCons(e, Filter(AllBut(t, keep), rest), u);
      LegsOfCons(e, Filter(AllBut(t, keep), rest), t);
      assert Filter(AllBut(t, keep), journal)
          == if AllBut(t, keep)(e) then [e] + Filter(AllBut(t, keep), rest) else Filter(AllBut(t, keep), rest);
    }
  }

  lemma LegsOfCons(e: Entry, rest: seq<Entry>, u: Id)
    ensures LegsOf([e] + rest, u) == (if e.tx == u then [e.leg] else []) + LegsOf(rest, u)
  {
    assert ([e] + rest)[1..] == rest;
  }

  /** Leave a settled transaction at most one of its entries, and exactly that transaction has too few. */
  lemma FewShows(db: Db, t: Id, keep: Id)
    requires FewEntries(db) == {} && DistinctIds(db.journal) && t in db.headers && db.headers[t].status != Pending
    ensures FewEntries(db.(journal := Filter(AllBut(t, keep), db.journal))) == {t}
  {
    var db' := db.(journal := Filter(AllBut(t, keep), db.journal));
    forall u | u in db.headers ensures u in FewEntries(db') <==> u == t {
      StrippedLegs(db.journal, t, keep, u);
      assert u !in FewEntries(db);
    }
  }

  /** Take a transaction's header away, and exactly its entries are orphans. */
  lemma OrphansShow(db: Db, t: Id)
    requires OrphanEntries(db) == {}
    ensures OrphanEntries(db.(headers := db.headers - {t})) == set e | e in db.journal && e.tx == t :: e.id
  {
    forall e | e in db.journal ensures e.tx in db.headers {
      assert e.id !in OrphanEntries(db);
    }
  }

  /** Add one entry to a balanced journal, and exactly its currency is out of balance. */
  lemma ViolationShows(journal: seq<Entry>, e: Entry)
    requires (forall c: string :: Sum(DebitSigned(c), Legs(journal)) == 0) && e.leg.amount.amountMinor != 0
    ensures Violations(journal + [e]) == {e.leg.amount.currency}
  {
    var more := journal + [e];
    assert more[..|journal|] == journal && more[..|more|] == more;
    NextCurrency(more, |journal|);
    forall c ensures Sum(DebitSigned(c), Legs(more)) == DebitSigned(c)(e.leg) {
      NextDebitSigned(more, |journal|, c);
    }
  }

  lemma EntriesMatchAccounts(db: Db, e: Entry)
    requires Schema(db) && e in db.journal
    ensures e.leg.account in db.accounts && db.accounts[e.leg.account].currency == e.leg.amount.currency
    ensures ValidDirection(e.leg.direction)
  {
    var k :| 0 <= k < |db.journal| && db.journal[k] == e;
    assert EntryOk(db.headers.Keys, db.accounts, db.journal[k]);
  }

  lemma SumOfBothSides(db: Db, c: string)
    requires Schema(db) && Balanced(db)
    ensures SumOver(DebitBalance(db.journal), OnSide(db, c, Debit) + OnSide(db, c, Credit)) == 0
  {
    var ids := OnSide(db, c, Debit) + OnSide(db, c, Credit);
    forall e | e in db.journal
      ensures ValidDirection(e.leg.direction)
      ensures e.leg.amount.currency == c <==> e.leg.account in ids
    {
      EntriesMatchAccounts(db, e);
      var side := NormalOf(db.accounts[e.leg.account]);
      assert side == Debit || side == Credit;
    }
    SumByAccount(db.journal, ids, c);
  }

  lemma DebitBalanceHeld(db: Db, a: Id)
    requires Schema(db) && NoDrift(db) && a in db.accounts
    ensures DebitBalance(db.journal)(a) == if NormalOf(db.accounts[a]) == Debit then Held(db)(a) else -Held(db)(a)
  {
    if NormalOf(db.accounts[a]) == Credit {
      forall k | 0 <= k < |db.journal|
        ensures EffectOn(a, Debit)(Legs(db.journal)[k]) == -1 * EffectOn(a, Credit)(Legs(db.journal)[k])
      {
        EntriesMatchAccounts(db, db.journal[k]);
      }
      SumPointwise(EffectOn(a, Debit), Legs(db.journal), EffectOn(a, Credit), Legs(db.journal), -1);
    }
  }

  lemma SidesAgree(db: Db, c: string)
    requires Schema(db) && NoDrift(db) && Balanced(db)
    ensures SumOver(Held(db), OnSide(db, c, Debit)) == SumOver(Held(db), OnSide(db, c, Credit))
  {
    var debits, credits := OnSide(db, c, Debit), OnSide(db, c, Credit);
    SumOfBothSides(db, c);
    SumOverUnion(DebitBalance(db.journal), debits, credits);
    forall a | a in debits + credits
      ensures DebitBalance(db.journal)(a) == if a in debits then Held(db)(a) else -Held(db)(a)
    {
      DebitBalanceHeld(db, a);
    }
    SumOverEqual(DebitBalance(db.journal), Held(db), debits);
    SumOverNegated(Held(db), DebitBalance(db.journal), credits);
  }

  lemma {:induction false} SumOverUnion(f: Id -> int, s: set<Id>, t: set<Id>)
    requires s !! t
    ensures SumOver(f, s + t) == SumOver(f, s) + SumOver(f, t)
    decreases s
  {
    if s == {} {
      assert s + t == t;
    } else {
      var x := Min(s);
      SumOverSplit(f, s + t, x);
      assert s + t - {x} == (s - {x}) + t;
      SumOverUnion(f, s - {x}, t);
    }
  }

  lemma {:induction false} SumOverNegated(f: Id -> int, g: Id -> int, s: set<Id>)
    requires forall x | x in s :: g(x) == -f(x)
    ensures SumOver(g, s) == -SumOver(f, s)
    decreases s
  {
    if s != {} {
      SumOverNegated(f, g, s - {Min(s)});
    }
  }
}
