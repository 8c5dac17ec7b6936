/** What every posting and every reversal keeps, and therefore what every reachable ledger satisfies. */
module LedgerInvariants {
  import opened Collections
  import opened LedgerTypes
  import opened Posting
  import opened Ledger

  // ----- the invariant, clause by clause ---------------------------------------------------

  /** The schema's own promises: a balance row per account, entries that name real headers and accounts. */
  predicate Schema(db: Db)
  {
    && db.accounts.Keys == db.balances.Keys
    && NIL !in db.accounts
    && NIL !in db.headers
    && (forall k | 0 <= k < |db.journal| :: EntryOk(db.headers.Keys, db.accounts, db.journal[k]))
    && DistinctIds(db.journal)
  }

  predicate EntryOk(headers: set<Id>, accounts: map<Id, Account>, e: Entry)
  {
    && e.tx in headers
    && e.leg.account in accounts
    && e.leg.amount.currency == accounts[e.leg.account].currency
    && ProperLeg(e.leg)
    && e.id != NIL
  }

  predicate DistinctIds(journal: seq<Entry>)
  {
    forall j, k | 0 <= j < k < |journal| :: journal[j].id != journal[k].id
  }

  /** Every transaction on record is one that validation would accept: two or more legs, balanced, in range. */
  predicate TransactionsWhole(db: Db)
  {
    forall t | t in db.headers :: Accepts(Transfer, LegsOf(db.journal, t))
  }

  /** The stored balance is the journal's balance. */
  predicate NoDrift(db: Db)
    requires Schema(db)
  {
    forall a | a in db.accounts :: db.balances[a].available == JournalBalance(db, a)
  }

  /** The whole journal sums to zero in every currency. */
  ghost predicate Balanced(db: Db)
  {
    forall c: string :: Sum(DebitSigned(c), Legs(db.journal)) == 0
  }

  predicate NoOverdraft(db: Db)
  {
    forall a | a in db.balances :: db.balances[a].allowNegative || db.balances[a].available >= 0
  }

  function TouchingTxs(headers: set<Id>, journal: seq<Entry>, a: Id): set<Id>
  {
    set t | t in headers && a in Touched(LegsOf(journal, t))
  }

  /** A balance's version counts the transactions that touched the account. */
  predicate VersionsCount(db: Db)
  {
    forall a | a in db.balances :: db.balances[a].version == |TouchingTxs(db.headers.Keys, db.journal, a)|
  }

  predicate IsReversalOf(db: Db, r: Id, t: Id)
  {
    r in db.headers && db.headers[r].meta == Reverses(t)
  }

  /** A transaction is REVERSED exactly when one reversal names it, and that reversal is its mirror. */
  ghost predicate ReversalsExact(db: Db)
  {
    && (forall t | t in db.headers :: db.headers[t].status == Posted || db.headers[t].status == Reversed)
    && (forall t | t in db.headers :: db.headers[t].status == Reversed <==> exists r :: IsReversalOf(db, r, t))
    && (forall r, t | IsReversalOf(db, r, t) ::
          t in db.headers && t != r && LegsOf(db.journal, r) == Mirror(LegsOf(db.journal, t)))
    && (forall r, s, t | IsReversalOf(db, r, t) && IsReversalOf(db, s, t) :: r == s)
  }

  function About(a: Id): BalanceLine -> bool
  {
    (l: BalanceLine) => l.account == a
  }

  /** The balance reports about one account, in the order their transactions committed. */
  function Stream(outbox: seq<TxEvent>, a: Id): seq<BalanceLine>
  {
    if outbox == [] then [] else Filter(About(a), outbox[0].lines) + Stream(outbox[1..], a)
  }

  /** An account's events carry versions 1, 2, 3, ... without gaps, the last one its current balance. */
  predicate StreamExact(row: Balance, a: Id, s: seq<BalanceLine>)
  {
    && |s| == row.version
    && (forall k | 0 <= k < |s| :: s[k].account == a && s[k].version == k + 1)
    && (|s| == 0 ==> row.available == 0)
    && (|s| > 0 ==> s[|s| - 1].available == row.available)
  }

  ghost predicate StreamsExact(db: Db)
  {
    forall a: Id ::
      if a in db.balances then StreamExact(db.balances[a], a, Stream(db.outbox, a)) else Stream(db.outbox, a) == []
  }

  /** One event per transaction, under the transaction's own id. */
  predicate OutboxDistinct(headers: set<Id>, outbox: seq<TxEvent>)
  {
    && (forall i | 0 <= i < |outbox| :: outbox[i].id in headers)
    && (forall i, j | 0 <= i < j < |outbox| :: outbox[i].id != outbox[j].id)
  }

  /** Everything but the reversal clause, which depends on what the newest header says. */
  ghost predicate BooksInv(db: Db)
  {
    && Schema(db)
    && TransactionsWhole(db)
    && NoDrift(db)
    && Balanced(db)
    && NoOverdraft(db)
    && VersionsCount(db)
    && StreamsExact(db)
    && OutboxDistinct(db.headers.Keys, db.outbox)
  }

  ghost predicate Inv(db: Db)
  {
    BooksInv(db) && ReversalsExact(db)
  }

  // ----- what appending one transaction does to the views ------------------------------------

  lemma LegsConcat(s: seq<Entry>, t: seq<Entry>)
    ensures Legs(s + t) == Legs(s) + Legs(t)
  {
  }

  lemma LegsOfEntries(stamp: Stamp, legs: seq<Leg>)
    requires |stamp.entryIds| == |legs|
    ensures Legs(EntriesFor(stamp, legs)) == legs
  {
  }

  lemma NewReadsBack(journal: seq<Entry>, es: seq<Entry>, t: Id)
    requires forall k | 0 <= k < |journal| :: journal[k].tx != t
    requires forall k | 0 <= k < |es| :: es[k].tx == t
    ensures LegsOf(journal + es, t) == Legs(es)
  {
    FilterConcat(InTx(t), journal, es);
    FilterNone(InTx(t), journal);
    FilterAll(InTx(t), es);
    assert Filter(InTx(t), journal + es) == es;
  }

  lemma OldReadsBack(journal: seq<Entry>, es: seq<Entry>, t: Id)
    requires forall k | 0 <= k < |es| :: es[k].tx != t
    ensures LegsOf(journal + es, t) == LegsOf(journal, t)
  {
    FilterConcat(InTx(t), journal, es);
    FilterNone(InTx(t), es);
    assert Filter(InTx(t), journal + es) == Filter(InTx(t), journal);
  }

  /** The new transaction reads back as its own legs; every older one reads back unchanged. */
  lemma LegsAfterCommit(db: Db, stamp: Stamp, legs: seq<Leg>, t: Id)
    requires Schema(db) && FreshStamp(db, stamp, |legs|)
    ensures LegsOf(db.journal + EntriesFor(stamp, legs), t) == if t == stamp.tx then legs else LegsOf(db.journal, t)
  {
    var es := EntriesFor(stamp, legs);
    if t == stamp.tx {
      LegsOfEntries(stamp, legs);
      NewReadsBack(db.journal, es, t);
    } else {
      OldReadsBack(db.journal, es, t);
    }
  }

  lemma ReadBackProper(db: Db, t: Id)
    requires Schema(db)
    ensures forall i | 0 <= i < |LegsOf(db.journal, t)| ::
              && ProperLeg(LegsOf(db.journal, t)[i])
              && LegsOf(db.journal, t)[i].account in db.accounts
  {
    var es := Filter(InTx(t), db.journal);
    forall i | 0 <= i < |es| ensures ProperLeg(es[i].leg) && es[i].leg.account in db.accounts {
      FilterMember(InTx(t), db.journal, es[i]);
      var k :| 0 <= k < |db.journal| && db.journal[k] == es[i];
      assert EntryOk(db.headers.Keys, db.accounts, db.journal[k]);
    }
  }

  /** The mirror of an accepted transaction is accepted: reversal needs no validation of its own. */
  lemma MirrorAccepted(legs: seq<Leg>)
    requires Accepts(Transfer, legs)
    ensures Accepts(Transfer, Mirror(legs))
  {
    var m := Mirror(legs);
    forall i | 0 <= i < |m| ensures ProperLeg(m[i]) && m[i].amount.currency == m[0].amount.currency {
      assert ProperLeg(legs[i]) && ProperLeg(legs[0]);
    }
    forall i | 0 <= i < |m|
      ensures SideOf(Debit)(m[i]) == SideOf(Credit)(legs[i]) && SideOf(Credit)(m[i]) == SideOf(Debit)(legs[i])
    {
      assert ProperLeg(legs[i]);
    }
    SumEqual(SideOf(Debit), m, SideOf(Credit), legs);
    SumEqual(SideOf(Credit), m, SideOf(Debit), legs);
  }

  lemma {:induction false} StreamConcat(s: seq<TxEvent>, t: seq<TxEvent>, a: Id)
    ensures Stream(s + t, a) == Stream(s, a) + Stream(t, a)
  {
    if s == [] {
      assert s + t == t;
    } else {
      assert (s + t)[1..] == s[1..] + t;
      StreamConcat(s[1..], t, a);
    }
  }

  lemma StreamSnoc(s: seq<TxEvent>, e: TxEvent, a: Id)
    ensures Stream(s + [e], a) == Stream(s, a) + Filter(About(a), e.lines)
  {
    StreamConcat(s, [e], a);
    assert [e][1..] == [];
    assert Stream([e], a) == Filter(About(a), e.lines) + Stream([], a);
  }

  /** An event reports each touched account once, and no other account. */
  lemma OneLineEach(balances: map<Id, Balance>, order: seq<Id>, a: Id)
    requires Ascending(order)
    requires forall id | id in order :: id in balances
    ensures Filter(About(a), LinesOf(balances, order)) == if a in order then [LineOf(balances, a)] else []
  {
    var lines := LinesOf(balances, order);
    if a in order {
      var k :| 0 <= k < |order| && order[k] == a;
      FilterOne(About(a), lines, k);
    } else {
      FilterNone(About(a), lines);
    }
  }

  // ----- a commit keeps every clause ------------------------------------------------------------

  lemma NewEntriesOk(db: Db, stamp: Stamp, header: Header, legs: seq<Leg>, k: nat)
    requires Schema(db) && CanCommit(db, stamp, legs) && k < |db.journal| + |legs|
    ensures var db' := Commit(db, stamp, header, legs);
            EntryOk(db'.headers.Keys, db'.accounts, db'.journal[k])
  {
    if k >= |db.journal| {
      assert ProperLeg(legs[k - |db.journal|]);
    } else {
      assert EntryOk(db.headers.Keys, db.accounts, db.journal[k]);
    }
  }

  lemma CommitKeepsSchema(db: Db, stamp: Stamp, header: Header, legs: seq<Leg>)
    requires Schema(db) && CanCommit(db, stamp, legs)
    ensures Schema(Commit(db, stamp, header, legs))
  {
    var db' := Commit(db, stamp, header, legs);
    forall k | 0 <= k < |db'.journal| ensures EntryOk(db'.headers.Keys, db'.accounts, db'.journal[k]) {
      NewEntriesOk(db, stamp, header, legs, k);
    }
    FreshIdsDistinct(db.journal, EntriesFor(stamp, legs));
  }

  lemma FreshIdsDistinct(journal: seq<Entry>, es: seq<Entry>)
    requires DistinctIds(journal) && DistinctIds(es)
    requires forall i, k | 0 <= i < |es| && 0 <= k < |journal| :: es[i].id != journal[k].id
    ensures DistinctIds(journal + es)
  {
    var all := journal + es;
    forall j, k | 0 <= j < k < |all| ensures all[j].id != all[k].id {
      if k >= |journal| {
        assert all[k] == es[k - |journal|];
        assert j >= |journal| ==> all[j] == es[j - |journal|];
      }
    }
  }

  lemma CommitKeepsWhole(db: Db, stamp: Stamp, header: Header, legs: seq<Leg>)
    requires Schema(db) && TransactionsWhole(db) && CanCommit(db, stamp, legs)
    ensures TransactionsWhole(Commit(db, stamp, header, legs))
  {
    var db' := Commit(db, stamp, header, legs);
    forall t | t in db'.headers ensures Accepts(Transfer, LegsOf(db'.journal, t)) {
      LegsAfterCommit(db, stamp, legs, t);
    }
  }

  lemma JournalBalanceMoves(db: Db, stamp: Stamp, legs: seq<Leg>, a: Id, normal: Direction)
    requires |stamp.entryIds| == |legs|
    ensures Sum(EffectOn(a, normal), Legs(db.journal + EntriesFor(stamp, legs)))
         == Sum(EffectOn(a, normal), Legs(db.journal)) + Sum(EffectOn(a, normal), legs)
    ensures a !in Touched(legs) ==> Sum(EffectOn(a, normal), legs) == 0
  {
    LegsConcat(db.journal, EntriesFor(stamp, legs));
    LegsOfEntries(stamp, legs);
    SumConcat(EffectOn(a, normal), Legs(db.journal), legs);
    if a !in Touched(legs) {
      UntouchedEffect(legs, a, normal);
    }
  }

  /** Each account's stored balance and journal balance move together. */
  lemma CommitKeepsNoDrift(db: Db, stamp: Stamp, header: Header, legs: seq<Leg>)
    requires Schema(db) && NoDrift(db) && CanCommit(db, stamp, legs)
    ensures Schema(Commit(db, stamp, header, legs)) && NoDrift(Commit(db, stamp, header, legs))
  {
    CommitKeepsSchema(db, stamp, header, legs);
    var db' := Commit(db, stamp, header, legs);
    forall a | a in db'.accounts ensures db'.balances[a].available == JournalBalance(db', a) {
      JournalBalanceMoves(db, stamp, legs, a, NormalOf(db.accounts[a]));
    }
  }

  lemma CommitKeepsBalanced(db: Db, stamp: Stamp, header: Header, legs: seq<Leg>)
    requires Balanced(db) && CanCommit(db, stamp, legs)
    ensures Balanced(Commit(db, stamp, header, legs))
  {
    LegsConcat(db.journal, EntriesFor(stamp, legs));
    LegsOfEntries(stamp, legs);
    forall c: string
      ensures Sum(DebitSigned(c), Legs(Commit(db, stamp, header, legs).journal)) == 0
    {
      SumConcat(DebitSigned(c), Legs(db.journal), legs);
      AcceptedBalances(Transfer, legs, c);
    }
  }

  lemma TouchingAfterCommit(db: Db, stamp: Stamp, legs: seq<Leg>, a: Id)
    requires Schema(db) && FreshStamp(db, stamp, |legs|)
    ensures TouchingTxs(db.headers.Keys + {stamp.tx}, db.journal + EntriesFor(stamp, legs), a)
         == TouchingTxs(db.headers.Keys, db.journal, a) + if a in Touched(legs) then {stamp.tx} else {}
  {
    forall t ensures LegsOf(db.journal + EntriesFor(stamp, legs), t) == if t == stamp.tx then legs else LegsOf(db.journal, t) {
      LegsAfterCommit(db, stamp, legs, t);
    }
    TouchingExtends(db.headers.Keys, db.journal, db.journal + EntriesFor(stamp, legs), stamp.tx, legs, a);
  }

  lemma TouchingExtends(headers: set<Id>, journal: seq<Entry>, journal': seq<Entry>, tx: Id, legs: seq<Leg>, a: Id)
    requires tx !in headers
    requires forall t :: LegsOf(journal', t) == if t == tx then legs else LegsOf(journal, t)
    ensures TouchingTxs(headers + {tx}, journal', a) == TouchingTxs(headers, journal, a) + if a in Touched(legs) then {tx} else {}
  {
  }

  /** How one commit changes the rows, seen from outside: touched rows gain a version and a new balance. */
  predicate RowsMoved(db: Db, db': Db, legs: seq<Leg>)
  {
    && db'.balances.Keys == db.balances.Keys
    && (forall a | a in db.balances ::
          if a in Touched(legs) then db'.balances[a].version == db.balances[a].version + 1
          else db'.balances[a] == db.balances[a])
  }

  lemma CommitMovesRows(db: Db, stamp: Stamp, header: Header, legs: seq<Leg>)
    requires CanCommit(db, stamp, legs)
    ensures RowsMoved(db, Commit(db, stamp, header, legs), legs)
  {
  }

  lemma VersionsExtend(db: Db, db': Db, stamp: Stamp, legs: seq<Leg>)
    requires Schema(db) && VersionsCount(db) && FreshStamp(db, stamp, |legs|) && RowsMoved(db, db', legs)
    requires db'.headers.Keys == db.headers.Keys + {stamp.tx}
    requires db'.journal == db.journal + EntriesFor(stamp, legs)
    ensures VersionsCount(db')
  {
    forall a | a in db'.balances ensures db'.balances[a].version == |TouchingTxs(db'.headers.Keys, db'.journal, a)| {
      TouchingAfterCommit(db, stamp, legs, a);
      assert stamp.tx !in TouchingTxs(db.headers.Keys, db.journal, a);
    }
  }

  lemma StreamsExtend(db: Db, db': Db, event: TxEvent, legs: seq<Leg>)
    requires StreamsExact(db) && RowsMoved(db, db', legs)
    requires forall a | a in Touched(legs) :: a in db'.balances
    requires event.lines == LinesOf(db'.balances, AccountsInOrder(legs))
    requires db'.outbox == db.outbox + [event]
    ensures StreamsExact(db')
  {
    forall a: Id
      ensures if a in db'.balances then StreamExact(db'.balances[a], a, Stream(db'.outbox, a))
              else Stream(db'.outbox, a) == []
    {
      StreamSnoc(db.outbox, event, a);
      OneLineEach(db'.balances, AccountsInOrder(legs), a);
    }
  }

  /** A new header that reverses nothing disturbs no reversal already on record. */
  lemma PlainCommitKeepsReversals(db: Db, stamp: Stamp, header: Header, legs: seq<Leg>)
    requires Schema(db) && ReversalsExact(db) && CanCommit(db, stamp, legs)
    requires header.status == Posted && !header.meta.Reverses?
    ensures ReversalsExact(Commit(db, stamp, header, legs))
  {
    var db' := Commit(db, stamp, header, legs);
    forall r, t ensures IsReversalOf(db', r, t) <==> IsReversalOf(db, r, t) {
    }
    forall r, t | IsReversalOf(db', r, t)
      ensures t in db'.headers && t != r && LegsOf(db'.journal, r) == Mirror(LegsOf(db'.journal, t))
    {
      assert IsReversalOf(db, r, t);
      LegsAfterCommit(db, stamp, legs, r);
      LegsAfterCommit(db, stamp, legs, t);
    }
    forall t | t in db'.headers
      ensures db'.headers[t].status == Reversed <==> exists r :: IsReversalOf(db', r, t)
    {
      if t == stamp.tx {
        assert forall r :: IsReversalOf(db, r, t) ==> t in db.headers;
      } else {
        assert (exists r :: IsReversalOf(db, r, t)) <==> exists r :: IsReversalOf(db', r, t);
      }
    }
  }

  lemma ReversalsAfter(db: Db, stamp: Stamp, original: Id, principal: string, key: Option<Key>, r: Id, t: Id)
    requires CanReverse(db, stamp, original, principal, key)
    ensures IsReversalOf(Reverse(db, stamp, original, principal, key), r, t)
       <==> IsReversalOf(db, r, t) || (r == stamp.tx && t == original)
  {
  }

  /** What the reversal clause says about one transaction. */
  ghost predicate ReversalExact(db: Db, t: Id)
  {
    t in db.headers ==>
      && (db.headers[t].status == Posted || db.headers[t].status == Reversed)
      && (db.headers[t].status == Reversed <==> exists r :: IsReversalOf(db, r, t))
  }

  lemma ReverseKeepsStatus(db: Db, stamp: Stamp, original: Id, principal: string, key: Option<Key>, t: Id)
    requires ReversalsExact(db) && CanReverse(db, stamp, original, principal, key)
    ensures ReversalExact(Reverse(db, stamp, original, principal, key), t)
  {
    var db' := Reverse(db, stamp, original, principal, key);
    forall r ensures IsReversalOf(db', r, t) <==> IsReversalOf(db, r, t) || (r == stamp.tx && t == original) {
      ReversalsAfter(db, stamp, original, principal, key, r, t);
    }
    if t == original {
      assert IsReversalOf(db', stamp.tx, t);
    } else if t == stamp.tx {
      assert forall r :: IsReversalOf(db, r, t) ==> t in db.headers;
    } else {
      assert (exists r :: IsReversalOf(db, r, t)) <==> exists r :: IsReversalOf(db', r, t);
    }
  }

  lemma ReverseKeepsMirrors(db: Db, stamp: Stamp, original: Id, principal: string, key: Option<Key>, r: Id, t: Id)
    requires Schema(db) && ReversalsExact(db) && CanReverse(db, stamp, original, principal, key)
    requires IsReversalOf(Reverse(db, stamp, original, principal, key), r, t)
    ensures var db' := Reverse(db, stamp, original, principal, key);
            t in db'.headers && t != r && LegsOf(db'.journal, r) == Mirror(LegsOf(db'.journal, t))
  {
    var legs := Mirror(LegsOf(db.journal, original));
    ReversalsAfter(db, stamp, original, principal, key, r, t);
    LegsAfterCommit(db, stamp, legs, r);
    LegsAfterCommit(db, stamp, legs, t);
  }

  /** A reversal is its original's only reversal, and makes it REVERSED. */
  lemma ReverseKeepsReversals(db: Db, stamp: Stamp, original: Id, principal: string, key: Option<Key>, db': Db)
    requires Schema(db) && ReversalsExact(db) && CanReverse(db, stamp, original, principal, key)
    requires db' == Reverse(db, stamp, original, principal, key)
    ensures ReversalsExact(db')
  {
    assert forall r :: !IsReversalOf(db, r, original);
    forall t ensures ReversalExact(db', t) {
      ReverseKeepsStatus(db, stamp, original, principal, key, t);
    }
    forall r, t | IsReversalOf(db', r, t)
      ensures t in db'.headers && t != r && LegsOf(db'.journal, r) == Mirror(LegsOf(db'.journal, t))
    {
      ReverseKeepsMirrors(db, stamp, original, principal, key, r, t);
    }
    forall r, q, t | IsReversalOf(db', r, t) && IsReversalOf(db', q, t) ensures r == q {
      ReversalsAfter(db, stamp, original, principal, key, r, t);
      ReversalsAfter(db, stamp, original, principal, key, q, t);
    }
    forall t | t in db'.headers
      ensures db'.headers[t].status == Posted || db'.headers[t].status == Reversed
      ensures db'.headers[t].status == Reversed <==> exists r :: IsReversalOf(db', r, t)
    {
      assert ReversalExact(db', t);
    }
  }

  lemma CommitKeepsVersions(db: Db, stamp: Stamp, header: Header, legs: seq<Leg>)
    requires Schema(db) && VersionsCount(db) && CanCommit(db, stamp, legs)
    ensures VersionsCount(Commit(db, stamp, header, legs))
  {
    CommitMovesRows(db, stamp, header, legs);
    VersionsExtend(db, Commit(db, stamp, header, legs), stamp, legs);
  }

  lemma CommitKeepsStreams(db: Db, stamp: Stamp, header: Header, legs: seq<Leg>)
    requires StreamsExact(db) && CanCommit(db, stamp, legs)
    ensures StreamsExact(Commit(db, stamp, header, legs))
  {
    CommitMovesRows(db, stamp, header, legs);
    var db' := Commit(db, stamp, header, legs);
    StreamsExtend(db, db', db'.outbox[|db.outbox|], legs);
  }

  lemma CommitKeepsOutbox(db: Db, stamp: Stamp, header: Header, legs: seq<Leg>)
    requires OutboxDistinct(db.headers.Keys, db.outbox) && CanCommit(db, stamp, legs)
    ensures var db' := Commit(db, stamp, header, legs); OutboxDistinct(db'.headers.Keys, db'.outbox)
  {
  }

  lemma CommitKeepsBooks(db: Db, stamp: Stamp, header: Header, legs: seq<Leg>)
    requires BooksInv(db) && CanCommit(db, stamp, legs)
    ensures BooksInv(Commit(db, stamp, header, legs))
  {
    CommitKeepsSchema(db, stamp, header, legs);
    CommitKeepsWhole(db, stamp, header, legs);
    CommitKeepsNoDrift(db, stamp, header, legs);
    CommitKeepsBalanced(db, stamp, header, legs);
    CommitKeepsVersions(db, stamp, header, legs);
    CommitKeepsStreams(db, stamp, header, legs);
    CommitKeepsOutbox(db, stamp, header, legs);
  }

  /** Only header statuses change when a transaction is marked reversed. */
  lemma MarkingKeepsBooks(db: Db, original: Id)
    requires original in db.headers && BooksInv(db)
    ensures BooksInv(MarkReversed(db, original))
  {
    var db' := MarkReversed(db, original);
    assert db'.headers.Keys == db.headers.Keys;
    assert forall a | a in db.accounts :: JournalBalance(db', a) == JournalBalance(db, a);
  }

  lemma PostKeepsInv(db: Db, stamp: Stamp, req: Request, choice: map<Id, Id>)
    requires Inv(db) && CanPost(db, stamp, req, choice) && !req.meta.Reverses?
    ensures Inv(Post(db, stamp, req, choice))
  {
    var legs := RouteLegs(choice, req.legs);
    CommitKeepsBooks(db, stamp, HeaderFor(req), legs);
    PlainCommitKeepsReversals(db, stamp, HeaderFor(req), legs);
  }

  lemma ReverseKeepsInv(db: Db, stamp: Stamp, original: Id, principal: string, key: Option<Key>)
    requires Inv(db) && CanReverse(db, stamp, original, principal, key)
    ensures Inv(Reverse(db, stamp, original, principal, key))
  {
    var legs := Mirror(LegsOf(db.journal, original));
    CommitKeepsBooks(db, stamp, ReversalHeader(original, principal, key), legs);
    MarkingKeepsBooks(Commit(db, stamp, ReversalHeader(original, principal, key), legs), original);
    ReverseKeepsReversals(db, stamp, original, principal, key, Reverse(db, stamp, original, principal, key));
  }

  /** The books are the same: nothing the invariant reads has changed. */
  predicate SameBooks(db: Db, db': Db)
  {
    && db'.headers == db.headers && db'.journal == db.journal && db'.outbox == db.outbox
    && db'.accounts.Keys == db.accounts.Keys && db'.balances.Keys == db.balances.Keys
    && (forall a | a in db.accounts :: SameBook(db.accounts[a], db'.accounts[a]))
    && (forall a | a in db.balances :: SameRow(db.balances[a], db'.balances[a]))
  }

  predicate SameBook(a: Account, b: Account)
  {
    a.atype == b.atype && a.currency == b.currency
  }

  predicate SameRow(a: Balance, b: Balance)
  {
    a.available == b.available && a.version == b.version && a.allowNegative == b.allowNegative
  }

  lemma SameBooksSchema(db: Db, db': Db)
    requires SameBooks(db, db') && Schema(db)
    ensures Schema(db')
  {
    forall k | 0 <= k < |db'.journal| ensures EntryOk(db'.headers.Keys, db'.accounts, db'.journal[k]) {
      assert EntryOk(db.headers.Keys, db.accounts, db.journal[k]);
      assert SameBook(db.accounts[db.journal[k].leg.account], db'.accounts[db.journal[k].leg.account]);
    }
  }

  lemma SameBooksNoDrift(db: Db, db': Db)
    requires SameBooks(db, db') && Schema(db) && Schema(db') && NoDrift(db)
    ensures NoDrift(db')
  {
    forall a | a in db'.accounts ensures db'.balances[a].available == JournalBalance(db', a) {
      assert SameBook(db.accounts[a], db'.accounts[a]) && SameRow(db.balances[a], db'.balances[a]);
    }
  }

  lemma SameBooksCounts(db: Db, db': Db)
    requires SameBooks(db, db') && VersionsCount(db) && StreamsExact(db) && NoOverdraft(db)
    ensures VersionsCount(db') && StreamsExact(db') && NoOverdraft(db')
  {
    assert forall a | a in db'.balances :: SameRow(db.balances[a], db'.balances[a]);
    forall a: Id
      ensures if a in db'.balances then StreamExact(db'.balances[a], a, Stream(db'.outbox, a))
              else Stream(db'.outbox, a) == []
    {
      assert a in db.balances ==> SameRow(db.balances[a], db'.balances[a]);
    }
  }

  lemma SameBooksKeepBooks(db: Db, db': Db)
    requires SameBooks(db, db') && BooksInv(db)
    ensures BooksInv(db')
  {
    SameBooksSchema(db, db');
    SameBooksNoDrift(db, db');
    SameBooksCounts(db, db');
  }

  lemma SameTablesSameReversals(db: Db, db': Db)
    requires ReversalsExact(db) && db'.headers == db.headers && db'.journal == db.journal
    ensures ReversalsExact(db')
  {
    forall r, t ensures IsReversalOf(db', r, t) <==> IsReversalOf(db, r, t) {
    }
    forall t | t in db'.headers
      ensures db'.headers[t].status == Reversed <==> exists r :: IsReversalOf(db', r, t)
    {
      assert (exists r :: IsReversalOf(db, r, t)) <==> exists r :: IsReversalOf(db', r, t);
    }
  }

  lemma OpenKeepsBooks(db: Db, id: Id, account: Account, allowNegative: bool)
    requires BooksInv(db) && CanOpen(db, id)
    ensures BooksInv(Open(db, id, account, allowNegative))
  {
    var db' := Open(db, id, account, allowNegative);
    NewAccountUnseen(db, id);
    OpenKeepsSchema(db, id, account, allowNegative);
    OpenKeepsDrift(db, id, account, allowNegative);
    OpenKeepsCounts(db, id, account, allowNegative);
  }

  lemma OpenKeepsDrift(db: Db, id: Id, account: Account, allowNegative: bool)
    requires Schema(db) && NoDrift(db) && CanOpen(db, id)
    requires forall k | 0 <= k < |db.journal| :: db.journal[k].leg.account != id
    requires Schema(Open(db, id, account, allowNegative))
    ensures NoDrift(Open(db, id, account, allowNegative))
  {
    SumZero(EffectOn(id, NormalOf(account)), Legs(db.journal));
  }

  lemma OpenKeepsCounts(db: Db, id: Id, account: Account, allowNegative: bool)
    requires VersionsCount(db) && StreamsExact(db) && CanOpen(db, id)
    requires TouchingTxs(db.headers.Keys, db.journal, id) == {} && Stream(db.outbox, id) == []
    ensures VersionsCount(Open(db, id, account, allowNegative))
    ensures StreamsExact(Open(db, id, account, allowNegative))
  {
  }

  lemma OpenKeepsSchema(db: Db, id: Id, account: Account, allowNegative: bool)
    requires Schema(db) && CanOpen(db, id)
    ensures Schema(Open(db, id, account, allowNegative))
  {
    forall k | 0 <= k < |db.journal|
      ensures EntryOk(db.headers.Keys, db.accounts[id := account], db.journal[k])
    {
      assert EntryOk(db.headers.Keys, db.accounts, db.journal[k]);
    }
  }

  /** Nothing on record names an account that does not exist yet. */
  lemma NewAccountUnseen(db: Db, id: Id)
    requires BooksInv(db) && id !in db.accounts
    ensures forall k | 0 <= k < |db.journal| :: db.journal[k].leg.account != id
    ensures TouchingTxs(db.headers.Keys, db.journal, id) == {}
    ensures Stream(db.outbox, id) == []
  {
    forall k | 0 <= k < |db.journal| ensures db.journal[k].leg.account != id {
      assert EntryOk(db.headers.Keys, db.accounts, db.journal[k]);
    }
    forall t | t in db.headers ensures id !in Touched(LegsOf(db.journal, t)) {
      ReadBackProper(db, t);
    }
  }

  // ----- whole runs ---------------------------------------------------------------------------------

  lemma OpenKeepsInv(db: Db, id: Id, account: Account, allowNegative: bool)
    requires Inv(db) && CanOpen(db, id)
    ensures Inv(Open(db, id, account, allowNegative))
  {
    OpenKeepsBooks(db, id, account, allowNegative);
    SameTablesSameReversals(db, Open(db, id, account, allowNegative));
  }

  lemma StatusKeepsBooks(db: Db, id: Id, status: AccountStatus)
    requires id in db.accounts
    ensures SameBooks(db, WithStatus(db, id, status))
  {
  }

  lemma HoldKeepsBooks(db: Db, id: Id, delta: int)
    requires CanHold(db, id, delta)
    ensures SameBooks(db, HoldPending(db, id, delta))
  {
  }

  lemma StatusKeepsInv(db: Db, id: Id, status: AccountStatus)
    requires Inv(db) && id in db.accounts
    ensures Inv(WithStatus(db, id, status))
  {
    StatusKeepsBooks(db, id, status);
    SameBooksKeepBooks(db, WithStatus(db, id, status));
    SameTablesSameReversals(db, WithStatus(db, id, status));
  }

  lemma HoldKeepsInv(db: Db, id: Id, delta: int)
    requires Inv(db) && CanHold(db, id, delta)
    ensures Inv(HoldPending(db, id, delta))
  {
    HoldKeepsBooks(db, id, delta);
    SameBooksKeepBooks(db, HoldPending(db, id, delta));
    SameTablesSameReversals(db, HoldPending(db, id, delta));
  }

  lemma StepKeepsInv(db: Db, op: Op)
    requires Inv(db)
    ensures Inv(Step(db, op))
  {
    if Step(db, op) != db {
      match op
      case OpenAccount(id, account, allowNegative) => OpenKeepsInv(db, id, account, allowNegative);
      case SetStatus(id, status) => StatusKeepsInv(db, id, status);
      case Hold(id, delta) => HoldKeepsInv(db, id, delta);
      case PostOp(stamp, req, choice) => PostKeepsInv(db, stamp, req, choice);
      case ReverseOp(stamp, original, principal, key) => ReverseKeepsInv(db, stamp, original, principal, key);
    }
  }

  /** Every state reachable by any run of account openings, holds, posts and reversals satisfies the invariant. */
  lemma {:induction false} RunKeepsInv(db: Db, ops: seq<Op>)
    requires Inv(db)
    ensures Inv(Run(db, ops))
    decreases |ops|
  {
    if ops != [] {
      StepKeepsInv(db, ops[0]);
      RunKeepsInv(Step(db, ops[0]), ops[1..]);
    }
  }

  lemma EmptyInv()
    ensures Inv(EMPTY)
  {
    assert forall a: Id :: Stream(EMPTY.outbox, a) == [];
    assert forall c: string :: Sum(DebitSigned(c), Legs(EMPTY.journal)) == 0;
  }

  lemma ReachableInv(ops: seq<Op>)
    ensures Inv(Run(EMPTY, ops))
  {
    EmptyInv();
    RunKeepsInv(EMPTY, ops);
  }

  // ----- reversal, end to end -------------------------------------------------------------------------

  lemma MirrorsCancel(db: Db, t: Id, r: Id, a: Id)
    requires Schema(db) && ReversalsExact(db) && IsReversalOf(db, r, t) && a in db.accounts
    ensures var f := EffectOn(a, NormalOf(db.accounts[a]));
            Sum(f, LegsOf(db.journal, t)) + Sum(f, LegsOf(db.journal, r)) == 0
  {
    ReadBackProper(db, t);
    MirrorNegates(LegsOf(db.journal, t), a, NormalOf(db.accounts[a]));
  }

  /** In every reachable ledger a reversed transaction and its reversal cancel on every account. */
  lemma ReversalCancels(ops: seq<Op>, t: Id, r: Id, a: Id)
    requires var db := Run(EMPTY, ops); IsReversalOf(db, r, t) && a in db.accounts
    ensures var db := Run(EMPTY, ops);
            var f := EffectOn(a, NormalOf(db.accounts[a]));
            Sum(f, LegsOf(db.journal, t)) + Sum(f, LegsOf(db.journal, r)) == 0
  {
    ReachableInv(ops);
    MirrorsCancel(Run(EMPTY, ops), t, r, a);
  }

  /** Reversing the reversal posts the original legs again, one for one. */
  lemma ReversingTwiceRestores(ops: seq<Op>, t: Id, r: Id, s: Id)
    requires var db := Run(EMPTY, ops); IsReversalOf(db, r, t) && IsReversalOf(db, s, r)
    ensures var db := Run(EMPTY, ops); LegsOf(db.journal, s) == LegsOf(db.journal, t)
  {
    ReachableInv(ops);
    var db := Run(EMPTY, ops);
    ReadBackProper(db, t);
    MirrorInvolutive(LegsOf(db.journal, t));
  }

  /** In every reachable ledger a transaction is REVERSED exactly when some reversal names it, and at most one does. */
  lemma ReversedExactly(ops: seq<Op>, t: Id, r: Id, s: Id)
    requires t in Run(EMPTY, ops).headers
    ensures var db := Run(EMPTY, ops);
            && (db.headers[t].status == Reversed <==> exists x :: IsReversalOf(db, x, t))
            && (IsReversalOf(db, r, t) && IsReversalOf(db, s, t) ==> r == s)
  {
    ReachableInv(ops);
  }

  /** A reachable ledger refuses a second reversal whatever ids, clock or key it carries. */
  lemma ReversedOnce(ops: seq<Op>, t: Id, r: Id, stamp: Stamp, principal: string, key: Option<Key>)
    requires IsReversalOf(Run(EMPTY, ops), r, t)
    ensures !CanReverse(Run(EMPTY, ops), stamp, t, principal, key)
  {
    ReachableInv(ops);
  }
}
