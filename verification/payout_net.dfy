/** What a saga has moved, account by account, read off its status and its payload alone. */
module PayoutNet {
  import opened Collections
  import opened LedgerTypes
  import opened Ledger
  import opened Sharding
  import opened SagaTypes
  import opened SagaStore
  import opened Payout
  import opened PayoutBooks
  import opened PayoutSafety

  /** The net credit a saga in this status has given an account: nothing, parked, paid out, or given back. */
  function Moved(status: Status, p: Payload, a: Id): int
  {
    var amount: int := p.amount;
    var fee: int := p.fee;
    if Holds(status) then (if a == p.suspense then amount else 0) - (if a == p.wallet then amount else 0)
    else if status == Completed then
      (if a == p.merchant then amount - fee else 0) + (if a == p.feeAccount then fee else 0)
      - (if a == p.wallet then amount else 0)
    else 0
  }

  /** Credits less debits on an account and its shards. */
  function FamilyCredit(accounts: map<Id, Account>, a: Id): Leg -> int
    requires a in accounts
  {
    (l: Leg) =>
      var minor: int := l.amount.amountMinor;
      if l.account !in Physical(accounts, a) then 0 else if l.direction == Credit then minor else -minor
  }

  function FamilyMove(db: Db, a: Id): Id -> int
    requires a in db.accounts
  {
    (t: Id) => Sum(FamilyCredit(db.accounts, a), LegsOf(db.journal, t))
  }

  /** The payload names accounts that are not themselves shards. */
  predicate NamesLogical(accounts: map<Id, Account>, p: Payload)
  {
    forall b | b in {p.wallet, p.suspense, p.merchant, p.feeAccount} && b in accounts :: accounts[b].parent == None
  }

  predicate LegsLogical(accounts: map<Id, Account>, legs: seq<Leg>)
  {
    forall k | 0 <= k < |legs| :: legs[k].account in accounts ==> accounts[legs[k].account].parent == None
  }

  /** Wherever among the shards the legs went, the family feels what the named account was asked to feel. */
  lemma RoutedCredit(accounts: map<Id, Account>, asked: seq<Leg>, got: seq<Leg>, a: Id)
    requires Routed(accounts, asked, got) && LegsLogical(accounts, asked) && Logical(accounts, a)
    ensures Sum(FamilyCredit(accounts, a), got) == Sum(EffectOn(a, Credit), asked)
  {
    forall k | 0 <= k < |asked| ensures FamilyCredit(accounts, a)(got[k]) == EffectOn(a, Credit)(asked[k]) {
      assert RoutedLeg(accounts, asked[k], got[k]);
    }
    SumEqual(FamilyCredit(accounts, a), got, EffectOn(a, Credit), asked);
  }

  lemma ReserveNet(p: Payload, a: Id)
    requires ValidPayload(p)
    ensures Sum(EffectOn(a, Credit), ReserveLegs(p)) == Moved(SagaReserved, p, a)
  {
    SumPair(EffectOn(a, Credit), ReserveLegs(p)[0], ReserveLegs(p)[1]);
    assert ReserveLegs(p) == [ReserveLegs(p)[0], ReserveLegs(p)[1]];
  }

  lemma SettleNet(p: Payload, a: Id)
    requires ValidPayload(p)
    ensures Sum(EffectOn(a, Credit), SettleLegs(p)) == Moved(Completed, p, a) - Moved(SagaReserved, p, a)
  {
    var legs := SettleLegs(p);
    var first := [legs[0], legs[1]];
    SumPair(EffectOn(a, Credit), legs[0], legs[1]);
    if p.fee > 0 {
      assert legs == first + [legs[2]];
      SumSnoc(EffectOn(a, Credit), first, legs[2]);
    } else {
      assert legs == first;
    }
  }

  lemma MirrorCredit(accounts: map<Id, Account>, legs: seq<Leg>, a: Id)
    requires a in accounts && forall k | 0 <= k < |legs| :: ValidDirection(legs[k].direction)
    ensures Sum(FamilyCredit(accounts, a), Mirror(legs)) == -Sum(FamilyCredit(accounts, a), legs)
  {
    SumPointwise(FamilyCredit(accounts, a), Mirror(legs), FamilyCredit(accounts, a), legs, -1);
  }

  /** The legs a payload asks for name only its own accounts. */
  lemma PayloadLogical(accounts: map<Id, Account>, p: Payload)
    requires ValidPayload(p) && NamesLogical(accounts, p)
    ensures LegsLogical(accounts, ReserveLegs(p)) && LegsLogical(accounts, SettleLegs(p))
  {
  }

  lemma HeldNet(db: Db, row: SagaRow, i: nat, a: Id, r: Id)
    requires ValidPayload(row.payload) && NamesLogical(db.accounts, row.payload) && Logical(db.accounts, a)
    requires Routed(db.accounts, ReserveLegs(row.payload), LegsOf(db.journal, r))
    ensures FamilyMove(db, a)(r) == Moved(SagaReserved, row.payload, a)
  {
    PayloadLogical(db.accounts, row.payload);
    RoutedCredit(db.accounts, ReserveLegs(row.payload), LegsOf(db.journal, r), a);
    ReserveNet(row.payload, a);
  }

  lemma SettledNet(db: Db, row: SagaRow, i: nat, a: Id, t: Id)
    requires ValidPayload(row.payload) && NamesLogical(db.accounts, row.payload) && Logical(db.accounts, a)
    requires Routed(db.accounts, SettleLegs(row.payload), LegsOf(db.journal, t))
    ensures FamilyMove(db, a)(t) == Moved(Completed, row.payload, a) - Moved(SagaReserved, row.payload, a)
  {
    PayloadLogical(db.accounts, row.payload);
    RoutedCredit(db.accounts, SettleLegs(row.payload), LegsOf(db.journal, t), a);
    SettleNet(row.payload, a);
  }

  lemma CompletedNet(db: Db, row: SagaRow, i: nat, a: Id, r: Id, t: Id)
    requires ValidPayload(row.payload) && NamesLogical(db.accounts, row.payload) && Logical(db.accounts, a)
    requires Routed(db.accounts, ReserveLegs(row.payload), LegsOf(db.journal, r)) && t != r
    requires Routed(db.accounts, SettleLegs(row.payload), LegsOf(db.journal, t))
    ensures SumOver(FamilyMove(db, a), {r, t}) == Moved(Completed, row.payload, a)
  {
    HeldNet(db, row, i, a, r);
    SettledNet(db, row, i, a, t);
    SumOverPair(FamilyMove(db, a), r, t);
  }

  lemma CompensatedNet(db: Db, row: SagaRow, a: Id, r: Id, m: Id)
    requires a in db.accounts && Routed(db.accounts, ReserveLegs(row.payload), LegsOf(db.journal, r))
    requires m != r && LegsOf(db.journal, m) == Mirror(LegsOf(db.journal, r))
    ensures SumOver(FamilyMove(db, a), {r, m}) == 0
  {
    RefundedNet(db, row, a, r, m);
    SumOverPair(FamilyMove(db, a), r, m);
  }

  lemma SaidNet(db: Db, row: SagaRow, i: nat, a: Id)
    requires ValidPayload(row.payload) && BooksSay(db, row, i)
    requires NamesLogical(db.accounts, row.payload) && Logical(db.accounts, a)
    ensures SumOver(FamilyMove(db, a), OwnedTxs(db, i)) == Moved(row.status, row.payload, a)
  {
    if HasReserve(row.status) {
      if row.status == Completed {
        var r: Id, t: Id :| Routed(db.accounts, ReserveLegs(row.payload), LegsOf(db.journal, r)) && t != r
                    && OwnedTxs(db, i) == {r, t} && Routed(db.accounts, SettleLegs(row.payload), LegsOf(db.journal, t));
        CompletedNet(db, row, i, a, r, t);
      } else if row.status == Compensated {
        var r: Id, m: Id :| Routed(db.accounts, ReserveLegs(row.payload), LegsOf(db.journal, r)) && m != r
                    && OwnedTxs(db, i) == {r, m} && LegsOf(db.journal, m) == Mirror(LegsOf(db.journal, r));
        CompensatedNet(db, row, a, r, m);
      } else {
        var r: Id :| Routed(db.accounts, ReserveLegs(row.payload), LegsOf(db.journal, r)) && OwnedTxs(db, i) == {r};
        HeldNet(db, row, i, a, r);
        SumOverSingle(FamilyMove(db, a), r);
      }
    }
  }

  lemma RefundedNet(db: Db, row: SagaRow, a: Id, r: Id, m: Id)
    requires a in db.accounts && Routed(db.accounts, ReserveLegs(row.payload), LegsOf(db.journal, r))
    requires LegsOf(db.journal, m) == Mirror(LegsOf(db.journal, r))
    ensures FamilyMove(db, a)(r) + FamilyMove(db, a)(m) == 0
  {
    var legs := LegsOf(db.journal, r);
    assert RoutedLeg(db.accounts, ReserveLegs(row.payload)[0], legs[0]) && RoutedLeg(db.accounts, ReserveLegs(row.payload)[1], legs[1]);
    MirrorCredit(db.accounts, legs, a);
  }

  /**
   In every reachable world a saga has parked exactly its amount, paid exactly amount less fee and fee, or moved
   nothing, on the accounts its payload names and on no other.
   */
  lemma NetByStatus(cfg: Config, db: Db, es: seq<Event>, i: nat, a: Id)
    requires Untouched(db) && i < |Play(cfg, Opening(db), es).tb.sagas|
    requires var w := Play(cfg, Opening(db), es);
             NamesLogical(w.db.accounts, w.tb.sagas[i].payload) && Logical(w.db.accounts, a)
    ensures var w := Play(cfg, Opening(db), es);
            SumOver(FamilyMove(w.db, a), OwnedTxs(w.db, i)) == Moved(w.tb.sagas[i].status, w.tb.sagas[i].payload, a)
  {
    BooksFollowStatus(cfg, db, es, i);
    var w := Play(cfg, Opening(db), es);
    SaidNet(w.db, w.tb.sagas[i], i, a);
  }
}
