/** The loops of the posting path: validation, account ordering, aggregation and the overdraft check. */
module Posting {
  import opened Collections
  import opened Int64
  import opened LedgerTypes

  // ----- request validation ------------------------------------------------------

  /** Every leg is well formed and all share one currency. */
  predicate UniformLegs(legs: seq<Leg>)
  {
    forall i | 0 <= i < |legs| :: ProperLeg(legs[i]) && legs[i].amount.currency == legs[0].amount.currency
  }

  /** What a postable request is, in unbounded arithmetic. */
  predicate Accepts(ttype: TransactionType, legs: seq<Leg>)
  {
    && !ttype.UnknownType?
    && |legs| >= 2
    && UniformLegs(legs)
    && Sum(SideOf(Debit), legs) == Sum(SideOf(Credit), legs)
    && Fits(Sum(SideOf(Debit), legs))
  }

  lemma PrefixSides(legs: seq<Leg>, i: nat, d: Direction)
    requires i <= |legs| && UniformLegs(legs)
    ensures 0 <= Sum(SideOf(d), legs[..i]) <= Sum(SideOf(d), legs)
  {
    assert legs == legs[..i] + legs[i..];
    SumConcat(SideOf(d), legs[..i], legs[i..]);
    SumNonNegative(SideOf(d), legs[..i]);
    SumNonNegative(SideOf(d), legs[i..]);
  }

  lemma NextSide(legs: seq<Leg>, i: nat, d: Direction)
    requires i < |legs|
    ensures Sum(SideOf(d), legs[..i + 1]) == Sum(SideOf(d), legs[..i]) + SideOf(d)(legs[i])
  {
    assert legs[..i + 1] == legs[..i] + [legs[i]];
    SumSnoc(SideOf(d), legs[..i], legs[i]);
  }

  /** A fault of the request itself, whatever the accounts hold. */
  predicate RequestFault(ttype: TransactionType, legs: seq<Leg>, error: LedgerError)
  {
    match error
    case InvalidTransactionType => ttype.UnknownType?
    case TooFewEntries => |legs| < 2
    case InvalidEntry => exists l | l in legs :: l.account == NIL || !ValidDirection(l.direction) || l.amount.amountMinor <= 0
    case InvalidCurrency => exists l | l in legs :: !ValidCurrency(l.amount.currency)
    case MixedCurrency => legs != [] && exists l | l in legs :: l.amount.currency != legs[0].amount.currency
    case MoneyOverflow =>
      exists i | 0 <= i <= |legs| :: !Fits(Sum(SideOf(Debit), legs[..i])) || !Fits(Sum(SideOf(Credit), legs[..i]))
    case Unbalanced => Sum(SideOf(Debit), legs) != Sum(SideOf(Credit), legs)
    case _ => false
  }

  /** The checks on one entry, in the order they are made. */
  method CheckEntry(e: Leg, currency: string) returns (fault: Option<LedgerError>)
    ensures fault.None? <==> ProperLeg(e) && e.amount.currency == currency
    ensures fault.Some? ==>
              match fault.value
              case InvalidEntry => e.account == NIL || !ValidDirection(e.direction) || e.amount.amountMinor <= 0
              case InvalidCurrency => !ValidCurrency(e.amount.currency)
              case MixedCurrency => e.amount.currency != currency
              case _ => false
  {
    if e.account == NIL {
      return Some(InvalidEntry);
    }
    if !ValidDirection(e.direction) {
      return Some(InvalidEntry);
    }
    if !ValidCurrency(e.amount.currency) {
      return Some(InvalidCurrency);
    }
    if e.amount.amountMinor <= 0 {
      return Some(InvalidEntry);
    }
    if e.amount.currency != currency {
      return Some(MixedCurrency);
    }
    return None;
  }

  /** A running total that does not fit is a fault, and in a uniform request the whole side overflows. */
  lemma OverflowFault(ttype: TransactionType, legs: seq<Leg>, i: nat, d: Direction)
    requires i < |legs| && (d == Debit || d == Credit) && !Fits(Sum(SideOf(d), legs[..i + 1]))
    ensures RequestFault(ttype, legs, MoneyOverflow)
    ensures UniformLegs(legs) ==> !Fits(Sum(SideOf(d), legs))
  {
    assert 0 <= i + 1 <= |legs|;
    if UniformLegs(legs) {
      PrefixSides(legs, i + 1, d);
    }
  }

  /** The running 64-bit totals accept exactly what the ideal totals accept, and name the fault. */
  method Validate(ttype: TransactionType, legs: seq<Leg>) returns (r: Result<(), LedgerError>)
    ensures r.Ok? <==> Accepts(ttype, legs)
    ensures r.Err? ==> RequestFault(ttype, legs, r.error)
    ensures ttype.UnknownType? ==> r == Err(InvalidTransactionType)
    ensures !ttype.UnknownType? && |legs| < 2 ==> r == Err(TooFewEntries)
    ensures !ttype.UnknownType? && |legs| >= 2 && UniformLegs(legs) && r.Err? ==>
              r.error == if Fits(Sum(SideOf(Debit), legs)) && Fits(Sum(SideOf(Credit), legs))
                         then Unbalanced else MoneyOverflow
  {
    if ttype.UnknownType? {
      return Err(InvalidTransactionType);
    }
    if |legs| < 2 {
      return Err(TooFewEntries);
    }
    var currency := legs[0].amount.currency;
    assert legs[0] in legs;
    if !ValidCurrency(currency) {
      return Err(InvalidCurrency);
    }
    var debits, credits := Money(0, currency), Money(0, currency);
    for i := 0 to |legs|
      invariant forall j | 0 <= j < i :: ProperLeg(legs[j]) && legs[j].amount.currency == currency
      invariant debits.amountMinor == Sum(SideOf(Debit), legs[..i]) && debits.currency == currency
      invariant credits.amountMinor == Sum(SideOf(Credit), legs[..i]) && credits.currency == currency
    {
      var e := legs[i];
      assert e in legs;
      var fault := CheckEntry(e, currency);
      if fault.Some? {
        return Err(fault.value);
      }
      NextSide(legs, i, Debit);
      NextSide(legs, i, Credit);
      var total := Add(if e.direction == Debit then debits else credits, e.amount);
      if total.Err? {
        OverflowFault(ttype, legs, i, e.direction);
        return Err(total.error);
      }
      if e.direction == Debit {
        debits := total.value;
      } else {
        credits := total.value;
      }
    }
    assert legs[..|legs|] == legs;
    if debits != credits {
      return Err(Unbalanced);
    }
    return Ok(());
  }

  /** In a balanced single-currency request debits and credits cancel, whatever the currency asked about. */
  lemma AcceptedBalances(ttype: TransactionType, legs: seq<Leg>, currency: string)
    requires Accepts(ttype, legs)
    ensures Sum(DebitSigned(currency), legs) == 0
  {
    if currency == legs[0].amount.currency {
      SidesSplit(legs, currency);
    } else {
      SumZero(DebitSigned(currency), legs);
    }
  }

  lemma {:induction false} SidesSplit(legs: seq<Leg>, currency: string)
    requires forall i | 0 <= i < |legs| :: ProperLeg(legs[i]) && legs[i].amount.currency == currency
    ensures Sum(DebitSigned(currency), legs) == Sum(SideOf(Debit), legs) - Sum(SideOf(Credit), legs)
  {
    if legs != [] {
      assert forall i | 0 <= i < |legs[1..]| :: legs[1..][i] == legs[i + 1];
      SidesSplit(legs[1..], currency);
    }
  }

  // ----- account ordering ----------------------------------------------------------

  /** The distinct accounts of some legs, ascending: what the database's ORDER BY returns. */
  function AccountsInOrder(legs: seq<Leg>): (r: seq<Id>)
    ensures Ascending(r)
    ensures forall x :: x in r <==> x in Touched(legs)
  {
    if legs == [] then []
    else
      var rest := AccountsInOrder(legs[1..]);
      assert forall x :: x in Touched(legs) <==> x == legs[0].account || x in Touched(legs[1..]) by {
        assert legs == [legs[0]] + legs[1..];
        assert forall l :: l in legs <==> l == legs[0] || l in legs[1..];
      }
      InsertAscending(legs[0].account, rest)
  }

  /** Collects each account once and sorts: the same list the lock query walks. */
  method SortedAccountIds(legs: seq<Leg>) returns (ids: seq<Id>)
    ensures ids == AccountsInOrder(legs)
  {
    var seen: set<Id> := {};
    ids := [];
    for i := 0 to |legs|
      invariant Ascending(ids)
      invariant forall x :: x in ids <==> x in seen
      invariant seen == Touched(legs[..i])
    {
      assert legs[..i + 1] == legs[..i] + [legs[i]];
      assert Touched(legs[..i + 1]) == Touched(legs[..i]) + {legs[i].account} by {
        assert forall l :: l in legs[..i + 1] <==> l in legs[..i] || l == legs[i];
      }
      if legs[i].account !in seen {
        seen := seen + {legs[i].account};
        ids := InsertAscending(legs[i].account, ids);
      }
    }
    assert legs[..|legs|] == legs;
    AscendingUnique(ids, AccountsInOrder(legs));
  }

  // ----- aggregation and the overdraft check ------------------------------------------

  /** One row of account_balances. */
  datatype Balance = Balance(available: int64, pending: int64, allowNegative: bool, version: nat)

  /** An account and its balance as read under the row locks. */
  datatype LockedAccount = LockedAccount(
    currency: string, normal: Direction, status: AccountStatus,
    allowNegative: bool, available: int64, version: nat)

  /** What an event reports about one account: the balance after the transaction, and its version. */
  datatype BalanceLine = BalanceLine(account: Id, available: int64, version: nat)

  predicate RowMatches(row: Balance, a: LockedAccount)
  {
    row.available == a.available && row.version == a.version && row.allowNegative == a.allowNegative
  }

  /** The locks are held: every account of the legs is present, and its row is the one that was read. */
  predicate Locked(legs: seq<Leg>, accounts: map<Id, LockedAccount>, balances: map<Id, Balance>)
  {
    forall id | id in Touched(legs) ::
      && id in accounts && id in balances
      && RowMatches(balances[id], accounts[id])
      && ValidDirection(accounts[id].normal)
  }

  /** Every running per-account total stays inside 64 bits. */
  predicate PartialsFit(legs: seq<Leg>, accounts: map<Id, LockedAccount>)
    requires forall id | id in Touched(legs) :: id in accounts
  {
    forall i, id | 0 <= i <= |legs| && id in Touched(legs) ::
      Fits(Sum(EffectOn(id, accounts[id].normal), legs[..i]))
  }

  predicate Affordable(row: Balance, delta: int)
  {
    Fits(row.available + delta) && (row.allowNegative || row.available + delta >= 0)
  }

  predicate AllAffordable(legs: seq<Leg>, accounts: map<Id, LockedAccount>, balances: map<Id, Balance>)
    requires Locked(legs, accounts, balances)
  {
    forall id | id in Touched(legs) :: Affordable(balances[id], Sum(EffectOn(id, accounts[id].normal), legs))
  }

  function Bump(row: Balance, delta: int): Balance
    requires Affordable(row, delta)
  {
    row.(available := row.available + delta, version := row.version + 1)
  }

  /** The ideal result: each touched row moves once, by its net effect. */
  function Applied(legs: seq<Leg>, accounts: map<Id, LockedAccount>, balances: map<Id, Balance>): (r: map<Id, Balance>)
    requires Locked(legs, accounts, balances) && AllAffordable(legs, accounts, balances)
    ensures r.Keys == balances.Keys
  {
    map id | id in balances ::
      if id in Touched(legs) then Bump(balances[id], Sum(EffectOn(id, accounts[id].normal), legs))
      else balances[id]
  }

  function LineOf(balances: map<Id, Balance>, id: Id): BalanceLine
    requires id in balances
  {
    BalanceLine(id, balances[id].available, balances[id].version)
  }

  function LinesOf(balances: map<Id, Balance>, order: seq<Id>): (r: seq<BalanceLine>)
    requires forall id | id in order :: id in balances
    ensures |r| == |order|
    ensures forall k | 0 <= k < |order| :: r[k] == LineOf(balances, order[k])
  {
    seq(|order|, k requires 0 <= k < |order| => LineOf(balances, order[k]))
  }

  lemma NextEffect(legs: seq<Leg>, i: nat, id: Id, normal: Direction)
    requires i < |legs|
    ensures Sum(EffectOn(id, normal), legs[..i + 1]) == Sum(EffectOn(id, normal), legs[..i]) + EffectOn(id, normal)(legs[i])
  {
    assert legs[..i + 1] == legs[..i] + [legs[i]];
    SumSnoc(EffectOn(id, normal), legs[..i], legs[i]);
  }

  function Running(deltas: map<Id, int64>, id: Id): int64
  {
    if id in deltas then deltas[id] else 0
  }

  /** Aggregates the entries into one checked 64-bit delta per account. */
  method Aggregate(legs: seq<Leg>, accounts: map<Id, LockedAccount>) returns (r: Result<map<Id, int64>, LedgerError>)
    requires forall i | 0 <= i < |legs| :: ProperLeg(legs[i])
    requires forall id | id in Touched(legs) :: id in accounts && ValidDirection(accounts[id].normal)
    ensures r.Ok? <==> PartialsFit(legs, accounts)
    ensures r.Err? ==> r.error == MoneyOverflow
    ensures r.Ok? ==> forall id | id in Touched(legs) ::
                        Running(r.value, id) == Sum(EffectOn(id, accounts[id].normal), legs)
  {
    var deltas: map<Id, int64> := map[];
    for i := 0 to |legs|
      invariant forall id | id in Touched(legs) :: Running(deltas, id) == Sum(EffectOn(id, accounts[id].normal), legs[..i])
      invariant forall k, id | 0 <= k <= i && id in Touched(legs) :: Fits(Sum(EffectOn(id, accounts[id].normal), legs[..k]))
    {
      var e := legs[i];
      assert e in legs;
      var account := accounts[e.account];
      var signed := SignedAmount(e.direction, account.normal, e.amount.amountMinor);
      assert signed.Ok?;
      assert signed.value == EffectOn(e.account, account.normal)(e);
      forall id | id in Touched(legs)
        ensures Sum(EffectOn(id, accounts[id].normal), legs[..i + 1])
             == Running(deltas, id) + if id == e.account then signed.value else 0
      {
        NextEffect(legs, i, id, accounts[id].normal);
      }
      var (total, ok) := AddInt64(Running(deltas, e.account), signed.value);
      if !ok {
        return Err(MoneyOverflow);
      }
      deltas := deltas[e.account := total];
    }
    assert legs[..|legs|] == legs;
    return Ok(deltas);
  }

  /** The first rows in lock order have been moved, the others stand, and each moved row has its line. */
  predicate Moved(
    order: seq<Id>, k: nat, deltas: map<Id, int64>, balances: map<Id, Balance>,
    work: map<Id, Balance>, lines: seq<BalanceLine>)
    requires k <= |order| && forall id | id in order :: id in balances
  {
    && work.Keys == balances.Keys
    && (forall j | 0 <= j < k ::
          Affordable(balances[order[j]], Running(deltas, order[j]))
          && work[order[j]] == Bump(balances[order[j]], Running(deltas, order[j])))
    && (forall id | id in balances && id !in order[..k] :: work[id] == balances[id])
    && |lines| == k && (forall j | 0 <= j < k :: lines[j] == LineOf(work, order[j]))
  }

  lemma MovedNext(
    order: seq<Id>, k: nat, deltas: map<Id, int64>, balances: map<Id, Balance>,
    work: map<Id, Balance>, lines: seq<BalanceLine>)
    requires Ascending(order) && k < |order| && (forall id | id in order :: id in balances)
    requires Moved(order, k, deltas, balances, work, lines) && Affordable(balances[order[k]], Running(deltas, order[k]))
    ensures order[k] in work && work[order[k]] == balances[order[k]]
    ensures var work' := work[order[k] := Bump(balances[order[k]], Running(deltas, order[k]))];
            Moved(order, k + 1, deltas, balances, work', lines + [LineOf(work', order[k])])
  {
    assert order[k] in order && order[k] !in order[..k];
    assert order[..k + 1] == order[..k] + [order[k]];
  }

  lemma MovedAll(
    order: seq<Id>, deltas: map<Id, int64>, balances: map<Id, Balance>,
    work: map<Id, Balance>, lines: seq<BalanceLine>)
    requires (forall id | id in order :: id in balances) && Moved(order, |order|, deltas, balances, work, lines)
    ensures forall id | id in order :: Affordable(balances[id], Running(deltas, id))
    ensures forall id | id in balances :: work[id] == if id in order then Bump(balances[id], Running(deltas, id)) else balances[id]
    ensures lines == LinesOf(work, order)
  {
    assert order[..|order|] == order;
  }

  /** What one row's new balance can have wrong with it. */
  predicate RowFault(row: Balance, delta: int, error: LedgerError)
  {
    match error
    case InsufficientFunds => !row.allowNegative && row.available + delta < 0
    case MoneyOverflow => !Fits(row.available + delta)
    case _ => false
  }

  predicate MoveFault(order: seq<Id>, deltas: map<Id, int64>, balances: map<Id, Balance>, error: LedgerError)
    requires forall id | id in order :: id in balances
  {
    exists id | id in order :: RowFault(balances[id], Running(deltas, id), error)
  }

  /** Some touched row would be overdrawn or overflow by its ideal net effect. */
  predicate ApplyFault(legs: seq<Leg>, accounts: map<Id, LockedAccount>, balances: map<Id, Balance>, error: LedgerError)
    requires Locked(legs, accounts, balances)
  {
    exists id | id in Touched(legs) :: RowFault(balances[id], Sum(EffectOn(id, accounts[id].normal), legs), error)
  }

  /** Walks the accounts in lock order, checking and moving each balance once. */
  method MoveBalances(order: seq<Id>, deltas: map<Id, int64>, accounts: map<Id, LockedAccount>, balances: map<Id, Balance>)
    returns (r: Result<(map<Id, Balance>, seq<BalanceLine>), LedgerError>)
    requires Ascending(order)
    requires forall id | id in order :: id in accounts && id in balances && RowMatches(balances[id], accounts[id])
    ensures r.Ok? <==> forall id | id in order :: Affordable(balances[id], Running(deltas, id))
    ensures r.Ok? ==> r.value.0.Keys == balances.Keys
    ensures r.Ok? ==> forall id | id in balances ::
                        r.value.0[id] == if id in order then Bump(balances[id], Running(deltas, id)) else balances[id]
    ensures r.Ok? ==> r.value.1 == LinesOf(r.value.0, order)
    ensures r.Err? ==> MoveFault(order, deltas, balances, r.error)
  {
    var work := balances;
    var lines: seq<BalanceLine> := [];
    for k := 0 to |order|
      invariant Moved(order, k, deltas, balances, work, lines)
    {
      var id := order[k];
      assert id in order;
      var account := accounts[id];
      var delta := Running(deltas, id);
      var (projected, ok) := AddInt64(account.available, delta);
      if !ok {
        return Err(MoneyOverflow);
      }
      if projected < 0 && !account.allowNegative {
        return Err(InsufficientFunds);
      }
      MovedNext(order, k, deltas, balances, work, lines);
      if work[id].version != account.version {
        return Err(BalanceVersionConflict);
      }
      work := work[id := Bump(work[id], delta)];
      lines := lines + [LineOf(work, id)];
    }
    MovedAll(order, deltas, balances, work, lines);
    return Ok((work, lines));
  }

  /** The aggregated deltas are the ideal net effects. */
  predicate IdealDeltas(legs: seq<Leg>, accounts: map<Id, LockedAccount>, deltas: map<Id, int64>)
    requires forall id | id in Touched(legs) :: id in accounts
  {
    forall id | id in Touched(legs) :: Running(deltas, id) == Sum(EffectOn(id, accounts[id].normal), legs)
  }

  lemma MoveFaultIsApplyFault(legs: seq<Leg>, accounts: map<Id, LockedAccount>, order: seq<Id>, deltas: map<Id, int64>,
                              balances: map<Id, Balance>, error: LedgerError)
    requires Locked(legs, accounts, balances) && order == AccountsInOrder(legs) && IdealDeltas(legs, accounts, deltas)
    requires MoveFault(order, deltas, balances, error)
    ensures ApplyFault(legs, accounts, balances, error) && !AllAffordable(legs, accounts, balances)
  {
    var id :| id in order && RowFault(balances[id], Running(deltas, id), error);
    assert id in Touched(legs) && RowFault(balances[id], Sum(EffectOn(id, accounts[id].normal), legs), error);
    assert !Affordable(balances[id], Sum(EffectOn(id, accounts[id].normal), legs));
  }

  lemma MovedIsApplied(legs: seq<Leg>, accounts: map<Id, LockedAccount>, order: seq<Id>, deltas: map<Id, int64>,
                       balances: map<Id, Balance>, work: map<Id, Balance>)
    requires Locked(legs, accounts, balances) && order == AccountsInOrder(legs) && IdealDeltas(legs, accounts, deltas)
    requires forall id | id in order :: Affordable(balances[id], Running(deltas, id))
    requires work.Keys == balances.Keys
    requires forall id | id in balances :: work[id] == if id in order then Bump(balances[id], Running(deltas, id)) else balances[id]
    ensures AllAffordable(legs, accounts, balances) && work == Applied(legs, accounts, balances)
  {
    assert forall id | id in Touched(legs) :: id in order;
  }

  /** Applies a transaction's entries to the locked rows: all of them by their ideal net effect, or none. */
  method ApplyEntries(legs: seq<Leg>, accounts: map<Id, LockedAccount>, order: seq<Id>, balances: map<Id, Balance>)
    returns (r: Result<(map<Id, Balance>, seq<BalanceLine>), LedgerError>)
    requires forall i | 0 <= i < |legs| :: ProperLeg(legs[i])
    requires Locked(legs, accounts, balances)
    requires order == AccountsInOrder(legs)
    ensures r.Ok? <==> PartialsFit(legs, accounts) && AllAffordable(legs, accounts, balances)
    ensures r.Ok? ==> r.value.0 == Applied(legs, accounts, balances)
    ensures r.Ok? ==> r.value.1 == LinesOf(r.value.0, order)
    ensures r.Err? ==>
              (r.error == MoneyOverflow && !PartialsFit(legs, accounts)) || ApplyFault(legs, accounts, balances, r.error)
  {
    var aggregated := Aggregate(legs, accounts);
    if aggregated.Err? {
      return Err(aggregated.error);
    }
    r := MoveBalances(order, aggregated.value, accounts, balances);
    if r.Ok? {
      MovedIsApplied(legs, accounts, order, aggregated.value, balances, r.value.0);
    } else {
      MoveFaultIsApplyFault(legs, accounts, order, aggregated.value, balances, r.error);
    }
  }

  /** After validation the aggregation overflow check cannot fire: totals already bound every partial. */
  lemma ValidatedPartialsFit(ttype: TransactionType, legs: seq<Leg>, accounts: map<Id, LockedAccount>)
    requires Accepts(ttype, legs)
    requires forall id | id in Touched(legs) :: id in accounts && ValidDirection(accounts[id].normal)
    ensures PartialsFit(legs, accounts)
  {
    forall i, id | 0 <= i <= |legs| && id in Touched(legs)
      ensures Fits(Sum(EffectOn(id, accounts[id].normal), legs[..i]))
    {
      EffectBounded(legs, i, id, accounts[id].normal);
    }
  }

  lemma EffectBounded(legs: seq<Leg>, i: nat, id: Id, normal: Direction)
    requires i <= |legs| && UniformLegs(legs) && ValidDirection(normal)
    ensures -Sum(SideOf(Opposite(normal)), legs) <= Sum(EffectOn(id, normal), legs[..i]) <= Sum(SideOf(normal), legs)
  {
    var against := (l: Leg) => -SideOf(Opposite(normal))(l);
    forall k | 0 <= k < i
      ensures against(legs[..i][k]) <= EffectOn(id, normal)(legs[..i][k]) <= SideOf(normal)(legs[..i][k])
    {
      var l := legs[k];
      assert ProperLeg(l) && legs[..i][k] == l;
      assert against(l) == -SideOf(Opposite(normal))(l);
      assert l.direction == normal || l.direction == Opposite(normal);
    }
    SumBetween(against, EffectOn(id, normal), SideOf(normal), legs[..i]);
    SumPointwise(against, legs[..i], SideOf(Opposite(normal)), legs[..i], -1);
    PrefixSides(legs, i, normal);
    PrefixSides(legs, i, Opposite(normal));
  }
}
