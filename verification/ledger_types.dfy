/** The ledger's vocabulary: directions, money, legs, and the two sign conventions over them. */
module LedgerTypes {
  import opened Collections
  import opened Int64

  /** UUIDs, as the unsigned integers they denote; the nil UUID is zero. */
  type Id = nat

  const NIL: Id := 0

  // ----- enumerations, each with the unrecognised strings the wire can carry -----

  datatype Direction = Debit | Credit | UnknownDirection(text: string)

  predicate ValidDirection(d: Direction)
  {
    d == Debit || d == Credit
  }

  function Opposite(d: Direction): Direction
  {
    if d == Debit then Credit else Debit
  }

  datatype AccountType = Asset | Liability | Equity | Revenue | Expense

  function NormalBalance(t: AccountType): Direction
  {
    if t == Asset || t == Expense then Debit else Credit
  }

  datatype AccountStatus = Active | Frozen | Closed

  datatype TransactionType =
    Transfer | Payin | Payout | Fee | Fx | Reversal | Adjustment | UnknownType(text: string)

  datatype TransactionStatus = Pending | Posted | Reversed

  datatype LedgerError =
    | InvalidTransactionType | TooFewEntries | InvalidEntry | InvalidCurrency | MixedCurrency
    | MoneyOverflow | Unbalanced | AccountNotFound | AccountNotPostable | CurrencyMismatch
    | InsufficientFunds | BalanceVersionConflict | DuplicateIdempotencyKey
    | TransactionNotFound | AlreadyReversed | TransactionNotPosted | ReversalReasonRequired

  // ----- money ------------------------------------------------------------------

  datatype Money = Money(amountMinor: int64, currency: string)

  /** Three upper-case letters and nothing else. */
  predicate ValidCurrency(c: string)
  {
    |c| == 3 && forall i | 0 <= i < 3 :: 'A' <= c[i] <= 'Z'
  }

  /** Told from the outside: a currency is three letters, each upper case. */
  lemma CurrencyIsThreeLetters(c: string)
    ensures ValidCurrency(c) <==> exists x, y, z | 'A' <= x <= 'Z' && 'A' <= y <= 'Z' && 'A' <= z <= 'Z' :: c == [x, y, z]
  {
    if ValidCurrency(c) {
      assert c == [c[0], c[1], c[2]];
    }
  }

  function Add(m: Money, n: Money): (r: Result<Money, LedgerError>)
    ensures r.Ok? <==> m.currency == n.currency && Fits(m.amountMinor + n.amountMinor)
    ensures r.Ok? ==> r.value.amountMinor == m.amountMinor + n.amountMinor && r.value.currency == m.currency
    ensures m.currency == n.currency && r.Err? ==> r.error == MoneyOverflow
  {
    if m.currency != n.currency then Err(CurrencyMismatch)
    else
      var (sum, ok) := AddInt64(m.amountMinor, n.amountMinor);
      if ok then Ok(Money(sum, m.currency)) else Err(MoneyOverflow)
  }

  // ----- legs and their signs -----------------------------------------------------

  /** One requested movement: an account, a side of the journal and an amount. */
  datatype Leg = Leg(account: Id, direction: Direction, amount: Money)

  predicate ProperLeg(l: Leg)
  {
    l.account != NIL && ValidDirection(l.direction) && ValidCurrency(l.amount.currency) && l.amount.amountMinor > 0
  }

  /** What the side of one leg adds to that side's total. */
  function SideOf(d: Direction): Leg -> int
  {
    (l: Leg) => if l.direction == d then l.amount.amountMinor else 0
  }

  /** Transaction sign, per currency: debits add, credits subtract. */
  function DebitSigned(currency: string): Leg -> int
  {
    (l: Leg) =>
      var minor: int := l.amount.amountMinor;
      if l.amount.currency != currency then 0 else if l.direction == Debit then minor else -minor
  }

  /** Account sign: a leg on the account's normal side adds to what the account holds. */
  function EffectOn(account: Id, normal: Direction): Leg -> int
  {
    (l: Leg) =>
      var minor: int := l.amount.amountMinor;
      if l.account != account then 0 else if l.direction == normal then minor else -minor
  }

  /** The delta one entry applies, refusing what the journal's own constraints would refuse. */
  function SignedAmount(direction: Direction, normal: Direction, amountMinor: int64): (r: Result<int64, LedgerError>)
    ensures r.Ok? <==> ValidDirection(direction) && ValidDirection(normal) && amountMinor > 0
    ensures r.Ok? ==> forall l: Leg ::
                        l.direction == direction && l.amount.amountMinor == amountMinor
                        ==> r.value == EffectOn(l.account, normal)(l)
  {
    if !ValidDirection(direction) || !ValidDirection(normal) || amountMinor <= 0 then Err(InvalidEntry)
    else if direction == normal then Ok(amountMinor)
    else Ok(-amountMinor)
  }

  function Touched(legs: seq<Leg>): set<Id>
  {
    set l | l in legs :: l.account
  }

  /** The legs of a reversal: same accounts, same amounts, other side. */
  function MirrorLeg(l: Leg): Leg
  {
    l.(direction := Opposite(l.direction))
  }

  function Mirror(legs: seq<Leg>): (r: seq<Leg>)
    ensures |r| == |legs|
    ensures Touched(r) == Touched(legs)
  {
    var r := seq(|legs|, i requires 0 <= i < |legs| => MirrorLeg(legs[i]));
    MirrorTouches(legs, r);
    r
  }

  lemma MirrorTouches(legs: seq<Leg>, r: seq<Leg>)
    requires |r| == |legs|
    requires forall i | 0 <= i < |legs| :: r[i] == MirrorLeg(legs[i])
    ensures Touched(r) == Touched(legs)
  {
    forall l | l in legs ensures l.account in Touched(r) {
      var i :| 0 <= i < |legs| && legs[i] == l;
      assert r[i] in r && r[i].account == l.account;
    }
    forall l | l in r ensures l.account in Touched(legs) {
      var i :| 0 <= i < |r| && r[i] == l;
      assert legs[i] in legs && legs[i].account == l.account;
    }
  }

  /** A mirrored transaction has the opposite effect on every account, however often it is named. */
  lemma MirrorNegates(legs: seq<Leg>, account: Id, normal: Direction)
    requires ValidDirection(normal)
    requires forall i | 0 <= i < |legs| :: ValidDirection(legs[i].direction)
    ensures Sum(EffectOn(account, normal), Mirror(legs)) == -Sum(EffectOn(account, normal), legs)
  {
    SumPointwise(EffectOn(account, normal), Mirror(legs), EffectOn(account, normal), legs, -1);
  }

  /** Reversing a reversal restores the original legs themselves. */
  lemma MirrorInvolutive(legs: seq<Leg>)
    requires forall i | 0 <= i < |legs| :: ValidDirection(legs[i].direction)
    ensures Mirror(Mirror(legs)) == legs
  {
    forall i | 0 <= i < |legs| ensures Mirror(Mirror(legs))[i] == legs[i] {
      assert legs[i].direction == Debit || legs[i].direction == Credit;
    }
  }

  /** An account no leg names feels nothing. */
  lemma UntouchedEffect(legs: seq<Leg>, account: Id, normal: Direction)
    requires account !in Touched(legs)
    ensures Sum(EffectOn(account, normal), legs) == 0
  {
    forall i | 0 <= i < |legs| ensures EffectOn(account, normal)(legs[i]) == 0 {
      assert legs[i] in legs;
    }
    SumZero(EffectOn(account, normal), legs);
  }
}
