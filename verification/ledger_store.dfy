/** The ledger as the service updates it: tables held in fields, one database transaction per method. */
module LedgerStore {
  import opened Collections
  import opened Int64
  import opened LedgerTypes
  import opened Posting
  import opened Ledger
  import opened LedgerInvariants

  /** Which account-level fact makes a set of legs unpostable. */
  predicate ExplainsRefusal(db: Db, legs: seq<Leg>, error: LedgerError)
  {
    match error
    case AccountNotFound => exists id :: id in Touched(legs) && id !in db.accounts
    case AccountNotPostable => exists id :: id in Touched(legs) && id in db.accounts && db.accounts[id].status != Active
    case CurrencyMismatch =>
      exists i :: 0 <= i < |legs| && legs[i].account in db.accounts
                  && legs[i].amount.currency != db.accounts[legs[i].account].currency
    case _ => false
  }

  /** Where a balance would stand after some legs. */
  function Projected(db: Db, legs: seq<Leg>, id: Id): int
    requires id in db.accounts && id in db.balances
  {
    db.balances[id].available + Sum(EffectOn(id, NormalOf(db.accounts[id])), legs)
  }

  /** Why the ledger as it stands refuses some legs. */
  predicate WriteFault(db: Db, principal: string, key: Option<Key>, legs: seq<Leg>, error: LedgerError)
  {
    match error
    case DuplicateIdempotencyKey => !KeyFree(db, principal, key)
    case InsufficientFunds =>
      exists id | id in Touched(legs) && id in db.accounts && id in db.balances ::
        !db.balances[id].allowNegative && Projected(db, legs, id) < 0
    case MoneyOverflow =>
      exists id | id in Touched(legs) && id in db.accounts && id in db.balances :: !Fits(Projected(db, legs, id))
    case _ => ExplainsRefusal(db, legs, error)
  }

  /** Every reason the service can give for refusing a request, and the fact behind it. */
  predicate PostFault(db: Db, req: Request, choice: map<Id, Id>, error: LedgerError)
  {
    || RequestFault(req.ttype, req.legs, error)
    || WriteFault(db, req.principal, req.key, RouteLegs(choice, req.legs), error)
  }

  /** Every reason the service can give for refusing a reversal, and the fact behind it. */
  predicate ReverseFault(db: Db, original: Id, reason: string, principal: string, key: Option<Key>, error: LedgerError)
  {
    match error
    case ReversalReasonRequired => reason == ""
    case TransactionNotFound => original !in db.headers
    case AlreadyReversed => original in db.headers && db.headers[original].status == Reversed
    case TransactionNotPosted => original in db.headers && db.headers[original].status == Pending
    case _ => WriteFault(db, principal, key, Mirror(LegsOf(db.journal, original)), error)
  }

  /** Locks the accounts in id order and checks what only locked rows can tell. */
  method LockAndValidate(db: Db, ids: seq<Id>, legs: seq<Leg>) returns (r: Result<map<Id, LockedAccount>, LedgerError>)
    requires Schema(db) && ids == AccountsInOrder(legs)
    ensures r.Ok? <==> Postable(db, legs)
    ensures r.Ok? ==> r.value == View(db)
    ensures r.Err? ==> ExplainsRefusal(db, legs, r.error)
  {
    for k := 0 to |ids|
      invariant forall j | 0 <= j < k :: ids[j] in db.accounts && db.accounts[ids[j]].status == Active
    {
      assert ids[k] in ids;
      if ids[k] !in db.accounts {
        return Err(AccountNotFound);
      }
      if db.accounts[ids[k]].status != Active {
        return Err(AccountNotPostable);
      }
    }
    forall id | id in Touched(legs) ensures id in db.accounts && id in db.balances && db.accounts[id].status == Active {
      var j :| 0 <= j < |ids| && ids[j] == id;
    }
    for i := 0 to |legs|
      invariant forall j | 0 <= j < i ::
          legs[j].account in db.accounts && legs[j].amount.currency == db.accounts[legs[j].account].currency
    {
      assert legs[i] in legs;
      if legs[i].amount.currency != db.accounts[legs[i].account].currency {
        return Err(CurrencyMismatch);
      }
    }
    return Ok(View(db));
  }

  method KeyTaken(headers: map<Id, Header>, principal: string, key: Option<Key>) returns (taken: bool)
    ensures taken <==> key.Some? && exists t :: t in headers && headers[t].principal == principal && headers[t].key == key
  {
    taken := key.Some? && exists t | t in headers :: headers[t].principal == principal && headers[t].key == key;
  }

  /** What the balance check found out under the locks is a fault of the ledger as it stands. */
  lemma AppliedFault(db: Db, principal: string, key: Option<Key>, legs: seq<Leg>, error: LedgerError)
    requires Postable(db, legs) && ApplyFault(legs, View(db), db.balances, error)
    ensures WriteFault(db, principal, key, legs, error)
  {
    var id :| id in Touched(legs) && RowFault(db.balances[id], Sum(EffectOn(id, View(db)[id].normal), legs), error);
    var projected := Projected(db, legs, id);
  }

  /** Everything a posting or a reversal does after its legs are known: lock, insert, apply, emit. */
  method WriteTransaction(db: Db, stamp: Stamp, header: Header, legs: seq<Leg>) returns (r: Result<Db, LedgerError>)
    requires Schema(db) && FreshStamp(db, stamp, |legs|) && Accepts(Transfer, legs)
    ensures r.Ok? <==> Admissible(db, legs) && KeyFree(db, header.principal, header.key)
    ensures r.Ok? ==> r.value == Commit(db, stamp, header, legs)
    ensures r.Err? ==> WriteFault(db, header.principal, header.key, legs, r.error)
  {
    var ids := SortedAccountIds(legs);
    var locked := LockAndValidate(db, ids, legs);
    if locked.Err? {
      return Err(locked.error);
    }
    var taken := KeyTaken(db.headers, header.principal, header.key);
    if taken {
      return Err(DuplicateIdempotencyKey);
    }
    ValidatedPartialsFit(Transfer, legs, locked.value);
    var applied := ApplyEntries(legs, locked.value, ids, db.balances);
    if applied.Err? {
      AppliedFault(db, header.principal, header.key, legs, applied.error);
      return Err(applied.error);
    }
    var event := TxEvent(stamp.tx, header.meta.Reverses?, applied.value.1);
    return Ok(Db(db.accounts, applied.value.0, db.headers[stamp.tx := header],
                 db.journal + EntriesFor(stamp, legs), db.outbox + [event]));
  }

  class Store {
    var accounts: map<Id, Account>
    var balances: map<Id, Balance>
    var headers: map<Id, Header>
    var journal: seq<Entry>
    var outbox: seq<TxEvent>

    ghost function Tables(): Db
      reads this
    {
      Db(accounts, balances, headers, journal, outbox)
    }

    ghost predicate Valid()
      reads this
    {
      Inv(Tables())
    }

    constructor ()
      ensures Valid() && Tables() == EMPTY
    {
      accounts, balances, headers, journal, outbox := map[], map[], map[], [], [];
      new;
      EmptyInv();
    }

    /** COMMIT: the working copy becomes the tables. */
    method Install(db: Db)
      modifies this
      ensures Tables() == db
    {
      accounts, balances, headers, journal, outbox := db.accounts, db.balances, db.headers, db.journal, db.outbox;
    }

    /**
     Posts a request: it succeeds exactly when the ideal arithmetic says it can, then moves every balance by its
     ideal net effect under one chosen routing; otherwise no table changes.
     */
    method PostTransaction(req: Request, stamp: Stamp) returns (r: Result<(), LedgerError>, choice: map<Id, Id>)
      requires Valid() && !req.meta.Reverses?
      requires FreshStamp(Tables(), stamp, |req.legs|)
      modifies this
      ensures Valid()
      ensures r.Ok? <==> CanPost(old(Tables()), stamp, req, choice)
      ensures r.Ok? ==> Tables() == Post(old(Tables()), stamp, req, choice)
      ensures r.Err? ==> Tables() == old(Tables()) && PostFault(old(Tables()), req, choice, r.error)
      ensures Accepts(req.ttype, req.legs) ==> ValidChoice(old(Tables()).accounts, req.legs, choice)
    {
      choice := map[];
      var checked := Validate(req.ttype, req.legs);
      if checked.Err? {
        return Err(checked.error), choice;
      }
      var db := Db(accounts, balances, headers, journal, outbox);
      var routed;
      routed, choice := RouteToShards(db.accounts, req.legs);
      RoutingKeepsAcceptance(req.ttype, req.legs, db.accounts, choice);
      var written := WriteTransaction(db, stamp, HeaderFor(req), routed);
      if written.Err? {
        return Err(written.error), choice;
      }
      PostKeepsInv(db, stamp, req, choice);
      Install(written.value);
      return Ok(()), choice;
    }

    /** Reverses a transaction by posting its mirror and marking it, or changes nothing and says why. */
    method ReverseTransaction(original: Id, reason: string, principal: string, key: Option<Key>, stamp: Stamp)
      returns (r: Result<(), LedgerError>)
      requires Valid()
      requires FreshStamp(Tables(), stamp, |LegsOf(Tables().journal, original)|)
      modifies this
      ensures Valid()
      ensures r.Ok? <==> reason != "" && CanReverse(old(Tables()), stamp, original, principal, key)
      ensures r.Ok? ==> Tables() == Reverse(old(Tables()), stamp, original, principal, key)
      ensures r.Err? ==> Tables() == old(Tables()) && ReverseFault(old(Tables()), original, reason, principal, key, r.error)
      ensures reason != "" && original in old(headers) && old(headers)[original].status == Reversed ==> r == Err(AlreadyReversed)
    {
      if reason == "" {
        return Err(ReversalReasonRequired);
      }
      if original !in headers {
        return Err(TransactionNotFound);
      }
      if headers[original].status == Reversed {
        return Err(AlreadyReversed);
      }
      if headers[original].status != Posted {
        return Err(TransactionNotPosted);
      }
      var db := Db(accounts, balances, headers, journal, outbox);
      var loaded := LegsOf(journal, original);
      if |loaded| == 0 {
        return Err(TooFewEntries);
      }
      MirrorAccepted(loaded);
      var written := WriteTransaction(db, stamp, ReversalHeader(original, principal, key), Mirror(loaded));
      if written.Err? {
        return Err(written.error);
      }
      ReverseKeepsInv(db, stamp, original, principal, key);
      Install(MarkReversed(written.value, original));
      return Ok(());
    }
  }
}
