/**
 The ledger's tables and the two writes that change them: posting a transaction and reversing one.
 Each is one database transaction, so each is one step from a committed state to the next.
 */
module Ledger {
  import opened Collections
  import opened Int64
  import opened LedgerTypes
  import opened Posting
  import opened SagaTypes

  datatype Account = Account(atype: AccountType, currency: string, status: AccountStatus, parent: Option<Id>)

  function NormalOf(a: Account): (d: Direction)
    ensures ValidDirection(d)
  {
    NormalBalance(a.atype)
  }

  /** Client keys are UUID text; saga step keys carry a suffix no client key can. */
  datatype Key = ClientKey(text: string) | StepKey(saga: nat, step: Step, direction: StepDirection)

  datatype Meta = NoMeta | SagaMeta(saga: nat, step: Step) | Reverses(tx: Id)

  datatype Header = Header(ttype: TransactionType, status: TransactionStatus, principal: string, key: Option<Key>, meta: Meta)

  datatype Entry = Entry(id: Id, tx: Id, leg: Leg, index: nat, createdAt: int)

  datatype TxEvent = TxEvent(id: Id, reversal: bool, lines: seq<BalanceLine>)

  datatype Db = Db(
    accounts: map<Id, Account>,
    balances: map<Id, Balance>,
    headers: map<Id, Header>,
    journal: seq<Entry>,
    outbox: seq<TxEvent>)

  /** What a write generates before it starts: the new ids and the transaction's clock reading. */
  datatype Stamp = Stamp(tx: Id, entryIds: seq<Id>, now: int)

  datatype Request = Request(ttype: TransactionType, principal: string, key: Option<Key>, meta: Meta, legs: seq<Leg>)

  // ----- reading the journal ---------------------------------------------------------

  function Legs(entries: seq<Entry>): (r: seq<Leg>)
    ensures |r| == |entries|
    ensures forall i | 0 <= i < |r| :: r[i] == entries[i].leg
  {
    seq(|entries|, i requires 0 <= i < |entries| => entries[i].leg)
  }

  function InTx(tx: Id): Entry -> bool
  {
    (e: Entry) => e.tx == tx
  }

  /** A transaction's legs, in entry order. */
  function LegsOf(journal: seq<Entry>, tx: Id): seq<Leg>
  {
    Legs(Filter(InTx(tx), journal))
  }

  /** The journal's answer to "what does this account hold". */
  function JournalBalance(db: Db, id: Id): int
    requires id in db.accounts
  {
    Sum(EffectOn(id, NormalOf(db.accounts[id])), Legs(db.journal))
  }

  // ----- shard routing ---------------------------------------------------------------

  function ActiveShards(accounts: map<Id, Account>, id: Id): set<Id>
  {
    set c | c in accounts && accounts[c].parent == Some(id) && accounts[c].status == Active
  }

  function Route(choice: map<Id, Id>, id: Id): Id
  {
    if id in choice then choice[id] else id
  }

  function RouteLegs(choice: map<Id, Id>, legs: seq<Leg>): (r: seq<Leg>)
    ensures |r| == |legs|
    ensures forall i | 0 <= i < |legs| :: r[i] == legs[i].(account := Route(choice, legs[i].account))
  {
    seq(|legs|, i requires 0 <= i < |legs| => legs[i].(account := Route(choice, legs[i].account)))
  }

  /** One active shard is chosen for each sharded account of the request, and for nothing else. */
  predicate ValidChoice(accounts: map<Id, Account>, legs: seq<Leg>, choice: map<Id, Id>)
  {
    && (forall id | id in choice :: id in Touched(legs) && choice[id] in ActiveShards(accounts, id))
    && (forall id | id in Touched(legs) && ActiveShards(accounts, id) != {} :: id in choice)
  }

  /** Rewrites entries naming a sharded account to one of its shards, the same one throughout. */
  method RouteToShards(accounts: map<Id, Account>, legs: seq<Leg>) returns (routed: seq<Leg>, choice: map<Id, Id>)
    ensures ValidChoice(accounts, legs, choice)
    ensures routed == RouteLegs(choice, legs)
  {
    var ids := SortedAccountIds(legs);
    choice := map[];
    for k := 0 to |ids|
      invariant forall id | id in choice :: id in ids[..k] && choice[id] in ActiveShards(accounts, id)
      invariant forall id | id in ids[..k] && ActiveShards(accounts, id) != {} :: id in choice
    {
      assert ids[..k + 1] == ids[..k] + [ids[k]];
      var shards := ActiveShards(accounts, ids[k]);
      if shards != {} {
        var shard :| shard in shards;
        choice := choice[ids[k] := shard];
      }
    }
    assert ids[..|ids|] == ids;
    routed := [];
    for i := 0 to |legs|
      invariant |routed| == i
      invariant forall j | 0 <= j < i :: routed[j] == legs[j].(account := Route(choice, legs[j].account))
    {
      routed := routed + [legs[i].(account := Route(choice, legs[i].account))];
    }
  }

  /** A leg goes to an open shard of the account it names, and stays where it is only if there is none. */
  lemma RoutesToOpenShard(accounts: map<Id, Account>, legs: seq<Leg>, choice: map<Id, Id>, id: Id)
    requires ValidChoice(accounts, legs, choice) && id in Touched(legs)
    ensures var to := Route(choice, id);
            || (to in accounts && accounts[to].parent == Some(id) && accounts[to].status == Active)
            || (to == id && forall c | c in accounts && accounts[c].parent == Some(id) :: accounts[c].status != Active)
  {
    if id !in choice {
      forall c | c in accounts && accounts[c].parent == Some(id) ensures accounts[c].status != Active {
        assert c !in ActiveShards(accounts, id);
      }
    }
  }

  /** Routing keeps amounts and sides, so it keeps acceptance. */
  lemma RoutingKeepsAcceptance(ttype: TransactionType, legs: seq<Leg>, accounts: map<Id, Account>, choice: map<Id, Id>)
    requires Accepts(ttype, legs) && ValidChoice(accounts, legs, choice) && NIL !in accounts
    ensures Accepts(ttype, RouteLegs(choice, legs))
  {
    var routed := RouteLegs(choice, legs);
    forall i | 0 <= i < |routed|
      ensures ProperLeg(routed[i]) && routed[i].amount.currency == routed[0].amount.currency
    {
      assert ProperLeg(legs[i]);
      assert legs[i].account in choice ==> choice[legs[i].account] in accounts;
    }
    SumEqual(SideOf(Debit), routed, SideOf(Debit), legs);
    SumEqual(SideOf(Credit), routed, SideOf(Credit), legs);
  }

  // ----- what a write needs and what it leaves ------------------------------------------

  function View(db: Db): map<Id, LockedAccount>
  {
    map id | id in db.accounts && id in db.balances ::
      LockedAccount(db.accounts[id].currency, NormalOf(db.accounts[id]), db.accounts[id].status,
                    db.balances[id].allowNegative, db.balances[id].available, db.balances[id].version)
  }

  predicate Postable(db: Db, legs: seq<Leg>)
  {
    && (forall id | id in Touched(legs) :: id in db.accounts && id in db.balances && db.accounts[id].status == Active)
    && (forall i | 0 <= i < |legs| ::
          legs[i].account in db.accounts && legs[i].amount.currency == db.accounts[legs[i].account].currency)
  }

  /** The accounts are open, hold the right currency, and none would be overdrawn or overflow. */
  predicate Admissible(db: Db, legs: seq<Leg>)
  {
    && Postable(db, legs)
    && AllAffordable(legs, View(db), db.balances)
  }

  predicate FreshStamp(db: Db, stamp: Stamp, count: nat)
  {
    && stamp.tx != NIL && stamp.tx !in db.headers
    && |stamp.entryIds| == count
    && (forall i | 0 <= i < count :: stamp.entryIds[i] != NIL)
    && (forall i, j | 0 <= i < j < count :: stamp.entryIds[i] != stamp.entryIds[j])
    && (forall i, k | 0 <= i < count && 0 <= k < |db.journal| :: stamp.entryIds[i] != db.journal[k].id)
  }

  predicate KeyFree(db: Db, principal: string, key: Option<Key>)
  {
    key.None? || forall t | t in db.headers :: !(db.headers[t].principal == principal && db.headers[t].key == key)
  }

  function EntriesFor(stamp: Stamp, legs: seq<Leg>): (r: seq<Entry>)
    requires |stamp.entryIds| == |legs|
    ensures |r| == |legs|
    ensures forall i | 0 <= i < |legs| :: r[i] == Entry(stamp.entryIds[i], stamp.tx, legs[i], i, stamp.now)
  {
    seq(|legs|, i requires 0 <= i < |legs| => Entry(stamp.entryIds[i], stamp.tx, legs[i], i, stamp.now))
  }

  predicate CanCommit(db: Db, stamp: Stamp, legs: seq<Leg>)
  {
    FreshStamp(db, stamp, |legs|) && Accepts(Transfer, legs) && Admissible(db, legs)
  }

  /** Header, entries, balances and event, made durable together. */
  function Commit(db: Db, stamp: Stamp, header: Header, legs: seq<Leg>): Db
    requires CanCommit(db, stamp, legs)
  {
    var balances := Applied(legs, View(db), db.balances);
    Db(db.accounts,
       balances,
       db.headers[stamp.tx := header],
       db.journal + EntriesFor(stamp, legs),
       db.outbox + [TxEvent(stamp.tx, header.meta.Reverses?, LinesOf(balances, AccountsInOrder(legs)))])
  }

  function HeaderFor(req: Request): Header
  {
    Header(req.ttype, Posted, req.principal, req.key, req.meta)
  }

  predicate CanPost(db: Db, stamp: Stamp, req: Request, choice: map<Id, Id>)
  {
    && Accepts(req.ttype, req.legs)
    && ValidChoice(db.accounts, req.legs, choice)
    && KeyFree(db, req.principal, req.key)
    && CanCommit(db, stamp, RouteLegs(choice, req.legs))
  }

  function Post(db: Db, stamp: Stamp, req: Request, choice: map<Id, Id>): Db
    requires CanPost(db, stamp, req, choice)
  {
    Commit(db, stamp, HeaderFor(req), RouteLegs(choice, req.legs))
  }

  function ReversalHeader(original: Id, principal: string, key: Option<Key>): Header
  {
    Header(Reversal, Posted, principal, key, Reverses(original))
  }

  predicate CanReverse(db: Db, stamp: Stamp, original: Id, principal: string, key: Option<Key>)
  {
    && original in db.headers && db.headers[original].status == Posted
    && KeyFree(db, principal, key)
    && CanCommit(db, stamp, Mirror(LegsOf(db.journal, original)))
  }

  function MarkReversed(db: Db, original: Id): Db
    requires original in db.headers
  {
    db.(headers := db.headers[original := db.headers[original].(status := Reversed)])
  }

  function Reverse(db: Db, stamp: Stamp, original: Id, principal: string, key: Option<Key>): Db
    requires CanReverse(db, stamp, original, principal, key)
  {
    var legs := Mirror(LegsOf(db.journal, original));
    MarkReversed(Commit(db, stamp, ReversalHeader(original, principal, key), legs), original)
  }

  // ----- steps and runs --------------------------------------------------------------------

  datatype Op =
    | OpenAccount(id: Id, account: Account, allowNegative: bool)
    | SetStatus(id: Id, status: AccountStatus)
    | Hold(id: Id, delta: int)
    | PostOp(stamp: Stamp, req: Request, choice: map<Id, Id>)
    | ReverseOp(stamp: Stamp, original: Id, principal: string, key: Option<Key>)

  predicate CanHold(db: Db, id: Id, delta: int)
  {
    id in db.balances && db.balances[id].pending + delta >= 0 && Fits(db.balances[id].pending + delta)
  }

  /** Moves pending_minor only: no version, no journal entry. */
  function HoldPending(db: Db, id: Id, delta: int): Db
    requires CanHold(db, id, delta)
  {
    db.(balances := db.balances[id := db.balances[id].(pending := db.balances[id].pending + delta)])
  }

  predicate CanOpen(db: Db, id: Id)
  {
    id != NIL && id !in db.accounts && id !in db.balances
  }

  /** The balance row appears with the account, empty and at version zero. */
  function Open(db: Db, id: Id, account: Account, allowNegative: bool): Db
  {
    db.(accounts := db.accounts[id := account], balances := db.balances[id := Balance(0, 0, allowNegative, 0)])
  }

  function WithStatus(db: Db, id: Id, status: AccountStatus): Db
    requires id in db.accounts
  {
    db.(accounts := db.accounts[id := db.accounts[id].(status := status)])
  }

  /** One committed write, or nothing at all when the database or the service refuses it. */
  function Step(db: Db, op: Op): Db
  {
    match op
    case OpenAccount(id, account, allowNegative) =>
      if CanOpen(db, id) then Open(db, id, account, allowNegative) else db
    case SetStatus(id, status) =>
      if id in db.accounts then WithStatus(db, id, status) else db
    case Hold(id, delta) =>
      if CanHold(db, id, delta) then HoldPending(db, id, delta) else db
    case PostOp(stamp, req, choice) =>
      if CanPost(db, stamp, req, choice) && !req.meta.Reverses? then Post(db, stamp, req, choice) else db
    case ReverseOp(stamp, original, principal, key) =>
      if CanReverse(db, stamp, original, principal, key) then Reverse(db, stamp, original, principal, key) else db
  }

  function Run(db: Db, ops: seq<Op>): Db
    decreases |ops|
  {
    if ops == [] then db else Run(Step(db, ops[0]), ops[1..])
  }

  const EMPTY: Db := Db(map[], map[], map[], [], [])
}
