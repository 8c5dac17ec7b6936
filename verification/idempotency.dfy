/** Idempotency records: the guarded statements on idempotency_keys, and the manager that decides with them. */
module Idempotency {
  import opened Collections
  import opened LedgerTypes

  /** Keys live in their principal's namespace. */
  datatype Slot = Slot(principal: string, key: string)

  datatype KeyStatus = InProgress | Completed | Failed

  predicate Final(s: KeyStatus)
  {
    s != InProgress
  }

  /** Status zero and an empty body stand for a response that was never stored. */
  datatype Reply = Reply(status: int, body: string)

  /**
   One row of idempotency_keys. Two fields are history rather than columns: `born`, how many ledger
   transactions had committed when the row was inserted, and `author`, the fingerprint of the request
   whose work the stored response describes.
   */
  datatype Row = Row(
    fingerprint: nat, status: KeyStatus, reply: Reply, tx: Option<Id>,
    expiresAt: int, leaseUntil: int, born: nat, author: Option<nat>)

  type Rows = map<Slot, Row>

  // ----- the statements ---------------------------------------------------------------------------

  function Reserved(rows: Rows, slot: Slot, fingerprint: nat, now: int, ttl: int, lease: int, born: nat): Rows
  {
    rows[slot := Row(fingerprint, InProgress, Reply(0, ""), None, now + ttl, now + lease, born, None)]
  }

  predicate IsOpen(rows: Rows, slot: Slot)
  {
    slot in rows && rows[slot].status == InProgress
  }

  predicate CanReclaim(rows: Rows, slot: Slot, now: int)
  {
    IsOpen(rows, slot) && rows[slot].leaseUntil <= now
  }

  /** A new lease never outlives the record. */
  function Reclaimed(rows: Rows, slot: Slot, now: int, lease: int): Rows
    requires CanReclaim(rows, slot, now)
  {
    var until := if now + lease <= rows[slot].expiresAt then now + lease else rows[slot].expiresAt;
    rows[slot := rows[slot].(leaseUntil := until)]
  }

  function Rejected(rows: Rows, slot: Slot, reply: Reply, author: nat): Rows
    requires IsOpen(rows, slot)
  {
    rows[slot := rows[slot].(status := Failed, reply := reply, author := Some(author))]
  }

  function Released(rows: Rows, slot: Slot): Rows
  {
    if IsOpen(rows, slot) then rows - {slot} else rows
  }

  function Fulfilled(rows: Rows, slot: Slot, reply: Reply, tx: Id, author: nat): Rows
    requires IsOpen(rows, slot)
  {
    rows[slot := rows[slot].(status := Completed, reply := reply, tx := Some(tx), author := Some(author))]
  }

  predicate Overdue(row: Row, now: int)
  {
    row.expiresAt < now
  }

  /** Every key in the batch was read from an overdue row. */
  predicate OverdueKeys(rows: Rows, keys: set<string>, now: int)
  {
    forall k | k in keys :: exists slot | slot in rows :: slot.key == k && Overdue(rows[slot], now)
  }

  /** The delete matches on the key alone. */
  function Swept(rows: Rows, keys: set<string>): Rows
  {
    map slot | slot in rows && slot.key !in keys :: rows[slot]
  }

  /** Some batch of overdue rows takes a live row with it. */
  ghost predicate CanTakeLive(rows: Rows, now: int)
  {
    exists keys :: OverdueKeys(rows, keys, now) && TakesLive(rows, keys, now)
  }

  predicate TakesLive(rows: Rows, keys: set<string>, now: int)
  {
    exists slot | slot in rows :: !Overdue(rows[slot], now) && slot !in Swept(rows, keys)
  }

  /** Two principals share the key, and one record is overdue while the other is live. */
  predicate SharedKey(rows: Rows, now: int)
  {
    exists s, t | s in rows && t in rows :: s.key == t.key && Overdue(rows[s], now) && !Overdue(rows[t], now)
  }

  /** A sweep can delete a live record exactly when some key has both an overdue record and a live one. */
  lemma SweepTakesLiveIff(rows: Rows, now: int)
    ensures CanTakeLive(rows, now) <==> SharedKey(rows, now)
  {
    if SharedKey(rows, now) {
      var s, t :| s in rows && t in rows && s.key == t.key && Overdue(rows[s], now) && !Overdue(rows[t], now);
      assert OverdueKeys(rows, {s.key}, now);
      assert t !in Swept(rows, {s.key});
      assert TakesLive(rows, {s.key}, now);
    }
    if CanTakeLive(rows, now) {
      var keys :| OverdueKeys(rows, keys, now) && TakesLive(rows, keys, now);
      var t :| t in rows && !Overdue(rows[t], now) && t !in Swept(rows, keys);
      var s :| s in rows && s.key == t.key && Overdue(rows[s], now);
    }
  }

  // ----- what an existing record means for a request ----------------------------------------------------

  datatype Answer = Replay(reply: Reply) | Conflict | Corrupt | KeyExpired | Busy | TakeOver

  predicate Intact(row: Row)
  {
    Final(row.status) ==> row.reply.status != 0 && row.reply.body != ""
  }

  /** A stored response is replayed to its own fingerprint only, whole, and before it expires. */
  function Resolve(row: Row, fingerprint: nat, now: int): (a: Answer)
    ensures a.Replay? <==> row.fingerprint == fingerprint && Final(row.status) && Intact(row) && now < row.expiresAt
    ensures a.Replay? ==> a.reply == row.reply
    ensures a.TakeOver? <==> row.fingerprint == fingerprint && row.status == InProgress && row.leaseUntil <= now < row.expiresAt
    ensures a.Conflict? <==> row.fingerprint != fingerprint
    ensures a.Corrupt? <==> row.fingerprint == fingerprint && !Intact(row)
    ensures a.KeyExpired? <==> row.fingerprint == fingerprint && Intact(row) && row.expiresAt <= now
    ensures a.Busy? <==> row.fingerprint == fingerprint && row.status == InProgress && now < row.expiresAt && now < row.leaseUntil
  {
    if row.fingerprint != fingerprint then Conflict
    else if !Intact(row) then Corrupt
    else if row.expiresAt <= now then KeyExpired
    else if Final(row.status) then Replay(row.reply)
    else if now < row.leaseUntil then Busy
    else TakeOver
  }

  /** The decision as the table alone determines it; None means the caller now holds the key. */
  function Decision(rows: Rows, slot: Slot, fingerprint: nat, now: int): Option<Answer>
  {
    if slot !in rows then None
    else
      var a := Resolve(rows[slot], fingerprint, now);
      if a.TakeOver? then None else Some(a)
  }

  function RowsAfter(rows: Rows, slot: Slot, fingerprint: nat, now: int, ttl: int, lease: int, born: nat): Rows
  {
    if slot !in rows then Reserved(rows, slot, fingerprint, now, ttl, lease, born)
    else if Resolve(rows[slot], fingerprint, now).TakeOver? then Reclaimed(rows, slot, now, lease)
    else rows
  }

  /**
   Once a key is reserved, its own fingerprint is told to wait until the lease runs out, may take over until
   the record expires, and is told so afterwards; any other fingerprint conflicts throughout.
   */
  lemma ReservedDecides(rows: Rows, slot: Slot, fingerprint: nat, now: int, ttl: int, lease: int, born: nat, asked: nat, at: int)
    requires slot !in rows
    ensures Decision(Reserved(rows, slot, fingerprint, now, ttl, lease, born), slot, asked, at)
         == if asked != fingerprint then Some(Conflict)
            else if now + ttl <= at then Some(KeyExpired)
            else if at < now + lease then Some(Busy)
            else None
  {
  }

  /** A response that can be replayed: a status and a body. */
  predicate Storable(reply: Reply)
  {
    reply.status != 0 && reply.body != ""
  }

  /** What a record finished with a reply tells a later request. */
  function Retold(row: Row, reply: Reply, fingerprint: nat, at: int): Answer
  {
    if row.fingerprint != fingerprint then Conflict
    else if !Storable(reply) then Corrupt
    else if row.expiresAt <= at then KeyExpired
    else Replay(reply)
  }

  /** However a record was finished, its own fingerprint is replayed the very response it was finished with, until it expires. */
  lemma FinishedRetells(rows: Rows, slot: Slot, reply: Reply, tx: Id, author: nat, fingerprint: nat, at: int)
    requires IsOpen(rows, slot)
    ensures Decision(Fulfilled(rows, slot, reply, tx, author), slot, fingerprint, at) == Some(Retold(rows[slot], reply, fingerprint, at))
    ensures Decision(Rejected(rows, slot, reply, author), slot, fingerprint, at) == Some(Retold(rows[slot], reply, fingerprint, at))
  {
  }

  // ----- the cache in front of the table --------------------------------------------------------------------

  const KEY_LENGTH := 36

  /** One string per (principal, key): keys are canonical UUID text, so the last 36 characters are the key. */
  function CacheKey(slot: Slot): string
  {
    slot.principal + ":" + slot.key
  }

  lemma CacheKeyInjective(s: Slot, t: Slot)
    requires |s.key| == KEY_LENGTH && |t.key| == KEY_LENGTH && CacheKey(s) == CacheKey(t)
    ensures s == t
  {
    var a, b := CacheKey(s), CacheKey(t);
    assert |s.principal| == |t.principal|;
    assert s.principal == a[..|s.principal|] && t.principal == b[..|t.principal|];
    assert s.key == a[|s.principal| + 1..] && t.key == b[|t.principal| + 1..];
  }

  /** A cached record is final and, until it expires, still the table's own row. */
  predicate Faithful(rows: Rows, slot: Slot, entry: Row, now: int)
  {
    Final(entry.status) && (now < entry.expiresAt ==> slot in rows && rows[slot] == entry)
  }

  ghost predicate CacheSound(rows: Rows, cache: map<string, Row>, now: int)
  {
    forall slot: Slot :: |slot.key| == KEY_LENGTH && CacheKey(slot) in cache ==> Faithful(rows, slot, cache[CacheKey(slot)], now)
  }

  class Store {
    var rows: Rows

    constructor ()
      ensures rows == map[]
    {
      rows := map[];
    }

    method Reserve(slot: Slot, fingerprint: nat, now: int, ttl: int, lease: int, born: nat) returns (won: bool)
      modifies this
      ensures won <==> slot !in old(rows)
      ensures rows == if won then Reserved(old(rows), slot, fingerprint, now, ttl, lease, born) else old(rows)
    {
      won := slot !in rows;
      if won {
        rows := Reserved(rows, slot, fingerprint, now, ttl, lease, born);
      }
    }

    method Lookup(slot: Slot) returns (r: Option<Row>)
      ensures r == if slot in rows then Some(rows[slot]) else None
    {
      return if slot in rows then Some(rows[slot]) else None;
    }

    method Reclaim(slot: Slot, now: int, lease: int) returns (won: bool)
      modifies this
      ensures won <==> CanReclaim(old(rows), slot, now)
      ensures rows == if won then Reclaimed(old(rows), slot, now, lease) else old(rows)
      ensures won ==> forall t :: CanReclaim(rows, slot, t) <==> now + lease <= t || old(rows)[slot].expiresAt <= t
    {
      won := CanReclaim(rows, slot, now);
      if won {
        rows := Reclaimed(rows, slot, now, lease);
      }
    }

    method Fail(slot: Slot, reply: Reply, author: nat) returns (held: bool)
      modifies this
      ensures held <==> IsOpen(old(rows), slot)
      ensures rows == if held then Rejected(old(rows), slot, reply, author) else old(rows)
    {
      held := IsOpen(rows, slot);
      if held {
        rows := Rejected(rows, slot, reply, author);
      }
    }

    /** Deletes a reservation and never a finished record. */
    method Release(slot: Slot)
      modifies this
      ensures rows == Released(old(rows), slot)
      ensures forall s | s in old(rows) && Final(old(rows)[s].status) :: s in rows && rows[s] == old(rows)[s]
    {
      if slot in rows && rows[slot].status == InProgress {
        rows := rows - {slot};
      }
    }

    method Complete(slot: Slot, reply: Reply, tx: Id, author: nat) returns (held: bool)
      modifies this
      ensures held <==> IsOpen(old(rows), slot)
      ensures rows == if held then Fulfilled(old(rows), slot, reply, tx, author) else old(rows)
    {
      held := IsOpen(rows, slot);
      if held {
        rows := Fulfilled(rows, slot, reply, tx, author);
      }
    }

    /**
     Picks up to a batch of overdue rows that nobody has locked, oldest expiry first, and deletes by their keys.
     */
    method Sweep(batch: nat, now: int, locked: set<Slot>) returns (picked: set<Slot>)
      modifies this
      ensures picked <= Sweepable(old(rows), now, locked) && |picked| <= batch
      ensures |picked| < batch ==> picked == Sweepable(old(rows), now, locked)
      ensures forall s | s in picked :: s in old(rows) && s !in locked && old(rows)[s].expiresAt < now
      ensures |picked| < batch ==> forall s | s in old(rows) && s !in locked && old(rows)[s].expiresAt < now :: s in picked
      ensures forall s, t | s in picked && t in Sweepable(old(rows), now, locked) - picked ::
                old(rows)[s].expiresAt <= old(rows)[t].expiresAt
      ensures OverdueKeys(old(rows), KeysOf(picked), now) && rows == Swept(old(rows), KeysOf(picked))
    {
      picked := {};
      var left := Sweepable(rows, now, locked);
      while |picked| < batch && left != {}
        invariant rows == old(rows) && picked + left == Sweepable(rows, now, locked) && picked !! left && |picked| <= batch
        invariant forall s, t | s in picked && t in left :: rows[s].expiresAt <= rows[t].expiresAt
        decreases left
      {
        EarliestExists(rows, left);
        var slot :| slot in left && forall t | t in left :: rows[slot].expiresAt <= rows[t].expiresAt;
        picked, left := picked + {slot}, left - {slot};
      }
      rows := Swept(rows, KeysOf(picked));
    }
  }

  function Sweepable(rows: Rows, now: int, locked: set<Slot>): set<Slot>
  {
    set slot | slot in rows && Overdue(rows[slot], now) && slot !in locked
  }

  function KeysOf(slots: set<Slot>): set<string>
  {
    set slot | slot in slots :: slot.key
  }

  lemma {:induction false} EarliestExists(rows: Rows, left: set<Slot>)
    requires left != {} && left <= rows.Keys
    ensures exists slot | slot in left :: forall t | t in left :: rows[slot].expiresAt <= rows[t].expiresAt
  {
    var x :| x in left;
    if left != {x} {
      assert left - {x} != {} by {
        assert left == (left - {x}) + {x};
      }
      EarliestExists(rows, left - {x});
      var y :| y in left - {x} && forall t | t in left - {x} :: rows[y].expiresAt <= rows[t].expiresAt;
      var z := if rows[x].expiresAt <= rows[y].expiresAt then x else y;
      assert forall t | t in left :: t == x || t in left - {x};
      assert z in left && forall t | t in left :: rows[z].expiresAt <= rows[t].expiresAt;
    }
  }

  /** The manager: a store, and a cache that may be cold, slow or absent at any moment. */
  class Manager {
    const store: Store
    var cache: map<string, Row>

    constructor (s: Store)
      ensures store == s && cache == map[]
    {
      store := s;
      cache := map[];
    }

    /** Whatever the cache holds or fails to return, the decision and the table are what the table alone implies. */
    method Acquire(slot: Slot, fingerprint: nat, now: int, ttl: int, lease: int, born: nat, reachable: bool)
      returns (r: Option<Answer>)
      requires |slot.key| == KEY_LENGTH && CacheSound(store.rows, cache, now)
      modifies this, store
      ensures r == Decision(old(store.rows), slot, fingerprint, now)
      ensures store.rows == RowsAfter(old(store.rows), slot, fingerprint, now, ttl, lease, born)
      ensures CacheSound(store.rows, cache, now)
      ensures if r.Some? && r.value.Replay? then slot in old(store.rows) && cache == old(cache)[CacheKey(slot) := old(store.rows)[slot]]
              else cache == old(cache)
    {
      var k := CacheKey(slot);
      if reachable && k in cache && now < cache[k].expiresAt {
        assert Faithful(store.rows, slot, cache[k], now);
        r := ResolveExisting(cache[k], slot, fingerprint, now, lease);
        return;
      }
      var won := store.Reserve(slot, fingerprint, now, ttl, lease, born);
      if won {
        forall s: Slot | |s.key| == KEY_LENGTH && CacheKey(s) in cache
          ensures Faithful(store.rows, s, cache[CacheKey(s)], now)
        {
          assert Faithful(old(store.rows), s, cache[CacheKey(s)], now);
        }
        return None;
      }
      var existing := store.Lookup(slot);
      r := ResolveExisting(existing.value, slot, fingerprint, now, lease);
    }

    method ResolveExisting(existing: Row, slot: Slot, fingerprint: nat, now: int, lease: int) returns (r: Option<Answer>)
      requires |slot.key| == KEY_LENGTH && CacheSound(store.rows, cache, now)
      requires slot in store.rows && store.rows[slot] == existing
      modifies this, store
      ensures r == Decision(old(store.rows), slot, fingerprint, now)
      ensures store.rows == if r.None? then Reclaimed(old(store.rows), slot, now, lease) else old(store.rows)
      ensures CacheSound(store.rows, cache, now)
      ensures cache == if r.Some? && r.value.Replay? then old(cache)[CacheKey(slot) := existing] else old(cache)
    {
      var a := Resolve(existing, fingerprint, now);
      if a.TakeOver? {
        var won := store.Reclaim(slot, now, lease);
        forall s: Slot | |s.key| == KEY_LENGTH && CacheKey(s) in cache
          ensures Faithful(store.rows, s, cache[CacheKey(s)], now)
        {
          assert Faithful(old(store.rows), s, cache[CacheKey(s)], now);
        }
        return None;
      }
      if a.Replay? {
        cache := cache[CacheKey(slot) := existing];
        forall s: Slot | |s.key| == KEY_LENGTH && CacheKey(s) in cache
          ensures Faithful(store.rows, s, cache[CacheKey(s)], now)
        {
          if CacheKey(s) == CacheKey(slot) {
            CacheKeyInjective(s, slot);
          } else {
            assert Faithful(old(store.rows), s, old(cache)[CacheKey(s)], now);
          }
        }
      }
      return Some(a);
    }
  }

  // ----- what a request does with its reservation when it does not commit -----------------------------------------

  /** What made a handler give up. */
  datatype Failure = Refused(error: LedgerError) | MalformedBody | Trouble

  /** A property of the request rather than of the world: the refusal is stored and replayed. */
  predicate Deterministic(f: Failure)
  {
    match f
    case Refused(e) =>
      || e == Unbalanced || e == TooFewEntries || e == MixedCurrency || e == CurrencyMismatch || e == InvalidCurrency
      || e == MoneyOverflow || e == InvalidTransactionType || e == InvalidEntry || e == ReversalReasonRequired
      || e == AlreadyReversed || e == TransactionNotPosted
    case MalformedBody => true
    case Trouble => false
  }

  /** One request's hold on a key, from the handler's side. */
  class RequestState {
    const store: Store
    const slot: Slot
    const fingerprint: nat
    var settled: bool

    constructor (s: Store, k: Slot, fp: nat)
      ensures store == s && slot == k && fingerprint == fp && !settled
    {
      store, slot, fingerprint, settled := s, k, fp, false;
    }

    /** Called once the ledger transaction has committed. */
    method Settle()
      modifies this
      ensures settled
    {
      settled := true;
    }

    /** A finished record is never touched, whether or not this request knows that it finished. */
    method Reject(failure: Failure, reply: Reply)
      modifies store
      ensures forall s | s in old(store.rows) && Final(old(store.rows)[s].status) ::
                s in store.rows && store.rows[s] == old(store.rows)[s]
      ensures settled ==> store.rows == old(store.rows)
      ensures !settled && !Deterministic(failure) ==> store.rows == Released(old(store.rows), slot)
      ensures !settled && Deterministic(failure) ==>
                store.rows == if IsOpen(old(store.rows), slot) then Rejected(old(store.rows), slot, reply, fingerprint)
                              else old(store.rows)
    {
      if settled {
        return;
      }
      if Deterministic(failure) {
        var held := store.Fail(slot, reply, fingerprint);
      } else {
        store.Release(slot);
      }
    }
  }
}
