/**
 The idempotency protocol over one ledger: requests race, stall, lose their leases, are taken over and
 crash, while a sweeper deletes what has expired. No key ever pays twice.
 */
module IdempotencyProtocol {
  import opened Collections
  import opened LedgerTypes
  import opened Ledger
  import opened Idempotency

  // ----- requests and events -----------------------------------------------------------------------------

  datatype Phase = Arrived | Blocked | Seen(record: Row) | Reclaiming | Holding | Answered(answer: Option<Answer>)

  datatype Call = Call(slot: Slot, fingerprint: nat, phase: Phase)

  datatype World = World(db: Db, rows: Rows, calls: map<nat, Call>, cache: map<Slot, Row>, now: int)

  /** What one request does between two interruptions, short of the ledger transaction itself. */
  datatype Act =
    | AskCache
    | Reserve(ttl: int, lease: int)
    | LookUp
    | Judge
    | Reclaim(lease: int)
    | Reject(failure: Failure, reply: Reply)
    | Crash

  datatype Event =
    | Arrive(call: nat, slot: Slot, fingerprint: nat)
    | Drive(call: nat, act: Act)
    | Commit(call: nat, op: Op, reply: Reply, lost: bool)
    | Sweep(keys: set<string>)
    | Tick(elapsed: nat)
    | Outside(op: Op)

  function KeyOf(op: Op): Option<Key>
  {
    match op
    case PostOp(_, req, _) => req.key
    case ReverseOp(_, _, _, key) => key
    case _ => None
  }

  function PrincipalOf(op: Op): string
  {
    match op
    case PostOp(_, req, _) => req.principal
    case ReverseOp(_, _, principal, _) => principal
    case _ => ""
  }

  /** The ledger would commit this write now. */
  predicate Commits(db: Db, op: Op)
  {
    match op
    case PostOp(stamp, req, choice) => CanPost(db, stamp, req, choice) && !req.meta.Reverses?
    case ReverseOp(stamp, original, principal, key) => CanReverse(db, stamp, original, principal, key)
    case _ => false
  }

  function TxOf(op: Op): Id
  {
    match op
    case PostOp(stamp, _, _) => stamp.tx
    case ReverseOp(stamp, _, _, _) => stamp.tx
    case _ => NIL
  }

  predicate CarriesSlot(op: Op, slot: Slot)
  {
    KeyOf(op) == Some(ClientKey(slot.key)) && PrincipalOf(op) == slot.principal
  }

  // ----- one event ------------------------------------------------------------------------------------------

  function To(w: World, c: nat, phase: Phase): World
    requires c in w.calls
  {
    w.(calls := w.calls[c := w.calls[c].(phase := phase)])
  }

  function Judged(w: World, c: nat, record: Row): World
    requires c in w.calls
  {
    var call := w.calls[c];
    var a := Resolve(record, call.fingerprint, w.now);
    if a.TakeOver? then To(w, c, Reclaiming)
    else if a.Replay? then To(w, c, Answered(Some(a))).(cache := w.cache[call.slot := record])
    else To(w, c, Answered(Some(a)))
  }

  /** Journal entries, balances and the finished record become durable together, or none of them does. */
  function Finishes(w: World, c: nat, op: Op, reply: Reply, lost: bool): World
    requires c in w.calls
  {
    var call := w.calls[c];
    if !(Commits(w.db, op) && CarriesSlot(op, call.slot) && IsOpen(w.rows, call.slot)) then w
    else
      var w' := w.(db := Ledger.Step(w.db, op), rows := Fulfilled(w.rows, call.slot, reply, TxOf(op), call.fingerprint));
      if lost then w' else To(w', c, Answered(None))
  }

  function GivesUp(w: World, c: nat, failure: Failure, reply: Reply): World
    requires c in w.calls
  {
    var call := w.calls[c];
    var w' := To(w, c, Answered(None));
    if !Deterministic(failure) then w'.(rows := Released(w.rows, call.slot))
    else if IsOpen(w.rows, call.slot) then w'.(rows := Rejected(w.rows, call.slot, reply, call.fingerprint))
    else w'
  }

  function CallStep(w: World, c: nat, act: Act): World
    requires c in w.calls
  {
    var call := w.calls[c];
    match (act, call.phase)
    case (AskCache, Arrived) =>
      if call.slot in w.cache && w.now < w.cache[call.slot].expiresAt then To(w, c, Seen(w.cache[call.slot])) else w
    case (Reserve(ttl, lease), Arrived) =>
      if call.slot in w.rows then To(w, c, Blocked)
      else
        To(w, c, Holding).(rows := Reserved(w.rows, call.slot, call.fingerprint, w.now, ttl, lease, |w.db.outbox|))
    case (LookUp, Blocked) =>
      To(w, c, if call.slot in w.rows then Seen(w.rows[call.slot]) else Answered(Some(Busy)))
    case (Judge, Seen(record)) => Judged(w, c, record)
    case (Reclaim(lease), Reclaiming) =>
      if CanReclaim(w.rows, call.slot, w.now)
      then To(w, c, Holding).(rows := Reclaimed(w.rows, call.slot, w.now, lease))
      else To(w, c, Answered(Some(Busy)))
    case (Reject(failure, reply), Holding) => GivesUp(w, c, failure, reply)
    case (Crash, _) => w.(calls := w.calls - {c})
    case _ => w
  }

  function Apply(w: World, e: Event): World
  {
    match e
    case Arrive(c, slot, fp) => if c in w.calls then w else w.(calls := w.calls[c := Call(slot, fp, Arrived)])
    case Drive(c, act) => if c in w.calls then CallStep(w, c, act) else w
    case Commit(c, op, reply, lost) =>
      if c in w.calls && w.calls[c].phase == Holding then Finishes(w, c, op, reply, lost) else w
    case Sweep(keys) => if OverdueKeys(w.rows, keys, w.now) then w.(rows := Swept(w.rows, keys)) else w
    case Tick(elapsed) => w.(now := w.now + elapsed)
    case Outside(op) =>
      if KeyOf(op).Some? && KeyOf(op).value.ClientKey? then w else w.(db := Ledger.Step(w.db, op))
  }

  function Play(w: World, es: seq<Event>): World
    decreases |es|
  {
    if es == [] then w else Play(Apply(w, es[0]), es[1..])
  }

  function Opening(db: Db, now: int): World
  {
    World(db, map[], map[], map[], now)
  }

  // ----- who committed what, and since when --------------------------------------------------------------------

  predicate Under(db: Db, t: Id, slot: Slot)
  {
    t in db.headers && db.headers[t].principal == slot.principal && db.headers[t].key == Some(ClientKey(slot.key))
  }

  /** The unique index on (principal, key). */
  predicate KeysUnique(db: Db)
  {
    forall t, u | t in db.headers && u in db.headers && db.headers[t].key.Some?
                  && db.headers[t].key == db.headers[u].key && db.headers[t].principal == db.headers[u].principal :: t == u
  }

  predicate OutboxKnown(db: Db)
  {
    forall k | 0 <= k < |db.outbox| :: db.outbox[k].id in db.headers
  }

  /** An open or failed row means nothing committed under its key since it was inserted; a completed one names what did. */
  predicate RowTruthful(db: Db, slot: Slot, row: Row)
  {
    && row.born <= |db.outbox|
    && (row.status == Completed ==> row.tx.Some? && Under(db, row.tx.value, slot))
    && (forall k | row.born <= k < |db.outbox| && Under(db, db.outbox[k].id, slot) ::
          row.status == Completed && row.tx == Some(db.outbox[k].id))
  }

  predicate RowsTruthful(db: Db, rows: Rows)
  {
    forall slot | slot in rows :: RowTruthful(db, slot, rows[slot])
  }

  /** What a ledger write leaves in the log and in the headers: one new transaction if it committed, else nothing. */
  predicate Logged(db: Db, db': Db, did: bool, tx: Id, key: Option<Key>, principal: string)
  {
    && (forall t | t in db.headers ::
          t in db'.headers && db'.headers[t].key == db.headers[t].key && db'.headers[t].principal == db.headers[t].principal)
    && |db'.outbox| == |db.outbox| + (if did then 1 else 0)
    && (forall k | 0 <= k < |db.outbox| :: db'.outbox[k] == db.outbox[k])
    && (if did then
          && tx !in db.headers && db'.headers.Keys == db.headers.Keys + {tx}
          && db'.headers[tx].key == key && db'.headers[tx].principal == principal
          && db'.outbox[|db.outbox|].id == tx
        else db'.headers.Keys == db.headers.Keys)
  }

  lemma CommitLogs(db: Db, stamp: Stamp, header: Header, legs: seq<Leg>)
    requires CanCommit(db, stamp, legs)
    ensures Logged(db, Ledger.Commit(db, stamp, header, legs), true, stamp.tx, header.key, header.principal)
  {
  }

  lemma PostLogs(db: Db, stamp: Stamp, req: Request, choice: map<Id, Id>)
    requires CanPost(db, stamp, req, choice)
    ensures Logged(db, Post(db, stamp, req, choice), true, stamp.tx, req.key, req.principal)
  {
    CommitLogs(db, stamp, HeaderFor(req), RouteLegs(choice, req.legs));
  }

  lemma ReverseLogs(db: Db, stamp: Stamp, original: Id, principal: string, key: Option<Key>)
    requires CanReverse(db, stamp, original, principal, key)
    ensures Logged(db, Ledger.Reverse(db, stamp, original, principal, key), true, stamp.tx, key, principal)
  {
    CommitLogs(db, stamp, ReversalHeader(original, principal, key), Mirror(LegsOf(db.journal, original)));
  }

  lemma QuietLogs(db: Db, op: Op)
    requires !Commits(db, op)
    ensures Logged(db, Ledger.Step(db, op), false, TxOf(op), KeyOf(op), PrincipalOf(op))
  {
  }

  lemma StepLogs(db: Db, op: Op)
    ensures Logged(db, Ledger.Step(db, op), Commits(db, op), TxOf(op), KeyOf(op), PrincipalOf(op))
  {
    if Commits(db, op) {
      match op
      case PostOp(stamp, req, choice) => PostLogs(db, stamp, req, choice);
      case ReverseOp(stamp, original, principal, key) => ReverseLogs(db, stamp, original, principal, key);
    } else {
      QuietLogs(db, op);
    }
  }

  lemma LoggedKeysUnique(db: Db, db': Db, did: bool, tx: Id, key: Option<Key>, principal: string)
    requires KeysUnique(db) && OutboxKnown(db) && Logged(db, db', did, tx, key, principal)
    requires did ==> KeyFree(db, principal, key)
    ensures KeysUnique(db') && OutboxKnown(db')
  {
  }

  lemma CommitNeedsFreeKey(db: Db, op: Op)
    requires Commits(db, op)
    ensures KeyFree(db, PrincipalOf(op), KeyOf(op))
  {
  }

  /** A write that does not carry the slot's key says nothing about the slot's row. */
  lemma OtherWriteTruthful(db: Db, db': Db, did: bool, tx: Id, key: Option<Key>, principal: string, slot: Slot, row: Row)
    requires RowTruthful(db, slot, row) && OutboxKnown(db) && Logged(db, db', did, tx, key, principal)
    requires !(key == Some(ClientKey(slot.key)) && principal == slot.principal)
    ensures RowTruthful(db', slot, row)
  {
  }

  /** The completing write turns the open row into one that names it. */
  lemma CompletingWriteTruthful(db: Db, db': Db, tx: Id, slot: Slot, row: Row, row': Row)
    requires RowTruthful(db, slot, row) && row.status == InProgress && OutboxKnown(db)
    requires Logged(db, db', true, tx, Some(ClientKey(slot.key)), slot.principal)
    requires row'.status == Completed && row'.tx == Some(tx) && row'.born == row.born
    ensures RowTruthful(db', slot, row')
  {
  }

  // ----- every event keeps the rows truthful -----------------------------------------------------------------------

  predicate Truthful(db: Db, rows: Rows)
  {
    KeysUnique(db) && OutboxKnown(db) && RowsTruthful(db, rows)
  }

  lemma LedgerKeys(db: Db, op: Op)
    requires KeysUnique(db) && OutboxKnown(db)
    ensures KeysUnique(Ledger.Step(db, op)) && OutboxKnown(Ledger.Step(db, op))
  {
    StepLogs(db, op);
    if Commits(db, op) {
      CommitNeedsFreeKey(db, op);
    }
    LoggedKeysUnique(db, Ledger.Step(db, op), Commits(db, op), TxOf(op), KeyOf(op), PrincipalOf(op));
  }

  lemma RowsAfterOutside(db: Db, db': Db, did: bool, tx: Id, key: Option<Key>, principal: string, rows: Rows)
    requires RowsTruthful(db, rows) && OutboxKnown(db) && Logged(db, db', did, tx, key, principal)
    requires !(key.Some? && key.value.ClientKey?)
    ensures RowsTruthful(db', rows)
  {
    forall slot | slot in rows ensures RowTruthful(db', slot, rows[slot]) {
      OtherWriteTruthful(db, db', did, tx, key, principal, slot, rows[slot]);
    }
  }

  lemma RowsAfterCompletion(db: Db, db': Db, tx: Id, rows: Rows, slot: Slot, reply: Reply, author: nat)
    requires RowsTruthful(db, rows) && OutboxKnown(db) && IsOpen(rows, slot)
    requires Logged(db, db', true, tx, Some(ClientKey(slot.key)), slot.principal)
    ensures RowsTruthful(db', Fulfilled(rows, slot, reply, tx, author))
  {
    var rows' := Fulfilled(rows, slot, reply, tx, author);
    forall s | s in rows' ensures RowTruthful(db', s, rows'[s]) {
      if s == slot {
        CompletingWriteTruthful(db, db', tx, slot, rows[slot], rows'[slot]);
      } else {
        OtherWriteTruthful(db, db', true, tx, Some(ClientKey(slot.key)), slot.principal, s, rows[s]);
      }
    }
  }

  /** Writes by anyone who does not hold a client key leave every record's claim intact. */
  lemma OutsideTruthful(db: Db, rows: Rows, op: Op)
    requires Truthful(db, rows) && !(KeyOf(op).Some? && KeyOf(op).value.ClientKey?)
    ensures Truthful(Ledger.Step(db, op), rows)
  {
    StepLogs(db, op);
    LedgerKeys(db, op);
    RowsAfterOutside(db, Ledger.Step(db, op), Commits(db, op), TxOf(op), KeyOf(op), PrincipalOf(op), rows);
  }

  lemma FinishesTruthful(db: Db, rows: Rows, slot: Slot, op: Op, reply: Reply, author: nat)
    requires Truthful(db, rows) && IsOpen(rows, slot) && Commits(db, op) && CarriesSlot(op, slot)
    ensures Truthful(Ledger.Step(db, op), Fulfilled(rows, slot, reply, TxOf(op), author))
  {
    StepLogs(db, op);
    LedgerKeys(db, op);
    RowsAfterCompletion(db, Ledger.Step(db, op), TxOf(op), rows, slot, reply, author);
  }

  /** Between ledger transactions a request opens, extends, fails or drops a record, and none of that is a claim. */
  lemma CallStepTruthful(w: World, c: nat, act: Act)
    requires RowsTruthful(w.db, w.rows) && c in w.calls
    ensures CallStep(w, c, act).db == w.db && RowsTruthful(w.db, CallStep(w, c, act).rows)
  {
  }

  lemma CommitTruthful(w: World, c: nat, op: Op, reply: Reply, lost: bool)
    requires Truthful(w.db, w.rows) && c in w.calls
    ensures Truthful(Finishes(w, c, op, reply, lost).db, Finishes(w, c, op, reply, lost).rows)
  {
    if Commits(w.db, op) && CarriesSlot(op, w.calls[c].slot) && IsOpen(w.rows, w.calls[c].slot) {
      FinishesTruthful(w.db, w.rows, w.calls[c].slot, op, reply, w.calls[c].fingerprint);
    }
  }

  lemma SweepTruthful(db: Db, rows: Rows, keys: set<string>)
    requires Truthful(db, rows)
    ensures Truthful(db, Swept(rows, keys))
  {
  }

  lemma ApplyTruthful(w: World, e: Event, w': World)
    requires Truthful(w.db, w.rows) && w' == Apply(w, e)
    ensures Truthful(w'.db, w'.rows)
  {
    match e
    case Drive(c, act) =>
      if c in w.calls {
        CallStepTruthful(w, c, act);
      }
    case Commit(c, op, reply, lost) =>
      if c in w.calls {
        CommitTruthful(w, c, op, reply, lost);
      }
    case Sweep(keys) => SweepTruthful(w.db, w.rows, keys);
    case Outside(op) =>
      if !(KeyOf(op).Some? && KeyOf(op).value.ClientKey?) {
        OutsideTruthful(w.db, w.rows, op);
      }
    case _ =>
  }

  lemma {:induction false} PlayTruthful(w: World, es: seq<Event>)
    requires Truthful(w.db, w.rows)
    ensures Truthful(Play(w, es).db, Play(w, es).rows)
    decreases |es|
  {
    if es != [] {
      ApplyTruthful(w, es[0], Apply(w, es[0]));
      PlayTruthful(Apply(w, es[0]), es[1..]);
    }
  }

  /** At most one transaction ever commits under a principal's key. */
  lemma CommitsAtMostOnce(db: Db, now: int, es: seq<Event>, slot: Slot, t: Id, u: Id)
    requires KeysUnique(db) && OutboxKnown(db)
    requires var w := Play(Opening(db, now), es); Under(w.db, t, slot) && Under(w.db, u, slot)
    ensures t == u
  {
    PlayTruthful(Opening(db, now), es);
  }

  /** A completed record names the transaction; any other record means none committed since it was inserted. */
  lemma RecordsTellTheTruth(db: Db, now: int, es: seq<Event>, slot: Slot)
    requires KeysUnique(db) && OutboxKnown(db) && slot in Play(Opening(db, now), es).rows
    ensures var w := Play(Opening(db, now), es);
            var row := w.rows[slot];
            && (row.status == Completed ==> row.tx.Some? && Under(w.db, row.tx.value, slot))
            && (row.status != Completed ==>
                  forall k | row.born <= k < |w.db.outbox| :: !Under(w.db, w.db.outbox[k].id, slot))
  {
    PlayTruthful(Opening(db, now), es);
  }

  // ----- the cache and the clock ---------------------------------------------------------------------------------------

  /** Each key is used by one principal. */
  predicate Owned(e: Event, owner: string -> string)
  {
    e.Arrive? ==> e.slot.principal == owner(e.slot.key)
  }

  predicate OwnedRun(es: seq<Event>, owner: string -> string)
  {
    forall k | 0 <= k < |es| :: Owned(es[k], owner)
  }

  predicate SlotsOwned(w: World, owner: string -> string)
  {
    && (forall slot | slot in w.rows :: slot.principal == owner(slot.key))
    && (forall c | c in w.calls :: w.calls[c].slot.principal == owner(w.calls[c].slot.key))
  }

  /** What the cache or a waiting request remembers of a finished record is still true until it expires. */
  predicate MemoryFaithful(w: World)
  {
    && (forall slot | slot in w.cache :: Faithful(w.rows, slot, w.cache[slot], w.now))
    && (forall c | c in w.calls && w.calls[c].phase.Seen? && Final(w.calls[c].phase.record.status) ::
          Faithful(w.rows, w.calls[c].slot, w.calls[c].phase.record, w.now))
  }

  predicate Remembering(w: World, owner: string -> string)
  {
    SlotsOwned(w, owner) && MemoryFaithful(w)
  }

  /** Finished rows stay as they are until they expire. */
  predicate FinishedKept(rows: Rows, rows': Rows, now: int)
  {
    forall slot | slot in rows && Final(rows[slot].status) && now < rows[slot].expiresAt ::
      slot in rows' && rows'[slot] == rows[slot]
  }

  lemma SweepKeepsLive(rows: Rows, keys: set<string>, now: int, owner: string -> string)
    requires OverdueKeys(rows, keys, now) && forall slot | slot in rows :: slot.principal == owner(slot.key)
    ensures FinishedKept(rows, Swept(rows, keys), now)
  {
  }

  lemma CallKeepsFinished(w: World, c: nat, act: Act)
    requires c in w.calls
    ensures FinishedKept(w.rows, CallStep(w, c, act).rows, w.now)
  {
  }

  lemma ApplyKeepsFinished(w: World, e: Event, owner: string -> string)
    requires SlotsOwned(w, owner)
    ensures FinishedKept(w.rows, Apply(w, e).rows, w.now)
  {
    match e
    case Drive(c, act) =>
      if c in w.calls {
        CallKeepsFinished(w, c, act);
      }
    case Sweep(keys) =>
      if OverdueKeys(w.rows, keys, w.now) {
        SweepKeepsLive(w.rows, keys, w.now, owner);
      }
    case _ =>
  }

  lemma CallOwned(w: World, c: nat, act: Act, owner: string -> string)
    requires SlotsOwned(w, owner) && c in w.calls
    ensures SlotsOwned(CallStep(w, c, act), owner)
  {
  }

  lemma ApplyOwned(w: World, e: Event, owner: string -> string)
    requires SlotsOwned(w, owner) && Owned(e, owner)
    ensures SlotsOwned(Apply(w, e), owner)
  {
    if e.Drive? && e.call in w.calls {
      CallOwned(w, e.call, e.act, owner);
    }
  }

  lemma FaithfulKept(rows: Rows, rows': Rows, slot: Slot, entry: Row, now: int, now': int)
    requires Faithful(rows, slot, entry, now) && FinishedKept(rows, rows', now) && now <= now'
    ensures Faithful(rows', slot, entry, now')
  {
  }

  /** Whatever is remembered after an event was remembered before or is a row of the table it ran on. */
  predicate FromTable(w: World, w': World)
  {
    && (forall slot | slot in w'.cache :: Faithful(w.rows, slot, w'.cache[slot], w.now))
    && (forall c | c in w'.calls && w'.calls[c].phase.Seen? && Final(w'.calls[c].phase.record.status) ::
          Faithful(w.rows, w'.calls[c].slot, w'.calls[c].phase.record, w.now))
  }

  lemma CacheMemories(w: World, c: nat, act: Act)
    requires MemoryFaithful(w) && c in w.calls
    ensures CallStep(w, c, act).now == w.now
    ensures forall slot | slot in CallStep(w, c, act).cache :: Faithful(w.rows, slot, CallStep(w, c, act).cache[slot], w.now)
  {
  }

  lemma CallMemory(w: World, c: nat, act: Act, x: nat)
    requires MemoryFaithful(w) && c in w.calls && x in CallStep(w, c, act).calls
    ensures var call := CallStep(w, c, act).calls[x];
            call.phase.Seen? && Final(call.phase.record.status) ==> Faithful(w.rows, call.slot, call.phase.record, w.now)
  {
  }

  lemma CallMemories(w: World, c: nat, act: Act)
    requires MemoryFaithful(w) && c in w.calls
    ensures CallStep(w, c, act).now == w.now && FromTable(w, CallStep(w, c, act))
  {
    CacheMemories(w, c, act);
    forall x | x in CallStep(w, c, act).calls
      ensures var call := CallStep(w, c, act).calls[x];
              call.phase.Seen? && Final(call.phase.record.status) ==> Faithful(w.rows, call.slot, call.phase.record, w.now)
    {
      CallMemory(w, c, act, x);
    }
  }

  lemma NewMemories(w: World, e: Event)
    requires MemoryFaithful(w)
    ensures w.now <= Apply(w, e).now && FromTable(w, Apply(w, e))
  {
    if e.Drive? && e.call in w.calls {
      CallMemories(w, e.call, e.act);
    }
  }

  lemma ApplyRemembers(w: World, e: Event, owner: string -> string)
    requires Remembering(w, owner) && Owned(e, owner)
    ensures Remembering(Apply(w, e), owner)
  {
    var w' := Apply(w, e);
    ApplyOwned(w, e, owner);
    ApplyKeepsFinished(w, e, owner);
    NewMemories(w, e);
    forall slot | slot in w'.cache ensures Faithful(w'.rows, slot, w'.cache[slot], w'.now) {
      FaithfulKept(w.rows, w'.rows, slot, w'.cache[slot], w.now, w'.now);
    }
    forall c | c in w'.calls && w'.calls[c].phase.Seen? && Final(w'.calls[c].phase.record.status)
      ensures Faithful(w'.rows, w'.calls[c].slot, w'.calls[c].phase.record, w'.now)
    {
      FaithfulKept(w.rows, w'.rows, w'.calls[c].slot, w'.calls[c].phase.record, w.now, w'.now);
    }
  }

  lemma {:induction false} PlayRemembers(w: World, es: seq<Event>, owner: string -> string)
    requires Remembering(w, owner) && OwnedRun(es, owner)
    ensures Remembering(Play(w, es), owner)
    decreases |es|
  {
    if es != [] {
      assert Owned(es[0], owner);
      assert forall k | 0 <= k < |es[1..]| :: es[1..][k] == es[k + 1];
      ApplyRemembers(w, es[0], owner);
      PlayRemembers(Apply(w, es[0]), es[1..], owner);
    }
  }

  /** A cache hit decides exactly what the table would have decided at that moment. */
  lemma CacheDecidesLikeTable(db: Db, now: int, es: seq<Event>, owner: string -> string, slot: Slot, fingerprint: nat)
    requires OwnedRun(es, owner)
    requires var w := Play(Opening(db, now), es); slot in w.cache && w.now < w.cache[slot].expiresAt
    ensures var w := Play(Opening(db, now), es);
            && slot in w.rows
            && Some(Resolve(w.cache[slot], fingerprint, w.now)) == Decision(w.rows, slot, fingerprint, w.now)
            && RowsAfter(w.rows, slot, fingerprint, w.now, 0, 0, 0) == w.rows
  {
    PlayRemembers(Opening(db, now), es, owner);
  }

  lemma FinishedStaysOnce(w: World, e: Event, owner: string -> string, slot: Slot)
    requires SlotsOwned(w, owner) && slot in w.rows && Final(w.rows[slot].status) && w.now < w.rows[slot].expiresAt
    ensures slot in Apply(w, e).rows && Apply(w, e).rows[slot] == w.rows[slot]
  {
    ApplyKeepsFinished(w, e, owner);
  }

  lemma {:induction false} FinishedStays(w: World, es: seq<Event>, owner: string -> string, slot: Slot)
    requires Remembering(w, owner) && OwnedRun(es, owner)
    requires slot in w.rows && Final(w.rows[slot].status) && Play(w, es).now < w.rows[slot].expiresAt
    ensures slot in Play(w, es).rows && Play(w, es).rows[slot] == w.rows[slot]
    decreases |es|
  {
    if es != [] {
      assert Owned(es[0], owner);
      assert forall k | 0 <= k < |es[1..]| :: es[1..][k] == es[k + 1];
      TimeForward(w, es);
      ApplyRemembers(w, es[0], owner);
      FinishedStaysOnce(w, es[0], owner, slot);
      FinishedStays(Apply(w, es[0]), es[1..], owner, slot);
    }
  }

  lemma {:induction false} TimeForward(w: World, es: seq<Event>)
    ensures w.now <= Play(w, es).now
    decreases |es|
  {
    if es != [] {
      TimeForward(Apply(w, es[0]), es[1..]);
    }
  }

  lemma {:induction false} PlayConcat(w: World, es: seq<Event>, fs: seq<Event>)
    ensures Play(w, es + fs) == Play(Play(w, es), fs)
    decreases |es|
  {
    if es == [] {
      assert es + fs == fs;
    } else {
      assert (es + fs)[1..] == es[1..] + fs;
      PlayConcat(Apply(w, es[0]), es[1..], fs);
    }
  }

  /** A finished record's stored response does not change before it expires, whatever else happens. */
  lemma ResponseNeverChanges(db: Db, now: int, es: seq<Event>, fs: seq<Event>, owner: string -> string, slot: Slot)
    requires OwnedRun(es + fs, owner)
    requires var w := Play(Opening(db, now), es);
             slot in w.rows && Final(w.rows[slot].status) && Play(Opening(db, now), es + fs).now < w.rows[slot].expiresAt
    ensures var w, w' := Play(Opening(db, now), es), Play(Opening(db, now), es + fs);
            slot in w'.rows && w'.rows[slot] == w.rows[slot]
  {
    assert forall k | 0 <= k < |es| :: (es + fs)[k] == es[k];
    assert forall k | 0 <= k < |fs| :: (es + fs)[|es| + k] == fs[k];
    PlayRemembers(Opening(db, now), es, owner);
    PlayConcat(Opening(db, now), es, fs);
    FinishedStays(Play(Opening(db, now), es), fs, owner, slot);
  }

  // ----- a sweep across principals -------------------------------------------------------------------------------------

  lemma PlayThree(w: World, e: Event, f: Event, g: Event)
    ensures Play(w, [e, f, g]) == Apply(Apply(Apply(w, e), f), g)
  {
    var w1 := Apply(w, e);
    var w2 := Apply(w1, f);
    assert [e, f, g][1..] == [f, g] && [f, g][1..] == [g] && [g][1..] == [];
    assert Play(w, [e, f, g]) == Play(w1, [f, g]) == Play(w2, [g]) == Play(Apply(w2, g), []);
  }

  /** One principal opens a key and its record expires. */
  function Expiring(p: string, key: string, fp: nat): seq<Event>
  {
    [Arrive(1, Slot(p, key), fp), Drive(1, Reserve(10, 5)), Tick(11)]
  }

  /** Another principal uses the same key and is refused for good, which its record remembers. */
  function Refusing(q: string, key: string, fp: nat, reply: Reply): seq<Event>
  {
    [Arrive(2, Slot(q, key), fp), Drive(2, Reserve(100, 5)), Drive(2, Reject(MalformedBody, reply))]
  }

  lemma ExpiryReached(db: Db, now: int, p: string, key: string, fp: nat)
    ensures var w := Play(Opening(db, now), Expiring(p, key, fp));
            && w.now == now + 11 && w.rows.Keys == {Slot(p, key)} && Overdue(w.rows[Slot(p, key)], w.now)
            && w.calls.Keys == {1}
  {
    PlayThree(Opening(db, now), Arrive(1, Slot(p, key), fp), Drive(1, Reserve(10, 5)), Tick(11));
  }

  lemma RefusalStored(w: World, q: string, key: string, fp: nat, reply: Reply)
    requires Slot(q, key) !in w.rows && 2 !in w.calls
    ensures var w' := Play(w, Refusing(q, key, fp, reply));
            && w'.now == w.now && Slot(q, key) in w'.rows
            && w'.rows == w.rows[Slot(q, key) := w'.rows[Slot(q, key)]]
            && w'.rows[Slot(q, key)].status == Failed && w'.rows[Slot(q, key)].reply == reply
            && w'.now < w'.rows[Slot(q, key)].expiresAt
  {
    PlayThree(w, Arrive(2, Slot(q, key), fp), Drive(2, Reserve(100, 5)), Drive(2, Reject(MalformedBody, reply)));
    var w1 := Apply(w, Arrive(2, Slot(q, key), fp));
    var w2 := Apply(w1, Drive(2, Reserve(100, 5)));
    assert w2.calls[2] == Call(Slot(q, key), fp, Holding);
    assert w2.rows == w.rows[Slot(q, key) := w2.rows[Slot(q, key)]] && IsOpen(w2.rows, Slot(q, key));
  }

  /** A finished record that is still live disappears, because another principal's record under its key is overdue. */
  lemma SweepForgetsLiveRecord(db: Db, now: int, p: string, q: string, key: string, fp: nat, reply: Reply)
    requires p != q
    ensures var w := Play(Opening(db, now), Expiring(p, key, fp) + Refusing(q, key, fp, reply));
            && Slot(q, key) in w.rows && w.rows[Slot(q, key)].status == Failed && w.rows[Slot(q, key)].reply == reply
            && w.now < w.rows[Slot(q, key)].expiresAt
            && Slot(q, key) !in Apply(w, Sweep({key})).rows
  {
    PlayConcat(Opening(db, now), Expiring(p, key, fp), Refusing(q, key, fp, reply));
    ExpiryReached(db, now, p, key, fp);
    var w := Play(Opening(db, now), Expiring(p, key, fp));
    RefusalStored(w, q, key, fp, reply);
    var w' := Play(w, Refusing(q, key, fp, reply));
    assert w'.rows[Slot(p, key)] == w.rows[Slot(p, key)];
  }

  // ----- leases end with their record ---------------------------------------------------------------------------------

  predicate LeaseFits(e: Event)
  {
    e.Drive? && e.act.Reserve? ==> e.act.lease <= e.act.ttl
  }

  predicate LeasesWithin(rows: Rows)
  {
    forall slot | slot in rows :: rows[slot].leaseUntil <= rows[slot].expiresAt
  }

  lemma ApplyLeases(w: World, e: Event)
    requires LeasesWithin(w.rows) && LeaseFits(e)
    ensures LeasesWithin(Apply(w, e).rows)
  {
  }

  /** However often a record is taken over, its lease never outlives it. */
  lemma {:induction false} LeasesEndInTime(w: World, es: seq<Event>)
    requires LeasesWithin(w.rows) && forall k | 0 <= k < |es| :: LeaseFits(es[k])
    ensures LeasesWithin(Play(w, es).rows)
    decreases |es|
  {
    if es != [] {
      assert forall k | 0 <= k < |es[1..]| :: es[1..][k] == es[k + 1];
      ApplyLeases(w, es[0]);
      LeasesEndInTime(Apply(w, es[0]), es[1..]);
    }
  }
}
