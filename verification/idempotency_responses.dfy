/** Whose response a record stores: its own fingerprint's, unless its row was taken away under somebody's feet. */
module IdempotencyResponses {
  import opened Collections
  import opened LedgerTypes
  import opened Posting
  import opened Idempotency
  import opened IdempotencyProtocol
  import Ledger

  /** A finished record's response describes work done for the record's own fingerprint. */
  predicate OwnResponse(row: Row)
  {
    Final(row.status) ==> row.author == Some(row.fingerprint)
  }

  /** The request whose move an event is. */
  function Actor(e: Event): Option<nat>
  {
    match e
    case Drive(c, _) => Some(c)
    case Commit(c, _, _, _) => Some(c)
    case _ => None
  }

  predicate FinishedBy(w: World, e: Event, slot: Slot)
  {
    IsOpen(w.rows, slot) && slot in Apply(w, e).rows && Final(Apply(w, e).rows[slot].status)
  }

  /**
   Whatever event finishes a record, by a commit or by a stored refusal, it is a holder's, and the record
   is left with its own response exactly when the holder asks for what the record was opened for.
   */
  lemma FinishMatchesIff(w: World, e: Event, slot: Slot)
    requires FinishedBy(w, e, slot)
    ensures Actor(e).Some? && Actor(e).value in w.calls
    ensures var call := w.calls[Actor(e).value];
            && call.slot == slot && call.phase == Holding
            && (OwnResponse(Apply(w, e).rows[slot]) <==> call.fingerprint == w.rows[slot].fingerprint)
  {
  }

  // ----- what is stored is what is told --------------------------------------------------------------------

  /** The response an event hands over to be stored. */
  function ReplyOf(e: Event): Reply
  {
    match e
    case Commit(_, _, reply, _) => reply
    case Drive(_, act) => if act.Reject? then act.reply else Reply(0, "")
    case _ => Reply(0, "")
  }

  lemma FinishStores(w: World, e: Event, slot: Slot)
    requires FinishedBy(w, e, slot)
    ensures var row, row' := w.rows[slot], Apply(w, e).rows[slot];
            && row'.reply == ReplyOf(e) && row'.fingerprint == row.fingerprint && row'.expiresAt == row.expiresAt
            && Apply(w, e).now == w.now
  {
  }

  lemma PlaySnoc(w: World, es: seq<Event>, e: Event)
    ensures Play(w, es + [e]) == Apply(Play(w, es), e)
  {
    PlayConcat(w, es, [e]);
    assert [e][1..] == [];
    assert Play(Play(w, es), [e]) == Play(Apply(Play(w, es), e), []);
  }

  /**
   With one owner per key: whatever else happens, a record finished with a response tells its own fingerprint
   that very response, and every other fingerprint that the key is taken, until it expires.
   */
  lemma FinishedIsRetold(db: Ledger.Db, now: int, es: seq<Event>, e: Event, fs: seq<Event>, owner: string -> string,
                         slot: Slot, fingerprint: nat)
    requires OwnedRun(es + [e] + fs, owner) && FinishedBy(Play(Opening(db, now), es), e, slot)
    requires Play(Opening(db, now), es + [e] + fs).now < Play(Opening(db, now), es).rows[slot].expiresAt
    ensures var row, w := Play(Opening(db, now), es).rows[slot], Play(Opening(db, now), es + [e] + fs);
            Decision(w.rows, slot, fingerprint, w.now) == Some(Retold(row, ReplyOf(e), fingerprint, w.now))
  {
    FinishStores(Play(Opening(db, now), es), e, slot);
    PlaySnoc(Opening(db, now), es, e);
    ResponseNeverChanges(db, now, es + [e], fs, owner, slot);
  }

  function Asking(c: nat, slot: Slot, fingerprint: nat): seq<Event>
  {
    [Arrive(c, slot, fingerprint), Drive(c, Reserve(100, 10)), Drive(c, LookUp), Drive(c, Judge)]
  }

  /** And a request that asks, uninterrupted, is answered what the table decides without touching it; a replay fills the cache. */
  lemma AskingIsAnswered(w: World, c: nat, slot: Slot, fingerprint: nat)
    requires c !in w.calls && slot in w.rows && Decision(w.rows, slot, fingerprint, w.now).Some?
    ensures var w' := Play(w, Asking(c, slot, fingerprint));
            && w'.rows == w.rows && w'.db == w.db
            && w'.cache == (if Decision(w.rows, slot, fingerprint, w.now).value.Replay? then w.cache[slot := w.rows[slot]] else w.cache)
            && c in w'.calls && w'.calls[c].phase == Answered(Decision(w.rows, slot, fingerprint, w.now))
  {
    PlayFour(w, Arrive(c, slot, fingerprint), Drive(c, Reserve(100, 10)), Drive(c, LookUp), Drive(c, Judge));
    var w1 := w.(calls := w.calls[c := Call(slot, fingerprint, Arrived)]);
    assert Apply(w, Arrive(c, slot, fingerprint)) == w1;
    assert Apply(w1, Drive(c, Reserve(100, 10))) == To(w1, c, Blocked);
    assert Apply(To(w1, c, Blocked), Drive(c, LookUp)) == To(w1, c, Seen(w.rows[slot]));
  }

  /** Writes without a client's key pass the records by, and take effect as ever. */
  lemma KeylessWritesLand(w: World, op: Ledger.Op)
    requires KeyOf(op).None? || KeyOf(op).value.StepKey?
    ensures Apply(w, Outside(op)) == w.(db := Ledger.Step(w.db, op))
  {
  }

  predicate IsHolding(w: World, c: nat)
  {
    c in w.calls && w.calls[c].phase == Holding
  }

  /** A request comes to hold a key only by winning it: by inserting the record, or by taking over one whose lease has run out. */
  lemma HoldingIsWon(w: World, e: Event, c: nat)
    requires !IsHolding(w, c) && IsHolding(Apply(w, e), c)
    ensures c in w.calls && IsOpen(Apply(w, e).rows, w.calls[c].slot)
    ensures w.calls[c].slot !in w.rows
         || (w.rows[w.calls[c].slot].status == InProgress && w.rows[w.calls[c].slot].leaseUntil <= w.now)
  {
  }

  /** A handler that dies leaves the tables, the cache and every other request as they are. */
  lemma CrashLeavesRecords(w: World, c: nat)
    requires c in w.calls
    ensures Apply(w, Drive(c, Crash)) == w.(calls := w.calls - {c})
  {
  }

  /** Giving up never touches a finished record. */
  lemma GivingUpKeepsFinished(w: World, c: nat, failure: Failure, reply: Reply)
    requires IsHolding(w, c) && !IsOpen(w.rows, w.calls[c].slot)
    ensures Apply(w, Drive(c, Reject(failure, reply))).rows == w.rows
  {
  }

  lemma LostAnswerCommits(w: World, c: nat, op: Ledger.Op, reply: Reply, w': World)
    requires IsHolding(w, c) && Commits(w.db, op) && CarriesSlot(op, w.calls[c].slot) && IsOpen(w.rows, w.calls[c].slot)
    requires w' == Apply(w, Commit(c, op, reply, true))
    ensures IsHolding(w', c) && w'.calls == w.calls && w'.db == Ledger.Step(w.db, op)
    ensures w'.rows == Fulfilled(w.rows, w.calls[c].slot, reply, TxOf(op), w.calls[c].fingerprint)
  {
  }

  /** A commit whose answer is lost has committed: the handler still believes it holds, and cannot undo the record by giving up. */
  lemma LostAnswerKeepsRecord(w: World, c: nat, op: Ledger.Op, reply: Reply, failure: Failure, other: Reply, w': World)
    requires IsHolding(w, c) && Commits(w.db, op) && CarriesSlot(op, w.calls[c].slot) && IsOpen(w.rows, w.calls[c].slot)
    requires w' == Apply(w, Commit(c, op, reply, true))
    ensures IsHolding(w', c) && w'.db == Ledger.Step(w.db, op)
    ensures var slot := w.calls[c].slot; slot in w'.rows && w'.rows[slot].status == Completed && w'.rows[slot].reply == reply
    ensures Apply(w', Drive(c, Reject(failure, other))).rows == w'.rows
  {
    LostAnswerCommits(w, c, op, reply, w');
    GivingUpKeepsFinished(w', c, failure, other);
  }

  // ----- which refusals are stored ----------------------------------------------------------------------------

  /** A refusal for a fault of the request itself is stored under its key. */
  lemma RequestFaultIsStored(w: World, c: nat, ttype: TransactionType, legs: seq<Leg>, error: LedgerError, reply: Reply)
    requires c in w.calls && w.calls[c].phase == Holding && IsOpen(w.rows, w.calls[c].slot) && RequestFault(ttype, legs, error)
    ensures var w', slot := Apply(w, Drive(c, Reject(Refused(error), reply))), w.calls[c].slot;
            slot in w'.rows && w'.rows[slot].status == Failed && w'.rows[slot].reply == reply
  {
  }

  /** So is one that no later attempt can escape: an unreadable body, a wrong currency, a reversal that cannot be made. */
  lemma LastingFaultIsStored(w: World, c: nat, f: Failure, reply: Reply)
    requires c in w.calls && w.calls[c].phase == Holding && IsOpen(w.rows, w.calls[c].slot)
    requires f == MalformedBody || (f.Refused? && f.error in
             {CurrencyMismatch, ReversalReasonRequired, AlreadyReversed, TransactionNotPosted})
    ensures var w', slot := Apply(w, Drive(c, Reject(f, reply))), w.calls[c].slot;
            slot in w'.rows && w'.rows[slot].status == Failed && w'.rows[slot].reply == reply
  {
  }

  /** A failure that the next minute may undo frees the key instead: money may arrive and accounts may open. */
  lemma WorldFaultFreesKey(w: World, c: nat, f: Failure, reply: Reply)
    requires c in w.calls && w.calls[c].phase == Holding && IsOpen(w.rows, w.calls[c].slot)
    requires f == Trouble || (f.Refused? && f.error in {InsufficientFunds, AccountNotFound, AccountNotPostable,
             BalanceVersionConflict, DuplicateIdempotencyKey, TransactionNotFound})
    ensures Apply(w, Drive(c, Reject(f, reply))).rows == w.rows - {w.calls[c].slot}
  {
  }

  // ----- who may still finish a record -------------------------------------------------------------------

  /** Holds the record, is about to take it over, or has seen it open and could still decide to. */
  predicate Claims(call: Call, slot: Slot, now: int)
  {
    && call.slot == slot
    && match call.phase
       case Holding => true
       case Reclaiming => true
       case Seen(record) =>
         && record.status == InProgress && record.fingerprint == call.fingerprint
         && now < record.expiresAt && record.leaseUntil < record.expiresAt
       case _ => false
  }

  predicate Removes(w: World, e: Event, slot: Slot)
  {
    slot in w.rows && slot !in Apply(w, e).rows
  }

  /** Some request other than the one whose move this is still has a claim on the slot. */
  predicate OthersClaim(w: World, e: Event, slot: Slot)
  {
    exists c | c in w.calls && Actor(e) != Some(c) :: Claims(w.calls[c], slot, w.now)
  }

  /** The slot's row is never deleted while another request has a claim on it. */
  predicate SafeFor(w: World, es: seq<Event>, slot: Slot)
    decreases |es|
  {
    es == [] || ((Removes(w, es[0], slot) ==> !OthersClaim(w, es[0], slot)) && SafeFor(Apply(w, es[0]), es[1..], slot))
  }

  // ----- what such a run keeps ---------------------------------------------------------------------------------

  predicate RowOwn(rows: Rows, slot: Slot)
  {
    slot in rows ==> OwnResponse(rows[slot])
  }

  predicate CacheOwn(cache: map<Slot, Row>, slot: Slot)
  {
    slot in cache ==> Final(cache[slot].status) && OwnResponse(cache[slot])
  }

  predicate CallOwn(rows: Rows, call: Call, slot: Slot, now: int)
  {
    && (Claims(call, slot, now) ==> slot in rows && rows[slot].fingerprint == call.fingerprint)
    && (call.slot == slot && call.phase.Seen? ==> OwnResponse(call.phase.record))
  }

  predicate CallsOwn(w: World, slot: Slot)
  {
    forall c | c in w.calls :: CallOwn(w.rows, w.calls[c], slot, w.now)
  }

  predicate Kept(w: World, slot: Slot)
  {
    RowOwn(w.rows, slot) && CacheOwn(w.cache, slot) && CallsOwn(w, slot)
  }

  /** The slot's record, if it stays, was opened for what it was opened for. */
  predicate SameRecord(rows: Rows, rows': Rows, slot: Slot)
  {
    slot in rows ==> slot in rows' && rows'[slot].fingerprint == rows[slot].fingerprint
  }

  /** A request that does not move keeps its claim right, and time only weakens claims. */
  lemma OthersOwn(rows: Rows, rows': Rows, call: Call, slot: Slot, now: int, now': int)
    requires CallOwn(rows, call, slot, now) && SameRecord(rows, rows', slot) && now <= now'
    ensures CallOwn(rows', call, slot, now')
  {
  }

  lemma MoverRows(w: World, c: nat, act: Act, slot: Slot)
    requires c in w.calls && RowOwn(w.rows, slot) && CacheOwn(w.cache, slot) && CallOwn(w.rows, w.calls[c], slot, w.now)
    ensures var w' := CallStep(w, c, act);
            && RowOwn(w'.rows, slot) && CacheOwn(w'.cache, slot)
            && w'.now == w.now && w'.calls.Keys <= w.calls.Keys
            && (forall x | x in w'.calls && x != c :: w'.calls[x] == w.calls[x])
  {
  }

  lemma MoverOwn(w: World, c: nat, act: Act, slot: Slot)
    requires c in w.calls && RowOwn(w.rows, slot) && CacheOwn(w.cache, slot) && CallOwn(w.rows, w.calls[c], slot, w.now)
    ensures var w' := CallStep(w, c, act); c in w'.calls ==> CallOwn(w'.rows, w'.calls[c], slot, w.now)
  {
  }

  /** Short of deleting the row, a request's move leaves the slot's record as it was opened, or opens it. */
  lemma MoveKeepsRecord(w: World, c: nat, act: Act, slot: Slot)
    requires c in w.calls
    ensures slot in CallStep(w, c, act).rows ==> SameRecord(w.rows, CallStep(w, c, act).rows, slot)
  {
  }

  lemma StillerOwn(w: World, e: Event, w': World, slot: Slot, x: nat)
    requires CallsOwn(w, slot) && x in w.calls && Actor(e) != Some(x) && w' == Apply(w, e) && w.now <= w'.now
    requires slot in w'.rows ==> SameRecord(w.rows, w'.rows, slot)
    requires Removes(w, e, slot) ==> !OthersClaim(w, e, slot)
    ensures CallOwn(w'.rows, w.calls[x], slot, w'.now)
  {
    assert CallOwn(w.rows, w.calls[x], slot, w.now);
    if slot in w'.rows || slot !in w.rows {
      OthersOwn(w.rows, w'.rows, w.calls[x], slot, w.now, w'.now);
    }
  }

  lemma DriveKept(w: World, c: nat, act: Act, slot: Slot)
    requires Kept(w, slot) && c in w.calls
    requires Removes(w, Drive(c, act), slot) ==> !OthersClaim(w, Drive(c, act), slot)
    ensures Kept(CallStep(w, c, act), slot)
  {
    var w' := CallStep(w, c, act);
    assert CallOwn(w.rows, w.calls[c], slot, w.now);
    MoverRows(w, c, act, slot);
    MoverOwn(w, c, act, slot);
    MoveKeepsRecord(w, c, act, slot);
    forall x | x in w'.calls ensures CallOwn(w'.rows, w'.calls[x], slot, w'.now) {
      if x != c {
        StillerOwn(w, Drive(c, act), w', slot, x);
      }
    }
  }

  lemma FulfilledKept(w: World, c: nat, slot: Slot, reply: Reply, tx: Id)
    requires c in w.calls && w.calls[c].phase == Holding && IsOpen(w.rows, w.calls[c].slot)
    requires CallOwn(w.rows, w.calls[c], slot, w.now) && RowOwn(w.rows, slot)
    ensures var rows := Fulfilled(w.rows, w.calls[c].slot, reply, tx, w.calls[c].fingerprint);
            RowOwn(rows, slot) && SameRecord(w.rows, rows, slot)
  {
  }

  /** The finished request has no claim any more, and every other one keeps its own. */
  lemma SettledCalls(w: World, w': World, c: nat, slot: Slot)
    requires CallsOwn(w, slot) && c in w.calls && SameRecord(w.rows, w'.rows, slot) && w'.now == w.now
    requires w'.calls == w.calls || w'.calls == w.calls[c := w.calls[c].(phase := Answered(None))]
    ensures CallsOwn(w', slot)
  {
    forall x | x in w'.calls ensures CallOwn(w'.rows, w'.calls[x], slot, w'.now) {
      OthersOwn(w.rows, w'.rows, w.calls[x], slot, w.now, w'.now);
    }
  }

  lemma CommitKept(w: World, c: nat, op: Ledger.Op, reply: Reply, lost: bool, slot: Slot)
    requires Kept(w, slot) && c in w.calls && w.calls[c].phase == Holding
    ensures Kept(Finishes(w, c, op, reply, lost), slot)
  {
    if IsOpen(w.rows, w.calls[c].slot) {
      assert CallOwn(w.rows, w.calls[c], slot, w.now);
      FulfilledKept(w, c, slot, reply, TxOf(op));
      var w' := Finishes(w, c, op, reply, lost);
      SettledCalls(w, w', c, slot);
    }
  }

  lemma SweepKept(w: World, keys: set<string>, slot: Slot)
    requires Kept(w, slot) && OverdueKeys(w.rows, keys, w.now)
    requires Removes(w, Sweep(keys), slot) ==> !OthersClaim(w, Sweep(keys), slot)
    ensures Kept(w.(rows := Swept(w.rows, keys)), slot)
  {
    var w' := w.(rows := Swept(w.rows, keys));
    forall x | x in w'.calls ensures CallOwn(w'.rows, w'.calls[x], slot, w'.now) {
      StillerOwn(w, Sweep(keys), w', slot, x);
    }
  }

  lemma TickKept(w: World, elapsed: nat, slot: Slot)
    requires Kept(w, slot)
    ensures Kept(w.(now := w.now + elapsed), slot)
  {
    forall x | x in w.calls ensures CallOwn(w.rows, w.calls[x], slot, w.now + elapsed) {
      OthersOwn(w.rows, w.rows, w.calls[x], slot, w.now, w.now + elapsed);
    }
  }

  lemma ApplyKept(w: World, e: Event, slot: Slot)
    requires Kept(w, slot) && (Removes(w, e, slot) ==> !OthersClaim(w, e, slot))
    ensures Kept(Apply(w, e), slot)
  {
    match e
    case Drive(c, act) =>
      if c in w.calls {
        DriveKept(w, c, act, slot);
      }
    case Commit(c, op, reply, lost) =>
      if c in w.calls && w.calls[c].phase == Holding {
        CommitKept(w, c, op, reply, lost, slot);
      }
    case Sweep(keys) =>
      if OverdueKeys(w.rows, keys, w.now) {
        SweepKept(w, keys, slot);
      }
    case Tick(elapsed) => TickKept(w, elapsed, slot);
    case _ =>
  }

  lemma {:induction false} PlayKept(w: World, es: seq<Event>, slot: Slot)
    requires Kept(w, slot) && SafeFor(w, es, slot)
    ensures Kept(Play(w, es), slot)
    decreases |es|
  {
    if es != [] {
      ApplyKept(w, es[0], slot);
      PlayKept(Apply(w, es[0]), es[1..], slot);
    }
  }

  /** On such a run the record, once finished, stores its own fingerprint's response. */
  lemma RecordsOwnTheirResponses(db: Ledger.Db, now: int, es: seq<Event>, slot: Slot)
    requires SafeFor(Opening(db, now), es, slot) && slot in Play(Opening(db, now), es).rows
    ensures OwnResponse(Play(Opening(db, now), es).rows[slot])
  {
    PlayKept(Opening(db, now), es, slot);
  }

  /** And whatever a request is replayed, from the table or from the cache, is work done for its own fingerprint. */
  lemma ReplaysOwnWork(db: Ledger.Db, now: int, es: seq<Event>, c: nat)
    requires c in Play(Opening(db, now), es).calls
    requires var w := Play(Opening(db, now), es); w.calls[c].phase.Seen? && SafeFor(Opening(db, now), es, w.calls[c].slot)
    ensures var w := Play(Opening(db, now), es);
            var record := w.calls[c].phase.record;
            Resolve(record, w.calls[c].fingerprint, w.now).Replay? ==> record.author == Some(w.calls[c].fingerprint)
  {
    var w := Play(Opening(db, now), es);
    PlayKept(Opening(db, now), es, w.calls[c].slot);
    assert CallOwn(w.rows, w.calls[c], w.calls[c].slot, w.now);
  }

  // ----- and exactly such a run ------------------------------------------------------------------------------------

  predicate Mixed(w: World, slot: Slot)
  {
    slot in w.rows && !OwnResponse(w.rows[slot])
  }

  /** With no further deletion under a claim, the slot can still come to store another fingerprint's response. */
  ghost predicate CanMix(w: World, slot: Slot)
  {
    exists fs :: SafeFor(w, fs, slot) && Mixed(Play(w, fs), slot)
  }

  lemma MixedNow(w: World, slot: Slot)
    requires Mixed(w, slot)
    ensures CanMix(w, slot)
  {
    assert SafeFor(w, [], slot) && Mixed(Play(w, []), slot);
  }

  lemma MixedLater(w: World, e: Event, w': World, slot: Slot)
    requires w' == Apply(w, e) && CanMix(w', slot) && !Removes(w, e, slot)
    ensures CanMix(w, slot)
  {
    var fs :| SafeFor(w', fs, slot) && Mixed(Play(w', fs), slot);
    assert ([e] + fs)[1..] == fs;
    assert SafeFor(w, [e] + fs, slot) && Mixed(Play(w, [e] + fs), slot);
  }

  lemma {:induction false} FreshCall(used: set<nat>) returns (n: nat)
    ensures forall x | x in used :: x < n
  {
    n := 0;
    if used != {} {
      var x :| x in used;
      var m := FreshCall(used - {x});
      n := if m > x then m else x + 1;
      assert forall y | y in used :: y == x || y in used - {x};
    }
  }

  /** A holder whose record now belongs to something else stores its refusal there. */
  lemma HolderMixes(w: World, c: nat, slot: Slot)
    requires c in w.calls && w.calls[c].slot == slot && w.calls[c].phase == Holding
    requires IsOpen(w.rows, slot) && w.rows[slot].fingerprint != w.calls[c].fingerprint
    ensures CanMix(w, slot)
  {
    var e := Drive(c, Reject(MalformedBody, Reply(400, "")));
    FinishMatchesIff(w, e, slot);
    MixedNow(Apply(w, e), slot);
    MixedLater(w, e, Apply(w, e), slot);
  }

  lemma ReclaimerMixes(w: World, c: nat, slot: Slot)
    requires c in w.calls && w.calls[c].slot == slot && w.calls[c].phase == Reclaiming
    requires IsOpen(w.rows, slot) && w.rows[slot].fingerprint != w.calls[c].fingerprint
    ensures CanMix(w, slot)
  {
    var gap: nat := if w.rows[slot].leaseUntil > w.now then w.rows[slot].leaseUntil - w.now else 0;
    var w1 := Apply(w, Tick(gap));
    var w2 := Apply(w1, Drive(c, Reclaim(10)));
    HolderMixes(w2, c, slot);
    MixedLater(w1, Drive(c, Reclaim(10)), w2, slot);
    MixedLater(w, Tick(gap), w1, slot);
  }

  /** Once the row is gone a newcomer may open the slot for anything. */
  lemma NewcomerOpens(w: World, c: nat, slot: Slot) returns (arrives: Event, opens: Event)
    requires c in w.calls && slot !in w.rows
    ensures var w1 := Apply(w, arrives);
            var w2 := Apply(w1, opens);
            && !Removes(w, arrives, slot) && !Removes(w1, opens, slot)
            && c in w2.calls && w2.calls[c] == w.calls[c] && w2.now == w.now
            && IsOpen(w2.rows, slot) && w2.rows[slot].fingerprint != w.calls[c].fingerprint
  {
    var n := FreshCall(w.calls.Keys);
    arrives := Arrive(n, slot, w.calls[c].fingerprint + 1);
    opens := Drive(n, Reserve(100, 10));
    assert n !in w.calls;
    assert Apply(w, arrives).calls[n] == Call(slot, w.calls[c].fingerprint + 1, Arrived);
  }

  lemma ActiveMixes(w: World, c: nat, slot: Slot)
    requires c in w.calls && w.calls[c].slot == slot && (w.calls[c].phase == Holding || w.calls[c].phase == Reclaiming)
    requires slot !in w.rows
    ensures CanMix(w, slot)
  {
    var arrives, opens := NewcomerOpens(w, c, slot);
    var w1 := Apply(w, arrives);
    var w2 := Apply(w1, opens);
    if w.calls[c].phase == Holding {
      HolderMixes(w2, c, slot);
    } else {
      ReclaimerMixes(w2, c, slot);
    }
    MixedLater(w1, opens, w2, slot);
    MixedLater(w, arrives, w1, slot);
  }

  /** One that saw the record open waits for the lease it saw to run out, and decides to take over. */
  lemma SeerMixes(w: World, c: nat, slot: Slot)
    requires c in w.calls && Claims(w.calls[c], slot, w.now) && w.calls[c].phase.Seen? && slot !in w.rows
    ensures CanMix(w, slot)
  {
    var record := w.calls[c].phase.record;
    var gap: nat := if record.leaseUntil > w.now then record.leaseUntil - w.now else 0;
    var w1 := Apply(w, Tick(gap));
    var w2 := Apply(w1, Drive(c, Judge));
    ActiveMixes(w2, c, slot);
    MixedLater(w1, Drive(c, Judge), w2, slot);
    MixedLater(w, Tick(gap), w1, slot);
  }

  lemma ClaimantMixes(w: World, c: nat, slot: Slot)
    requires c in w.calls && Claims(w.calls[c], slot, w.now) && slot !in w.rows
    ensures CanMix(w, slot)
  {
    if w.calls[c].phase.Seen? {
      SeerMixes(w, c, slot);
    } else {
      ActiveMixes(w, c, slot);
    }
  }

  lemma RemovalStands(w: World, e: Event, slot: Slot, c: nat)
    requires Removes(w, e, slot) && c in w.calls && Actor(e) != Some(c)
    ensures c in Apply(w, e).calls && Apply(w, e).calls[c] == w.calls[c] && Apply(w, e).now == w.now
  {
  }

  /**
   Deleting a slot's row opens the way to a mixed record exactly when another request still has a claim on
   it; a caller of the delete could look that up beforehand.
   */
  lemma RemovalMixesIff(db: Ledger.Db, now: int, es: seq<Event>, e: Event, slot: Slot)
    requires SafeFor(Opening(db, now), es, slot) && Removes(Play(Opening(db, now), es), e, slot)
    ensures var w := Play(Opening(db, now), es); CanMix(Apply(w, e), slot) <==> OthersClaim(w, e, slot)
  {
    var w := Play(Opening(db, now), es);
    PlayKept(Opening(db, now), es, slot);
    if OthersClaim(w, e, slot) {
      var c :| c in w.calls && Actor(e) != Some(c) && Claims(w.calls[c], slot, w.now);
      RemovalStands(w, e, slot, c);
      ClaimantMixes(Apply(w, e), c, slot);
    } else {
      ApplyKept(w, e, slot);
      forall fs | SafeFor(Apply(w, e), fs, slot) ensures !Mixed(Play(Apply(w, e), fs), slot) {
        PlayKept(Apply(w, e), fs, slot);
      }
    }
  }

  // ----- the runs that show it ---------------------------------------------------------------------------------------

  lemma PlayFour(w: World, e: Event, f: Event, g: Event, h: Event)
    ensures Play(w, [e, f, g, h]) == Apply(Apply(Apply(Apply(w, e), f), g), h)
  {
    var w1 := Apply(w, e);
    var w2 := Apply(w1, f);
    var w3 := Apply(w2, g);
    assert [e, f, g, h][1..] == [f, g, h] && [f, g, h][1..] == [g, h] && [g, h][1..] == [h] && [h][1..] == [];
    assert Play(w, [e, f, g, h]) == Play(w1, [f, g, h]) == Play(w2, [g, h]) == Play(w3, [h]);
    assert Play(w3, [h]) == Play(Apply(w3, h), []);
  }

  function FirstRow(fingerprint: nat, now: int, born: nat): Row
  {
    Row(fingerprint, InProgress, Reply(0, ""), None, now + 100, now + 10, born, None)
  }

  /** One request opens the record and stalls until its lease runs out; a second one arrives. */
  function Stall(slot: Slot, fp: nat): seq<Event>
  {
    [Arrive(1, slot, fp), Drive(1, Reserve(100, 10)), Tick(10), Arrive(2, slot, fp)]
  }

  /** The second finds the lease dead and takes the key over; both now believe they hold it. */
  const TAKEOVER: seq<Event> := [Drive(2, Reserve(100, 10)), Drive(2, LookUp), Drive(2, Judge), Drive(2, Reclaim(10))]

  /** The first hands the key back late, a third opens it for something else, and the second finishes. */
  function Reuse(slot: Slot, other: nat, reply: Reply, last: Event): seq<Event>
  {
    [Drive(1, Reject(Trouble, reply)), Arrive(3, slot, other), Drive(3, Reserve(100, 10)), last]
  }

  function Stalled(db: Ledger.Db, now: int, slot: Slot, fp: nat): World
  {
    World(db, map[slot := FirstRow(fp, now, |db.outbox|)],
          map[1 := Call(slot, fp, Holding), 2 := Call(slot, fp, Arrived)], map[], now + 10)
  }

  lemma StallReached(db: Ledger.Db, now: int, slot: Slot, fp: nat)
    ensures Play(Opening(db, now), Stall(slot, fp)) == Stalled(db, now, slot, fp)
  {
    PlayFour(Opening(db, now), Arrive(1, slot, fp), Drive(1, Reserve(100, 10)), Tick(10), Arrive(2, slot, fp));
    var w2 := Apply(Apply(Opening(db, now), Arrive(1, slot, fp)), Drive(1, Reserve(100, 10)));
    assert w2.rows == map[slot := FirstRow(fp, now, |db.outbox|)] && w2.calls == map[1 := Call(slot, fp, Holding)];
  }

  predicate BothHold(w: World, slot: Slot, fp: nat)
  {
    IsOpen(w.rows, slot) && w.calls == map[1 := Call(slot, fp, Holding), 2 := Call(slot, fp, Holding)]
  }

  lemma TwoHolders(db: Ledger.Db, now: int, slot: Slot, fp: nat)
    ensures var w := Play(Stalled(db, now, slot, fp), TAKEOVER); w.db == db && BothHold(w, slot, fp)
  {
    var w := Stalled(db, now, slot, fp);
    PlayFour(w, Drive(2, Reserve(100, 10)), Drive(2, LookUp), Drive(2, Judge), Drive(2, Reclaim(10)));
    var w1 := Apply(w, Drive(2, Reserve(100, 10)));
    assert w1 == To(w, 2, Blocked);
    var w2 := Apply(w1, Drive(2, LookUp));
    assert w2 == To(w, 2, Seen(FirstRow(fp, now, |db.outbox|)));
    var w3 := Apply(w2, Drive(2, Judge));
    assert w3 == To(w, 2, Reclaiming);
  }

  lemma ThirdReuses(w: World, slot: Slot, fp: nat, other: nat, reply: Reply)
    requires BothHold(w, slot, fp)
    ensures var w' := Apply(Apply(Apply(w, Drive(1, Reject(Trouble, reply))), Arrive(3, slot, other)), Drive(3, Reserve(100, 10)));
            && IsOpen(w'.rows, slot) && w'.rows[slot].fingerprint == other && w'.db == w.db
            && 2 in w'.calls && w'.calls[2] == Call(slot, fp, Holding)
  {
    var w1 := Apply(w, Drive(1, Reject(Trouble, reply)));
    assert slot !in w1.rows && w1.calls[2] == Call(slot, fp, Holding) && 3 !in w1.calls;
    var w2 := Apply(w1, Arrive(3, slot, other));
    assert w2.calls[3] == Call(slot, other, Arrived) && w2.rows == w1.rows;
  }

  /** A commit the ledger takes, or a refusal worth storing, by the second request. */
  predicate Finishing(db: Ledger.Db, last: Event, slot: Slot)
  {
    || (last.Commit? && last.call == 2 && Commits(db, last.op) && CarriesSlot(last.op, slot))
    || (last.Drive? && last.call == 2 && last.act.Reject? && Deterministic(last.act.failure))
  }

  lemma LastMixes(w: World, slot: Slot, fp: nat, other: nat, last: Event)
    requires fp != other && IsOpen(w.rows, slot) && w.rows[slot].fingerprint == other
    requires 2 in w.calls && w.calls[2] == Call(slot, fp, Holding) && Finishing(w.db, last, slot)
    ensures Mixed(Apply(w, last), slot) && Apply(w, last).rows[slot].fingerprint == other
  {
    FinishMatchesIff(w, last, slot);
  }

  lemma ReuseMixes(w: World, slot: Slot, fp: nat, other: nat, reply: Reply, last: Event)
    requires fp != other && BothHold(w, slot, fp) && Finishing(w.db, last, slot)
    ensures var w' := Play(w, Reuse(slot, other, reply, last)); Mixed(w', slot) && w'.rows[slot].fingerprint == other
  {
    PlayFour(w, Drive(1, Reject(Trouble, reply)), Arrive(3, slot, other), Drive(3, Reserve(100, 10)), last);
    ThirdReuses(w, slot, fp, other, reply);
    var w3 := Apply(Apply(Apply(w, Drive(1, Reject(Trouble, reply))), Arrive(3, slot, other)), Drive(3, Reserve(100, 10)));
    LastMixes(w3, slot, fp, other, last);
  }

  /** So a record can store another fingerprint's response, by a late commit or by a late refusal. */
  lemma StaleReleaseMixesResponses(db: Ledger.Db, now: int, slot: Slot, fp: nat, other: nat, reply: Reply, last: Event)
    requires fp != other && Finishing(db, last, slot)
    ensures var w := Play(Opening(db, now), Stall(slot, fp) + TAKEOVER + Reuse(slot, other, reply, last));
            Mixed(w, slot) && w.rows[slot].fingerprint == other
  {
    StallReached(db, now, slot, fp);
    TwoHolders(db, now, slot, fp);
    PlayConcat(Opening(db, now), Stall(slot, fp), TAKEOVER);
    PlayConcat(Opening(db, now), Stall(slot, fp) + TAKEOVER, Reuse(slot, other, reply, last));
    ReuseMixes(Play(Stalled(db, now, slot, fp), TAKEOVER), slot, fp, other, reply, last);
  }
}
