/** The event-driven balance projection: at-least-once, unordered delivery of the ledger's events. */
module Projection {
  import opened Collections
  import opened LedgerTypes
  import opened Posting
  import opened Ledger
  import opened LedgerInvariants

  /** One row of balance_projections. */
  datatype Row = Row(available: int, version: nat, lastEvent: Id)

  datatype State = State(processed: set<Id>, rows: map<Id, Row>)

  const FRESH: State := State({}, map[])

  /** The version compare-and-set: a report no newer than the row leaves it alone. */
  function ApplyLine(rows: map<Id, Row>, event: Id, l: BalanceLine): map<Id, Row>
  {
    if l.account !in rows || rows[l.account].version < l.version
    then rows[l.account := Row(l.available, l.version, event)]
    else rows
  }

  function ApplyLines(rows: map<Id, Row>, event: Id, lines: seq<BalanceLine>): map<Id, Row>
  {
    if lines == [] then rows
    else ApplyLine(ApplyLines(rows, event, lines[..|lines| - 1]), event, lines[|lines| - 1])
  }

  function ApplyEvent(st: State, e: TxEvent): State
  {
    if e.id in st.processed then st
    else State(st.processed + {e.id}, ApplyLines(st.rows, e.id, e.lines))
  }

  /** The projection after a sequence of deliveries, in whatever order and with whatever repeats. */
  function Deliver(ds: seq<TxEvent>): State
  {
    if ds == [] then FRESH else ApplyEvent(Deliver(ds[..|ds| - 1]), ds[|ds| - 1])
  }

  /** The same deliveries with no processed_events table at all. */
  function DeliverUnrecorded(ds: seq<TxEvent>): map<Id, Row>
  {
    if ds == [] then map[]
    else ApplyLines(DeliverUnrecorded(ds[..|ds| - 1]), ds[|ds| - 1].id, ds[|ds| - 1].lines)
  }

  // ----- the consumer as the code runs it -----------------------------------------------------

  datatype Envelope = Envelope(event: TxEvent, eventType: string)

  datatype ApplyError = UnknownEventType

  class Projector {
    var processed: set<Id>
    var rows: map<Id, Row>

    ghost function Contents(): State
      reads this
    {
      State(processed, rows)
    }

    constructor ()
      ensures Contents() == FRESH
    {
      processed, rows := {}, map[];
    }

    /** Handles one message in one local transaction; a duplicate changes nothing and is not an error. */
    method Apply(envelope: Envelope) returns (r: Result<bool, ApplyError>)
      modifies this
      ensures r.Err? <==> envelope.eventType !in {"TransactionPosted", "TransactionReversed"}
      ensures r.Err? ==> Contents() == old(Contents())
      ensures r.Ok? ==> Contents() == ApplyEvent(old(Contents()), envelope.event)
      ensures r.Ok? ==> r.value == (envelope.event.id !in old(processed))
      ensures forall a | a in old(rows) :: a in rows && (rows[a] == old(rows)[a] || old(rows)[a].version < rows[a].version)
    {
      if envelope.eventType != "TransactionPosted" && envelope.eventType != "TransactionReversed" {
        return Err(UnknownEventType);
      }
      var e := envelope.event;
      if e.id in processed {
        return Ok(false);
      }
      var work := rows;
      for i := 0 to |e.lines|
        invariant work == ApplyLines(old(rows), e.id, e.lines[..i])
        invariant rows == old(rows) && processed == old(processed)
      {
        assert e.lines[..i + 1][..i] == e.lines[..i];
        work := ApplyLine(work, e.id, e.lines[i]);
      }
      assert e.lines[..|e.lines|] == e.lines;
      forall a | a in rows ensures a in work && (work[a] == rows[a] || rows[a].version < work[a].version) {
        LinesOnlyRaise(rows, e.id, e.lines, a);
      }
      processed, rows := processed + {e.id}, work;
      return Ok(true);
    }
  }

  // ----- a row is the newest delivered report ---------------------------------------------------

  ghost predicate Reported(ds: seq<TxEvent>, e: TxEvent, l: BalanceLine)
  {
    e in ds && l in e.lines
  }

  /** The row for an account is the highest-version report about it among the deliveries. */
  ghost predicate Newest(rows: map<Id, Row>, ds: seq<TxEvent>, a: Id)
  {
    && (forall e, l | Reported(ds, e, l) && l.account == a :: a in rows && l.version <= rows[a].version)
    && (a in rows ==> exists e, l ::
          Reported(ds, e, l) && l.account == a && rows[a] == Row(l.available, l.version, e.id))
  }

  /** A row changes only together with its version, and only upwards. */
  lemma {:induction false} LinesOnlyRaise(rows: map<Id, Row>, event: Id, lines: seq<BalanceLine>, a: Id)
    requires a in rows
    ensures var rows' := ApplyLines(rows, event, lines); a in rows' && (rows'[a] == rows[a] || rows[a].version < rows'[a].version)
  {
    if lines != [] {
      LinesOnlyRaise(rows, event, lines[..|lines| - 1], a);
    }
  }

  lemma {:induction false} LinesKeepNewest(rows: map<Id, Row>, e: TxEvent, lines: seq<BalanceLine>, a: Id)
    ensures var rows' := ApplyLines(rows, e.id, lines);
            && (a in rows ==> a in rows' && rows[a].version <= rows'[a].version)
            && (forall l | l in lines && l.account == a :: a in rows' && l.version <= rows'[a].version)
            && (a in rows' ==>
                  || (a in rows && rows'[a] == rows[a])
                  || exists l :: l in lines && l.account == a && rows'[a] == Row(l.available, l.version, e.id))
  {
    if lines != [] {
      var n := |lines| - 1;
      LinesKeepNewest(rows, e, lines[..n], a);
      assert lines == lines[..n] + [lines[n]];
      assert forall l :: l in lines <==> l in lines[..n] || l == lines[n];
    }
  }

  lemma EventKeepsNewest(rows: map<Id, Row>, ds: seq<TxEvent>, e: TxEvent, a: Id)
    requires Newest(rows, ds, a)
    ensures Newest(ApplyLines(rows, e.id, e.lines), ds + [e], a)
  {
    var rows' := ApplyLines(rows, e.id, e.lines);
    LinesKeepNewest(rows, e, e.lines, a);
    forall d, l ensures Reported(ds + [e], d, l) <==> Reported(ds, d, l) || (d == e && l in e.lines) {
    }
    if a in rows' {
      if a in rows && rows'[a] == rows[a] {
        var d, l :| Reported(ds, d, l) && l.account == a && rows[a] == Row(l.available, l.version, d.id);
        assert Reported(ds + [e], d, l);
      } else {
        var l :| l in e.lines && l.account == a && rows'[a] == Row(l.available, l.version, e.id);
        assert Reported(ds + [e], e, l);
      }
    }
  }

  lemma RepeatKeepsNewest(rows: map<Id, Row>, ds: seq<TxEvent>, e: TxEvent, a: Id)
    requires Newest(rows, ds, a) && e in ds
    ensures Newest(rows, ds + [e], a)
  {
    forall d, l ensures Reported(ds + [e], d, l) <==> Reported(ds, d, l) {
    }
    if a in rows {
      var d, l :| Reported(ds, d, l) && l.account == a && rows[a] == Row(l.available, l.version, d.id);
      assert Reported(ds + [e], d, l);
    }
  }

  /** Among events of one outbox, an id names one event. */
  lemma IdNamesEvent(headers: set<Id>, outbox: seq<TxEvent>, d: TxEvent, e: TxEvent)
    requires OutboxDistinct(headers, outbox) && d in outbox && e in outbox && d.id == e.id
    ensures d == e
  {
    var i :| 0 <= i < |outbox| && outbox[i] == d;
    var j :| 0 <= j < |outbox| && outbox[j] == e;
  }

  lemma {:induction false} DeliverNewest(db: Db, ds: seq<TxEvent>, a: Id)
    requires OutboxDistinct(db.headers.Keys, db.outbox)
    requires forall e | e in ds :: e in db.outbox
    ensures Newest(Deliver(ds).rows, ds, a)
    ensures forall x :: x in Deliver(ds).processed <==> exists e :: e in ds && e.id == x
  {
    if ds != [] {
      var n := |ds| - 1;
      var head, e := ds[..n], ds[n];
      assert ds == head + [e];
      DeliverNewest(db, head, a);
      assert forall d :: d in ds <==> d in head || d == e;
      if e.id in Deliver(head).processed {
        var d :| d in head && d.id == e.id;
        IdNamesEvent(db.headers.Keys, db.outbox, d, e);
        RepeatKeepsNewest(Deliver(head).rows, head, e, a);
      } else {
        EventKeepsNewest(Deliver(head).rows, head, e, a);
      }
    }
  }

  lemma {:induction false} UnrecordedNewest(ds: seq<TxEvent>, a: Id)
    ensures Newest(DeliverUnrecorded(ds), ds, a)
  {
    if ds != [] {
      var n := |ds| - 1;
      assert ds == ds[..n] + [ds[n]];
      UnrecordedNewest(ds[..n], a);
      EventKeepsNewest(DeliverUnrecorded(ds[..n]), ds[..n], ds[n], a);
    }
  }

  // ----- an account and a version name one report -------------------------------------------------

  /** A report sits in its account's stream inside the stretch its event contributed. */
  lemma StreamPosition(outbox: seq<TxEvent>, i: nat, l: BalanceLine) returns (k: nat)
    requires i < |outbox| && l in outbox[i].lines
    ensures |Stream(outbox[..i], l.account)| <= k < |Stream(outbox[..i + 1], l.account)| <= |Stream(outbox, l.account)|
    ensures Stream(outbox, l.account)[k] == l
  {
    var a := l.account;
    var before, here := Stream(outbox[..i], a), Filter(About(a), outbox[i].lines);
    assert outbox[..i + 1] == outbox[..i] + [outbox[i]];
    StreamSnoc(outbox[..i], outbox[i], a);
    assert outbox == outbox[..i + 1] + outbox[i + 1..];
    StreamConcat(outbox[..i + 1], outbox[i + 1..], a);
    FilterMember(About(a), outbox[i].lines, l);
    var j :| 0 <= j < |here| && here[j] == l;
    k := |before| + j;
  }

  lemma StreamGrows(outbox: seq<TxEvent>, i: nat, j: nat, a: Id)
    requires i <= j <= |outbox|
    ensures |Stream(outbox[..i], a)| <= |Stream(outbox[..j], a)|
  {
    assert outbox[..j] == outbox[..i] + outbox[i..j];
    StreamConcat(outbox[..i], outbox[i..j], a);
  }

  lemma VersionNamesReport(db: Db, d: TxEvent, l: BalanceLine, e: TxEvent, m: BalanceLine)
    requires StreamsExact(db)
    requires d in db.outbox && l in d.lines && e in db.outbox && m in e.lines
    requires l.account == m.account && l.version == m.version
    ensures d == e && l == m
  {
    var i :| 0 <= i < |db.outbox| && db.outbox[i] == d;
    var j :| 0 <= j < |db.outbox| && db.outbox[j] == e;
    var p := StreamPosition(db.outbox, i, l);
    var q := StreamPosition(db.outbox, j, m);
    assert l.account in db.balances;
    assert p == q;
    if i < j {
      StreamGrows(db.outbox, i + 1, j, l.account);
    } else if j < i {
      StreamGrows(db.outbox, j + 1, i, l.account);
    }
  }

  /** Two projections built from the same events are the same row for row, whatever was seen in between. */
  lemma NewestUnique(db: Db, rows: map<Id, Row>, ds: seq<TxEvent>, rows': map<Id, Row>, ds': seq<TxEvent>, a: Id)
    requires StreamsExact(db)
    requires forall e | e in ds :: e in db.outbox
    requires forall e :: e in ds <==> e in ds'
    requires Newest(rows, ds, a) && Newest(rows', ds', a)
    ensures a in rows <==> a in rows'
    ensures a in rows ==> rows[a] == rows'[a]
  {
    forall e, l ensures Reported(ds, e, l) <==> Reported(ds', e, l) {
    }
    if a in rows {
      var d, l :| Reported(ds, d, l) && l.account == a && rows[a] == Row(l.available, l.version, d.id);
      assert Reported(ds', d, l);
      var e, m :| Reported(ds', e, m) && m.account == a && rows'[a] == Row(m.available, m.version, e.id);
      assert Reported(ds, e, m);
      VersionNamesReport(db, d, l, e, m);
    } else if a in rows' {
      var e, m :| Reported(ds', e, m) && m.account == a && rows'[a] == Row(m.available, m.version, e.id);
      assert Reported(ds, e, m);
    }
  }

  // ----- main results -------------------------------------------------------------------------------

  /** Two projections that agree on an account. */
  predicate Agree(rows: map<Id, Row>, rows': map<Id, Row>, a: Id)
  {
    (a in rows <==> a in rows') && (a in rows ==> rows[a] == rows'[a])
  }

  lemma AgreeMeansEqual(rows: map<Id, Row>, rows': map<Id, Row>)
    requires forall a: Id :: Agree(rows, rows', a)
    ensures rows == rows'
  {
    forall a: Id ensures (a in rows <==> a in rows') && (a in rows ==> rows[a] == rows'[a]) {
      assert Agree(rows, rows', a);
    }
  }

  lemma ConvergesAt(db: Db, ds: seq<TxEvent>, ds': seq<TxEvent>, a: Id)
    requires StreamsExact(db) && OutboxDistinct(db.headers.Keys, db.outbox)
    requires (forall e | e in ds :: e in db.outbox) && (forall e :: e in ds <==> e in ds')
    ensures Agree(Deliver(ds).rows, Deliver(ds').rows, a) && Agree(Deliver(ds).rows, DeliverUnrecorded(ds), a)
  {
    DeliverNewest(db, ds, a);
    DeliverNewest(db, ds', a);
    UnrecordedNewest(ds, a);
    NewestUnique(db, Deliver(ds).rows, ds, Deliver(ds').rows, ds', a);
    NewestUnique(db, Deliver(ds).rows, ds, DeliverUnrecorded(ds), ds, a);
  }

  /** Order and duplication do not matter, and neither does the processed_events table. */
  lemma DeliveryConverges(ops: seq<Op>, ds: seq<TxEvent>, ds': seq<TxEvent>)
    requires forall e | e in ds :: e in Run(EMPTY, ops).outbox
    requires forall e :: e in ds <==> e in ds'
    ensures Deliver(ds).rows == Deliver(ds').rows
    ensures Deliver(ds).rows == DeliverUnrecorded(ds)
  {
    ReachableInv(ops);
    forall a: Id
      ensures Agree(Deliver(ds).rows, Deliver(ds').rows, a)
      ensures Agree(Deliver(ds).rows, DeliverUnrecorded(ds), a)
    {
      ConvergesAt(Run(EMPTY, ops), ds, ds', a);
    }
    AgreeMeansEqual(Deliver(ds).rows, Deliver(ds').rows);
    AgreeMeansEqual(Deliver(ds).rows, DeliverUnrecorded(ds));
  }

  lemma RowFromStream(db: Db, ds: seq<TxEvent>, a: Id)
    requires StreamsExact(db) && OutboxDistinct(db.headers.Keys, db.outbox)
    requires forall e | e in ds :: e in db.outbox
    requires a in Deliver(ds).rows
    ensures var row := Deliver(ds).rows[a];
            var s := Stream(db.outbox, a);
            && 1 <= row.version <= |s|
            && row.available == s[row.version - 1].available
            && (forall e, l | Reported(ds, e, l) && l.account == a :: l.version <= row.version)
  {
    DeliverNewest(db, ds, a);
    var rows := Deliver(ds).rows;
    var e, l :| Reported(ds, e, l) && l.account == a && rows[a] == Row(l.available, l.version, e.id);
    var i :| 0 <= i < |db.outbox| && db.outbox[i] == e;
    var k := StreamPosition(db.outbox, i, l);
    assert a in db.balances;
  }

  /** After any deliveries a row carries the balance the account had at the highest version delivered. */
  lemma RowIsHighestDelivered(ops: seq<Op>, ds: seq<TxEvent>, a: Id)
    requires forall e | e in ds :: e in Run(EMPTY, ops).outbox
    requires a in Deliver(ds).rows
    ensures var row := Deliver(ds).rows[a];
            var s := Stream(Run(EMPTY, ops).outbox, a);
            && 1 <= row.version <= |s|
            && row.available == s[row.version - 1].available
            && (forall e, l | Reported(ds, e, l) && l.account == a :: l.version <= row.version)
  {
    ReachableInv(ops);
    RowFromStream(Run(EMPTY, ops), ds, a);
  }

  // ----- rebuilding from the journal ------------------------------------------------------------------

  datatype Mismatch = Mismatch(account: Id, rebuilt: int, live: int)

  function LiveAvailable(rows: map<Id, Row>, a: Id): int
  {
    if a in rows then rows[a].available else 0
  }

  /** The projection shows what the journal says, for every account in scope. */
  predicate Agrees(db: Db, rows: map<Id, Row>, scope: set<Id>)
  {
    forall a | a in db.accounts && (scope == {} || a in scope) :: JournalBalance(db, a) == LiveAvailable(rows, a)
  }

  /** Compares the journal with the projection, account by account; an empty scope means every account. */
  method Rebuild(db: Db, rows: map<Id, Row>, scope: set<Id>) returns (compared: set<Id>, mismatches: seq<Mismatch>)
    ensures compared == set a | a in db.accounts && (scope == {} || a in scope)
    ensures forall m | m in mismatches ::
              && m.account in compared
              && m.rebuilt == JournalBalance(db, m.account) && m.live == LiveAvailable(rows, m.account)
              && m.rebuilt != m.live
    ensures forall a | a in compared && JournalBalance(db, a) != LiveAvailable(rows, a) ::
              exists m :: m in mismatches && m.account == a
    ensures mismatches == [] <==> Agrees(db, rows, scope)
  {
    compared := set a | a in db.accounts && (scope == {} || a in scope);
    mismatches := [];
    var todo := compared;
    while todo != {}
      invariant todo <= compared
      invariant forall m | m in mismatches ::
          && m.account in compared
          && m.rebuilt == JournalBalance(db, m.account) && m.live == LiveAvailable(rows, m.account)
          && m.rebuilt != m.live
      invariant forall a | a in compared - todo && JournalBalance(db, a) != LiveAvailable(rows, a) ::
          exists m :: m in mismatches && m.account == a
    {
      var a :| a in todo;
      var rebuilt, live := JournalBalance(db, a), LiveAvailable(rows, a);
      if rebuilt != live {
        var m := Mismatch(a, rebuilt, live);
        assert m in mismatches + [m];
        ghost var before := mismatches;
        mismatches := mismatches + [m];
        assert forall x | x in before :: x in mismatches;
      }
      todo := todo - {a};
    }
    assert mismatches != [] ==> mismatches[0] in mismatches;
  }

  lemma LastReportDelivered(db: Db, a: Id) returns (e: TxEvent, l: BalanceLine)
    requires StreamsExact(db) && a in db.balances && db.balances[a].version > 0
    ensures e in db.outbox && l in e.lines && l.account == a
    ensures l.version == db.balances[a].version && l.available == db.balances[a].available
  {
    var s := Stream(db.outbox, a);
    l := s[|s| - 1];
    e := StreamSource(db.outbox, a, |s| - 1);
  }

  lemma {:induction false} StreamSource(outbox: seq<TxEvent>, a: Id, k: nat) returns (e: TxEvent)
    requires k < |Stream(outbox, a)|
    ensures e in outbox && Stream(outbox, a)[k] in e.lines
  {
    var here := Filter(About(a), outbox[0].lines);
    if k < |here| {
      FilterMember(About(a), outbox[0].lines, here[k]);
      e := outbox[0];
    } else {
      e := StreamSource(outbox[1..], a, k - |here|);
    }
  }

  lemma FullDeliveryMatchesBalance(db: Db, ds: seq<TxEvent>, a: Id)
    requires StreamsExact(db) && OutboxDistinct(db.headers.Keys, db.outbox)
    requires forall e :: e in ds <==> e in db.outbox
    requires a in db.balances
    ensures LiveAvailable(Deliver(ds).rows, a) == db.balances[a].available
  {
    DeliverNewest(db, ds, a);
    if a in Deliver(ds).rows {
      RowFromStream(db, ds, a);
    }
    if db.balances[a].version > 0 {
      var e, l := LastReportDelivered(db, a);
      assert Reported(ds, e, l);
    }
  }

  /** Once every event has arrived at least once, an account's row shows the journal's balance. */
  lemma FullDeliveryMatchesJournal(ops: seq<Op>, ds: seq<TxEvent>, a: Id)
    requires forall e :: e in ds <==> e in Run(EMPTY, ops).outbox
    requires a in Run(EMPTY, ops).accounts
    ensures LiveAvailable(Deliver(ds).rows, a) == JournalBalance(Run(EMPTY, ops), a)
  {
    ReachableInv(ops);
    FullDeliveryMatchesBalance(Run(EMPTY, ops), ds, a);
  }

  /** So a rebuild of any scope, after every event has arrived at least once, reports no mismatch. */
  lemma FullDeliveryRebuildsClean(ops: seq<Op>, ds: seq<TxEvent>, scope: set<Id>)
    requires forall e :: e in ds <==> e in Run(EMPTY, ops).outbox
    ensures Agrees(Run(EMPTY, ops), Deliver(ds).rows, scope)
  {
    forall a | a in Run(EMPTY, ops).accounts
      ensures JournalBalance(Run(EMPTY, ops), a) == LiveAvailable(Deliver(ds).rows, a)
    {
      FullDeliveryMatchesJournal(ops, ds, a);
    }
  }
}
