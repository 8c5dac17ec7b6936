/** Account statements: keyset pages over a growing journal that add up to one sum over it. */
module Statement {
  import opened Collections
  import opened LedgerTypes
  import opened Ledger
  import opened LedgerInvariants
  import opened Sharding

  // ----- positions in an account's history ---------------------------------------------------------------

  /** A place in (created_at, id) order. */
  datatype Cursor = Cursor(at: int, id: Id)

  function KeyOf(e: Entry): Cursor
  {
    Cursor(e.createdAt, e.id)
  }

  predicate Before(c: Cursor, d: Cursor)
  {
    c.at < d.at || (c.at == d.at && c.id < d.id)
  }

  /** An upper end of a period: a time, or the key of a line. */
  datatype End = Until(time: int) | Through(key: Cursor)

  predicate Within(e: Entry, hi: End)
  {
    match hi
    case Until(t) => e.createdAt <= t
    case Through(k) => !Before(k, KeyOf(e))
  }

  /** Entries of the account itself or of one of its shards. */
  predicate Mine(accounts: map<Id, Account>, a: Id, e: Entry)
    requires a in accounts
  {
    e.leg.account in Physical(accounts, a)
  }

  function SignedOf(accounts: map<Id, Account>, a: Id, e: Entry): int
    requires a in accounts
  {
    var minor: int := e.leg.amount.amountMinor;
    if e.leg.direction == NormalOf(accounts[a]) then minor else -minor
  }

  function Signed(accounts: map<Id, Account>, a: Id): Entry -> int
    requires a in accounts
  {
    (e: Entry) => SignedOf(accounts, a, e)
  }

  /** The account's entries after lo and up to hi. */
  predicate Selected(accounts: map<Id, Account>, a: Id, lo: Option<Cursor>, hi: End, e: Entry)
    requires a in accounts
  {
    Mine(accounts, a, e) && (lo.Some? ==> Before(lo.value, KeyOf(e))) && Within(e, hi)
  }

  function Selects(accounts: map<Id, Account>, a: Id, lo: Option<Cursor>, hi: End): Entry -> bool
    requires a in accounts
  {
    (e: Entry) => Selected(accounts, a, lo, hi, e)
  }

  /** What an entry adds to a sum over the same period. */
  function Counts(accounts: map<Id, Account>, a: Id, lo: Option<Cursor>, hi: End): Entry -> int
    requires a in accounts
  {
    (e: Entry) => if Selected(accounts, a, lo, hi, e) then SignedOf(accounts, a, e) else 0
  }

  /** The balance as it stood at an instant: one sum over the journal. */
  function BalanceAsOf(db: Db, a: Id, at: int): int
    requires a in db.accounts
  {
    Sum(Counts(db.accounts, a, None, Until(at)), db.journal)
  }

  // ----- sorting by key -------------------------------------------------------------------------------------

  predicate InOrder(es: seq<Entry>)
  {
    forall i, j | 0 <= i < j < |es| :: Before(KeyOf(es[i]), KeyOf(es[j]))
  }

  function Insert(e: Entry, es: seq<Entry>): seq<Entry>
  {
    if es == [] then [e]
    else if Before(KeyOf(e), KeyOf(es[0])) then [e] + es
    else [es[0]] + Insert(e, es[1..])
  }

  function Sort(es: seq<Entry>): seq<Entry>
  {
    if es == [] then [] else Insert(es[0], Sort(es[1..]))
  }

  lemma {:induction false} InsertMember(e: Entry, es: seq<Entry>, x: Entry)
    ensures x in Insert(e, es) <==> x == e || x in es
  {
    if es != [] {
      assert es == [es[0]] + es[1..];
      InsertMember(e, es[1..], x);
    }
  }

  lemma {:induction false} SortMember(es: seq<Entry>, x: Entry)
    ensures x in Sort(es) <==> x in es
  {
    if es != [] {
      assert es == [es[0]] + es[1..];
      SortMember(es[1..], x);
      InsertMember(es[0], Sort(es[1..]), x);
    }
  }

  lemma {:induction false} InsertSum(f: Entry -> int, e: Entry, es: seq<Entry>)
    ensures Sum(f, Insert(e, es)) == f(e) + Sum(f, es)
  {
    if es != [] && !Before(KeyOf(e), KeyOf(es[0])) {
      InsertSum(f, e, es[1..]);
      assert ([es[0]] + Insert(e, es[1..]))[1..] == Insert(e, es[1..]);
    } else {
      assert ([e] + es)[1..] == es;
    }
  }

  lemma {:induction false} SortSum(f: Entry -> int, es: seq<Entry>)
    ensures Sum(f, Sort(es)) == Sum(f, es)
  {
    if es != [] {
      SortSum(f, es[1..]);
      InsertSum(f, es[0], Sort(es[1..]));
    }
  }

  lemma OrderedCons(e: Entry, es: seq<Entry>)
    requires InOrder(es) && forall x | x in es :: Before(KeyOf(e), KeyOf(x))
    ensures InOrder([e] + es)
  {
    var r := [e] + es;
    forall i, j | 0 <= i < j < |r| ensures Before(KeyOf(r[i]), KeyOf(r[j])) {
      assert r[j] == es[j - 1] && es[j - 1] in es;
      assert i > 0 ==> r[i] == es[i - 1];
    }
  }

  lemma OrderedHead(es: seq<Entry>, x: Entry)
    requires InOrder(es) && es != [] && x in es[1..]
    ensures InOrder(es[1..]) && Before(KeyOf(es[0]), KeyOf(x))
  {
    var i :| 0 <= i < |es[1..]| && es[1..][i] == x;
    assert es[i + 1] == x;
  }

  lemma {:induction false} InsertOrdered(e: Entry, es: seq<Entry>)
    requires InOrder(es) && forall x | x in es :: x.id != e.id
    ensures InOrder(Insert(e, es))
  {
    if es == [] {
    } else if Before(KeyOf(e), KeyOf(es[0])) {
      forall x | x in es ensures Before(KeyOf(e), KeyOf(x)) {
        if x != es[0] {
          assert es == [es[0]] + es[1..];
          OrderedHead(es, x);
        }
      }
      OrderedCons(e, es);
    } else {
      assert es[0] in es;
      assert forall x | x in es[1..] :: x in es;
      InsertOrdered(e, es[1..]);
      forall x | x in Insert(e, es[1..]) ensures Before(KeyOf(es[0]), KeyOf(x)) {
        InsertMember(e, es[1..], x);
        if x != e {
          OrderedHead(es, x);
        }
      }
      OrderedCons(es[0], Insert(e, es[1..]));
    }
  }

  lemma {:induction false} SortOrders(es: seq<Entry>)
    requires DistinctIds(es)
    ensures InOrder(Sort(es))
  {
    if es != [] {
      assert forall i | 0 <= i < |es[1..]| :: es[1..][i] == es[i + 1];
      SortOrders(es[1..]);
      forall x | x in Sort(es[1..]) ensures x.id != es[0].id {
        SortMember(es[1..], x);
      }
      InsertOrdered(es[0], Sort(es[1..]));
    }
  }

  /** An ordered list is determined by its entries. */
  lemma {:induction false} OrderedUnique(s: seq<Entry>, t: seq<Entry>)
    requires InOrder(s) && InOrder(t) && forall x :: x in s <==> x in t
    ensures s == t
  {
    assert |s| > 0 ==> s[0] in t;
    assert |t| > 0 ==> t[0] in s;
    if s != [] && t != [] {
      OrderedFirst(s, t);
      forall x ensures x in s[1..] <==> x in t[1..] {
        OrderedTail(s, x);
        OrderedTail(t, x);
      }
      OrderedUnique(s[1..], t[1..]);
      assert s == [s[0]] + s[1..] && t == [t[0]] + t[1..];
    }
  }

  lemma OrderedTail(s: seq<Entry>, x: Entry)
    requires InOrder(s) && s != []
    ensures InOrder(s[1..]) && (x in s[1..] <==> x in s && x != s[0])
  {
    assert s == [s[0]] + s[1..];
    if x in s[1..] {
      OrderedHead(s, x);
    }
  }

  lemma OrderedFirst(s: seq<Entry>, t: seq<Entry>)
    requires InOrder(s) && InOrder(t) && s != [] && t != [] && forall x :: x in s <==> x in t
    ensures s[0] == t[0]
  {
    assert s[0] in t && t[0] in s;
    OrderedTail(s, t[0]);
    OrderedTail(t, s[0]);
    if s[0] != t[0] {
      OrderedHead(s, t[0]);
      OrderedHead(t, s[0]);
    }
  }

  // ----- windows ------------------------------------------------------------------------------------------------

  /** The account's entries after lo and up to hi, in order: what the period's lines should be. */
  function Window(db: Db, a: Id, lo: Cursor, hi: End): seq<Entry>
    requires a in db.accounts
  {
    Sort(Filter(Selects(db.accounts, a, Some(lo), hi), db.journal))
  }

  lemma {:induction false} FilterDistinct(p: Entry -> bool, es: seq<Entry>)
    requires DistinctIds(es)
    ensures DistinctIds(Filter(p, es))
  {
    if es != [] {
      var rest := Filter(p, es[1..]);
      assert forall i | 0 <= i < |es[1..]| :: es[1..][i] == es[i + 1];
      FilterDistinct(p, es[1..]);
      forall i | 0 <= i < |rest| ensures rest[i].id != es[0].id {
        assert rest[i] in rest;
        FilterMember(p, es[1..], rest[i]);
      }
    }
  }

  lemma WindowExact(db: Db, a: Id, lo: Cursor, hi: End, x: Entry)
    requires a in db.accounts && DistinctIds(db.journal)
    ensures InOrder(Window(db, a, lo, hi))
    ensures x in Window(db, a, lo, hi) <==> x in db.journal && Selected(db.accounts, a, Some(lo), hi, x)
  {
    var p := Selects(db.accounts, a, Some(lo), hi);
    FilterDistinct(p, db.journal);
    SortOrders(Filter(p, db.journal));
    SortMember(Filter(p, db.journal), x);
    FilterMember(p, db.journal, x);
  }

  /** Started just below its first instant, a period holds every entry stamped from start to stop and no other. */
  lemma PeriodExact(db: Db, a: Id, start: int, stop: int, x: Entry)
    requires Schema(db) && a in db.accounts
    ensures x in Window(db, a, Cursor(start, NIL), Until(stop))
       <==> x in db.journal && Mine(db.accounts, a, x) && start <= x.createdAt <= stop
  {
    WindowExact(db, a, Cursor(start, NIL), Until(stop), x);
    if x in db.journal {
      var k :| 0 <= k < |db.journal| && db.journal[k] == x;
      assert EntryOk(db.headers.Keys, db.accounts, db.journal[k]);
    }
  }

  lemma {:induction false} FilterSum(p: Entry -> bool, f: Entry -> int, g: Entry -> int, es: seq<Entry>)
    requires forall x: Entry :: g(x) == if p(x) then f(x) else 0
    ensures Sum(f, Filter(p, es)) == Sum(g, es)
  {
    if es != [] {
      FilterSum(p, f, g, es[1..]);
      SumConcat(f, if p(es[0]) then [es[0]] else [], Filter(p, es[1..]));
    }
  }

  lemma WindowSum(db: Db, a: Id, lo: Cursor, hi: End)
    requires a in db.accounts
    ensures Sum(Signed(db.accounts, a), Window(db, a, lo, hi)) == Sum(Counts(db.accounts, a, Some(lo), hi), db.journal)
  {
    var p, f := Selects(db.accounts, a, Some(lo), hi), Signed(db.accounts, a);
    SortSum(f, Filter(p, db.journal));
    FilterSum(p, f, Counts(db.accounts, a, Some(lo), hi), db.journal);
  }

  lemma {:induction false} SumAdds(f: Entry -> int, g: Entry -> int, h: Entry -> int, es: seq<Entry>)
    requires forall i | 0 <= i < |es| :: h(es[i]) == f(es[i]) + g(es[i])
    ensures Sum(h, es) == Sum(f, es) + Sum(g, es)
  {
    if es != [] {
      assert forall i | 0 <= i < |es[1..]| :: es[1..][i] == es[i + 1];
      SumAdds(f, g, h, es[1..]);
    }
  }

  /** Everything through lo, plus everything after lo and up to hi, is everything up to hi. */
  lemma PeriodsAdd(db: Db, a: Id, lo: Cursor, hi: End)
    requires a in db.accounts
    requires forall i | 0 <= i < |db.journal| && Within(db.journal[i], Through(lo)) :: Within(db.journal[i], hi)
    ensures Sum(Counts(db.accounts, a, None, hi), db.journal)
         == Sum(Counts(db.accounts, a, None, Through(lo)), db.journal) + Sum(Counts(db.accounts, a, Some(lo), hi), db.journal)
  {
    var f, g, h := Counts(db.accounts, a, None, Through(lo)), Counts(db.accounts, a, Some(lo), hi), Counts(db.accounts, a, None, hi);
    forall i | 0 <= i < |db.journal| ensures h(db.journal[i]) == f(db.journal[i]) + g(db.journal[i]) {
      assert Within(db.journal[i], Through(lo)) <==> !Before(lo, KeyOf(db.journal[i]));
    }
    SumAdds(f, g, h, db.journal);
  }

  // ----- one page -----------------------------------------------------------------------------------------------------

  datatype Line = Line(entry: Entry, signed: int, running: int)

  datatype Page = Page(opening: int, lines: seq<Line>, closing: int, next: Option<Cursor>)

  datatype Query = Query(account: Id, start: int, stop: int, after: Option<Cursor>, limit: int)

  const DEFAULT_LIMIT := 100
  const MAX_LIMIT := 1000

  function LimitOf(limit: int): (r: nat)
    ensures 1 <= r <= 1000
    ensures 1 <= limit <= 1000 ==> r == limit
    ensures limit > 1000 ==> r == 1000
    ensures limit <= 0 ==> r == 100
  {
    if limit <= 0 then DEFAULT_LIMIT else if limit > MAX_LIMIT then MAX_LIMIT else limit
  }

  /** Before the first page the cursor stands just below every entry stamped at the start. */
  function CursorOf(q: Query): Cursor
  {
    if q.after.Some? then q.after.value else Cursor(q.start, NIL)
  }

  function Opening(db: Db, a: Id, lo: Cursor): int
    requires a in db.accounts
  {
    Sum(Counts(db.accounts, a, None, Through(lo)), db.journal)
  }

  function LinesOf(opening: int, f: Entry -> int, rows: seq<Entry>): (r: seq<Line>)
    ensures |r| == |rows|
  {
    seq(|rows|, i requires 0 <= i < |rows| => Line(rows[i], f(rows[i]), opening + Sum(f, rows[..i + 1])))
  }

  function ClosingOf(opening: int, lines: seq<Line>): int
  {
    if lines == [] then opening else lines[|lines| - 1].running
  }

  /** A page over the rows of its period: at most limit of them, and a cursor if there are more. */
  function PageOf(opening: int, f: Entry -> int, rows: seq<Entry>, limit: nat): Page
    requires limit >= 1
  {
    var shown := if |rows| > limit then rows[..limit] else rows;
    var lines := LinesOf(opening, f, shown);
    Page(opening, lines, ClosingOf(opening, lines), if |rows| > limit then Some(KeyOf(rows[limit - 1])) else None)
  }

  function PageFrom(db: Db, a: Id, lo: Cursor, stop: int, limit: nat): Page
    requires a in db.accounts && limit >= 1
  {
    PageOf(Opening(db, a, lo), Signed(db.accounts, a), Window(db, a, lo, Until(stop)), limit)
  }

  /** Builds the lines with their running balance, then drops the extra row if it came. */
  method BuildPage(opening: int, f: Entry -> int, rows: seq<Entry>, limit: nat) returns (page: Page)
    requires limit >= 1
    ensures page == PageOf(opening, f, rows, limit)
  {
    var running := opening;
    var lines: seq<Line> := [];
    for i := 0 to |rows|
      invariant running == opening + Sum(f, rows[..i])
      invariant lines == LinesOf(opening, f, rows[..i])
    {
      assert rows[..i + 1] == rows[..i] + [rows[i]];
      SumSnoc(f, rows[..i], rows[i]);
      running := running + f(rows[i]);
      PrefixLines(opening, f, rows, i);
      lines := lines + [Line(rows[i], f(rows[i]), running)];
    }
    assert rows[..|rows|] == rows;
    var next := None;
    if |lines| > limit {
      CutLines(opening, f, rows, limit);
      next := Some(KeyOf(lines[limit - 1].entry));
      lines := lines[..limit];
    }
    return Page(opening, lines, ClosingOf(opening, lines), next);
  }

  /** One extra row is enough to know whether there is another page. */
  lemma OneExtraRow(opening: int, f: Entry -> int, window: seq<Entry>, limit: nat)
    requires limit >= 1 && |window| > limit + 1
    ensures PageOf(opening, f, window[..limit + 1], limit) == PageOf(opening, f, window, limit)
  {
    assert window[..limit + 1][..limit] == window[..limit];
  }

  method GetStatement(db: Db, q: Query) returns (r: Result<Page, LedgerError>)
    ensures q.account == NIL || (q.stop >= q.start && q.account !in db.accounts) ==> r == Err(AccountNotFound)
    ensures q.account != NIL && q.stop < q.start ==> r == Err(InvalidEntry)
    ensures q.account != NIL && q.start <= q.stop && q.account in db.accounts ==>
              r == Ok(PageFrom(db, q.account, CursorOf(q), q.stop, LimitOf(q.limit)))
  {
    if q.account == NIL {
      return Err(AccountNotFound);
    }
    if q.stop < q.start {
      return Err(InvalidEntry);
    }
    if q.account !in db.accounts {
      return Err(AccountNotFound);
    }
    var limit, lo, f := LimitOf(q.limit), CursorOf(q), Signed(db.accounts, q.account);
    var rows := Window(db, q.account, lo, Until(q.stop));
    if |rows| > limit + 1 {
      OneExtraRow(Opening(db, q.account, lo), f, rows, limit);
      rows := rows[..limit + 1];
    }
    var page := BuildPage(Opening(db, q.account, lo), f, rows, limit);
    return Ok(page);
  }

  lemma PrefixLines(opening: int, f: Entry -> int, rows: seq<Entry>, i: nat)
    requires i < |rows|
    ensures LinesOf(opening, f, rows[..i + 1])
         == LinesOf(opening, f, rows[..i]) + [Line(rows[i], f(rows[i]), opening + Sum(f, rows[..i + 1]))]
  {
    var s := rows[..i + 1];
    assert s[..i + 1] == s;
    forall j | 0 <= j < i ensures LinesOf(opening, f, s)[j] == LinesOf(opening, f, rows[..i])[j] {
      assert s[..j + 1] == rows[..i][..j + 1];
    }
  }

  lemma CutLines(opening: int, f: Entry -> int, rows: seq<Entry>, limit: nat)
    requires limit <= |rows|
    ensures LinesOf(opening, f, rows)[..limit] == LinesOf(opening, f, rows[..limit])
  {
    forall j | 0 <= j < limit ensures LinesOf(opening, f, rows)[j] == LinesOf(opening, f, rows[..limit])[j] {
      assert rows[..limit][..j + 1] == rows[..j + 1];
    }
  }

  // ----- what a page's balances mean --------------------------------------------------------------------------------------

  function EntriesOf(lines: seq<Line>): (r: seq<Entry>)
    ensures |r| == |lines|
  {
    seq(|lines|, i requires 0 <= i < |lines| => lines[i].entry)
  }

  lemma LinesAddUp(opening: int, f: Entry -> int, rows: seq<Entry>)
    ensures EntriesOf(LinesOf(opening, f, rows)) == rows
    ensures ClosingOf(opening, LinesOf(opening, f, rows)) == opening + Sum(f, rows)
  {
    assert rows[..|rows|] == rows;
  }

  /** The first lines of a window are the window up to the last of them. */
  lemma WindowPrefix(db: Db, a: Id, lo: Cursor, stop: int, m: nat)
    requires a in db.accounts && DistinctIds(db.journal) && 1 <= m <= |Window(db, a, lo, Until(stop))|
    ensures var rows := Window(db, a, lo, Until(stop)); rows[..m] == Window(db, a, lo, Through(KeyOf(rows[m - 1])))
  {
    var rows := Window(db, a, lo, Until(stop));
    var hi := Through(KeyOf(rows[m - 1]));
    var short := Window(db, a, lo, hi);
    WindowExact(db, a, lo, Until(stop), rows[m - 1]);
    forall x ensures x in rows[..m] <==> x in short {
      WindowExact(db, a, lo, Until(stop), x);
      WindowExact(db, a, lo, hi, x);
      PrefixMember(rows, m, x);
    }
    WindowExact(db, a, lo, hi, rows[m - 1]);
    OrderedUnique(rows[..m], short);
  }

  lemma PrefixMember(rows: seq<Entry>, m: nat, x: Entry)
    requires InOrder(rows) && 1 <= m <= |rows|
    ensures x in rows[..m] <==> x in rows && !Before(KeyOf(rows[m - 1]), KeyOf(x))
  {
    if x in rows {
      var i :| 0 <= i < |rows| && rows[i] == x;
      assert i < m ==> rows[..m][i] == x;
    }
  }

  /** A page's next cursor lies inside the period, and its closing balance is everything through it. */
  lemma PageCloses(db: Db, a: Id, lo: Cursor, stop: int, limit: nat)
    requires a in db.accounts && DistinctIds(db.journal) && limit >= 1 && lo.at <= stop
    ensures var page := PageFrom(db, a, lo, stop, limit);
            if page.next.Some? then
              && page.next.value.at <= stop && Before(lo, page.next.value) && |page.lines| == limit
              && page.closing == Opening(db, a, page.next.value)
              && EntriesOf(page.lines) == Window(db, a, lo, Through(page.next.value))
            else
              page.closing == BalanceAsOf(db, a, stop) && EntriesOf(page.lines) == Window(db, a, lo, Until(stop))
  {
    var rows := Window(db, a, lo, Until(stop));
    var f := Signed(db.accounts, a);
    var opening := Opening(db, a, lo);
    if |rows| > limit {
      var k := KeyOf(rows[limit - 1]);
      assert rows[limit - 1] in rows;
      WindowExact(db, a, lo, Until(stop), rows[limit - 1]);
      WindowPrefix(db, a, lo, stop, limit);
      LinesAddUp(opening, f, rows[..limit]);
      WindowSum(db, a, lo, Through(k));
      PeriodsAdd(db, a, lo, Through(k));
    } else {
      LinesAddUp(opening, f, rows);
      WindowSum(db, a, lo, Until(stop));
      PeriodsAdd(db, a, lo, Until(stop));
    }
  }

  /** Without a cursor, a page opens at the balance as it stood before the period's first instant. */
  lemma FirstPageOpens(db: Db, q: Query)
    requires Schema(db) && q.account in db.accounts && q.after.None?
    ensures PageFrom(db, q.account, CursorOf(q), q.stop, LimitOf(q.limit)).opening == BalanceAsOf(db, q.account, q.start - 1)
  {
    var f := Counts(db.accounts, q.account, None, Through(CursorOf(q)));
    var g := Counts(db.accounts, q.account, None, Until(q.start - 1));
    forall i | 0 <= i < |db.journal| ensures f(db.journal[i]) == g(db.journal[i]) {
      assert EntryOk(db.headers.Keys, db.accounts, db.journal[i]);
    }
    SumEqual(f, db.journal, g, db.journal);
  }

  lemma PageShows(opening: int, f: Entry -> int, rows: seq<Entry>, limit: nat)
    requires limit >= 1
    ensures var shown := EntriesOf(PageOf(opening, f, rows, limit).lines);
            shown <= rows && |shown| == if |rows| > limit then limit else |rows|
  {
    LinesAddUp(opening, f, if |rows| > limit then rows[..limit] else rows);
  }

  /** Asked for with the cursor a page returned, the next page opens where that one closed and shows the lines that follow. */
  lemma NextPageContinues(db: Db, q: Query, page: Page, page': Page)
    requires q.account in db.accounts && DistinctIds(db.journal) && CursorOf(q).at <= q.stop
    requires page == PageFrom(db, q.account, CursorOf(q), q.stop, LimitOf(q.limit)) && page.next.Some?
    requires page' == PageFrom(db, q.account, CursorOf(q.(after := page.next)), q.stop, LimitOf(q.limit))
    ensures page'.opening == page.closing && page'.lines != []
    ensures EntriesOf(page.lines) + EntriesOf(page'.lines) <= Window(db, q.account, CursorOf(q), Until(q.stop))
  {
    var a, lo, limit, k := q.account, CursorOf(q), LimitOf(q.limit), page.next.value;
    var f, rows, rest := Signed(db.accounts, a), Window(db, a, lo, Until(q.stop)), Window(db, a, k, Until(q.stop));
    PageCloses(db, a, lo, q.stop, limit);
    WindowSplits(db, a, lo, k, q.stop);
    PageShows(Opening(db, a, lo), f, rows, limit);
    PageShows(Opening(db, a, k), f, rest, limit);
    assert rows == EntriesOf(page.lines) + rest;
  }

  lemma PrefixBalance(db: Db, a: Id, lo: Cursor, stop: int, m: nat)
    requires a in db.accounts && DistinctIds(db.journal) && 1 <= m <= |Window(db, a, lo, Until(stop))|
    ensures var rows := Window(db, a, lo, Until(stop));
            Opening(db, a, lo) + Sum(Signed(db.accounts, a), rows[..m]) == Opening(db, a, KeyOf(rows[m - 1]))
  {
    var rows := Window(db, a, lo, Until(stop));
    assert rows[m - 1] in rows;
    WindowExact(db, a, lo, Until(stop), rows[m - 1]);
    WindowPrefix(db, a, lo, stop, m);
    WindowSum(db, a, lo, Through(KeyOf(rows[m - 1])));
    PeriodsAdd(db, a, lo, Through(KeyOf(rows[m - 1])));
  }

  lemma LineAt(opening: int, f: Entry -> int, rows: seq<Entry>, limit: nat, i: nat)
    requires limit >= 1 && i < |PageOf(opening, f, rows, limit).lines|
    ensures i < |rows| && PageOf(opening, f, rows, limit).lines[i] == Line(rows[i], f(rows[i]), opening + Sum(f, rows[..i + 1]))
  {
    if |rows| > limit {
      assert rows[..limit][..i + 1] == rows[..i + 1];
    }
  }

  /** The running balance beside a line is the journal's sum through that line. */
  lemma RunningIsJournalSum(db: Db, a: Id, lo: Cursor, stop: int, limit: nat, i: nat)
    requires a in db.accounts && DistinctIds(db.journal) && limit >= 1 && i < |PageFrom(db, a, lo, stop, limit).lines|
    ensures var line := PageFrom(db, a, lo, stop, limit).lines[i];
            && line.signed == SignedOf(db.accounts, a, line.entry)
            && line.running == Opening(db, a, KeyOf(line.entry))
  {
    LineAt(Opening(db, a, lo), Signed(db.accounts, a), Window(db, a, lo, Until(stop)), limit, i);
    PrefixBalance(db, a, lo, stop, i + 1);
  }

  // ----- walking the pages while the journal grows -----------------------------------------------------------------------------

  /** Only entries beyond the cursor were added to the account's history. */
  predicate GrowsBeyond(db: Db, db': Db, a: Id, k: Cursor)
    requires a in db.accounts
  {
    && a in db'.accounts && NormalOf(db'.accounts[a]) == NormalOf(db.accounts[a])
    && |db.journal| <= |db'.journal| && db'.journal[..|db.journal|] == db.journal
    && (forall e | e in db.journal :: Mine(db'.accounts, a, e) == Mine(db.accounts, a, e))
    && (forall i | |db.journal| <= i < |db'.journal| && Mine(db'.accounts, a, db'.journal[i]) :: Before(k, KeyOf(db'.journal[i])))
  }

  /** The ledgers a client's successive page requests read. */
  predicate Readable(dbs: seq<Db>, a: Id)
  {
    forall i | 0 <= i < |dbs| :: a in dbs[i].accounts && DistinctIds(dbs[i].journal)
  }

  function Walk(dbs: seq<Db>, a: Id, lo: Cursor, stop: int, limit: nat): seq<Page>
    requires Readable(dbs, a) && limit >= 1
    decreases |dbs|
  {
    if dbs == [] then []
    else
      var page := PageFrom(dbs[0], a, lo, stop, limit);
      if page.next.None? then [page] else [page] + Walk(dbs[1..], a, page.next.value, stop, limit)
  }

  /** Each request reads a journal that has not changed at or below the cursor it continues from. */
  predicate Undisturbed(dbs: seq<Db>, a: Id, lo: Cursor, stop: int, limit: nat)
    requires Readable(dbs, a) && limit >= 1
    decreases |dbs|
  {
    |dbs| >= 2 && PageFrom(dbs[0], a, lo, stop, limit).next.Some? ==>
      var k := PageFrom(dbs[0], a, lo, stop, limit).next.value;
      GrowsBeyond(dbs[0], dbs[1], a, k) && Undisturbed(dbs[1..], a, k, stop, limit)
  }

  predicate Finished(pages: seq<Page>)
  {
    pages != [] && pages[|pages| - 1].next.None?
  }

  function AllEntries(pages: seq<Page>): seq<Entry>
  {
    if pages == [] then [] else EntriesOf(pages[0].lines) + AllEntries(pages[1..])
  }

  lemma SameBelow(db: Db, db': Db, a: Id, lo: Cursor, k: Cursor)
    requires a in db.accounts && GrowsBeyond(db, db', a, k) && DistinctIds(db.journal) && DistinctIds(db'.journal)
    ensures Window(db', a, lo, Through(k)) == Window(db, a, lo, Through(k))
    ensures Opening(db', a, k) == Opening(db, a, k)
  {
    var n := |db.journal|;
    forall x ensures x in Window(db', a, lo, Through(k)) <==> x in Window(db, a, lo, Through(k)) {
      WindowExact(db, a, lo, Through(k), x);
      WindowExact(db', a, lo, Through(k), x);
      GrownMember(db, db', a, k, x);
    }
    var any := Entry(0, 0, Leg(0, Debit, Money(0, "")), 0, 0);
    WindowExact(db, a, lo, Through(k), any);
    WindowExact(db', a, lo, Through(k), any);
    OrderedUnique(Window(db', a, lo, Through(k)), Window(db, a, lo, Through(k)));
    GrownSum(db, db', a, k);
  }

  lemma GrownMember(db: Db, db': Db, a: Id, k: Cursor, x: Entry)
    requires a in db.accounts && GrowsBeyond(db, db', a, k)
    ensures x in db'.journal && Mine(db'.accounts, a, x) && !Before(k, KeyOf(x))
       <==> x in db.journal && Mine(db.accounts, a, x) && !Before(k, KeyOf(x))
  {
    var n := |db.journal|;
    if x in db'.journal {
      var i :| 0 <= i < |db'.journal| && db'.journal[i] == x;
      assert i < n ==> db'.journal[..n][i] == x;
    }
    if x in db.journal {
      var i :| 0 <= i < n && db.journal[i] == x;
      assert db'.journal[..n][i] == x;
    }
  }

  lemma GrownSum(db: Db, db': Db, a: Id, k: Cursor)
    requires a in db.accounts && GrowsBeyond(db, db', a, k)
    ensures Opening(db', a, k) == Opening(db, a, k)
  {
    var n := |db.journal|;
    var f, f' := Counts(db.accounts, a, None, Through(k)), Counts(db'.accounts, a, None, Through(k));
    var added := db'.journal[n..];
    assert db'.journal == db.journal + added;
    SumConcat(f', db.journal, added);
    forall i | 0 <= i < |added| ensures f'(added[i]) == 0 {
      assert added[i] == db'.journal[n + i];
    }
    SumZero(f', added);
    forall i | 0 <= i < n ensures f'(db.journal[i]) == f(db.journal[i]) {
      assert db.journal[i] in db.journal;
    }
    SumEqual(f', db.journal, f, db.journal);
  }

  /** A period splits at any key inside it. */
  lemma WindowSplits(db: Db, a: Id, lo: Cursor, k: Cursor, stop: int)
    requires a in db.accounts && DistinctIds(db.journal) && Before(lo, k) && k.at <= stop
    ensures Window(db, a, lo, Until(stop)) == Window(db, a, lo, Through(k)) + Window(db, a, k, Until(stop))
  {
    var s, t := Window(db, a, lo, Through(k)), Window(db, a, k, Until(stop));
    var any := Entry(0, 0, Leg(0, Debit, Money(0, "")), 0, 0);
    WindowExact(db, a, lo, Through(k), any);
    WindowExact(db, a, k, Until(stop), any);
    WindowExact(db, a, lo, Until(stop), any);
    forall x ensures x in s + t <==> x in Window(db, a, lo, Until(stop)) {
      WindowExact(db, a, lo, Through(k), x);
      WindowExact(db, a, k, Until(stop), x);
      WindowExact(db, a, lo, Until(stop), x);
    }
    forall x, y | x in s && y in t ensures Before(KeyOf(x), KeyOf(y)) {
      WindowExact(db, a, lo, Through(k), x);
      WindowExact(db, a, k, Until(stop), y);
    }
    JoinOrdered(s, t);
    OrderedUnique(Window(db, a, lo, Until(stop)), s + t);
  }

  lemma JoinOrdered(s: seq<Entry>, t: seq<Entry>)
    requires InOrder(s) && InOrder(t) && forall x, y | x in s && y in t :: Before(KeyOf(x), KeyOf(y))
    ensures InOrder(s + t)
  {
    var r := s + t;
    forall i, j | 0 <= i < j < |r| ensures Before(KeyOf(r[i]), KeyOf(r[j])) {
      if i < |s| <= j {
        assert r[i] == s[i] && s[i] in s && r[j] == t[j - |s|] && t[j - |s|] in t;
      }
    }
  }

  lemma GrowsFurther(db: Db, db': Db, db'': Db, a: Id, k: Cursor, k': Cursor)
    requires a in db.accounts && GrowsBeyond(db, db', a, k) && a in db'.accounts && GrowsBeyond(db', db'', a, k') && Before(k, k')
    ensures GrowsBeyond(db, db'', a, k)
  {
    var n, m := |db.journal|, |db'.journal|;
    assert db''.journal[..n] == db''.journal[..m][..n] == db'.journal[..n];
    forall e | e in db.journal ensures Mine(db''.accounts, a, e) == Mine(db.accounts, a, e) {
      var i :| 0 <= i < n && db.journal[i] == e;
      assert db'.journal[..n][i] == e && e in db'.journal;
    }
    forall i | n <= i < |db''.journal| && Mine(db''.accounts, a, db''.journal[i]) ensures Before(k, KeyOf(db''.journal[i])) {
      if i < m {
        assert db''.journal[..m][i] == db'.journal[i];
        assert db'.journal[i] in db'.journal;
      }
    }
  }

  /** What a finished walk achieved, told from its first and last ledgers. */
  predicate Achieved(first: Db, last: Db, pages: seq<Page>, a: Id, lo: Cursor, stop: int)
    requires a in first.accounts && a in last.accounts
  {
    && pages != []
    && AllEntries(pages) == Window(last, a, lo, Until(stop))
    && pages[|pages| - 1].closing == BalanceAsOf(last, a, stop)
    && (pages[0].next.Some? ==> GrowsBeyond(first, last, a, pages[0].next.value))
    && (pages[0].next.None? ==> first == last)
  }

  lemma AchievedLast(db: Db, a: Id, lo: Cursor, stop: int, limit: nat, page: Page)
    requires a in db.accounts && DistinctIds(db.journal) && limit >= 1 && lo.at <= stop
    requires page == PageFrom(db, a, lo, stop, limit) && page.next.None?
    ensures Achieved(db, db, [page], a, lo, stop)
  {
    PageCloses(db, a, lo, stop, limit);
    assert [page][1..] == [];
    assert AllEntries([page]) == EntriesOf(page.lines) + AllEntries([]);
  }

  /** One more page in front of a walk that achieved its period. */
  lemma AchievedNext(db: Db, db': Db, last: Db, a: Id, lo: Cursor, stop: int, limit: nat, page: Page, rest: seq<Page>)
    requires a in db.accounts && a in db'.accounts && a in last.accounts && limit >= 1 && lo.at <= stop
    requires DistinctIds(db.journal) && DistinctIds(db'.journal) && DistinctIds(last.journal)
    requires page == PageFrom(db, a, lo, stop, limit) && page.next.Some?
    requires GrowsBeyond(db, db', a, page.next.value) && Achieved(db', last, rest, a, page.next.value, stop)
    requires rest[0].next.Some? ==> Before(page.next.value, rest[0].next.value)
    ensures Achieved(db, last, [page] + rest, a, lo, stop)
  {
    var k := page.next.value;
    PageCloses(db, a, lo, stop, limit);
    if rest[0].next.Some? {
      GrowsFurther(db, db', last, a, k, rest[0].next.value);
    }
    SameBelow(db, last, a, lo, k);
    WindowSplits(last, a, lo, k, stop);
    assert ([page] + rest)[1..] == rest;
  }

  // One step of a walk, so that proofs about walks need not unfold it themselves.

  lemma FinishedCons(page: Page, rest: seq<Page>)
    ensures ([page] + rest)[1..] == rest && AllEntries([page] + rest) == EntriesOf(page.lines) + AllEntries(rest)
    ensures rest != [] ==> (Finished([page] + rest) <==> Finished(rest))
  {
    var pages := [page] + rest;
    assert rest != [] ==> pages[|pages| - 1] == rest[|rest| - 1];
  }

  lemma FinishedLast(page: Page)
    ensures AllEntries([page]) == EntriesOf(page.lines) && (Finished([page]) <==> page.next.None?)
  {
    assert [page][1..] == [];
    assert AllEntries([page]) == EntriesOf(page.lines) + AllEntries([]);
  }

  lemma WalkStarts(dbs: seq<Db>, a: Id, lo: Cursor, stop: int, limit: nat, page: Page)
    requires Readable(dbs, a) && limit >= 1 && dbs != [] && page == PageFrom(dbs[0], a, lo, stop, limit)
    ensures Walk(dbs, a, lo, stop, limit) != [] && Walk(dbs, a, lo, stop, limit)[0] == page
    ensures page.next.None? ==> Walk(dbs, a, lo, stop, limit) == [page]
  {
  }

  lemma WalkOn(dbs: seq<Db>, a: Id, lo: Cursor, stop: int, limit: nat, page: Page, k: Cursor)
    requires Readable(dbs, a) && limit >= 1 && dbs != [] && page == PageFrom(dbs[0], a, lo, stop, limit) && page.next == Some(k)
    ensures Readable(dbs[1..], a) && Walk(dbs, a, lo, stop, limit) == [page] + Walk(dbs[1..], a, k, stop, limit)
  {
  }

  lemma NextInside(db: Db, a: Id, lo: Cursor, stop: int, limit: nat, k: Cursor)
    requires a in db.accounts && DistinctIds(db.journal) && limit >= 1 && lo.at <= stop
    requires PageFrom(db, a, lo, stop, limit).next == Some(k)
    ensures k.at <= stop && Before(lo, k)
  {
    PageCloses(db, a, lo, stop, limit);
  }

  lemma NextRequest(dbs: seq<Db>, a: Id, lo: Cursor, stop: int, limit: nat, k: Cursor)
    requires Readable(dbs, a) && limit >= 1 && |dbs| >= 2 && Undisturbed(dbs, a, lo, stop, limit)
    requires PageFrom(dbs[0], a, lo, stop, limit).next == Some(k)
    ensures Readable(dbs[1..], a) && GrowsBeyond(dbs[0], dbs[1], a, k) && Undisturbed(dbs[1..], a, k, stop, limit)
  {
  }

  lemma WalkGoesOn(db: Db, db': Db, last: Db, a: Id, lo: Cursor, stop: int, limit: nat, page: Page, k: Cursor, rest: seq<Page>)
    requires a in db.accounts && a in db'.accounts && a in last.accounts && limit >= 1 && lo.at <= stop
    requires DistinctIds(db.journal) && DistinctIds(db'.journal) && DistinctIds(last.journal)
    requires page == PageFrom(db, a, lo, stop, limit) && page.next == Some(k) && GrowsBeyond(db, db', a, k)
    requires Achieved(db', last, rest, a, k, stop) && rest[0] == PageFrom(db', a, k, stop, limit)
    ensures Achieved(db, last, [page] + rest, a, lo, stop)
  {
    NextInside(db, a, lo, stop, limit, k);
    if rest[0].next.Some? {
      NextInside(db', a, k, stop, limit, rest[0].next.value);
    }
    AchievedNext(db, db', last, a, lo, stop, limit, page, rest);
  }

  /** The pages listed the whole period, once and in order, as the last request saw it, and closed at its balance. */
  predicate Completed(dbs: seq<Db>, pages: seq<Page>, a: Id, lo: Cursor, stop: int)
    requires Readable(dbs, a)
  {
    1 <= |pages| <= |dbs| && Achieved(dbs[0], dbs[|pages| - 1], pages, a, lo, stop)
  }

  /** A walk that came to its end listed the whole period, once and in order, and closed at the period's balance. */
  lemma {:induction false} WalkComplete(dbs: seq<Db>, a: Id, lo: Cursor, stop: int, limit: nat)
    requires Readable(dbs, a) && limit >= 1 && lo.at <= stop && Undisturbed(dbs, a, lo, stop, limit)
    requires Finished(Walk(dbs, a, lo, stop, limit))
    ensures Completed(dbs, Walk(dbs, a, lo, stop, limit), a, lo, stop)
    decreases |dbs|, 2
  {
    var page := PageFrom(dbs[0], a, lo, stop, limit);
    if page.next.Some? {
      WalkCompleteNext(dbs, a, lo, stop, limit, page, page.next.value);
    } else {
      WalkCompleteLast(dbs, a, lo, stop, limit, page);
    }
  }

  lemma WalkCompleteLast(dbs: seq<Db>, a: Id, lo: Cursor, stop: int, limit: nat, page: Page)
    requires Readable(dbs, a) && limit >= 1 && lo.at <= stop && dbs != []
    requires page == PageFrom(dbs[0], a, lo, stop, limit) && page.next.None?
    ensures Completed(dbs, Walk(dbs, a, lo, stop, limit), a, lo, stop)
  {
    WalkStarts(dbs, a, lo, stop, limit, page);
    AchievedLast(dbs[0], a, lo, stop, limit, page);
  }

  lemma {:induction false} WalkCompleteNext(dbs: seq<Db>, a: Id, lo: Cursor, stop: int, limit: nat, page: Page, k: Cursor)
    requires Readable(dbs, a) && limit >= 1 && lo.at <= stop && dbs != [] && Undisturbed(dbs, a, lo, stop, limit)
    requires page == PageFrom(dbs[0], a, lo, stop, limit) && page.next == Some(k) && Finished(Walk(dbs, a, lo, stop, limit))
    ensures Completed(dbs, Walk(dbs, a, lo, stop, limit), a, lo, stop)
    decreases |dbs|, 1
  {
    WalkOn(dbs, a, lo, stop, limit, page, k);
    WalkCompleteOn(dbs, a, lo, stop, limit, page, k, Walk(dbs[1..], a, k, stop, limit));
  }

  lemma {:induction false} WalkCompleteOn(
    dbs: seq<Db>, a: Id, lo: Cursor, stop: int, limit: nat, page: Page, k: Cursor, rest: seq<Page>)
    requires Readable(dbs, a) && limit >= 1 && lo.at <= stop && dbs != [] && Undisturbed(dbs, a, lo, stop, limit)
    requires page == PageFrom(dbs[0], a, lo, stop, limit) && page.next == Some(k) && Finished([page] + rest)
    requires Readable(dbs[1..], a) && rest == Walk(dbs[1..], a, k, stop, limit)
    ensures Completed(dbs, [page] + rest, a, lo, stop)
    decreases |dbs|, 0
  {
    FinishedCons(page, rest);
    if |dbs| >= 2 {
      NextRequest(dbs, a, lo, stop, limit, k);
      NextInside(dbs[0], a, lo, stop, limit, k);
      WalkComplete(dbs[1..], a, k, stop, limit);
      WalkStarts(dbs[1..], a, k, stop, limit, PageFrom(dbs[1], a, k, stop, limit));
      WalkGoesOn(dbs[0], dbs[1], dbs[|rest|], a, lo, stop, limit, page, k, rest);
    }
  }

  /** The page at a place in a walk opens where the one before it closed. */
  predicate Meets(pages: seq<Page>, i: nat)
    requires i + 1 < |pages|
  {
    pages[i + 1].opening == pages[i].closing
  }

  /** Each page opens where the page before it closed. */
  lemma {:induction false} PagesMeet(dbs: seq<Db>, a: Id, lo: Cursor, stop: int, limit: nat, i: nat)
    requires Readable(dbs, a) && limit >= 1 && lo.at <= stop && Undisturbed(dbs, a, lo, stop, limit)
    requires i + 1 < |Walk(dbs, a, lo, stop, limit)|
    ensures Meets(Walk(dbs, a, lo, stop, limit), i)
    decreases |dbs|, 1
  {
    var page := PageFrom(dbs[0], a, lo, stop, limit);
    WalkStarts(dbs, a, lo, stop, limit, page);
    var k := page.next.value;
    WalkOn(dbs, a, lo, stop, limit, page, k);
    PagesMeetOn(dbs, a, lo, stop, limit, page, k, Walk(dbs[1..], a, k, stop, limit), i);
  }

  lemma {:induction false} PagesMeetOn(
    dbs: seq<Db>, a: Id, lo: Cursor, stop: int, limit: nat, page: Page, k: Cursor, rest: seq<Page>, i: nat)
    requires Readable(dbs, a) && limit >= 1 && lo.at <= stop && |dbs| >= 2 && Undisturbed(dbs, a, lo, stop, limit)
    requires page == PageFrom(dbs[0], a, lo, stop, limit) && page.next == Some(k)
    requires Readable(dbs[1..], a) && rest == Walk(dbs[1..], a, k, stop, limit) && i < |rest|
    ensures Meets([page] + rest, i)
    decreases |dbs|, 0
  {
    NextRequest(dbs, a, lo, stop, limit, k);
    if i == 0 {
      WalkStarts(dbs[1..], a, k, stop, limit, PageFrom(dbs[1], a, k, stop, limit));
      MeetsNext(dbs[0], dbs[1], a, lo, stop, limit, k);
    } else {
      NextInside(dbs[0], a, lo, stop, limit, k);
      PagesMeet(dbs[1..], a, k, stop, limit, i - 1);
      assert Meets(rest, i - 1);
    }
  }

  lemma MeetsNext(db: Db, db': Db, a: Id, lo: Cursor, stop: int, limit: nat, k: Cursor)
    requires a in db.accounts && a in db'.accounts && limit >= 1 && lo.at <= stop && DistinctIds(db.journal)
    requires PageFrom(db, a, lo, stop, limit).next == Some(k) && GrowsBeyond(db, db', a, k)
    ensures PageFrom(db', a, k, stop, limit).opening == PageFrom(db, a, lo, stop, limit).closing
  {
    PageCloses(db, a, lo, stop, limit);
    GrownSum(db, db', a, k);
  }

  /** How many lines so many requests can hold. */
  function Capacity(requests: nat, limit: nat): nat
  {
    if requests == 0 then 0 else limit + Capacity(requests - 1, limit)
  }

  lemma {:induction false} CapacityIs(requests: nat, limit: nat)
    ensures Capacity(requests, limit) == requests * limit
  {
    if requests > 0 {
      CapacityIs(requests - 1, limit);
      assert requests * limit == (requests - 1) * limit + limit;
    }
  }

  /** Seen from a ledger grown only beyond its cursor, a page is one limit's worth of the period. */
  lemma PageTaken(db: Db, last: Db, a: Id, lo: Cursor, stop: int, limit: nat, k: Cursor)
    requires a in db.accounts && a in last.accounts && DistinctIds(db.journal) && DistinctIds(last.journal)
    requires limit >= 1 && lo.at <= stop && PageFrom(db, a, lo, stop, limit).next == Some(k) && GrowsBeyond(db, last, a, k)
    ensures |Window(last, a, lo, Until(stop))| == limit + |Window(last, a, k, Until(stop))|
  {
    PageCloses(db, a, lo, stop, limit);
    SameBelow(db, last, a, lo, k);
    WindowSplits(last, a, lo, k, stop);
  }

  /** The page's cursor is passed, and so many requests were too few for the rest of the period. */
  predicate TooFew(first: Db, last: Db, a: Id, lo: Cursor, stop: int, limit: nat, requests: nat)
    requires a in first.accounts && a in last.accounts && limit >= 1
  {
    && |Window(last, a, lo, Until(stop))| > Capacity(requests, limit)
    && var next := PageFrom(first, a, lo, stop, limit).next;
       next.Some? && GrowsBeyond(first, last, a, next.value)
  }

  lemma TooFewNext(db: Db, db': Db, last: Db, a: Id, lo: Cursor, stop: int, limit: nat, k: Cursor, n: nat)
    requires a in db.accounts && a in db'.accounts && a in last.accounts && limit >= 1 && lo.at <= stop
    requires DistinctIds(db.journal) && DistinctIds(db'.journal) && DistinctIds(last.journal)
    requires PageFrom(db, a, lo, stop, limit).next == Some(k) && GrowsBeyond(db, db', a, k)
    requires TooFew(db', last, a, k, stop, limit, n)
    ensures TooFew(db, last, a, lo, stop, limit, n + 1)
  {
    var k' := PageFrom(db', a, k, stop, limit).next.value;
    NextInside(db, a, lo, stop, limit, k);
    NextInside(db', a, k, stop, limit, k');
    GrowsFurther(db, db', last, a, k, k');
    PageTaken(db, last, a, lo, stop, limit, k);
  }

  lemma TooFewLast(db: Db, a: Id, lo: Cursor, stop: int, limit: nat, k: Cursor)
    requires a in db.accounts && limit >= 1 && PageFrom(db, a, lo, stop, limit).next == Some(k)
    ensures TooFew(db, db, a, lo, stop, limit, 1)
  {
  }

  lemma UnfinishedRest(dbs: seq<Db>, a: Id, lo: Cursor, stop: int, limit: nat, page: Page, k: Cursor)
    requires Readable(dbs, a) && limit >= 1 && |dbs| >= 2 && !Finished(Walk(dbs, a, lo, stop, limit))
    requires page == PageFrom(dbs[0], a, lo, stop, limit) && page.next == Some(k)
    ensures Readable(dbs[1..], a) && !Finished(Walk(dbs[1..], a, k, stop, limit))
  {
    WalkOn(dbs, a, lo, stop, limit, page, k);
    WalkStarts(dbs[1..], a, k, stop, limit, PageFrom(dbs[1], a, k, stop, limit));
    FinishedCons(page, Walk(dbs[1..], a, k, stop, limit));
  }

  /** A walk that ran out of requests has a period left that they could not hold. */
  lemma {:induction false} UnfinishedWalk(dbs: seq<Db>, a: Id, lo: Cursor, stop: int, limit: nat, first: Db, last: Db, n: nat)
    requires Readable(dbs, a) && limit >= 1 && lo.at <= stop && Undisturbed(dbs, a, lo, stop, limit)
    requires n == |dbs| >= 1 && first == dbs[0] && last == dbs[n - 1] && !Finished(Walk(dbs, a, lo, stop, limit))
    ensures TooFew(first, last, a, lo, stop, limit, n)
    decreases n, 2
  {
    UnfinishedHasNext(dbs, a, lo, stop, limit);
    var k := PageFrom(first, a, lo, stop, limit).next.value;
    if n == 1 {
      TooFewLast(first, a, lo, stop, limit, k);
    } else {
      UnfinishedNext(dbs, a, lo, stop, limit, first, last, n, k);
    }
  }

  lemma UnfinishedHasNext(dbs: seq<Db>, a: Id, lo: Cursor, stop: int, limit: nat)
    requires Readable(dbs, a) && limit >= 1 && dbs != [] && !Finished(Walk(dbs, a, lo, stop, limit))
    ensures PageFrom(dbs[0], a, lo, stop, limit).next.Some?
  {
    WalkStarts(dbs, a, lo, stop, limit, PageFrom(dbs[0], a, lo, stop, limit));
    FinishedLast(PageFrom(dbs[0], a, lo, stop, limit));
  }

  lemma {:induction false} UnfinishedNext(
    dbs: seq<Db>, a: Id, lo: Cursor, stop: int, limit: nat, first: Db, last: Db, n: nat, k: Cursor)
    requires Readable(dbs, a) && limit >= 1 && lo.at <= stop && Undisturbed(dbs, a, lo, stop, limit)
    requires n == |dbs| >= 2 && first == dbs[0] && last == dbs[n - 1] && !Finished(Walk(dbs, a, lo, stop, limit))
    requires PageFrom(first, a, lo, stop, limit).next == Some(k)
    ensures TooFew(first, last, a, lo, stop, limit, n)
    decreases n, 1
  {
    NextRequest(dbs, a, lo, stop, limit, k);
    NextInside(first, a, lo, stop, limit, k);
    UnfinishedRest(dbs, a, lo, stop, limit, PageFrom(first, a, lo, stop, limit), k);
    UnfinishedOn(dbs[1..], a, lo, stop, limit, first, dbs[1], last, n - 1, k);
  }

  lemma {:induction false} UnfinishedOn(
    dbs: seq<Db>, a: Id, lo: Cursor, stop: int, limit: nat, first: Db, second: Db, last: Db, n: nat, k: Cursor)
    requires Readable(dbs, a) && limit >= 1 && lo.at <= stop && k.at <= stop && Undisturbed(dbs, a, k, stop, limit)
    requires n == |dbs| >= 1 && second == dbs[0] && last == dbs[n - 1] && !Finished(Walk(dbs, a, k, stop, limit))
    requires a in first.accounts && DistinctIds(first.journal) && PageFrom(first, a, lo, stop, limit).next == Some(k)
    requires GrowsBeyond(first, second, a, k)
    ensures TooFew(first, last, a, lo, stop, limit, n + 1)
    decreases n, 3
  {
    UnfinishedWalk(dbs, a, k, stop, limit, second, last, n);
    TooFewNext(first, second, last, a, lo, stop, limit, k, n);
  }

  /** No page is longer than its limit. */
  lemma PageShort(db: Db, a: Id, lo: Cursor, stop: int, limit: nat, page: Page)
    requires a in db.accounts && limit >= 1 && page == PageFrom(db, a, lo, stop, limit)
    ensures |EntriesOf(page.lines)| <= limit
  {
  }

  lemma HoldsNext(page: Page, rest: seq<Page>, limit: nat)
    requires |EntriesOf(page.lines)| <= limit && |AllEntries(rest)| <= Capacity(|rest|, limit)
    ensures |AllEntries([page] + rest)| <= Capacity(|[page] + rest|, limit)
  {
    FinishedCons(page, rest);
  }

  /** So pages hold no more than their number allows. */
  lemma {:induction false} WalkHolds(dbs: seq<Db>, a: Id, lo: Cursor, stop: int, limit: nat, pages: seq<Page>)
    requires Readable(dbs, a) && limit >= 1 && pages == Walk(dbs, a, lo, stop, limit)
    ensures |AllEntries(pages)| <= Capacity(|pages|, limit)
    decreases |dbs|
  {
    if dbs != [] {
      var page := PageFrom(dbs[0], a, lo, stop, limit);
      PageShort(dbs[0], a, lo, stop, limit, page);
      if page.next.Some? {
        WalkOn(dbs, a, lo, stop, limit, page, page.next.value);
        var rest := Walk(dbs[1..], a, page.next.value, stop, limit);
        WalkHolds(dbs[1..], a, page.next.value, stop, limit, rest);
        HoldsNext(page, rest, limit);
      } else {
        WalkStarts(dbs, a, lo, stop, limit, page);
        HoldsNext(page, [], limit);
        assert [page] + [] == [page];
      }
    }
  }

  lemma CompletedPeriod(dbs: seq<Db>, pages: seq<Page>, a: Id, lo: Cursor, stop: int)
    requires Readable(dbs, a) && Completed(dbs, pages, a, lo, stop) && |pages| == |dbs|
    ensures AllEntries(pages) == Window(dbs[|dbs| - 1], a, lo, Until(stop))
  {
    assert dbs[|pages| - 1] == dbs[|dbs| - 1];
  }

  lemma FinishedFits(dbs: seq<Db>, a: Id, lo: Cursor, stop: int, limit: nat, pages: seq<Page>)
    requires Readable(dbs, a) && limit >= 1 && lo.at <= stop && dbs != [] && Undisturbed(dbs, a, lo, stop, limit)
    requires pages == Walk(dbs, a, lo, stop, limit) && Finished(pages) && |pages| == |dbs|
    ensures |Window(dbs[|dbs| - 1], a, lo, Until(stop))| <= Capacity(|dbs|, limit)
  {
    WalkComplete(dbs, a, lo, stop, limit);
    CompletedPeriod(dbs, pages, a, lo, stop);
    WalkHolds(dbs, a, lo, stop, limit, pages);
  }

  lemma UnfinishedMisses(dbs: seq<Db>, a: Id, lo: Cursor, stop: int, limit: nat)
    requires Readable(dbs, a) && limit >= 1 && lo.at <= stop && dbs != [] && Undisturbed(dbs, a, lo, stop, limit)
    requires !Finished(Walk(dbs, a, lo, stop, limit))
    ensures |Window(dbs[|dbs| - 1], a, lo, Until(stop))| > Capacity(|dbs|, limit)
  {
    UnfinishedWalk(dbs, a, lo, stop, limit, dbs[0], dbs[|dbs| - 1], |dbs|);
  }

  lemma EndsWhen(finished: bool, pages: nat, requests: nat, limit: nat, period: nat)
    requires finished && pages == requests ==> period <= Capacity(requests, limit)
    requires !finished ==> period > Capacity(requests, limit)
    ensures period <= requests * limit ==> finished
    ensures pages == requests ==> (finished <==> period <= requests * limit)
  {
    CapacityIs(requests, limit);
  }

  /**
   However the journal grows beyond the cursor, a walk ends as soon as its requests can hold the period,
   and one that uses all of them ends exactly then.
   */
  lemma WalkEnds(dbs: seq<Db>, a: Id, lo: Cursor, stop: int, limit: nat, pages: seq<Page>, period: nat)
    requires Readable(dbs, a) && limit >= 1 && lo.at <= stop && dbs != [] && Undisturbed(dbs, a, lo, stop, limit)
    requires pages == Walk(dbs, a, lo, stop, limit) && period == |Window(dbs[|dbs| - 1], a, lo, Until(stop))|
    ensures period <= |dbs| * limit ==> Finished(pages)
    ensures |pages| == |dbs| ==> (Finished(pages) <==> period <= |dbs| * limit)
  {
    if !Finished(pages) {
      UnfinishedMisses(dbs, a, lo, stop, limit);
    } else if |pages| == |dbs| {
      FinishedFits(dbs, a, lo, stop, limit, pages);
    }
    EndsWhen(Finished(pages), |pages|, |dbs|, limit, period);
  }

  // ----- entries that appear behind the cursor -----------------------------------------------------------------------------------

  /** A later state of the same ledger: entries were added, and none of the account's earlier ones changed hands. */
  predicate Extends(db: Db, db': Db, a: Id)
    requires a in db.accounts
  {
    && a in db'.accounts && |db.journal| <= |db'.journal| && db'.journal[..|db.journal|] == db.journal
    && (forall e | e in db.journal :: Mine(db'.accounts, a, e) == Mine(db.accounts, a, e))
  }

  predicate AppendOnly(dbs: seq<Db>, a: Id)
    requires Readable(dbs, a)
  {
    forall i, j | 0 <= i < j < |dbs| :: Extends(dbs[i], dbs[j], a)
  }

  /** Between the two states no entry of the account was added after one key and up to the other. */
  predicate NoneAdded(db: Db, db': Db, a: Id, lo: Cursor, k: Cursor)
    requires a in db'.accounts
  {
    forall i | |db.journal| <= i < |db'.journal| :: !Selected(db'.accounts, a, Some(lo), Through(k), db'.journal[i])
  }

  /** From the moment a page was read until the last request, nothing was added to the stretch it covers. */
  predicate NoneBehind(dbs: seq<Db>, last: Db, a: Id, lo: Cursor, stop: int, limit: nat)
    requires Readable(dbs, a) && limit >= 1 && a in last.accounts
    decreases |dbs|
  {
    dbs != [] && PageFrom(dbs[0], a, lo, stop, limit).next.Some? ==>
      var k := PageFrom(dbs[0], a, lo, stop, limit).next.value;
      NoneAdded(dbs[0], last, a, lo, k) && NoneBehind(dbs[1..], last, a, k, stop, limit)
  }

  lemma OldEntry(db: Db, db': Db, a: Id, x: Entry)
    requires a in db.accounts && Extends(db, db', a) && x in db.journal
    ensures x in db'.journal && Mine(db'.accounts, a, x) == Mine(db.accounts, a, x)
  {
    var i :| 0 <= i < |db.journal| && db.journal[i] == x;
    assert db'.journal[..|db.journal|][i] == x;
  }

  lemma NewEntry(db: Db, db': Db, a: Id, i: nat)
    requires a in db.accounts && Extends(db, db', a) && DistinctIds(db'.journal) && |db.journal| <= i < |db'.journal|
    ensures db'.journal[i] !in db.journal
  {
    assert forall j | 0 <= j < |db.journal| :: db'.journal[..|db.journal|][j] == db'.journal[j];
  }

  lemma StretchMember(db: Db, db': Db, a: Id, lo: Cursor, k: Cursor, x: Entry)
    requires a in db.accounts && Extends(db, db', a) && NoneAdded(db, db', a, lo, k)
    ensures x in db'.journal && Selected(db'.accounts, a, Some(lo), Through(k), x)
       <==> x in db.journal && Selected(db.accounts, a, Some(lo), Through(k), x)
  {
    assert forall i | 0 <= i < |db.journal| :: db'.journal[..|db.journal|][i] == db'.journal[i];
    if x in db.journal {
      OldEntry(db, db', a, x);
    }
  }

  /** A stretch reads the same later exactly when nothing was added to it. */
  lemma StretchSameIff(db: Db, db': Db, a: Id, lo: Cursor, k: Cursor)
    requires a in db.accounts && DistinctIds(db.journal) && Extends(db, db', a) && DistinctIds(db'.journal)
    ensures Window(db', a, lo, Through(k)) == Window(db, a, lo, Through(k)) <==> NoneAdded(db, db', a, lo, k)
  {
    var s, t := Window(db, a, lo, Through(k)), Window(db', a, lo, Through(k));
    if NoneAdded(db, db', a, lo, k) {
      forall x ensures x in t <==> x in s {
        WindowExact(db, a, lo, Through(k), x);
        WindowExact(db', a, lo, Through(k), x);
        StretchMember(db, db', a, lo, k, x);
      }
      OrderedWindow(db, a, lo, Through(k));
      OrderedWindow(db', a, lo, Through(k));
      OrderedUnique(t, s);
    } else {
      var i :| |db.journal| <= i < |db'.journal| && Selected(db'.accounts, a, Some(lo), Through(k), db'.journal[i]);
      WindowExact(db', a, lo, Through(k), db'.journal[i]);
      WindowExact(db, a, lo, Through(k), db'.journal[i]);
      NewEntry(db, db', a, i);
    }
  }

  lemma OrderedWindow(db: Db, a: Id, lo: Cursor, hi: End)
    requires a in db.accounts && DistinctIds(db.journal)
    ensures InOrder(Window(db, a, lo, hi))
  {
    WindowExact(db, a, lo, hi, Entry(0, 0, Leg(0, Debit, Money(0, "")), 0, 0));
  }

  /** All up to a key, or all after it. */
  predicate UpTo(es: seq<Entry>, k: Cursor)
  {
    forall x | x in es :: !Before(k, KeyOf(x))
  }

  predicate After(es: seq<Entry>, k: Cursor)
  {
    forall x | x in es :: Before(k, KeyOf(x))
  }

  /** Two lists cut at the same key are equal exactly when both parts are. */
  lemma CutEqual(s: seq<Entry>, t: seq<Entry>, s': seq<Entry>, t': seq<Entry>, k: Cursor)
    requires UpTo(s, k) && UpTo(s', k) && After(t, k) && After(t', k)
    ensures s + t == s' + t' <==> s == s' && t == t'
  {
    if s + t == s' + t' {
      CutLength(s, t, s', t', k);
      CutLength(s', t', s, t, k);
      assert s == (s + t)[..|s|] && s' == (s' + t')[..|s|];
      assert t == (s + t)[|s|..] && t' == (s' + t')[|s|..];
    }
  }

  lemma CutLength(s: seq<Entry>, t: seq<Entry>, s': seq<Entry>, t': seq<Entry>, k: Cursor)
    requires UpTo(s, k) && After(t', k) && s + t == s' + t'
    ensures |s| <= |s'|
  {
    var u := s + t;
    assert forall j | 0 <= j < |s| :: u[j] == s[j] && s[j] in s;
    assert forall j | |s'| <= j < |u| :: u[j] == t'[j - |s'|] && t'[j - |s'|] in t';
    assert |s'| < |u| ==> Before(k, KeyOf(u[|s'|]));
  }

  lemma WindowAfter(db: Db, a: Id, lo: Cursor, hi: End)
    requires a in db.accounts && DistinctIds(db.journal)
    ensures After(Window(db, a, lo, hi), lo)
  {
    forall x | x in Window(db, a, lo, hi) ensures Before(lo, KeyOf(x)) {
      WindowExact(db, a, lo, hi, x);
    }
  }

  lemma WindowUpTo(db: Db, a: Id, lo: Cursor, k: Cursor)
    requires a in db.accounts && DistinctIds(db.journal)
    ensures UpTo(Window(db, a, lo, Through(k)), k)
  {
    forall x | x in Window(db, a, lo, Through(k)) ensures !Before(k, KeyOf(x)) {
      WindowExact(db, a, lo, Through(k), x);
    }
  }

  /** What a page lists, whether or not another one follows. */
  lemma PageAfter(db: Db, a: Id, lo: Cursor, stop: int, limit: nat, page: Page)
    requires a in db.accounts && DistinctIds(db.journal) && limit >= 1 && lo.at <= stop && page == PageFrom(db, a, lo, stop, limit)
    ensures After(EntriesOf(page.lines), lo)
  {
    PageCloses(db, a, lo, stop, limit);
    if page.next.Some? {
      WindowAfter(db, a, lo, Through(page.next.value));
    } else {
      WindowAfter(db, a, lo, Until(stop));
    }
  }

  /** A walk lists only what lies after its cursor. */
  lemma {:induction false} WalkAfter(dbs: seq<Db>, a: Id, lo: Cursor, stop: int, limit: nat)
    requires Readable(dbs, a) && limit >= 1 && lo.at <= stop
    ensures After(AllEntries(Walk(dbs, a, lo, stop, limit)), lo)
    decreases |dbs|
  {
    if dbs != [] {
      var page := PageFrom(dbs[0], a, lo, stop, limit);
      PageAfter(dbs[0], a, lo, stop, limit, page);
      if page.next.Some? {
        NextInside(dbs[0], a, lo, stop, limit, page.next.value);
        WalkOn(dbs, a, lo, stop, limit, page, page.next.value);
        WalkAfter(dbs[1..], a, page.next.value, stop, limit);
        FinishedCons(page, Walk(dbs[1..], a, page.next.value, stop, limit));
      } else {
        WalkStarts(dbs, a, lo, stop, limit, page);
        FinishedLast(page);
      }
    }
  }

  /** One page and what follows it list the period exactly when the page's stretch is unchanged and the rest is listed. */
  lemma ListsNextIff(db: Db, last: Db, a: Id, lo: Cursor, stop: int, limit: nat, page: Page, k: Cursor, rest: seq<Page>)
    requires a in db.accounts && a in last.accounts && DistinctIds(db.journal) && DistinctIds(last.journal)
    requires limit >= 1 && lo.at <= stop && page == PageFrom(db, a, lo, stop, limit) && page.next == Some(k)
    requires Extends(db, last, a) && After(AllEntries(rest), k)
    ensures AllEntries([page] + rest) == Window(last, a, lo, Until(stop))
       <==> NoneAdded(db, last, a, lo, k) && AllEntries(rest) == Window(last, a, k, Until(stop))
  {
    PageCloses(db, a, lo, stop, limit);
    FinishedCons(page, rest);
    WindowSplits(last, a, lo, k, stop);
    StretchSameIff(db, last, a, lo, k);
    WindowUpTo(db, a, lo, k);
    WindowUpTo(last, a, lo, k);
    WindowAfter(last, a, k, Until(stop));
    CutEqual(Window(db, a, lo, Through(k)), AllEntries(rest), Window(last, a, lo, Through(k)), Window(last, a, k, Until(stop)), k);
  }

  /** What an append-only ledger guarantees between two of a walk's requests. */
  lemma LaterExtends(dbs: seq<Db>, a: Id, n: nat)
    requires Readable(dbs, a) && AppendOnly(dbs, a) && 1 <= n < |dbs|
    ensures Readable(dbs[1..], a) && AppendOnly(dbs[1..], a) && Extends(dbs[0], dbs[n], a) && dbs[1..][n - 1] == dbs[n]
  {
  }

  lemma NoneBehindStep(dbs: seq<Db>, last: Db, a: Id, lo: Cursor, stop: int, limit: nat, k: Cursor)
    requires Readable(dbs, a) && limit >= 1 && a in last.accounts && dbs != []
    requires PageFrom(dbs[0], a, lo, stop, limit).next == Some(k)
    ensures Readable(dbs[1..], a)
    ensures NoneBehind(dbs, last, a, lo, stop, limit)
       <==> NoneAdded(dbs[0], last, a, lo, k) && NoneBehind(dbs[1..], last, a, k, stop, limit)
  {
  }

  /** The pages close at the balance the last request saw, and list the period exactly when nothing came in behind. */
  predicate ListsUnlessBehind(dbs: seq<Db>, last: Db, pages: seq<Page>, a: Id, lo: Cursor, stop: int, limit: nat)
    requires Readable(dbs, a) && limit >= 1 && a in last.accounts && pages != []
  {
    && pages[|pages| - 1].closing == BalanceAsOf(last, a, stop)
    && (AllEntries(pages) == Window(last, a, lo, Until(stop)) <==> NoneBehind(dbs, last, a, lo, stop, limit))
  }

  lemma ListsLast(dbs: seq<Db>, a: Id, lo: Cursor, stop: int, limit: nat, page: Page)
    requires Readable(dbs, a) && limit >= 1 && lo.at <= stop && dbs != []
    requires page == PageFrom(dbs[0], a, lo, stop, limit) && page.next.None?
    ensures ListsUnlessBehind(dbs, dbs[0], [page], a, lo, stop, limit)
  {
    PageCloses(dbs[0], a, lo, stop, limit);
    FinishedLast(page);
  }

  lemma ListsNext(dbs: seq<Db>, last: Db, a: Id, lo: Cursor, stop: int, limit: nat, page: Page, k: Cursor, rest: seq<Page>)
    requires Readable(dbs, a) && limit >= 1 && lo.at <= stop && dbs != [] && Readable(dbs[1..], a)
    requires page == PageFrom(dbs[0], a, lo, stop, limit) && page.next == Some(k) && rest != []
    requires Extends(dbs[0], last, a) && DistinctIds(last.journal) && After(AllEntries(rest), k)
    requires ListsUnlessBehind(dbs[1..], last, rest, a, k, stop, limit)
    ensures ListsUnlessBehind(dbs, last, [page] + rest, a, lo, stop, limit)
  {
    ListsNextIff(dbs[0], last, a, lo, stop, limit, page, k, rest);
    NoneBehindStep(dbs, last, a, lo, stop, limit, k);
  }

  /**
   On an append-only ledger a finished walk closes at the balance the last request saw, and lists the whole
   period as that request saw it exactly when nothing was added behind it on the way.
   */
  lemma {:induction false} WalkListsIff(dbs: seq<Db>, a: Id, lo: Cursor, stop: int, limit: nat, pages: seq<Page>)
    requires Readable(dbs, a) && limit >= 1 && lo.at <= stop && AppendOnly(dbs, a)
    requires pages == Walk(dbs, a, lo, stop, limit) && Finished(pages)
    ensures |pages| <= |dbs| && ListsUnlessBehind(dbs, dbs[|pages| - 1], pages, a, lo, stop, limit)
    decreases |dbs|, 1
  {
    var page := PageFrom(dbs[0], a, lo, stop, limit);
    if page.next.Some? {
      WalkOn(dbs, a, lo, stop, limit, page, page.next.value);
      WalkListsOn(dbs, a, lo, stop, limit, page, page.next.value, Walk(dbs[1..], a, page.next.value, stop, limit));
    } else {
      WalkStarts(dbs, a, lo, stop, limit, page);
      ListsLast(dbs, a, lo, stop, limit, page);
    }
  }

  lemma {:induction false} WalkListsOn(
    dbs: seq<Db>, a: Id, lo: Cursor, stop: int, limit: nat, page: Page, k: Cursor, rest: seq<Page>)
    requires Readable(dbs, a) && limit >= 1 && lo.at <= stop && dbs != [] && AppendOnly(dbs, a)
    requires page == PageFrom(dbs[0], a, lo, stop, limit) && page.next == Some(k) && Finished([page] + rest)
    requires Readable(dbs[1..], a) && rest == Walk(dbs[1..], a, k, stop, limit)
    ensures |rest| < |dbs| && ListsUnlessBehind(dbs, dbs[|rest|], [page] + rest, a, lo, stop, limit)
    decreases |dbs|, 0
  {
    FinishedCons(page, rest);
    if rest != [] {
      NextInside(dbs[0], a, lo, stop, limit, k);
      LaterExtends(dbs, a, 1);
      WalkListsIff(dbs[1..], a, k, stop, limit, rest);
      LaterExtends(dbs, a, |rest|);
      WalkAfter(dbs[1..], a, k, stop, limit);
      ListsNext(dbs, dbs[|rest|], a, lo, stop, limit, page, k, rest);
    }
  }
}
