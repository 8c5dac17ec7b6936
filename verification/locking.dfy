/** Lock acquisition across concurrent transactions: one global rank, hence no deadlock. */
module Locking {
  import opened Collections
  import opened LedgerTypes
  import opened Posting
  import opened Ledger

  // ----- the locks a ledger transaction takes --------------------------------------------------

  datatype Lock =
    | HeaderRow(tx: Id)
    | AccountRow(id: Id)
    | BalanceRow(id: Id)
    | KeyEntry(principal: string, key: Key)
    | SagaRow(saga: nat)
    | IdempotencyRow(principal: string, text: string)

  /** The single global order: the reversed header, accounts by id, then key, saga and idempotency rows. */
  function Rank(l: Lock): (nat, nat)
  {
    match l
    case HeaderRow(_) => (0, 0)
    case AccountRow(id) => (1, 2 * id)
    case BalanceRow(id) => (1, 2 * id + 1)
    case KeyEntry(_, _) => (2, 0)
    case SagaRow(_) => (3, 0)
    case IdempotencyRow(_, _) => (4, 0)
  }

  predicate Below(l: Lock, m: Lock)
  {
    Rank(l).0 < Rank(m).0 || (Rank(l).0 == Rank(m).0 && Rank(l).1 < Rank(m).1)
  }

  predicate Climbs(plan: seq<Lock>)
  {
    forall i, j | 0 <= i < j < |plan| :: Below(plan[i], plan[j])
  }

  /** What a write locks besides accounts, each at most once. */
  datatype Extras = Extras(reversed: Option<Id>, key: Option<(string, Key)>, saga: Option<nat>, idem: Option<(string, string)>)

  function AccountLocks(ids: seq<Id>): seq<Lock>
  {
    if ids == [] then []
    else AccountLocks(ids[..|ids| - 1]) + [AccountRow(ids[|ids| - 1]), BalanceRow(ids[|ids| - 1])]
  }

  function HeadLocks(x: Extras): seq<Lock>
  {
    if x.reversed.Some? then [HeaderRow(x.reversed.value)] else []
  }

  function TailLocks(x: Extras): seq<Lock>
  {
    (if x.key.Some? then [KeyEntry(x.key.value.0, x.key.value.1)] else [])
    + (if x.saga.Some? then [SagaRow(x.saga.value)] else [])
    + (if x.idem.Some? then [IdempotencyRow(x.idem.value.0, x.idem.value.1)] else [])
  }

  /** The locks of one posting or reversing transaction in the order it takes them. */
  function LockPlan(legs: seq<Leg>, x: Extras): seq<Lock>
  {
    HeadLocks(x) + AccountLocks(AccountsInOrder(legs)) + TailLocks(x)
  }

  lemma {:induction false} AccountLocksClimb(ids: seq<Id>)
    requires Ascending(ids)
    ensures Climbs(AccountLocks(ids))
    ensures forall l | l in AccountLocks(ids) :: Rank(l).0 == 1
    ensures forall l | l in AccountLocks(ids) :: ids != [] && Rank(l).1 <= 2 * ids[|ids| - 1] + 1
  {
    if ids != [] {
      var n := |ids| - 1;
      AccountLocksClimb(ids[..n]);
      assert n > 0 ==> ids[..n][n - 1] < ids[n];
      var last := [AccountRow(ids[n]), BalanceRow(ids[n])];
      assert Climbs(last);
      ClimbConcat(AccountLocks(ids[..n]), last);
    }
  }

  lemma TailClimbs(x: Extras)
    ensures Climbs(TailLocks(x))
    ensures forall m | m in TailLocks(x) :: Rank(m).0 >= 2
  {
    var key := if x.key.Some? then [KeyEntry(x.key.value.0, x.key.value.1)] else [];
    var saga := if x.saga.Some? then [SagaRow(x.saga.value)] else [];
    var idem := if x.idem.Some? then [IdempotencyRow(x.idem.value.0, x.idem.value.1)] else [];
    ClimbConcat(key, saga);
    ClimbConcat(key + saga, idem);
    assert TailLocks(x) == key + saga + idem;
  }

  /** Every transaction climbs the global rank, whatever accounts it names and in whatever order. */
  lemma PlanClimbs(legs: seq<Leg>, x: Extras)
    ensures Climbs(LockPlan(legs, x))
  {
    var ids := AccountsInOrder(legs);
    AccountLocksClimb(ids);
    TailClimbs(x);
    JoinClimbs(HeadLocks(x), AccountLocks(ids), TailLocks(x));
  }

  lemma {:induction false} AccountLocksExact(ids: seq<Id>, l: Lock)
    ensures l in AccountLocks(ids) <==> (l.AccountRow? && l.id in ids) || (l.BalanceRow? && l.id in ids)
  {
    if ids != [] {
      var n := |ids| - 1;
      assert ids == ids[..n] + [ids[n]];
      AccountLocksExact(ids[..n], l);
    }
  }

  /** A transaction locks the account and balance rows of every account it touches, what it names besides, and no more. */
  lemma PlanCovers(legs: seq<Leg>, x: Extras, l: Lock)
    ensures l in LockPlan(legs, x) <==>
              match l
              case HeaderRow(tx) => x.reversed == Some(tx)
              case AccountRow(id) => id in Touched(legs)
              case BalanceRow(id) => id in Touched(legs)
              case KeyEntry(principal, key) => x.key == Some((principal, key))
              case SagaRow(saga) => x.saga == Some(saga)
              case IdempotencyRow(principal, text) => x.idem == Some((principal, text))
  {
    AccountLocksExact(AccountsInOrder(legs), l);
  }

  lemma JoinClimbs(head: seq<Lock>, middle: seq<Lock>, tail: seq<Lock>)
    requires Climbs(head) && Climbs(middle) && Climbs(tail)
    requires forall l | l in head :: Rank(l).0 == 0
    requires forall l | l in middle :: Rank(l).0 == 1
    requires forall l | l in tail :: Rank(l).0 >= 2
    ensures Climbs(head + middle + tail)
  {
    ClimbConcat(head, middle);
    ClimbConcat(head + middle, tail);
  }

  lemma ClimbConcat(s: seq<Lock>, t: seq<Lock>)
    requires Climbs(s) && Climbs(t)
    requires forall l, m | l in s && m in t :: Below(l, m)
    ensures Climbs(s + t)
  {
    forall i, j | 0 <= i < j < |s + t| ensures Below((s + t)[i], (s + t)[j]) {
      if i < |s| <= j {
        assert s[i] in s && t[j - |s|] in t;
      }
    }
  }

  // ----- workers contending for locks --------------------------------------------------------------

  /** A transaction in flight: it holds the first `got` locks of its plan. */
  datatype Worker = Worker(plan: seq<Lock>, got: nat)

  datatype Event = Begin(legs: seq<Leg>, extras: Extras) | Acquire(worker: nat) | End(worker: nat)

  predicate Holds(w: Worker, l: Lock)
  {
    w.got <= |w.plan| && l in w.plan[..w.got]
  }

  predicate Wants(w: Worker)
  {
    w.got < |w.plan|
  }

  predicate WaitsFor(ws: seq<Worker>, i: nat, j: nat)
  {
    i < |ws| && j < |ws| && i != j && Wants(ws[i]) && Holds(ws[j], ws[i].plan[ws[i].got])
  }

  predicate Blocked(ws: seq<Worker>, i: nat)
  {
    exists j | 0 <= j < |ws| :: WaitsFor(ws, i, j)
  }

  /** Transactions start at any time, take their next lock only when no other holds it, and end by releasing all. */
  function Next(ws: seq<Worker>, e: Event): seq<Worker>
  {
    match e
    case Begin(legs, extras) => ws + [Worker(LockPlan(legs, extras), 0)]
    case Acquire(i) =>
      if i < |ws| && Wants(ws[i]) && !Blocked(ws, i) then ws[i := ws[i].(got := ws[i].got + 1)] else ws
    case End(i) => if i < |ws| then ws[i := Worker([], 0)] else ws
  }

  function Play(ws: seq<Worker>, es: seq<Event>): seq<Worker>
    decreases |es|
  {
    if es == [] then ws else Play(Next(ws, es[0]), es[1..])
  }

  predicate Sound(ws: seq<Worker>)
  {
    && (forall i | 0 <= i < |ws| :: ws[i].got <= |ws[i].plan| && Climbs(ws[i].plan))
    && (forall i, j, l | 0 <= i < |ws| && 0 <= j < |ws| && i != j && l in ws[i].plan[..ws[i].got] :: !Holds(ws[j], l))
  }

  lemma AcquireSound(ws: seq<Worker>, i: nat)
    requires Sound(ws) && i < |ws| && Wants(ws[i]) && !Blocked(ws, i)
    ensures Sound(ws[i := ws[i].(got := ws[i].got + 1)])
  {
    var w := ws[i];
    var taken := w.plan[w.got];
    assert w.plan[..w.got + 1] == w.plan[..w.got] + [taken];
    assert forall j | 0 <= j < |ws| && j != i :: !Holds(ws[j], taken) by {
      forall j | 0 <= j < |ws| && j != i ensures !Holds(ws[j], taken) {
        assert !WaitsFor(ws, i, j);
      }
    }
  }

  lemma NextSound(ws: seq<Worker>, e: Event)
    requires Sound(ws)
    ensures Sound(Next(ws, e))
  {
    match e
    case Begin(legs, extras) =>
      PlanClimbs(legs, extras);
      BeginSound(ws, LockPlan(legs, extras));
    case Acquire(i) =>
      if i < |ws| && Wants(ws[i]) && !Blocked(ws, i) {
        AcquireSound(ws, i);
      }
    case End(i) =>
  }

  lemma BeginSound(ws: seq<Worker>, plan: seq<Lock>)
    requires Sound(ws) && Climbs(plan)
    ensures Sound(ws + [Worker(plan, 0)])
  {
    assert forall i | 0 <= i < |ws| :: (ws + [Worker(plan, 0)])[i] == ws[i];
  }

  lemma {:induction false} PlaySound(ws: seq<Worker>, es: seq<Event>)
    requires Sound(ws)
    ensures Sound(Play(ws, es))
    decreases |es|
  {
    if es != [] {
      NextSound(ws, es[0]);
      PlaySound(Next(ws, es[0]), es[1..]);
    }
  }

  // ----- no deadlock ----------------------------------------------------------------------------------

  function Wanted(w: Worker): Lock
    requires Wants(w)
  {
    w.plan[w.got]
  }

  /** A waiter's wanted lock ranks below what its holder, if it waits too, wants next. */
  lemma WaitClimbs(ws: seq<Worker>, i: nat, j: nat)
    requires Sound(ws) && WaitsFor(ws, i, j) && Wants(ws[j])
    ensures Below(Wanted(ws[i]), Wanted(ws[j]))
  {
    var k :| 0 <= k < ws[j].got && ws[j].plan[k] == Wanted(ws[i]);
  }

  predicate WaitPath(ws: seq<Worker>, p: seq<nat>)
  {
    forall k | 0 <= k < |p| - 1 :: WaitsFor(ws, p[k], p[k + 1])
  }

  lemma {:induction false} PathClimbs(ws: seq<Worker>, p: seq<nat>)
    requires Sound(ws) && |p| >= 2 && WaitPath(ws, p)
    requires p[|p| - 1] < |ws| && Wants(ws[p[|p| - 1]])
    ensures WaitsFor(ws, p[0], p[1]) && Below(Wanted(ws[p[0]]), Wanted(ws[p[|p| - 1]]))
  {
    assert WaitsFor(ws, p[0], p[1]);
    if |p| > 2 {
      assert WaitsFor(ws, p[1], p[2]);
      assert WaitPath(ws, p[1..]) by {
        forall k | 0 <= k < |p[1..]| - 1 ensures WaitsFor(ws, p[1..][k], p[1..][k + 1]) {
          assert WaitsFor(ws, p[k + 1], p[k + 2]);
        }
      }
      PathClimbs(ws, p[1..]);
    }
    WaitClimbs(ws, p[0], p[1]);
  }

  /** In every reachable state the wait-for graph has no cycle, of any length. */
  lemma NeverCyclic(es: seq<Event>, p: seq<nat>)
    requires |p| >= 2 && WaitPath(Play([], es), p)
    ensures p[0] != p[|p| - 1]
  {
    PlaySound([], es);
    var ws := Play([], es);
    assert WaitsFor(ws, p[0], p[1]);
    if p[0] == p[|p| - 1] {
      PathClimbs(ws, p);
    }
  }

  predicate Active(ws: seq<Worker>, i: nat)
  {
    i < |ws| && ws[i].plan != []
  }

  /** Among waiting workers one wants a lock nobody waiting wants above. */
  lemma HighestWaiter(ws: seq<Worker>, n: nat, i: nat) returns (h: nat)
    requires i < n <= |ws| && Wants(ws[i])
    ensures h < n && Wants(ws[h])
    ensures forall j | 0 <= j < n && Wants(ws[j]) :: !Below(Wanted(ws[h]), Wanted(ws[j]))
  {
    h := i;
    for k := 0 to n
      invariant h < n && Wants(ws[h])
      invariant h == i || h < k
      invariant forall j | 0 <= j < k && Wants(ws[j]) :: !Below(Wanted(ws[h]), Wanted(ws[j]))
    {
      if Wants(ws[k]) && Below(Wanted(ws[h]), Wanted(ws[k])) {
        h := k;
      }
    }
  }

  /** In every reachable state with work in flight, some transaction can take its next lock or finish. */
  lemma AlwaysProgress(es: seq<Event>, i: nat) returns (free: nat)
    requires Active(Play([], es), i)
    ensures Active(Play([], es), free) && !Blocked(Play([], es), free)
  {
    PlaySound([], es);
    var ws := Play([], es);
    if !Wants(ws[i]) {
      free := i;
    } else {
      var h := HighestWaiter(ws, |ws|, i);
      if !Blocked(ws, h) {
        free := h;
      } else {
        var j :| 0 <= j < |ws| && WaitsFor(ws, h, j);
        free := j;
        if Wants(ws[j]) {
          WaitClimbs(ws, h, j);
        }
      }
    }
  }

  // ----- Go's order on UUID text is the database's order on UUID bytes -----------------------------------

  type Byte = n: nat | n < 256

  /** The character code of one lower-case hexadecimal digit. */
  function HexCode(d: nat): nat
    requires d < 16
  {
    if d < 10 then 48 + d else 87 + d
  }

  function HexPair(x: Byte): seq<nat>
  {
    [HexCode(x / 16), HexCode(x % 16)]
  }

  function Hyphen(i: nat): seq<nat>
  {
    if i == 4 || i == 6 || i == 8 || i == 10 then [45] else []
  }

  /** The character codes of a UUID's text from byte i on: hyphens before bytes 4, 6, 8 and 10. */
  function TextFrom(b: seq<Byte>, i: nat): seq<nat>
    requires |b| == 16 && i <= 16
    decreases 16 - i
  {
    if i == 16 then [] else Hyphen(i) + (HexPair(b[i]) + TextFrom(b, i + 1))
  }

  lemma LessAfterHyphen(i: nat, s: seq<nat>, t: seq<nat>)
    ensures LexLess(Hyphen(i) + s, Hyphen(i) + t) == LexLess(s, t)
  {
    if Hyphen(i) == [] {
      assert Hyphen(i) + s == s && Hyphen(i) + t == t;
    } else {
      assert ([45] + s)[1..] == s && ([45] + t)[1..] == t;
    }
  }

  lemma LessHexPair(x: Byte, y: Byte, s: seq<nat>, t: seq<nat>)
    ensures LexLess(HexPair(x) + s, HexPair(y) + t) <==> x < y || (x == y && LexLess(s, t))
  {
    var l, r := HexPair(x) + s, HexPair(y) + t;
    assert l[1..] == [HexCode(x % 16)] + s && r[1..] == [HexCode(y % 16)] + t;
    assert l[1..][1..] == s && r[1..][1..] == t;
  }

  lemma {:induction false} TextOrderFrom(a: seq<Byte>, b: seq<Byte>, i: nat)
    requires |a| == 16 && |b| == 16 && i <= 16
    ensures LexLess(TextFrom(a, i), TextFrom(b, i)) <==> LexLess(a[i..], b[i..])
    decreases 16 - i
  {
    if i < 16 {
      TextOrderFrom(a, b, i + 1);
      var s, t := TextFrom(a, i + 1), TextFrom(b, i + 1);
      LessHexPair(a[i], b[i], s, t);
      LessAfterHyphen(i, HexPair(a[i]) + s, HexPair(b[i]) + t);
      assert a[i..][1..] == a[i + 1..] && b[i..][1..] == b[i + 1..];
    }
  }

  /** The unsigned integer a big-endian byte string denotes. */
  function ValueOf(b: seq<Byte>): nat
  {
    if b == [] then 0 else ValueOf(b[..|b| - 1]) * 256 + b[|b| - 1]
  }

  lemma {:induction false} ByteOrderIsValueOrder(a: seq<Byte>, b: seq<Byte>)
    requires |a| == |b|
    ensures LexLess(a, b) <==> ValueOf(a) < ValueOf(b)
    ensures ValueOf(a) == ValueOf(b) ==> a == b
  {
    if a != [] {
      var n := |a| - 1;
      var s, t := a[..n], b[..n];
      assert a == s + [a[n]] && b == t + [b[n]];
      ByteOrderIsValueOrder(s, t);
      LexSnoc(s, a[n], t, b[n]);
    }
  }

  /** Sorting UUIDs by their text, by their bytes or as integers is one and the same order. */
  lemma UuidTextOrder(a: seq<Byte>, b: seq<Byte>)
    requires |a| == 16 && |b| == 16
    ensures LexLess(TextFrom(a, 0), TextFrom(b, 0)) <==> LexLess(a, b)
    ensures LexLess(TextFrom(a, 0), TextFrom(b, 0)) <==> ValueOf(a) < ValueOf(b)
  {
    TextOrderFrom(a, b, 0);
    ByteOrderIsValueOrder(a, b);
    assert a[0..] == a && b[0..] == b;
  }
}
