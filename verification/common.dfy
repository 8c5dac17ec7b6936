/** Sums, filters and ordered enumerations shared by every model in this project. */
module Collections {

  datatype Option<+T> = None | Some(value: T)

  datatype Result<+T, +E> = Ok(value: T) | Err(error: E)

  // ----- sums over sequences ------------------------------------------------

  function Sum<T>(f: T -> int, s: seq<T>): int
  {
    if s == [] then 0 else f(s[0]) + Sum(f, s[1..])
  }

  lemma {:induction false} SumConcat<T>(f: T -> int, s: seq<T>, t: seq<T>)
    ensures Sum(f, s + t) == Sum(f, s) + Sum(f, t)
  {
    if s == [] {
      assert s + t == t;
    } else {
      assert (s + t)[1..] == s[1..] + t;
      SumConcat(f, s[1..], t);
    }
  }

  /** Replacing one element changes the sum by exactly that element's change. */
  lemma SumUpdate<T>(f: T -> int, s: seq<T>, i: nat, x: T)
    requires i < |s|
    ensures Sum(f, s[i := x]) == Sum(f, s) - f(s[i]) + f(x)
  {
    assert s == s[..i] + ([s[i]] + s[i + 1..]);
    assert s[i := x] == s[..i] + ([x] + s[i + 1..]);
    SumConcat(f, s[..i], [s[i]] + s[i + 1..]);
    SumConcat(f, s[..i], [x] + s[i + 1..]);
    SumConcat(f, [s[i]], s[i + 1..]);
    SumConcat(f, [x], s[i + 1..]);
  }

  lemma SumSnoc<T>(f: T -> int, s: seq<T>, x: T)
    ensures Sum(f, s + [x]) == Sum(f, s) + f(x)
  {
    SumConcat(f, s, [x]);
  }

  lemma SumPair<T>(f: T -> int, x: T, y: T)
    ensures Sum(f, [x, y]) == f(x) + f(y)
  {
    assert [x, y][1..] == [y] && [y][1..] == [];
    assert Sum(f, [y]) == f(y) + Sum(f, []);
  }

  /** Two sequences whose elements have scaled effects, position by position, have scaled sums. */
  lemma {:induction false} SumPointwise<S, T>(f: S -> int, s: seq<S>, g: T -> int, t: seq<T>, k: int)
    requires |s| == |t|
    requires forall i | 0 <= i < |s| :: f(s[i]) == k * g(t[i])
    ensures Sum(f, s) == k * Sum(g, t)
  {
    if s != [] {
      forall i | 0 <= i < |s[1..]| ensures f(s[1..][i]) == k * g(t[1..][i]) {
        assert s[1..][i] == s[i + 1] && t[1..][i] == t[i + 1];
      }
      SumPointwise(f, s[1..], g, t[1..], k);
      assert k * (g(t[0]) + Sum(g, t[1..])) == k * g(t[0]) + k * Sum(g, t[1..]);
    }
  }

  lemma SumEqual<S, T>(f: S -> int, s: seq<S>, g: T -> int, t: seq<T>)
    requires |s| == |t|
    requires forall i | 0 <= i < |s| :: f(s[i]) == g(t[i])
    ensures Sum(f, s) == Sum(g, t)
  {
    SumPointwise(f, s, g, t, 1);
  }

  lemma {:induction false} SumZero<T>(f: T -> int, s: seq<T>)
    requires forall i | 0 <= i < |s| :: f(s[i]) == 0
    ensures Sum(f, s) == 0
  {
    if s != [] {
      assert forall i | 0 <= i < |s[1..]| :: s[1..][i] == s[i + 1];
      SumZero(f, s[1..]);
    }
  }

  /** A sum of magnitudes bounds the sum of the signed values it dominates. */
  lemma {:induction false} SumBetween<T>(lo: T -> int, f: T -> int, hi: T -> int, s: seq<T>)
    requires forall i | 0 <= i < |s| :: lo(s[i]) <= f(s[i]) <= hi(s[i])
    ensures Sum(lo, s) <= Sum(f, s) <= Sum(hi, s)
  {
    if s != [] {
      assert forall i | 0 <= i < |s[1..]| :: s[1..][i] == s[i + 1];
      SumBetween(lo, f, hi, s[1..]);
    }
  }

  lemma {:induction false} SumNonNegative<T>(f: T -> int, s: seq<T>)
    requires forall i | 0 <= i < |s| :: 0 <= f(s[i])
    ensures 0 <= Sum(f, s)
    ensures forall i | 0 <= i < |s| :: f(s[i]) <= Sum(f, s)
  {
    if s != [] {
      assert forall i | 0 <= i < |s[1..]| :: s[1..][i] == s[i + 1];
      SumNonNegative(f, s[1..]);
      forall i | 0 <= i < |s| ensures f(s[i]) <= Sum(f, s) {
        if i > 0 {
          assert s[i] == s[1..][i - 1];
        }
      }
    }
  }

  // ----- filters ------------------------------------------------------------

  function Filter<T>(p: T -> bool, s: seq<T>): seq<T>
  {
    if s == [] then [] else (if p(s[0]) then [s[0]] else []) + Filter(p, s[1..])
  }

  lemma {:induction false} FilterConcat<T>(p: T -> bool, s: seq<T>, t: seq<T>)
    ensures Filter(p, s + t) == Filter(p, s) + Filter(p, t)
  {
    if s == [] {
      assert s + t == t;
    } else {
      FilterConcat(p, s[1..], t);
      var head := if p(s[0]) then [s[0]] else [];
      assert (s + t)[0] == s[0] && (s + t)[1..] == s[1..] + t;
      assert head + (Filter(p, s[1..]) + Filter(p, t)) == head + Filter(p, s[1..]) + Filter(p, t);
    }
  }

  lemma {:induction false} FilterMember<T>(p: T -> bool, s: seq<T>, x: T)
    ensures x in Filter(p, s) <==> x in s && p(x)
  {
    if s != [] {
      FilterMember(p, s[1..], x);
      assert s == [s[0]] + s[1..];
    }
  }

  lemma {:induction false} FilterAll<T>(p: T -> bool, s: seq<T>)
    requires forall i | 0 <= i < |s| :: p(s[i])
    ensures Filter(p, s) == s
  {
    if s != [] {
      assert forall i | 0 <= i < |s[1..]| :: s[1..][i] == s[i + 1];
      FilterAll(p, s[1..]);
    }
  }

  lemma {:induction false} FilterNone<T>(p: T -> bool, s: seq<T>)
    requires forall i | 0 <= i < |s| :: !p(s[i])
    ensures Filter(p, s) == []
  {
    if s != [] {
      assert forall i | 0 <= i < |s[1..]| :: s[1..][i] == s[i + 1];
      FilterNone(p, s[1..]);
    }
  }

  /** A filter that exactly one position passes keeps exactly that element. */
  lemma {:induction false} FilterOne<T>(p: T -> bool, s: seq<T>, k: nat)
    requires k < |s| && p(s[k])
    requires forall i | 0 <= i < |s| && i != k :: !p(s[i])
    ensures Filter(p, s) == [s[k]]
  {
    var rest := s[1..];
    if k == 0 {
      FilterNone(p, rest);
    } else {
      assert !p(s[0]);
      FilterOne(p, rest, k - 1);
    }
  }

  // ----- sums over finite sets of ids ----------------------------------------

  lemma {:induction false} FindMin(s: set<nat>) returns (m: nat)
    requires s != {}
    ensures m in s && forall x | x in s :: m <= x
    decreases s
  {
    var y :| y in s;
    m := y;
    if s - {y} != {} {
      var n := FindMin(s - {y});
      m := if y <= n then y else n;
    }
    forall x | x in s ensures m <= x {
      assert x == y || x in s - {y};
    }
  }

  lemma MinExists(s: set<nat>)
    requires s != {}
    ensures exists m :: m in s && forall x | x in s :: m <= x
  {
    var m := FindMin(s);
  }

  ghost function Min(s: set<nat>): (m: nat)
    requires s != {}
    ensures m in s && forall x | x in s :: m <= x
  {
    MinExists(s);
    var m :| m in s && forall x | x in s :: m <= x;
    m
  }

  ghost function SumOver(f: nat -> int, s: set<nat>): int
  {
    if s == {} then 0 else f(Min(s)) + SumOver(f, s - {Min(s)})
  }

  /** The sum does not depend on which element is taken out first. */
  lemma {:induction false} SumOverSplit(f: nat -> int, s: set<nat>, x: nat)
    requires x in s
    ensures SumOver(f, s) == f(x) + SumOver(f, s - {x})
    decreases s
  {
    var m := Min(s);
    if x != m {
      SumOverSplit(f, s - {m}, x);
      assert s - {x} - {m} == s - {m} - {x};
      SumOverSplit(f, s - {x}, m);
    }
  }

  lemma {:induction false} SumOverEqual(f: nat -> int, g: nat -> int, s: set<nat>)
    requires forall x | x in s :: f(x) == g(x)
    ensures SumOver(f, s) == SumOver(g, s)
    decreases s
  {
    if s != {} {
      SumOverEqual(f, g, s - {Min(s)});
    }
  }

  /** A function that differs from another at one element moves the sum by that difference. */
  lemma SumOverOne(f: nat -> int, g: nat -> int, s: set<nat>, x: nat)
    requires x in s
    requires forall y | y in s && y != x :: g(y) == f(y)
    ensures SumOver(g, s) == SumOver(f, s) - f(x) + g(x)
  {
    SumOverSplit(f, s, x);
    SumOverSplit(g, s, x);
    SumOverEqual(f, g, s - {x});
  }

  lemma SumOverSingle(f: nat -> int, x: nat)
    ensures SumOver(f, {x}) == f(x)
  {
    SumOverSplit(f, {x}, x);
    assert {x} - {x} == {};
  }

  lemma SumOverPair(f: nat -> int, x: nat, y: nat)
    requires x != y
    ensures SumOver(f, {x, y}) == f(x) + f(y)
  {
    SumOverSplit(f, {x, y}, x);
    assert {x, y} - {x} == {y};
    SumOverSingle(f, y);
  }

  lemma {:induction false} SumOverNonNegative(f: nat -> int, s: set<nat>)
    requires forall x | x in s :: 0 <= f(x)
    ensures 0 <= SumOver(f, s)
    decreases s
  {
    if s != {} {
      SumOverNonNegative(f, s - {Min(s)});
    }
  }

  // ----- strictly ascending id lists -----------------------------------------

  predicate Ascending(s: seq<nat>)
  {
    forall i, j | 0 <= i < j < |s| :: s[i] < s[j]
  }

  /** A strictly ascending list is determined by the set of its elements. */
  lemma {:induction false} AscendingUnique(s: seq<nat>, t: seq<nat>)
    requires Ascending(s) && Ascending(t)
    requires forall x :: x in s <==> x in t
    ensures s == t
  {
    assert |s| > 0 ==> s[0] in t;
    assert |t| > 0 ==> t[0] in s;
    if s != [] && t != [] {
      AscendingHead(s, t);
      forall x ensures x in s[1..] <==> x in t[1..] {
        AscendingTail(s, x);
        AscendingTail(t, x);
      }
      AscendingUnique(s[1..], t[1..]);
      assert s == [s[0]] + s[1..] && t == [t[0]] + t[1..];
    }
  }

  lemma AscendingHead(s: seq<nat>, t: seq<nat>)
    requires Ascending(s) && Ascending(t) && s != [] && t != []
    requires forall x :: x in s <==> x in t
    ensures s[0] == t[0]
  {
    assert s[0] in t && t[0] in s;
    var i :| 0 <= i < |t| && t[i] == s[0];
    var j :| 0 <= j < |s| && s[j] == t[0];
  }

  lemma AscendingTail(s: seq<nat>, x: nat)
    requires Ascending(s) && s != []
    ensures x in s[1..] <==> x in s && x != s[0]
  {
    assert s == [s[0]] + s[1..];
  }

  /** Inserts an id into a strictly ascending list, keeping one copy. */
  function InsertAscending(x: nat, s: seq<nat>): (r: seq<nat>)
    requires Ascending(s)
    ensures Ascending(r)
    ensures forall y :: y in r <==> y == x || y in s
  {
    if s == [] then [x]
    else if x < s[0] then [x] + s
    else if x == s[0] then s
    else
      AscendingTailBound(s, x);
      var rest := InsertAscending(x, s[1..]);
      assert forall k | 0 <= k < |rest| :: rest[k] in rest;
      [s[0]] + rest
  }

  lemma AscendingTailBound(s: seq<nat>, x: nat)
    requires Ascending(s) && s != []
    requires s[0] < x
    ensures Ascending(s[1..])
    ensures forall y | y in s[1..] || y == x :: s[0] < y
    ensures forall y :: y in s <==> y == s[0] || y in s[1..]
  {
    assert s == [s[0]] + s[1..];
  }

  // ----- lexicographic order ---------------------------------------------------

  predicate LexLess(s: seq<nat>, t: seq<nat>)
  {
    t != [] && (s == [] || s[0] < t[0] || (s[0] == t[0] && LexLess(s[1..], t[1..])))
  }

  lemma {:induction false} LexTotal(s: seq<nat>, t: seq<nat>)
    ensures LexLess(s, t) || LexLess(t, s) || s == t
    ensures !(LexLess(s, t) && LexLess(t, s))
    ensures !LexLess(s, s)
  {
    if s != [] {
      LexTotal(s[1..], s[1..]);
      if t != [] {
        LexTotal(s[1..], t[1..]);
        assert s == [s[0]] + s[1..] && t == [t[0]] + t[1..];
      }
    }
  }

  lemma {:induction false} LexTransitive(s: seq<nat>, t: seq<nat>, u: seq<nat>)
    requires LexLess(s, t) && LexLess(t, u)
    ensures LexLess(s, u)
  {
    if s != [] && s[0] == t[0] == u[0] {
      LexTransitive(s[1..], t[1..], u[1..]);
    }
  }

  lemma {:induction false} LexSnoc(s: seq<nat>, x: nat, t: seq<nat>, y: nat)
    requires |s| == |t|
    ensures LexLess(s + [x], t + [y]) <==> LexLess(s, t) || (s == t && x < y)
  {
    if s == [] {
      assert s + [x] == [x] && t + [y] == [y];
    } else {
      assert (s + [x])[1..] == s[1..] + [x] && (t + [y])[1..] == t[1..] + [y];
      LexSnoc(s[1..], x, t[1..], y);
      assert s == [s[0]] + s[1..] && t == [t[0]] + t[1..];
    }
  }
}
