/** The key order of canonical JSON: lexicographic on UTF-16 code units. */
module Utf16Order {
  import opened Collections

  /** One Unicode scalar as one or two code units. */
  function Units(c: char): (r: seq<nat>)
    ensures |r| == 1 || |r| == 2
  {
    var p := c as nat;
    if p < 0x10000 then [p] else [0xD800 + (p - 0x10000) / 0x400, 0xDC00 + (p - 0x10000) % 0x400]
  }

  function Utf16(s: string): seq<nat>
  {
    if s == "" then [] else Units(s[0]) + Utf16(s[1..])
  }

  lemma UnitsInjective(a: char, b: char)
    requires Units(a)[0] == Units(b)[0] && (|Units(a)| == 2 && |Units(b)| == 2 ==> Units(a)[1] == Units(b)[1])
    ensures |Units(a)| == |Units(b)| && a == b
  {
    var p, q := a as nat, b as nat;
    assert |Units(a)| == 2 ==> 0xD800 <= Units(a)[0] < 0xDC00;
    assert |Units(b)| == 2 ==> 0xD800 <= Units(b)[0] < 0xDC00;
    assert a as nat == b as nat;
  }

  /** A scalar beyond the first plane is its high surrogate's bits followed by its low surrogate's. */
  lemma SurrogatePair(c: char)
    requires c as nat >= 0x10000
    ensures var u := Units(c);
            && |u| == 2 && 0xD800 <= u[0] < 0xDC00 && 0xDC00 <= u[1] < 0xE000
            && c as nat == 0x10000 + 0x400 * (u[0] - 0xD800) + (u[1] - 0xDC00)
  {
  }

  /** No two strings share their code units. */
  lemma {:induction false} Utf16Injective(s: string, t: string)
    requires Utf16(s) == Utf16(t)
    ensures s == t
  {
    if s != "" && t != "" {
      var a, b := Units(s[0]), Units(t[0]);
      assert Utf16(s)[0] == a[0] && Utf16(t)[0] == b[0];
      assert |a| == 2 ==> Utf16(s)[1] == a[1];
      assert |b| == 2 ==> Utf16(t)[1] == b[1];
      UnitsInjective(s[0], t[0]);
      assert Utf16(s)[|a|..] == Utf16(s[1..]) && Utf16(t)[|b|..] == Utf16(t[1..]);
      Utf16Injective(s[1..], t[1..]);
      assert s == [s[0]] + s[1..] && t == [t[0]] + t[1..];
    }
  }

  predicate Less(a: string, b: string)
  {
    LexLess(Utf16(a), Utf16(b))
  }

  /** Less is a strict total order on strings. */
  lemma LessTotal(a: string, b: string)
    ensures !Less(a, a)
    ensures !(Less(a, b) && Less(b, a))
    ensures Less(a, b) || Less(b, a) || a == b
  {
    LexTotal(Utf16(a), Utf16(b));
    if Utf16(a) == Utf16(b) {
      Utf16Injective(a, b);
    }
  }

  lemma LessTransitive(a: string, b: string, c: string)
    requires Less(a, b) && Less(b, c)
    ensures Less(a, c)
  {
    LexTransitive(Utf16(a), Utf16(b), Utf16(c));
  }

  /** The order is not the order of code points: a supplementary character sorts below U+E000. */
  lemma SurrogatesSortLow(a: char, b: char)
    requires a as nat >= 0x10000 && 0xE000 <= b as nat < 0x10000
    ensures Less([a], [b])
  {
    assert Utf16([a])[0] == Units(a)[0] && Utf16([b])[0] == Units(b)[0];
  }

  lemma {:induction false} CommonPrefix(s: seq<nat>, t: seq<nat>, i: nat)
    requires i <= |s| && i <= |t| && s[..i] == t[..i]
    ensures LexLess(s, t) == LexLess(s[i..], t[i..])
  {
    if i > 0 {
      assert s[..i][0] == s[0] && t[..i][0] == t[0];
      assert s[1..][..i - 1] == s[..i][1..] && t[1..][..i - 1] == t[..i][1..];
      CommonPrefix(s[1..], t[1..], i - 1);
      assert s[1..][i - 1..] == s[i..] && t[1..][i - 1..] == t[i..];
    }
  }

  /** Compares two keys unit by unit, the shorter first when one is a prefix of the other. */
  method LessUtf16(a: string, b: string) returns (r: bool)
    ensures r <==> Less(a, b)
  {
    var left, right := Utf16(a), Utf16(b);
    var i := 0;
    while i < |left| && i < |right|
      invariant i <= |left| && i <= |right| && left[..i] == right[..i]
    {
      if left[i] != right[i] {
        CommonPrefix(left, right, i);
        return left[i] < right[i];
      }
      assert left[..i + 1] == left[..i] + [left[i]] && right[..i + 1] == right[..i] + [right[i]];
      i := i + 1;
    }
    CommonPrefix(left, right, i);
    return |left| < |right|;
  }

  // ----- sorting keys ---------------------------------------------------------------------------------

  predicate Sorted(ks: seq<string>)
  {
    forall i, j | 0 <= i < j < |ks| :: Less(ks[i], ks[j])
  }

  predicate Distinct(ks: seq<string>)
  {
    forall i, j | 0 <= i < j < |ks| :: ks[i] != ks[j]
  }

  function Insert(k: string, ks: seq<string>): seq<string>
  {
    if ks == [] then [k]
    else if Less(k, ks[0]) then [k] + ks
    else [ks[0]] + Insert(k, ks[1..])
  }

  function SortKeys(ks: seq<string>): seq<string>
  {
    if ks == [] then [] else Insert(ks[0], SortKeys(ks[1..]))
  }

  lemma {:induction false} InsertMembers(k: string, ks: seq<string>, x: string)
    ensures x in Insert(k, ks) <==> x == k || x in ks
    ensures |Insert(k, ks)| == |ks| + 1
  {
    if ks != [] {
      assert ks == [ks[0]] + ks[1..];
      InsertMembers(k, ks[1..], x);
    }
  }

  lemma {:induction false} SortMembers(ks: seq<string>, x: string)
    ensures x in SortKeys(ks) <==> x in ks
    ensures |SortKeys(ks)| == |ks|
  {
    if ks != [] {
      assert ks == [ks[0]] + ks[1..];
      SortMembers(ks[1..], x);
      InsertMembers(ks[0], SortKeys(ks[1..]), x);
    }
  }

  lemma SortedCons(k: string, ks: seq<string>)
    requires Sorted(ks) && forall x | x in ks :: Less(k, x)
    ensures Sorted([k] + ks)
  {
    var r := [k] + ks;
    forall i, j | 0 <= i < j < |r| ensures Less(r[i], r[j]) {
      assert r[j] == ks[j - 1] && ks[j - 1] in ks;
      assert i > 0 ==> r[i] == ks[i - 1];
    }
  }

  lemma SortedHead(ks: seq<string>, x: string)
    requires Sorted(ks) && ks != [] && x in ks[1..]
    ensures Sorted(ks[1..]) && Less(ks[0], x)
  {
    var i :| 0 <= i < |ks[1..]| && ks[1..][i] == x;
    assert ks[i + 1] == x;
  }

  lemma {:induction false} InsertSorted(k: string, ks: seq<string>)
    requires Sorted(ks) && k !in ks
    ensures Sorted(Insert(k, ks))
  {
    if ks == [] {
    } else if Less(k, ks[0]) {
      forall x | x in ks ensures Less(k, x) {
        if x != ks[0] {
          assert ks == [ks[0]] + ks[1..];
          SortedHead(ks, x);
          LessTransitive(k, ks[0], x);
        }
      }
      SortedCons(k, ks);
    } else {
      assert k != ks[0];
      LessTotal(k, ks[0]);
      assert Sorted(ks[1..]) && k !in ks[1..];
      InsertSorted(k, ks[1..]);
      forall x | x in Insert(k, ks[1..]) ensures Less(ks[0], x) {
        InsertMembers(k, ks[1..], x);
        if x != k {
          SortedHead(ks, x);
        }
      }
      SortedCons(ks[0], Insert(k, ks[1..]));
    }
  }

  lemma {:induction false} SortSorts(ks: seq<string>)
    requires Distinct(ks)
    ensures Sorted(SortKeys(ks))
  {
    if ks != [] {
      assert Distinct(ks[1..]) by {
        assert forall i | 0 <= i < |ks[1..]| :: ks[1..][i] == ks[i + 1];
      }
      SortSorts(ks[1..]);
      SortMembers(ks[1..], ks[0]);
      assert ks[0] !in ks[1..] by {
        assert forall i | 0 <= i < |ks[1..]| :: ks[1..][i] == ks[i + 1];
      }
      InsertSorted(ks[0], SortKeys(ks[1..]));
    }
  }

  /** A sorted list of keys is determined by the set of its keys. */
  lemma {:induction false} SortedUnique(s: seq<string>, t: seq<string>)
    requires Sorted(s) && Sorted(t) && forall x :: x in s <==> x in t
    ensures s == t
  {
    assert |s| > 0 ==> s[0] in t;
    assert |t| > 0 ==> t[0] in s;
    if s != [] && t != [] {
      SameHead(s, t);
      forall x ensures x in s[1..] <==> x in t[1..] {
        TailMember(s, x);
        TailMember(t, x);
      }
      SortedUnique(s[1..], t[1..]);
      assert s == [s[0]] + s[1..] && t == [t[0]] + t[1..];
    }
  }

  lemma TailMember(s: seq<string>, x: string)
    requires Sorted(s) && s != []
    ensures Sorted(s[1..]) && (x in s[1..] <==> x in s && x != s[0])
  {
    assert s == [s[0]] + s[1..];
    LessTotal(s[0], s[0]);
    if x in s[1..] {
      SortedHead(s, x);
    }
  }

  lemma SameHead(s: seq<string>, t: seq<string>)
    requires Sorted(s) && Sorted(t) && s != [] && t != [] && forall x :: x in s <==> x in t
    ensures s[0] == t[0]
  {
    assert s[0] in t && t[0] in s;
    TailMember(s, t[0]);
    TailMember(t, s[0]);
    if s[0] != t[0] {
      SortedHead(s, t[0]);
      SortedHead(t, s[0]);
      LessTotal(s[0], t[0]);
    }
  }

  /** Sorting forgets the order the keys came in, and sorted keys sort to themselves. */
  lemma SortCanonical(ks: seq<string>, ls: seq<string>)
    requires Distinct(ks) && Distinct(ls) && forall x :: x in ks <==> x in ls
    ensures SortKeys(ks) == SortKeys(ls)
  {
    SortSorts(ks);
    SortSorts(ls);
    forall x ensures x in SortKeys(ks) <==> x in SortKeys(ls) {
      SortMembers(ks, x);
      SortMembers(ls, x);
    }
    SortedUnique(SortKeys(ks), SortKeys(ls));
  }

  lemma SortIdempotent(ks: seq<string>)
    requires Distinct(ks)
    ensures Distinct(SortKeys(ks)) && SortKeys(SortKeys(ks)) == SortKeys(ks)
  {
    var s := SortKeys(ks);
    SortSorts(ks);
    forall i, j | 0 <= i < j < |s| ensures s[i] != s[j] {
      LessTotal(s[i], s[j]);
    }
    SortSorts(s);
    forall x ensures x in SortKeys(s) <==> x in s {
      SortMembers(s, x);
    }
    SortedUnique(SortKeys(s), s);
  }
}
