/** From a token stream to canonical text: the parser that refuses duplicate names, and the writers. */
module CanonicalDocument {
  import opened Collections
  import opened CanonicalNumber
  import opened Utf16Order
  import opened CanonicalJson

  // ----- parsing ------------------------------------------------------------------------------------------

  datatype Token =
    | NullToken | BoolToken(b: bool) | StrToken(s: string) | NumToken(x: Number)
    | OpenBracket | CloseBracket | OpenBrace | CloseBrace

  function ParseValue(ts: seq<Token>): (r: Option<(Value, seq<Token>)>)
    ensures r.Some? ==> |r.value.1| < |ts|
    decreases |ts|, 0
  {
    if ts == [] then None
    else
      match ts[0]
      case NullToken => Some((Null, ts[1..]))
      case BoolToken(b) => Some((Bool(b), ts[1..]))
      case StrToken(s) => Some((Str(s), ts[1..]))
      case NumToken(x) => Some((Num(x), ts[1..]))
      case OpenBracket =>
        var items := ParseItems(ts[1..]);
        if items.None? then None else Some((Arr(items.value.0), items.value.1))
      case OpenBrace =>
        var members := ParseMembers(ts[1..], []);
        if members.None? then None else Some((Obj(members.value.0), members.value.1))
      case _ => None
  }

  function ParseItems(ts: seq<Token>): (r: Option<(seq<Value>, seq<Token>)>)
    ensures r.Some? ==> |r.value.1| < |ts|
    decreases |ts|, 1
  {
    if ts == [] then None
    else if ts[0] == CloseBracket then Some(([], ts[1..]))
    else
      var v := ParseValue(ts);
      if v.None? then None
      else
        var more := ParseItems(v.value.1);
        if more.None? then None else Some(([v.value.0] + more.value.0, more.value.1))
  }

  /** A name seen before in the same object rejects the document. */
  function ParseMembers(ts: seq<Token>, seen: seq<string>): (r: Option<(seq<Member>, seq<Token>)>)
    ensures r.Some? ==> |r.value.1| < |ts|
    decreases |ts|, 1
  {
    if ts == [] then None
    else if ts[0] == CloseBrace then Some(([], ts[1..]))
    else if !ts[0].StrToken? || ts[0].s in seen then None
    else
      var v := ParseValue(ts[1..]);
      if v.None? then None
      else
        var more := ParseMembers(v.value.1, seen + [ts[0].s]);
        if more.None? then None else Some(([Member(ts[0].s, v.value.0)] + more.value.0, more.value.1))
  }

  // ----- the streams the parser accepts ----------------------------------------------------------------------

  function Tokens(v: Value): seq<Token>
    decreases v, 1, 0
  {
    match v
    case Null => [NullToken]
    case Bool(b) => [BoolToken(b)]
    case Str(s) => [StrToken(s)]
    case Num(x) => [NumToken(x)]
    case Arr(items) => [OpenBracket] + ItemTokens(v, 0)
    case Obj(ms) => [OpenBrace] + MemberTokens(v, 0)
  }

  function ItemTokens(v: Value, i: nat): seq<Token>
    requires v.Arr? && i <= |v.items|
    decreases v, 0, |v.items| - i
  {
    if i == |v.items| then [CloseBracket] else Tokens(v.items[i]) + ItemTokens(v, i + 1)
  }

  function MemberTokens(v: Value, i: nat): seq<Token>
    requires v.Obj? && i <= |v.members|
    decreases v, 0, |v.members| - i
  {
    if i == |v.members| then [CloseBrace]
    else [StrToken(v.members[i].key)] + (Tokens(v.members[i].value) + MemberTokens(v, i + 1))
  }

  predicate NoDuplicates(v: Value)
  {
    match v
    case Arr(items) => forall i | 0 <= i < |items| :: NoDuplicates(items[i])
    case Obj(ms) => Distinct(Keys(ms)) && forall i | 0 <= i < |ms| :: NoDuplicates(ms[i].value)
    case _ => true
  }

  lemma TokensStart(v: Value)
    ensures Tokens(v) != [] && Tokens(v)[0] != CloseBracket && Tokens(v)[0] != CloseBrace
  {
  }

  lemma {:induction false} ParseTokens(v: Value, rest: seq<Token>)
    requires NoDuplicates(v)
    ensures ParseValue(Tokens(v) + rest) == Some((v, rest))
    decreases v, 1, 0
  {
    var ts := Tokens(v) + rest;
    match v
    case Arr(items) =>
      assert ts[1..] == ItemTokens(v, 0) + rest;
      ParseItemTokens(v, 0, rest);
      assert items[0..] == items;
    case Obj(ms) =>
      assert ts[1..] == MemberTokens(v, 0) + rest;
      assert ms[0..] == ms && Keys(ms)[..0] == [];
      ParseMemberTokens(v, 0, rest);
    case _ => assert ts[1..] == rest;
  }

  lemma {:induction false} ParseItemTokens(v: Value, i: nat, rest: seq<Token>)
    requires v.Arr? && NoDuplicates(v) && i <= |v.items|
    ensures ParseItems(ItemTokens(v, i) + rest) == Some((v.items[i..], rest))
    decreases v, 0, |v.items| - i
  {
    var ts := ItemTokens(v, i) + rest;
    if i == |v.items| {
      assert ts[1..] == rest;
    } else {
      var tail := ItemTokens(v, i + 1) + rest;
      assert ts == Tokens(v.items[i]) + tail;
      TokensStart(v.items[i]);
      assert ts[0] == Tokens(v.items[i])[0];
      ParseTokens(v.items[i], tail);
      ParseItemTokens(v, i + 1, rest);
      assert [v.items[i]] + v.items[i + 1..] == v.items[i..];
    }
  }

  lemma {:induction false} ParseMemberTokens(v: Value, i: nat, rest: seq<Token>)
    requires v.Obj? && NoDuplicates(v) && i <= |v.members|
    ensures ParseMembers(MemberTokens(v, i) + rest, Keys(v.members)[..i]) == Some((v.members[i..], rest))
    decreases v, 0, |v.members| - i
  {
    var ts := MemberTokens(v, i) + rest;
    var ks := Keys(v.members);
    if i == |v.members| {
      assert ts[1..] == rest;
    } else {
      var m := v.members[i];
      var tail := MemberTokens(v, i + 1) + rest;
      assert ts[0] == StrToken(m.key) && ts[1..] == Tokens(m.value) + tail;
      assert ks[i] == m.key && m.key !in ks[..i];
      assert ks[..i] + [m.key] == ks[..i + 1];
      ParseTokens(m.value, tail);
      ParseMemberTokens(v, i + 1, rest);
      assert [m] + v.members[i + 1..] == v.members[i..];
    }
  }

  /** What was parsed is what was there, and no object in it names a member twice. */
  lemma {:induction false} ParsedExactly(ts: seq<Token>)
    requires ParseValue(ts).Some?
    ensures var (v, rest) := ParseValue(ts).value; NoDuplicates(v) && ts == Tokens(v) + rest
    decreases |ts|, 0
  {
    var (v, rest) := ParseValue(ts).value;
    assert ts == [ts[0]] + ts[1..];
    match ts[0]
    case OpenBracket =>
      ParsedItems(ts[1..]);
      ItemTokensAre(v, 0);
      assert v.items[0..] == v.items;
    case OpenBrace =>
      ParsedMembers(ts[1..], []);
      MemberTokensAre(v, 0);
      assert v.members[0..] == v.members;
    case _ =>
  }

  /** The tokens of a list of values, on the list itself. */
  function ListTokens(vs: seq<Value>): seq<Token>
  {
    if vs == [] then [CloseBracket] else Tokens(vs[0]) + ListTokens(vs[1..])
  }

  function PairTokens(ms: seq<Member>): seq<Token>
  {
    if ms == [] then [CloseBrace] else [StrToken(ms[0].key)] + (Tokens(ms[0].value) + PairTokens(ms[1..]))
  }

  lemma {:induction false} ItemTokensAre(v: Value, i: nat)
    requires v.Arr? && i <= |v.items|
    ensures ItemTokens(v, i) == ListTokens(v.items[i..])
    decreases |v.items| - i
  {
    if i < |v.items| {
      ItemTokensAre(v, i + 1);
      assert v.items[i..][1..] == v.items[i + 1..];
    }
  }

  lemma {:induction false} MemberTokensAre(v: Value, i: nat)
    requires v.Obj? && i <= |v.members|
    ensures MemberTokens(v, i) == PairTokens(v.members[i..])
    decreases |v.members| - i
  {
    if i < |v.members| {
      MemberTokensAre(v, i + 1);
      assert v.members[i..][1..] == v.members[i + 1..];
    }
  }

  lemma {:induction false} ParsedItems(ts: seq<Token>)
    requires ParseItems(ts).Some?
    ensures var (vs, rest) := ParseItems(ts).value;
            ts == ListTokens(vs) + rest && forall i | 0 <= i < |vs| :: NoDuplicates(vs[i])
    decreases |ts|, 1
  {
    assert ts == [ts[0]] + ts[1..];
    if ts[0] != CloseBracket {
      ParsedExactly(ts);
      var (v, u) := ParseValue(ts).value;
      ParsedItems(u);
      ListTokensCons(v, ParseItems(u).value.0, ParseItems(u).value.1);
    }
  }

  lemma ListTokensCons(v: Value, more: seq<Value>, rest: seq<Token>)
    ensures Tokens(v) + (ListTokens(more) + rest) == ListTokens([v] + more) + rest
  {
    assert ([v] + more)[1..] == more;
    assert ListTokens([v] + more) == Tokens(v) + ListTokens(more);
  }

  lemma PairTokensCons(m: Member, more: seq<Member>, rest: seq<Token>)
    ensures [StrToken(m.key)] + (Tokens(m.value) + (PairTokens(more) + rest)) == PairTokens([m] + more) + rest
  {
    assert ([m] + more)[1..] == more;
    assert PairTokens([m] + more) == [StrToken(m.key)] + (Tokens(m.value) + PairTokens(more));
  }

  lemma {:induction false} ParsedMembers(ts: seq<Token>, seen: seq<string>)
    requires ParseMembers(ts, seen).Some?
    ensures var (ms, rest) := ParseMembers(ts, seen).value;
            && ts == PairTokens(ms) + rest && Distinct(Keys(ms))
            && (forall i | 0 <= i < |ms| :: NoDuplicates(ms[i].value) && ms[i].key !in seen)
    decreases |ts|, 1
  {
    assert ts == [ts[0]] + ts[1..];
    if ts[0] != CloseBrace {
      var k := ts[0].s;
      ParsedExactly(ts[1..]);
      var (v, u) := ParseValue(ts[1..]).value;
      ParsedMembers(u, seen + [k]);
      var (more, rest) := ParseMembers(u, seen + [k]).value;
      var m := Member(k, v);
      PairTokensCons(m, more, rest);
      ConsDistinct(m, more, seen);
    }
  }

  lemma ConsDistinct(m: Member, more: seq<Member>, seen: seq<string>)
    requires Distinct(Keys(more)) && forall i | 0 <= i < |more| :: more[i].key !in seen + [m.key]
    ensures Distinct(Keys([m] + more))
  {
    var ks := Keys([m] + more);
    forall i, j | 0 <= i < j < |ks| ensures ks[i] != ks[j] {
      assert ks[j] == more[j - 1].key == Keys(more)[j - 1];
      assert i > 0 ==> ks[i] == Keys(more)[i - 1];
    }
  }

  // ----- the whole document ------------------------------------------------------------------------------------

  /** An empty body has the empty canonical form; anything after the value rejects the document. */
  function Canonicalize(ts: seq<Token>): Option<string>
  {
    if ts == [] then Some("")
    else
      var v := ParseValue(ts);
      if v.None? || v.value.1 != [] then None else Some(Print(v.value.0))
  }

  predicate NormalNumbers(ts: seq<Token>)
  {
    forall k | 0 <= k < |ts| && ts[k].NumToken? :: Normal(ts[k].x)
  }

  lemma {:induction false} NormalValue(v: Value)
    requires NoDuplicates(v) && NormalNumbers(Tokens(v))
    ensures WellFormed(v)
    decreases v
  {
    match v
    case Num(x) => assert Tokens(v)[0] == NumToken(x);
    case Arr(items) =>
      forall i | 0 <= i < |items| ensures WellFormed(items[i]) {
        ItemTokensInside(v, i, 0);
        NormalValue(items[i]);
      }
    case Obj(ms) =>
      forall i | 0 <= i < |ms| ensures WellFormed(ms[i].value) {
        MemberTokensInside(v, i, 0);
        NormalValue(ms[i].value);
      }
    case _ =>
  }

  lemma {:induction false} ItemTokensInside(v: Value, i: nat, from: nat)
    requires v.Arr? && from <= i < |v.items| && NormalNumbers([OpenBracket] + ItemTokens(v, from))
    ensures NormalNumbers(Tokens(v.items[i]))
    decreases i - from
  {
    var ts := [OpenBracket] + ItemTokens(v, from);
    var a, b := Tokens(v.items[from]), ItemTokens(v, from + 1);
    assert forall k | 0 <= k < |a| :: ts[k + 1] == a[k];
    assert forall k | 0 <= k < |b| :: ts[k + 1 + |a|] == b[k];
    if from < i {
      ItemTokensInside(v, i, from + 1);
    }
  }

  lemma {:induction false} MemberTokensInside(v: Value, i: nat, from: nat)
    requires v.Obj? && from <= i < |v.members| && NormalNumbers([OpenBrace] + MemberTokens(v, from))
    ensures NormalNumbers(Tokens(v.members[i].value))
    decreases i - from
  {
    var ts := [OpenBrace] + MemberTokens(v, from);
    var a, b := Tokens(v.members[from].value), MemberTokens(v, from + 1);
    assert forall k | 0 <= k < |a| :: ts[k + 2] == a[k];
    assert forall k | 0 <= k < |b| :: ts[k + 2 + |a|] == b[k];
    if from < i {
      MemberTokensInside(v, i, from + 1);
    }
  }

  /** A document is accepted exactly when it is empty or is one value without duplicate names. */
  lemma AcceptedExactly(ts: seq<Token>)
    ensures Canonicalize(ts).Some? <==> ts == [] || exists v :: NoDuplicates(v) && ts == Tokens(v)
  {
    if ts != [] && Canonicalize(ts).Some? {
      ParsedExactly(ts);
      assert ts == Tokens(ParseValue(ts).value.0);
    }
    if exists v :: NoDuplicates(v) && ts == Tokens(v) {
      var v :| NoDuplicates(v) && ts == Tokens(v);
      ParseTokens(v, []);
      assert Tokens(v) + [] == ts;
    }
  }

  /** Accepted documents share their canonical text exactly when they are the same document. */
  lemma SameTextIffSameDocument(ts: seq<Token>, us: seq<Token>)
    requires NormalNumbers(ts) && NormalNumbers(us) && Canonicalize(ts).Some? && Canonicalize(us).Some?
    ensures Canonicalize(ts) == Canonicalize(us) <==>
            if ts == [] || us == [] then ts == us else Same(ParseValue(ts).value.0, ParseValue(us).value.0)
  {
    if ts != [] {
      ParsedExactly(ts);
      assert ts == Tokens(ParseValue(ts).value.0);
      NormalValue(ParseValue(ts).value.0);
      PrintStarts(ParseValue(ts).value.0);
    }
    if us != [] {
      ParsedExactly(us);
      assert us == Tokens(ParseValue(us).value.0);
      NormalValue(ParseValue(us).value.0);
      PrintStarts(ParseValue(us).value.0);
    }
    if ts != [] && us != [] {
      SameTextIffSameValue(ParseValue(ts).value.0, ParseValue(us).value.0);
    }
  }

  // ----- the writers, over one shared buffer --------------------------------------------------------------------

  class Writer {
    var out: string

    constructor ()
      ensures out == ""
    {
      out := "";
    }

    method WriteString(s: string)
      modifies this
      ensures out == old(out) + Quote(s)
    {
      out := out + "\"";
      for i := 0 to |s|
        invariant out + Escaped(s[i..]) == old(out) + ("\"" + Escaped(s))
      {
        assert s[i..][0] == s[i] && s[i..][1..] == s[i + 1..];
        var piece := Escape(s[i]);
        assert out + (piece + Escaped(s[i + 1..])) == out + piece + Escaped(s[i + 1..]);
        out := out + piece;
      }
      assert s[|s|..] == "" && out + "" == out;
      out := out + "\"";
    }

    method WriteNumber(x: Number)
      modifies this
      ensures out == old(out) + NumberText(x)
    {
      if x.digits == [] {
        out := out + "0";
        return;
      }
      ghost var sign := if x.negative then "-" else "";
      if x.negative {
        out := out + "-";
      }
      assert out == old(out) + sign;
      var d, k, n := x.digits, |x.digits|, x.n;
      if k <= n <= 21 {
        Append3(old(out), sign, DigitText(d), DigitText(Zeros(n - k)), "");
        out := out + DigitText(d);
        out := out + DigitText(Zeros(n - k));
      } else if 0 < n <= 21 {
        Append3(old(out), sign, DigitText(d[..n]), ".", DigitText(d[n..]));
        out := out + DigitText(d[..n]);
        out := out + ".";
        out := out + DigitText(d[n..]);
      } else if -6 < n <= 0 {
        Append3(old(out), sign, "0.", DigitText(Zeros(-n)), DigitText(d));
        out := out + "0.";
        out := out + DigitText(Zeros(-n));
        out := out + DigitText(d);
      } else {
        Append3(old(out), sign, DigitText(d[..1]), PointPart(d[1..]), ExponentPart(n - 1));
        out := out + DigitText(d[..1]);
        out := out + PointPart(d[1..]);
        out := out + ExponentPart(n - 1);
      }
    }

    method WriteValue(v: Value)
      modifies this
      ensures out == old(out) + Print(v)
      decreases v, 2
    {
      match v
      case Null => out := out + "null";
      case Bool(b) => out := out + if b then "true" else "false";
      case Str(s) => WriteString(s);
      case Num(x) => WriteNumber(x);
      case Arr(items) => WriteArray(v);
      case Obj(ms) => WriteObject(v);
    }

    method WriteArray(v: Value)
      requires v.Arr?
      modifies this
      ensures out == old(out) + Print(v)
      decreases v, 1
    {
      out := out + "[";
      for i := 0 to |v.items|
        invariant out + ItemsLeft(v, i) == old(out) + ("[" + PrintItems(v, 0))
      {
        ghost var before := out;
        if i > 0 {
          out := out + ",";
        }
        ghost var comma := if i > 0 then "," else "";
        WriteValue(v.items[i]);
        assert ItemsLeft(v, i) == comma + (Print(v.items[i]) + ItemsLeft(v, i + 1));
        Regroup(before, comma, Print(v.items[i]), ItemsLeft(v, i + 1));
      }
      assert out + "" == out;
      out := out + "]";
      Bracket(old(out), "[", PrintItems(v, 0), "]");
    }

    /** Member names are sorted first; each value is then looked up under its name. */
    method WriteObject(v: Value)
      requires v.Obj?
      modifies this
      ensures out == old(out) + Print(v)
      decreases v, 1
    {
      KeysSorted(v.members);
      var ks := SortKeys(Keys(v.members));
      out := out + "{";
      for i := 0 to |ks|
        invariant out + MembersLeft(v, ks, i) == old(out) + ("{" + PrintMembers(v, ks))
      {
        ghost var before := out;
        WriteMember(v, ks, i);
        MembersLeftStep(v, ks, i);
        Append(before, MemberText(v, ks, i), MembersLeft(v, ks, i + 1));
      }
      assert out + "" == out;
      out := out + "}";
      Bracket(old(out), "{", PrintMembers(v, ks), "}");
    }

    method WriteMember(v: Value, ks: seq<string>, i: nat)
      requires v.Obj? && i < |ks| && forall k | k in ks :: k in Keys(v.members)
      modifies this
      ensures out == old(out) + MemberText(v, ks, i)
      decreases v, 0
    {
      ghost var comma := if i > 0 then "," else "";
      if i > 0 {
        out := out + ",";
      }
      assert out == old(out) + comma;
      WriteString(ks[i]);
      out := out + ":";
      var x := v.members[Find(v.members, ks[i])].value;
      WriteValue(x);
      Append4(old(out), comma, Quote(ks[i]), ":", Print(x));
    }
  }

  lemma Append(a: string, b: string, c: string)
    ensures a + (b + c) == a + b + c
  {
  }

  lemma Append3(o: string, s: string, a: string, b: string, c: string)
    ensures o + s + a + b + c == o + (s + (a + b + c))
    ensures c == "" ==> o + s + a + b == o + (s + (a + b))
  {
  }

  lemma Append4(o: string, a: string, b: string, c: string, d: string)
    ensures o + a + b + c + d == o + (a + (b + (c + d)))
  {
  }

  /** What the array loop still has to write when it reaches item i. */
  function ItemsLeft(v: Value, i: nat): string
    requires v.Arr? && i <= |v.items|
  {
    if i == |v.items| then "" else if i == 0 then PrintItems(v, 0) else "," + PrintItems(v, i)
  }

  function MembersLeft(v: Value, ks: seq<string>, i: nat): string
    requires v.Obj? && i <= |ks| && forall k | k in ks :: k in Keys(v.members)
  {
    if i == |ks| then "" else if i == 0 then PrintMembers(v, ks) else "," + PrintMembers(v, ks[i..])
  }

  function MemberText(v: Value, ks: seq<string>, i: nat): string
    requires v.Obj? && i < |ks| && forall k | k in ks :: k in Keys(v.members)
  {
    (if i > 0 then "," else "") + (Quote(ks[i]) + (":" + Print(v.members[Find(v.members, ks[i])].value)))
  }

  lemma MembersLeftStep(v: Value, ks: seq<string>, i: nat)
    requires v.Obj? && i < |ks| && forall k | k in ks :: k in Keys(v.members)
    ensures MembersLeft(v, ks, i) == MemberText(v, ks, i) + MembersLeft(v, ks, i + 1)
  {
    var comma, x := if i > 0 then "," else "", v.members[Find(v.members, ks[i])].value;
    var left := MembersLeft(v, ks, i + 1);
    assert ks[0..] == ks;
    assert ks[i..][0] == ks[i] && ks[i..][1..] == ks[i + 1..];
    assert PrintMembers(v, ks[i..]) == Quote(ks[i]) + (":" + (Print(x) + left));
    Bracket3(comma, Quote(ks[i]), ":", Print(x), left);
  }
}
