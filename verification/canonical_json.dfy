/** Canonical JSON: one text per value, whatever order an object's members came in. */
module CanonicalJson {
  import opened Collections
  import opened CanonicalNumber
  import opened Utf16Order

  datatype Member = Member(key: string, value: Value)

  datatype Value =
    | Null
    | Bool(b: bool)
    | Str(s: string)
    | Num(x: Number)
    | Arr(items: seq<Value>)
    | Obj(members: seq<Member>)

  function Keys(ms: seq<Member>): (r: seq<string>)
    ensures |r| == |ms| && forall i | 0 <= i < |ms| :: r[i] == ms[i].key
  {
    seq(|ms|, i requires 0 <= i < |ms| => ms[i].key)
  }

  /** What the parser accepts: numbers in shortest form and no duplicate member names. */
  predicate WellFormed(v: Value)
  {
    match v
    case Num(x) => Normal(x)
    case Arr(items) => forall i | 0 <= i < |items| :: WellFormed(items[i])
    case Obj(ms) => Distinct(Keys(ms)) && forall i | 0 <= i < |ms| :: WellFormed(ms[i].value)
    case _ => true
  }

  function Position(ks: seq<string>, k: string): (i: nat)
    requires k in ks
    ensures i < |ks| && ks[i] == k
  {
    if ks[0] == k then 0 else Position(ks[1..], k) + 1
  }

  /** Where a member name is found. */
  function Find(ms: seq<Member>, k: string): (i: nat)
    requires k in Keys(ms)
    ensures i < |ms| && ms[i].key == k
  {
    Position(Keys(ms), k)
  }

  lemma FindUnique(ms: seq<Member>, i: nat)
    requires Distinct(Keys(ms)) && i < |ms|
    ensures ms[i].key in Keys(ms) && Find(ms, ms[i].key) == i
  {
    var ks := Keys(ms);
    assert ks[i] == ms[i].key;
    assert ks[Position(ks, ks[i])] == ks[i];
  }

  // ----- strings -------------------------------------------------------------------------------------------

  function HexChar(d: nat): char
    requires d < 16
  {
    if d < 10 then '0' + d as char else 'a' + (d - 10) as char
  }

  /** The shortest escape of a character that needs one. */
  function Escape(c: char): (r: string)
    ensures r != ""
  {
    if c == '"' then "\\\""
    else if c == '\\' then "\\\\"
    else if c == '\U{0008}' then "\\b"
    else if c == '\U{000C}' then "\\f"
    else if c == '\n' then "\\n"
    else if c == '\r' then "\\r"
    else if c == '\t' then "\\t"
    else if c < ' ' then "\\u00" + [HexChar(c as nat / 16), HexChar(c as nat % 16)]
    else [c]
  }

  function Escaped(s: string): string
  {
    if s == "" then "" else Escape(s[0]) + Escaped(s[1..])
  }

  function Quote(s: string): string
  {
    "\"" + (Escaped(s) + "\"")
  }

  /** One hexadecimal digit, in either case. */
  function HexValue(c: char): (r: Option<nat>)
    ensures r.Some? ==> r.value < 16
  {
    if '0' <= c <= '9' then Some((c - '0') as nat)
    else if 'a' <= c <= 'f' then Some((c - 'a') as nat + 10)
    else if 'A' <= c <= 'F' then Some((c - 'A') as nat + 10)
    else None
  }

  /** The UTF-16 unit that a backslash, a `u` and four digits stand for. */
  function TakeUnit(t: string): (r: Option<nat>)
    ensures r.Some? ==> |t| >= 6 && r.value < 0x1_0000
  {
    if |t| < 6 || t[0] != '\\' || t[1] != 'u' then None
    else
      match (HexValue(t[2]), HexValue(t[3]), HexValue(t[4]), HexValue(t[5]))
      case (Some(a), Some(b), Some(c), Some(d)) => Some(4096 * a + 256 * b + 16 * c + d)
      case _ => None
  }

  const REPLACEMENT: char := '\U{FFFD}'

  /** A unit is its own character, a surrogate pair is one character, and half a pair is replaced. */
  function TakeUnits(t: string): (r: Option<(char, string)>)
    ensures r.Some? ==> |r.value.1| + 6 <= |t|
  {
    var high := TakeUnit(t);
    if high.None? then None
    else if high.value < 0xD800 || 0xE000 <= high.value then Some((high.value as char, t[6..]))
    else
      var low := TakeUnit(t[6..]);
      if high.value < 0xDC00 && low.Some? && 0xDC00 <= low.value < 0xE000
      then Some(((0x1_0000 + 0x400 * (high.value - 0xD800) + (low.value - 0xDC00)) as char, t[12..]))
      else Some((REPLACEMENT, t[6..]))
  }

  /** One character of a quoted string, escaped or not. */
  function TakeChar(t: string): (r: Option<(char, string)>)
    ensures r.Some? ==> |r.value.1| < |t|
  {
    if t == "" then None
    else if t[0] != '\\' then Some((t[0], t[1..]))
    else if |t| < 2 then None
    else if t[1] == '"' then Some(('"', t[2..]))
    else if t[1] == '\\' then Some(('\\', t[2..]))
    else if t[1] == '/' then Some(('/', t[2..]))
    else if t[1] == 'b' then Some(('\U{0008}', t[2..]))
    else if t[1] == 'f' then Some(('\U{000C}', t[2..]))
    else if t[1] == 'n' then Some(('\n', t[2..]))
    else if t[1] == 'r' then Some(('\r', t[2..]))
    else if t[1] == 't' then Some(('\t', t[2..]))
    else TakeUnits(t)
  }

  /** The characters up to the closing quote. */
  function TakeChars(t: string): (r: Option<(string, string)>)
    ensures r.Some? ==> |r.value.1| < |t|
    decreases |t|
  {
    if t == "" then None
    else if t[0] == '"' then Some(("", t[1..]))
    else
      var c := TakeChar(t);
      if c.None? then None
      else
        var more := TakeChars(c.value.1);
        if more.None? then None else Some(([c.value.0] + more.value.0, more.value.1))
  }

  lemma HexBack(d: nat)
    requires d < 16
    ensures HexValue(HexChar(d)) == Some(d)
  {
  }

  /** Escapes are written in lower case. */
  lemma EscapeIsLower(c: char, x: char)
    requires c < ' ' && x in Escape(c)
    ensures !('A' <= x <= 'Z')
  {
  }

  lemma EscapeBack(c: char, rest: string)
    ensures TakeChar(Escape(c) + rest) == Some((c, rest))
    ensures (Escape(c) + rest)[0] != '"'
  {
    var t := Escape(c) + rest;
    if c != '"' && c != '\\' && c < ' ' && |Escape(c)| == 6 {
      HexBack(0);
      HexBack(c as nat / 16);
      HexBack(c as nat % 16);
      assert TakeUnit(t) == Some(c as nat) && t[6..] == rest;
    } else if |Escape(c)| == 2 {
      assert t[2..] == rest;
    } else {
      assert t[1..] == rest;
    }
  }

  /** A spelling of a character inside a JSON string: raw, a short escape, or one or two four-digit escapes. */
  predicate Spells(e: string, c: char)
  {
    e != "" && e[0] != '"' && e[0] >= ' ' && TakeChar(e) == Some((c, ""))
  }

  /** No spelling of a character is shorter than the one that is written. */
  lemma EscapeShortest(c: char, e: string)
    requires Spells(e, c)
    ensures Spells(Escape(c), c) && |Escape(c)| <= |e|
  {
    EscapeBack(c, "");
    assert Escape(c) + "" == Escape(c);
  }

  lemma TakeCharsStep(t: string, c: char, inner: string, s: string, rest: string)
    requires t != "" && t[0] != '"' && TakeChar(t) == Some((c, inner)) && TakeChars(inner) == Some((s, rest))
    ensures TakeChars(t) == Some(([c] + s, rest))
  {
  }

  lemma CharBack(c: char, s: string, rest: string, tail: string)
    requires TakeChars(Escaped(s) + tail) == Some((s, rest))
    ensures TakeChars(Escape(c) + Escaped(s) + tail) == Some(([c] + s, rest))
  {
    var inner := Escaped(s) + tail;
    assert Escape(c) + Escaped(s) + tail == Escape(c) + inner;
    EscapeBack(c, inner);
    TakeCharsStep(Escape(c) + inner, c, inner, s, rest);
  }

  /** A quoted string ends where it says it ends. */
  lemma {:induction false} CharsBack(s: string, rest: string)
    ensures TakeChars(Escaped(s) + ("\"" + rest)) == Some((s, rest))
  {
    var tail := "\"" + rest;
    if s == "" {
      assert Escaped(s) + tail == tail && tail[1..] == rest;
    } else {
      CharsBack(s[1..], rest);
      CharBack(s[0], s[1..], rest, tail);
      assert [s[0]] + s[1..] == s;
    }
  }

  lemma QuoteBack(s: string, rest: string)
    ensures TakeChars((Quote(s) + rest)[1..]) == Some((s, rest)) && (Quote(s) + rest)[0] == '"'
  {
    CharsBack(s, rest);
    assert (Quote(s) + rest)[1..] == Escaped(s) + ("\"" + rest);
  }

  // ----- printing -----------------------------------------------------------------------------------------------

  function Print(v: Value): string
    decreases v, 1, 0
  {
    match v
    case Null => "null"
    case Bool(b) => if b then "true" else "false"
    case Str(s) => Quote(s)
    case Num(x) => NumberText(x)
    case Arr(items) => "[" + (PrintItems(v, 0) + "]")
    case Obj(ms) =>
      KeysSorted(ms);
      "{" + (PrintMembers(v, SortKeys(Keys(ms))) + "}")
  }

  lemma KeysSorted(ms: seq<Member>)
    ensures forall k :: k in SortKeys(Keys(ms)) <==> k in Keys(ms)
  {
    forall k ensures k in SortKeys(Keys(ms)) <==> k in Keys(ms) {
      SortMembers(Keys(ms), k);
    }
  }

  function PrintItems(v: Value, i: nat): string
    requires v.Arr? && i <= |v.items|
    decreases v, 0, |v.items| - i
  {
    if i == |v.items| then ""
    else Print(v.items[i]) + (if i + 1 < |v.items| then "," + PrintItems(v, i + 1) else "")
  }

  function PrintMembers(v: Value, ks: seq<string>): string
    requires v.Obj? && forall k | k in ks :: k in Keys(v.members)
    decreases v, 0, |ks|
  {
    if ks == [] then ""
    else
      Quote(ks[0]) + (":" + (Print(v.members[Find(v.members, ks[0])].value)
      + (if |ks| > 1 then "," + PrintMembers(v, ks[1..]) else "")))
  }

  // ----- the value a text stands for ----------------------------------------------------------------------------

  /** The same value with every object's members in key order. */
  function Canon(v: Value): Value
  {
    match v
    case Arr(items) => Arr(seq(|items|, i requires 0 <= i < |items| => Canon(items[i])))
    case Obj(ms) =>
      KeysSorted(ms);
      var ks := SortKeys(Keys(ms));
      Obj(seq(|ks|, i requires 0 <= i < |ks| => Member(ks[i], Canon(ms[Find(ms, ks[i])].value))))
    case _ => v
  }

  /** Equal up to the order of members, at every depth. */
  predicate Same(v: Value, w: Value)
  {
    match (v, w)
    case (Arr(a), Arr(b)) => |a| == |b| && forall i | 0 <= i < |a| :: Same(a[i], b[i])
    case (Obj(ms), Obj(ns)) =>
      && (forall j | 0 <= j < |ns| :: ns[j].key in Keys(ms))
      && (forall i | 0 <= i < |ms| :: ms[i].key in Keys(ns) && Same(ms[i].value, ns[Find(ns, ms[i].key)].value))
    case _ => v == w
  }

  // ----- reading canonical text ------------------------------------------------------------------------------------

  function ReadValue(t: string): (r: Option<(Value, string)>)
    ensures r.Some? ==> |r.value.1| < |t|
    decreases |t|, 1
  {
    if t == "" then None
    else if t[0] == 'n' then (if "null" <= t then Some((Null, t[4..])) else None)
    else if t[0] == 't' then (if "true" <= t then Some((Bool(true), t[4..])) else None)
    else if t[0] == 'f' then (if "false" <= t then Some((Bool(false), t[5..])) else None)
    else if t[0] == '"' then
      var s := TakeChars(t[1..]);
      if s.None? then None else Some((Str(s.value.0), s.value.1))
    else if t[0] == '[' then
      if "[]" <= t then Some((Arr([]), t[2..]))
      else
        var items := ReadItems(t[1..]);
        if items.None? then None else Some((Arr(items.value.0), items.value.1))
    else if t[0] == '{' then
      if "{}" <= t then Some((Obj([]), t[2..]))
      else
        var members := ReadMembers(t[1..]);
        if members.None? then None else Some((Obj(members.value.0), members.value.1))
    else if t[0] == '-' || IsDigit(t[0]) then
      var (x, rest) := ReadNumber(t);
      Some((Num(x), rest))
    else None
  }

  /** Values separated by commas, up to the closing bracket. */
  function ReadItems(t: string): (r: Option<(seq<Value>, string)>)
    ensures r.Some? ==> |r.value.1| < |t|
    decreases |t|, 2
  {
    var v := ReadValue(t);
    if v.None? || v.value.1 == "" then None
    else if v.value.1[0] == ']' then Some(([v.value.0], v.value.1[1..]))
    else if v.value.1[0] != ',' then None
    else
      var more := ReadItems(v.value.1[1..]);
      if more.None? then None else Some(([v.value.0] + more.value.0, more.value.1))
  }

  function ReadMember(t: string): (r: Option<(Member, string)>)
    ensures r.Some? ==> |r.value.1| < |t|
    decreases |t|, 0
  {
    if t == "" || t[0] != '"' then None
    else
      var k := TakeChars(t[1..]);
      if k.None? || k.value.1 == "" || k.value.1[0] != ':' then None
      else
        var v := ReadValue(k.value.1[1..]);
        if v.None? then None else Some((Member(k.value.0, v.value.0), v.value.1))
  }

  function ReadMembers(t: string): (r: Option<(seq<Member>, string)>)
    ensures r.Some? ==> |r.value.1| < |t|
    decreases |t|, 2
  {
    var m := ReadMember(t);
    if m.None? || m.value.1 == "" then None
    else if m.value.1[0] == '}' then Some(([m.value.0], m.value.1[1..]))
    else if m.value.1[0] != ',' then None
    else
      var more := ReadMembers(m.value.1[1..]);
      if more.None? then None else Some(([m.value.0] + more.value.0, more.value.1))
  }

  // ----- printing is undone by reading --------------------------------------------------------------------------------

  /** No value's text starts with a closing bracket or a comma. */
  lemma PrintStarts(v: Value)
    ensures Print(v) != "" && Print(v)[0] != ']' && Print(v)[0] != '}'
  {
    match v
    case Num(x) =>
      if x.digits != [] {
        FirstIsDigit(x.digits, x.n);
      }
    case _ =>
  }

  lemma NumberStarts(x: Number)
    ensures NumberText(x) != "" && (NumberText(x)[0] == '-' || IsDigit(NumberText(x)[0]))
  {
    if x.digits != [] {
      FirstIsDigit(x.digits, x.n);
    }
  }

  lemma ReadWord(rest: string)
    ensures ReadValue("null" + rest) == Some((Null, rest))
    ensures ReadValue("true" + rest) == Some((Bool(true), rest))
    ensures ReadValue("false" + rest) == Some((Bool(false), rest))
  {
    assert ("null" + rest)[4..] == rest && ("true" + rest)[4..] == rest && ("false" + rest)[5..] == rest;
  }

  lemma ReadStr(s: string, rest: string)
    ensures ReadValue(Quote(s) + rest) == Some((Str(s), rest))
  {
    QuoteBack(s, rest);
  }

  lemma ReadNumAt(t: string, x: Number, rest: string)
    requires t != "" && (t[0] == '-' || IsDigit(t[0])) && ReadNumber(t) == (x, rest)
    ensures ReadValue(t) == Some((Num(x), rest))
  {
    var c := t[0];
    assert c != 'n' && c != 't' && c != 'f' && c != '"' && c != '[' && c != '{';
  }

  lemma ReadNum(x: Number, rest: string)
    requires Normal(x) && Stops(rest)
    ensures ReadValue(NumberText(x) + rest) == Some((Num(x), rest))
  {
    var text := NumberText(x);
    NumberStarts(x);
    ReadNumberBack(x, rest);
    assert (text + rest)[0] == text[0];
    ReadNumAt(text + rest, x, rest);
  }

  lemma ReadScalar(v: Value, rest: string)
    requires WellFormed(v) && !v.Arr? && !v.Obj? && Stops(rest)
    ensures ReadValue(Print(v) + rest) == Some((v, rest))
  {
    match v
    case Null => ReadWord(rest);
    case Bool(b) => ReadWord(rest);
    case Str(s) => ReadStr(s, rest);
    case Num(x) => ReadNum(x, rest);
  }

  // how the reader takes one bracketed list apart, whatever the texts inside it are

  lemma ItemsLast(t: string, x: Value, rest: string)
    requires ReadValue(t) == Some((x, "]" + rest))
    ensures ReadItems(t) == Some(([x], rest))
  {
    assert ("]" + rest)[1..] == rest;
  }

  lemma ItemsNext(t: string, x: Value, u: string, more: seq<Value>, rest: string)
    requires ReadValue(t) == Some((x, "," + u)) && ReadItems(u) == Some((more, rest))
    ensures ReadItems(t) == Some(([x] + more, rest))
  {
    assert ("," + u)[1..] == u;
  }

  lemma MembersLast(t: string, m: Member, rest: string)
    requires ReadMember(t) == Some((m, "}" + rest))
    ensures ReadMembers(t) == Some(([m], rest))
  {
    assert ("}" + rest)[1..] == rest;
  }

  lemma MembersNext(t: string, m: Member, u: string, more: seq<Member>, rest: string)
    requires ReadMember(t) == Some((m, "," + u)) && ReadMembers(u) == Some((more, rest))
    ensures ReadMembers(t) == Some(([m] + more, rest))
  {
    assert ("," + u)[1..] == u;
  }

  lemma ReadArr(inner: string, items: seq<Value>, rest: string)
    requires inner != "" && inner[0] != ']' && ReadItems(inner) == Some((items, rest))
    ensures ReadValue("[" + inner) == Some((Arr(items), rest))
  {
    assert ("[" + inner)[1..] == inner;
  }

  lemma ReadObj(inner: string, members: seq<Member>, rest: string)
    requires inner != "" && inner[0] != '}' && ReadMembers(inner) == Some((members, rest))
    ensures ReadValue("{" + inner) == Some((Obj(members), rest))
  {
    assert ("{" + inner)[1..] == inner;
  }

  lemma ReadEmpty(rest: string)
    ensures ReadValue("[" + ("]" + rest)) == Some((Arr([]), rest)) && ReadValue("{" + ("}" + rest)) == Some((Obj([]), rest))
  {
    assert ("[" + ("]" + rest))[2..] == rest && ("{" + ("}" + rest))[2..] == rest;
  }

  function CanonItems(v: Value, i: nat): seq<Value>
    requires v.Arr? && i <= |v.items|
  {
    seq(|v.items| - i, j requires 0 <= j < |v.items| - i => Canon(v.items[i + j]))
  }

  function CanonMembers(v: Value, ks: seq<string>): seq<Member>
    requires v.Obj? && forall k | k in ks :: k in Keys(v.members)
  {
    seq(|ks|, i requires 0 <= i < |ks| => Member(ks[i], Canon(v.members[Find(v.members, ks[i])].value)))
  }

  lemma CanonItemsStep(v: Value, i: nat)
    requires v.Arr? && i < |v.items|
    ensures CanonItems(v, i) == [Canon(v.items[i])] + CanonItems(v, i + 1)
  {
  }

  lemma CanonMembersStep(v: Value, ks: seq<string>)
    requires v.Obj? && ks != [] && forall k | k in ks :: k in Keys(v.members)
    ensures CanonMembers(v, ks) == [Member(ks[0], Canon(v.members[Find(v.members, ks[0])].value))] + CanonMembers(v, ks[1..])
  {
  }

  lemma CanonArr(v: Value)
    requires v.Arr?
    ensures Canon(v) == Arr(CanonItems(v, 0))
  {
  }

  lemma CanonObj(v: Value, ks: seq<string>)
    requires v.Obj? && ks == SortKeys(Keys(v.members))
    ensures (forall k | k in ks :: k in Keys(v.members)) && Canon(v) == Obj(CanonMembers(v, ks))
  {
    KeysSorted(v.members);
  }

  /** Reading what was printed gives the value back, members in key order, and stops exactly where the text ends. */
  lemma {:induction false} ReadPrint(v: Value, rest: string)
    requires WellFormed(v) && Stops(rest)
    ensures ReadValue(Print(v) + rest) == Some((Canon(v), rest))
    decreases v, 1, 0
  {
    match v
    case Arr(items) =>
      ReadEmpty(rest);
      CanonArr(v);
      var inner := PrintItems(v, 0);
      Bracket("[", inner, "]", rest);
      if items == [] {
        assert inner == "" && inner + ("]" + rest) == "]" + rest;
        assert CanonItems(v, 0) == [];
      } else {
        PrintStarts(items[0]);
        ReadItemsBack(v, 0, rest);
        assert (inner + ("]" + rest))[0] == Print(items[0])[0];
        ReadArr(inner + ("]" + rest), CanonItems(v, 0), rest);
      }
    case Obj(ms) =>
      var ks := SortKeys(Keys(ms));
      ReadEmpty(rest);
      CanonObj(v, ks);
      var inner := PrintMembers(v, ks);
      Bracket("{", inner, "}", rest);
      if ks == [] {
        assert inner == "" && inner + ("}" + rest) == "}" + rest;
        assert CanonMembers(v, ks) == [];
      } else {
        ReadMembersBack(v, ks, rest);
        assert (inner + ("}" + rest))[0] == '"';
        ReadObj(inner + ("}" + rest), CanonMembers(v, ks), rest);
      }
    case _ => ReadScalar(v, rest);
  }

  lemma {:induction false} ReadItemsBack(v: Value, i: nat, rest: string)
    requires v.Arr? && WellFormed(v) && i < |v.items|
    ensures ReadItems(PrintItems(v, i) + ("]" + rest)) == Some((CanonItems(v, i), rest))
    decreases v, 0, |v.items| - i
  {
    var item := Print(v.items[i]);
    CanonItemsStep(v, i);
    if i + 1 < |v.items| {
      var u := PrintItems(v, i + 1) + ("]" + rest);
      Bracket(item, ",", PrintItems(v, i + 1), "]" + rest);
      ReadPrint(v.items[i], "," + u);
      ReadItemsBack(v, i + 1, rest);
      ItemsNext(item + ("," + u), Canon(v.items[i]), u, CanonItems(v, i + 1), rest);
    } else {
      assert item + "" == item && CanonItems(v, i) == [Canon(v.items[i])];
      ReadPrint(v.items[i], "]" + rest);
      ItemsLast(item + ("]" + rest), Canon(v.items[i]), rest);
    }
  }

  lemma ReadMemberBack(k: string, text: string, x: Value, tail: string)
    requires ReadValue(text + tail) == Some((x, tail))
    ensures ReadMember(Quote(k) + (":" + (text + tail))) == Some((Member(k, x), tail))
  {
    QuoteBack(k, ":" + (text + tail));
    assert (":" + (text + tail))[1..] == text + tail;
  }

  lemma Bracket3(a: string, b: string, c: string, d: string, e: string)
    ensures a + (b + (c + d)) + e == a + (b + (c + (d + e)))
  {
  }

  lemma Bracket4(a: string, b: string, c: string, d: string, e: string, f: string)
    ensures a + (b + (c + (d + e))) + f == a + (b + (c + (d + (e + f))))
  {
    Bracket3(a, b, c, d + e, f);
    assert d + e + f == d + (e + f);
  }

  lemma PrintMembersNext(v: Value, ks: seq<string>, x: Value, more: string, close: string)
    requires v.Obj? && |ks| > 1 && forall k | k in ks :: k in Keys(v.members)
    requires x == v.members[Find(v.members, ks[0])].value && more == PrintMembers(v, ks[1..])
    ensures PrintMembers(v, ks) + close == Quote(ks[0]) + (":" + (Print(x) + ("," + (more + close))))
  {
    Bracket4(Quote(ks[0]), ":", Print(x), ",", more, close);
  }

  lemma PrintMembersLast(v: Value, ks: seq<string>, x: Value, close: string)
    requires v.Obj? && |ks| == 1 && ks[0] in Keys(v.members) && x == v.members[Find(v.members, ks[0])].value
    ensures PrintMembers(v, ks) + close == Quote(ks[0]) + (":" + (Print(x) + close))
  {
    Bracket3(Quote(ks[0]), ":", Print(x), "", close);
    assert "" + close == close;
  }

  lemma {:induction false} ReadMembersBack(v: Value, ks: seq<string>, rest: string)
    requires v.Obj? && WellFormed(v) && ks != [] && forall k | k in ks :: k in Keys(v.members)
    ensures ReadMembers(PrintMembers(v, ks) + ("}" + rest)) == Some((CanonMembers(v, ks), rest))
    decreases v, 0, |ks|
  {
    var k, x, close := ks[0], v.members[Find(v.members, ks[0])].value, "}" + rest;
    var m := Member(k, Canon(x));
    CanonMembersStep(v, ks);
    if |ks| > 1 {
      var u := PrintMembers(v, ks[1..]) + close;
      PrintMembersNext(v, ks, x, PrintMembers(v, ks[1..]), close);
      ReadPrint(x, "," + u);
      ReadMemberBack(k, Print(x), Canon(x), "," + u);
      ReadMembersBack(v, ks[1..], rest);
      MembersNext(Quote(k) + (":" + (Print(x) + ("," + u))), m, u, CanonMembers(v, ks[1..]), rest);
    } else {
      PrintMembersLast(v, ks, x, close);
      ReadPrint(x, close);
      ReadMemberBack(k, Print(x), Canon(x), close);
      MembersLast(Quote(k) + (":" + (Print(x) + close)), m, rest);
      assert CanonMembers(v, ks) == [m];
    }
  }

  // ----- what canonical text identifies ---------------------------------------------------------------------------

  lemma CanonMemberAt(v: Value, ks: seq<string>, k: string)
    requires v.Obj? && WellFormed(v) && ks == SortKeys(Keys(v.members)) && k in ks
    ensures k in Keys(v.members) && Canon(v).Obj? && k in Keys(Canon(v).members)
    ensures Canon(v).members[Find(Canon(v).members, k)].value == Canon(v.members[Find(v.members, k)].value)
  {
    CanonObj(v, ks);
    assert Keys(CanonMembers(v, ks)) == ks;
  }

  /** Canonical form is what printing already uses: it changes no text, and is its own canonical form. */
  lemma {:induction false} PrintCanon(v: Value)
    requires WellFormed(v)
    ensures Print(Canon(v)) == Print(v)
    decreases v, 1, 0
  {
    match v
    case Arr(items) => PrintItemsCanon(v, 0);
    case Obj(ms) =>
      var ks := SortKeys(Keys(ms));
      CanonObj(v, ks);
      SortIdempotent(Keys(ms));
      assert Keys(CanonMembers(v, ks)) == ks;
      PrintMembersCanon(v, ks);
    case _ =>
  }

  lemma {:induction false} PrintItemsCanon(v: Value, i: nat)
    requires v.Arr? && WellFormed(v) && i <= |v.items|
    ensures PrintItems(Canon(v), i) == PrintItems(v, i)
    decreases v, 0, |v.items| - i
  {
    if i < |v.items| {
      PrintCanon(v.items[i]);
      PrintItemsCanon(v, i + 1);
    }
  }

  lemma {:induction false} PrintMembersCanon(v: Value, ks: seq<string>)
    requires v.Obj? && WellFormed(v) && forall k | k in ks :: k in SortKeys(Keys(v.members))
    ensures forall k | k in ks :: k in Keys(v.members) && k in Keys(Canon(v).members)
    ensures PrintMembers(Canon(v), ks) == PrintMembers(v, ks)
    decreases v, 0, |ks|
  {
    forall k | k in ks ensures k in Keys(v.members) && k in Keys(Canon(v).members) {
      CanonMemberAt(v, SortKeys(Keys(v.members)), k);
    }
    if ks != [] {
      CanonMemberAt(v, SortKeys(Keys(v.members)), ks[0]);
      PrintCanon(v.members[Find(v.members, ks[0])].value);
      PrintMembersCanon(v, ks[1..]);
    }
  }

  /** Equal up to member order is equal in canonical form. */
  lemma {:induction false} SameIffCanon(v: Value, w: Value)
    requires WellFormed(v) && WellFormed(w)
    ensures Same(v, w) <==> Canon(v) == Canon(w)
    decreases v
  {
    match (v, w)
    case (Arr(a), Arr(b)) =>
      assert |a| == |b| ==> forall i | 0 <= i < |a| :: Canon(v).items[i] == Canon(a[i]) && Canon(w).items[i] == Canon(b[i]);
      forall i | 0 <= i < |a| && i < |b| ensures Same(a[i], b[i]) <==> Canon(a[i]) == Canon(b[i]) {
        SameIffCanon(a[i], b[i]);
      }
      assert |Canon(v).items| == |a| && |Canon(w).items| == |b|;
      if Canon(v) == Canon(w) {
        forall i | 0 <= i < |a| ensures Same(a[i], b[i]) {
          assert Canon(v).items[i] == Canon(w).items[i];
        }
      }
    case (Obj(ms), Obj(ns)) =>
      if Same(v, w) {
        SameObjects(v, w);
      }
      if Canon(v) == Canon(w) {
        EqualCanonObjects(v, w);
      }
    case _ =>
  }

  lemma {:induction false} SameObjects(v: Value, w: Value)
    requires WellFormed(v) && WellFormed(w) && v.Obj? && w.Obj? && Same(v, w)
    ensures Canon(v) == Canon(w)
    decreases v, 0
  {
    var ms, ns := v.members, w.members;
    forall k ensures k in Keys(ms) <==> k in Keys(ns) {
      if k in Keys(ms) {
        assert ms[Find(ms, k)].key in Keys(ns);
      }
      if k in Keys(ns) {
        assert ns[Find(ns, k)].key in Keys(ms);
      }
    }
    SortCanonical(Keys(ms), Keys(ns));
    var ks := SortKeys(Keys(ms));
    CanonObj(v, ks);
    CanonObj(w, ks);
    forall i | 0 <= i < |ks| ensures CanonMembers(v, ks)[i] == CanonMembers(w, ks)[i] {
      var j := Find(ms, ks[i]);
      assert Same(ms[j].value, ns[Find(ns, ms[j].key)].value);
      SameIffCanon(ms[j].value, ns[Find(ns, ks[i])].value);
    }
  }

  lemma {:induction false} EqualCanonObjects(v: Value, w: Value)
    requires WellFormed(v) && WellFormed(w) && v.Obj? && w.Obj? && Canon(v) == Canon(w)
    ensures Same(v, w)
    decreases v, 0
  {
    var ms, ns := v.members, w.members;
    var ks, ls := SortKeys(Keys(ms)), SortKeys(Keys(ns));
    CanonObj(v, ks);
    CanonObj(w, ls);
    assert Keys(CanonMembers(v, ks)) == ks && Keys(CanonMembers(w, ls)) == ls;
    KeysSorted(ms);
    KeysSorted(ns);
    forall i | 0 <= i < |ms| ensures ms[i].key in Keys(ns) && Same(ms[i].value, ns[Find(ns, ms[i].key)].value) {
      FindUnique(ms, i);
      CanonMemberAt(v, ks, ms[i].key);
      CanonMemberAt(w, ls, ms[i].key);
      SameIffCanon(ms[i].value, ns[Find(ns, ms[i].key)].value);
    }
    forall j | 0 <= j < |ns| ensures ns[j].key in Keys(ms) {
      FindUnique(ns, j);
    }
  }

  /** Two documents have one canonical text exactly when they are the same value. */
  lemma SameTextIffSameValue(v: Value, w: Value)
    requires WellFormed(v) && WellFormed(w)
    ensures Print(v) == Print(w) <==> Same(v, w)
  {
    SameIffCanon(v, w);
    PrintCanon(v);
    PrintCanon(w);
    ReadPrint(v, "");
    ReadPrint(w, "");
    assert Print(v) + "" == Print(v) && Print(w) + "" == Print(w);
  }

  /** Canonicalising canonical text changes nothing. */
  lemma CanonicalIsFixed(v: Value)
    requires WellFormed(v)
    ensures ReadValue(Print(v)).Some? && ReadValue(Print(v)).value.1 == ""
    ensures Print(ReadValue(Print(v)).value.0) == Print(v)
  {
    ReadPrint(v, "");
    PrintCanon(v);
    assert Print(v) + "" == Print(v);
  }
}
