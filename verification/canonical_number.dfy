/** The one spelling of a number: where the decimal point goes, and why no two numbers share a spelling. */
module CanonicalNumber {

  type Digit = d: nat | d < 10

  /** A sign and the value 0.d1d2d3... x 10^n; no digits at all is zero. */
  datatype Number = Number(negative: bool, digits: seq<Digit>, n: int)

  /** Shortest digits: no zero at either end, and one zero only. */
  predicate Normal(x: Number)
  {
    if x.digits == [] then x == Number(false, [], 0)
    else x.digits[0] != 0 && x.digits[|x.digits| - 1] != 0
  }

  // ----- digits and text ----------------------------------------------------------------------------------

  function DigitChar(d: Digit): char
  {
    '0' + d as char
  }

  predicate IsDigit(c: char)
  {
    '0' <= c <= '9'
  }

  function DigitText(ds: seq<Digit>): (t: string)
    ensures |t| == |ds|
    ensures forall i | 0 <= i < |ds| :: t[i] == DigitChar(ds[i])
  {
    if ds == [] then "" else [DigitChar(ds[0])] + DigitText(ds[1..])
  }

  function Zeros(k: nat): (r: seq<Digit>)
    ensures |r| == k && forall i | 0 <= i < k :: r[i] == 0
  {
    seq(k, i requires 0 <= i < k => 0)
  }

  function DigitsOf(z: nat): (r: seq<Digit>)
    ensures |r| > 0
  {
    if z < 10 then [z] else DigitsOf(z / 10) + [z % 10]
  }

  function NatOf(ds: seq<Digit>): nat
  {
    if ds == [] then 0 else NatOf(ds[..|ds| - 1]) * 10 + ds[|ds| - 1]
  }

  lemma {:induction false} NatOfDigits(z: nat)
    ensures NatOf(DigitsOf(z)) == z
  {
    if z >= 10 {
      NatOfDigits(z / 10);
      assert DigitsOf(z)[..|DigitsOf(z)| - 1] == DigitsOf(z / 10);
    } else {
      assert NatOf([]) == 0 && DigitsOf(z)[..0] == [];
    }
  }

  function Itoa(z: int): string
  {
    if z < 0 then "-" + DigitText(DigitsOf(-z)) else DigitText(DigitsOf(z))
  }

  // ----- the four layouts -------------------------------------------------------------------------------------

  function PointPart(fraction: seq<Digit>): string
  {
    if fraction != [] then "." + DigitText(fraction) else ""
  }

  function ExponentPart(z: int): string
  {
    "e" + (if z >= 0 then "+" else "") + Itoa(z)
  }

  function Magnitude(d: seq<Digit>, n: int): string
    requires d != []
  {
    var k := |d|;
    if k <= n <= 21 then DigitText(d) + DigitText(Zeros(n - k))
    else if 0 < n <= 21 then DigitText(d[..n]) + "." + DigitText(d[n..])
    else if -6 < n <= 0 then "0." + DigitText(Zeros(-n)) + DigitText(d)
    else DigitText(d[..1]) + PointPart(d[1..]) + ExponentPart(n - 1)
  }

  function NumberText(x: Number): string
  {
    if x.digits == [] then "0" else (if x.negative then "-" else "") + Magnitude(x.digits, x.n)
  }

  // ----- reading a decimal back ---------------------------------------------------------------------------------

  /** The digits at the front of a text, and what follows them. */
  function TakeDigits(t: string): (r: (seq<Digit>, string))
    ensures |r.1| <= |t| && (|t| > 0 && IsDigit(t[0]) ==> |r.1| < |t|)
  {
    if t == "" || !IsDigit(t[0]) then ([], t)
    else
      var (ds, rest) := TakeDigits(t[1..]);
      ([(t[0] - '0') as nat] + ds, rest)
  }

  function TakeExponent(t: string): (r: (int, string))
    ensures |r.1| <= |t|
  {
    if t == "" || t[0] != 'e' then (0, t)
    else
      var u := t[1..];
      var minus := u != "" && u[0] == '-';
      var v := if u != "" && (u[0] == '-' || u[0] == '+') then u[1..] else u;
      var (ds, rest) := TakeDigits(v);
      var size: int := NatOf(ds);
      (if minus then 0 - size else size, rest)
  }

  /** Digits before the point, digits after it, exponent: the grammar every layout falls under. */
  datatype Parts = Parts(whole: seq<Digit>, fraction: seq<Digit>, exponent: int)

  function TakeParts(t: string): (r: (Parts, string))
    ensures |r.1| <= |t| && (|t| > 0 && IsDigit(t[0]) ==> |r.1| < |t|)
  {
    var (whole, t1) := TakeDigits(t);
    var (fraction, t2) := if t1 != "" && t1[0] == '.' then TakeDigits(t1[1..]) else ([], t1);
    var (exponent, t3) := TakeExponent(t2);
    (Parts(whole, fraction, exponent), t3)
  }

  function StripLeading(ds: seq<Digit>): seq<Digit>
  {
    if ds != [] && ds[0] == 0 then StripLeading(ds[1..]) else ds
  }

  function StripTrailing(ds: seq<Digit>): seq<Digit>
  {
    if ds != [] && ds[|ds| - 1] == 0 then StripTrailing(ds[..|ds| - 1]) else ds
  }

  function Normalise(negative: bool, p: Parts): Number
  {
    var all := p.whole + p.fraction;
    var tail := StripLeading(all);
    var digits := StripTrailing(tail);
    if digits == [] then Number(false, [], 0)
    else Number(negative, digits, |p.whole| + p.exponent - (|all| - |tail|))
  }

  function ReadNumber(t: string): (r: (Number, string))
    ensures |r.1| <= |t|
  {
    var minus := t != "" && t[0] == '-';
    var (p, rest) := TakeParts(if minus then t[1..] else t);
    (Normalise(minus, p), rest)
  }

  // ----- each layout reads back as itself ---------------------------------------------------------------------------

  predicate NoDigit(rest: string)
  {
    rest == "" || !IsDigit(rest[0])
  }

  /** What may follow a number inside a document. */
  predicate Stops(rest: string)
  {
    rest == "" || rest[0] == ',' || rest[0] == ']' || rest[0] == '}'
  }

  lemma {:induction false} TakeDigitsBack(ds: seq<Digit>, rest: string)
    requires NoDigit(rest)
    ensures TakeDigits(DigitText(ds) + rest) == (ds, rest)
  {
    if ds == [] {
      assert DigitText(ds) + rest == rest;
    } else {
      var t := DigitText(ds) + rest;
      assert t[0] == DigitChar(ds[0]) && t[1..] == DigitText(ds[1..]) + rest;
      TakeDigitsBack(ds[1..], rest);
      assert [ds[0]] + ds[1..] == ds;
    }
  }

  lemma DigitTextConcat(a: seq<Digit>, b: seq<Digit>)
    ensures DigitText(a) + DigitText(b) == DigitText(a + b)
  {
  }

  lemma Bracket(a: string, b: string, c: string, d: string)
    ensures a + (b + c) + d == a + (b + (c + d))
  {
  }

  lemma ExponentShape(z: int)
    ensures ExponentPart(z) == "e" + ((if z < 0 then "-" else "+") + DigitText(DigitsOf(if z < 0 then -z else z)))
  {
  }

  lemma TakeExponentBack(z: int, sign: string, ds: seq<Digit>, rest: string)
    requires NoDigit(rest) && sign == (if z < 0 then "-" else "+") && ds == DigitsOf(if z < 0 then -z else z)
    ensures TakeExponent("e" + (sign + (DigitText(ds) + rest))) == (z, rest)
  {
    var t := "e" + (sign + (DigitText(ds) + rest));
    assert t[1..] == sign + (DigitText(ds) + rest);
    assert t[1..][1..] == DigitText(ds) + rest;
    TakeDigitsBack(ds, rest);
    NatOfDigits(if z < 0 then -z else z);
  }

  lemma ExponentBack(z: int, rest: string)
    requires NoDigit(rest)
    ensures TakeExponent(ExponentPart(z) + rest) == (z, rest)
  {
    var sign, ds := if z < 0 then "-" else "+", DigitsOf(if z < 0 then -z else z);
    ExponentShape(z);
    TakeExponentBack(z, sign, ds, rest);
    Bracket("e", sign, DigitText(ds), rest);
  }

  /** How each layout splits into whole, fraction and exponent. */
  function Layout(d: seq<Digit>, n: int): Parts
    requires d != []
  {
    var k := |d|;
    if k <= n <= 21 then Parts(d + Zeros(n - k), [], 0)
    else if 0 < n <= 21 then Parts(d[..n], d[n..], 0)
    else if -6 < n <= 0 then Parts([0], Zeros(-n) + d, 0)
    else Parts(d[..1], d[1..], n - 1)
  }

  /** How the three parts are taken, whatever the texts are. */
  lemma PartsPlain(t: string, whole: seq<Digit>, t1: string, z: int, rest: string)
    requires TakeDigits(t) == (whole, t1) && (t1 == "" || t1[0] != '.') && TakeExponent(t1) == (z, rest)
    ensures TakeParts(t) == (Parts(whole, [], z), rest)
  {
  }

  lemma PartsPoint(t: string, whole: seq<Digit>, t1: string, fraction: seq<Digit>, t2: string, z: int, rest: string)
    requires TakeDigits(t) == (whole, "." + t1) && TakeDigits(t1) == (fraction, t2) && TakeExponent(t2) == (z, rest)
    ensures TakeParts(t) == (Parts(whole, fraction, z), rest)
  {
    assert ("." + t1)[1..] == t1;
  }

  lemma WholeBack(ds: seq<Digit>, rest: string)
    requires Stops(rest)
    ensures TakeParts(DigitText(ds) + rest) == (Parts(ds, [], 0), rest)
  {
    TakeDigitsBack(ds, rest);
    PartsPlain(DigitText(ds) + rest, ds, rest, 0, rest);
  }

  lemma PointBack(a: seq<Digit>, b: seq<Digit>, rest: string)
    requires Stops(rest)
    ensures TakeParts(DigitText(a) + ("." + (DigitText(b) + rest))) == (Parts(a, b, 0), rest)
  {
    var u := DigitText(b) + rest;
    TakeDigitsBack(a, "." + u);
    TakeDigitsBack(b, rest);
    PartsPoint(DigitText(a) + ("." + u), a, u, b, rest, 0, rest);
  }

  lemma Assoc(a: string, b: string, c: string)
    ensures a + b + c == a + (b + c)
  {
  }

  lemma PointExponentBack(a: seq<Digit>, b: seq<Digit>, z: int, e: string, rest: string)
    requires e != "" && e[0] == 'e' && TakeExponent(e) == (z, rest)
    ensures TakeParts(DigitText(a) + ("." + (DigitText(b) + e))) == (Parts(a, b, z), rest)
  {
    var u := DigitText(b) + e;
    TakeDigitsBack(a, "." + u);
    TakeDigitsBack(b, e);
    PartsPoint(DigitText(a) + ("." + u), a, u, b, e, z, rest);
  }

  lemma ScientificBack(a: seq<Digit>, b: seq<Digit>, z: int, e: string, rest: string)
    requires e != "" && e[0] == 'e' && TakeExponent(e) == (z, rest)
    ensures TakeParts(DigitText(a) + (PointPart(b) + e)) == (Parts(a, b, z), rest)
  {
    if b != [] {
      Assoc(".", DigitText(b), e);
      PointExponentBack(a, b, z, e, rest);
    } else {
      assert PointPart(b) + e == e;
      TakeDigitsBack(a, e);
      PartsPlain(DigitText(a) + e, a, e, z, rest);
    }
  }

  lemma Regroup(a: string, b: string, c: string, d: string)
    ensures a + b + c + d == a + (b + (c + d))
  {
  }

  /** The text reads back as its layout. */
  predicate ReadsBack(d: seq<Digit>, n: int, rest: string)
    requires d != []
  {
    TakeParts(Magnitude(d, n) + rest) == (Layout(d, n), rest)
  }

  lemma WholeLayoutBack(d: seq<Digit>, n: int, rest: string)
    requires d != [] && Stops(rest) && |d| <= n <= 21
    ensures ReadsBack(d, n, rest)
  {
    var zeros := Zeros(n - |d|);
    DigitTextConcat(d, zeros);
    WholeBack(d + zeros, rest);
  }

  lemma PointLayoutBack(d: seq<Digit>, n: int, rest: string)
    requires d != [] && Stops(rest) && 0 < n < |d| && n <= 21
    ensures ReadsBack(d, n, rest)
  {
    var a, b := d[..n], d[n..];
    PointBack(a, b, rest);
    Regroup(DigitText(a), ".", DigitText(b), rest);
  }

  lemma SmallLayoutBack(d: seq<Digit>, n: int, rest: string)
    requires d != [] && Stops(rest) && -6 < n <= 0
    ensures ReadsBack(d, n, rest)
  {
    var zero: seq<Digit> := [0];
    var zeros := Zeros(-n);
    DigitTextConcat(zeros, d);
    PointBack(zero, zeros + d, rest);
    assert DigitText(zero) == "0" && "0." == "0" + ".";
    Regroup("0", ".", DigitText(zeros + d), rest);
    assert "0." + DigitText(zeros) + DigitText(d) == "0." + DigitText(zeros + d);
  }

  lemma ScientificLayoutBack(d: seq<Digit>, n: int, rest: string)
    requires d != [] && Stops(rest) && (n > 21 || n <= -6)
    ensures ReadsBack(d, n, rest)
  {
    var a, b, z := d[..1], d[1..], n - 1;
    var e := ExponentPart(z) + rest;
    ExponentBack(z, rest);
    ScientificBack(a, b, z, e, rest);
    Regroup(DigitText(a), PointPart(b), ExponentPart(z), rest);
  }

  lemma LayoutBack(d: seq<Digit>, n: int, rest: string)
    requires d != [] && Stops(rest)
    ensures ReadsBack(d, n, rest)
  {
    if |d| <= n <= 21 {
      WholeLayoutBack(d, n, rest);
    } else if 0 < n <= 21 {
      PointLayoutBack(d, n, rest);
    } else if -6 < n <= 0 {
      SmallLayoutBack(d, n, rest);
    } else {
      ScientificLayoutBack(d, n, rest);
    }
  }

  lemma {:induction false} StripLeadingBack(j: nat, d: seq<Digit>)
    requires d != [] && d[0] != 0
    ensures StripLeading(Zeros(j) + d) == d
  {
    if j == 0 {
      assert Zeros(0) + d == d;
    } else {
      assert (Zeros(j) + d)[1..] == Zeros(j - 1) + d;
      StripLeadingBack(j - 1, d);
    }
  }

  lemma {:induction false} StripTrailingBack(d: seq<Digit>, j: nat)
    requires d != [] && d[|d| - 1] != 0
    ensures StripTrailing(d + Zeros(j)) == d
  {
    if j == 0 {
      assert d + Zeros(0) == d;
    } else {
      var t := d + Zeros(j);
      assert t[|t| - 1] == 0 && t[..|t| - 1] == d + Zeros(j - 1);
      StripTrailingBack(d, j - 1);
    }
  }

  lemma NormaliseLayout(negative: bool, d: seq<Digit>, n: int)
    requires d != [] && d[0] != 0 && d[|d| - 1] != 0
    ensures Normalise(negative, Layout(d, n)) == Number(negative, d, n)
  {
    var p := Layout(d, n);
    var all := p.whole + p.fraction;
    StripTrailingBack(d, 0);
    assert d + Zeros(0) == d;
    if |d| <= n <= 21 {
      assert all == d + Zeros(n - |d|);
      assert StripLeading(all) == all;
      StripTrailingBack(d, n - |d|);
    } else if -6 < n <= 0 {
      assert all == Zeros(1 - n) + d;
      StripLeadingBack(1 - n, d);
    } else {
      assert all == d;
    }
  }

  lemma FirstIsDigit(d: seq<Digit>, n: int)
    requires d != []
    ensures Magnitude(d, n) != "" && IsDigit(Magnitude(d, n)[0])
  {
  }

  lemma ReadZero(rest: string)
    requires Stops(rest)
    ensures ReadNumber("0" + rest) == (Number(false, [], 0), rest)
  {
    var zero: seq<Digit> := [0];
    WholeBack(zero, rest);
    assert DigitText(zero) == "0";
    assert zero[1..] == [] && zero + [] == zero;
    assert StripLeading(zero) == StripLeading([]);
  }

  /** A printed number reads back as itself, whatever the document puts after it. */
  lemma ReadNumberBack(x: Number, rest: string)
    requires Normal(x) && Stops(rest)
    ensures ReadNumber(NumberText(x) + rest) == (x, rest)
  {
    if x.digits == [] {
      ReadZero(rest);
    } else {
      ReadMagnitude(x, Magnitude(x.digits, x.n), rest);
    }
  }

  lemma ReadSigned(negative: bool, m: string, rest: string, p: Parts)
    requires m != "" && IsDigit(m[0]) && TakeParts(m + rest) == (p, rest)
    ensures ReadNumber((if negative then "-" else "") + m + rest) == (Normalise(negative, p), rest)
  {
    var t := (if negative then "-" else "") + m + rest;
    if negative {
      assert t[1..] == m + rest;
    } else {
      assert t == m + rest;
    }
  }

  lemma ReadMagnitude(x: Number, m: string, rest: string)
    requires x.digits != [] && Normal(x) && Stops(rest) && m == Magnitude(x.digits, x.n)
    ensures ReadNumber((if x.negative then "-" else "") + m + rest) == (x, rest)
  {
    FirstIsDigit(x.digits, x.n);
    LayoutBack(x.digits, x.n, rest);
    NormaliseLayout(x.negative, x.digits, x.n);
    ReadSigned(x.negative, m, rest, Layout(x.digits, x.n));
  }

  /** Distinct numbers never print alike. */
  lemma NumberTextInjective(x: Number, y: Number)
    requires Normal(x) && Normal(y) && NumberText(x) == NumberText(y)
    ensures x == y
  {
    ReadNumberBack(x, "");
    ReadNumberBack(y, "");
    assert NumberText(x) + "" == NumberText(y) + "";
  }

  // ----- what each layout denotes -----------------------------------------------------------------------------------

  /** m x 10^e. */
  function Scaled(m: nat, e: int): real
    decreases if e < 0 then -e else e
  {
    if e == 0 then m as real else if e > 0 then 10.0 * Scaled(m, e - 1) else Scaled(m, e + 1) / 10.0
  }

  /** The value of a decimal written as whole, fraction and exponent. */
  function ValueOf(p: Parts): real
  {
    Scaled(NatOf(p.whole + p.fraction), p.exponent - |p.fraction|)
  }

  lemma {:induction false} PadValue(d: seq<Digit>, j: nat)
    ensures NatOf(d + Zeros(j)) as real == Scaled(NatOf(d), j)
  {
    if j == 0 {
      assert d + Zeros(0) == d;
    } else {
      var t := d + Zeros(j);
      assert t[..|t| - 1] == d + Zeros(j - 1) && t[|t| - 1] == 0;
      PadValue(d, j - 1);
    }
  }

  lemma {:induction false} LeadingZeros(j: nat, d: seq<Digit>)
    ensures NatOf(Zeros(j) + d) == NatOf(d)
  {
    if d == [] {
      assert Zeros(j) + d == Zeros(j);
      ZerosWorthNothing(j);
    } else {
      var t := Zeros(j) + d;
      assert t[..|t| - 1] == Zeros(j) + d[..|d| - 1];
      LeadingZeros(j, d[..|d| - 1]);
    }
  }

  lemma {:induction false} ZerosWorthNothing(j: nat)
    ensures NatOf(Zeros(j)) == 0
  {
    if j > 0 {
      assert Zeros(j)[..j - 1] == Zeros(j - 1);
      ZerosWorthNothing(j - 1);
    }
  }

  /** Every layout denotes the digits times ten to the power n - k. */
  lemma LayoutsDenote(d: seq<Digit>, n: int)
    requires d != []
    ensures ValueOf(Layout(d, n)) == Scaled(NatOf(d), n - |d|)
  {
    var p := Layout(d, n);
    var all := p.whole + p.fraction;
    if |d| <= n <= 21 {
      assert all == d + Zeros(n - |d|);
      PadValue(d, n - |d|);
    } else if -6 < n <= 0 {
      assert all == Zeros(1 - n) + d;
      LeadingZeros(1 - n, d);
    } else {
      assert all == d;
    }
  }

  lemma DigitsPlain(ds: seq<Digit>)
    ensures 'e' !in DigitText(ds)
  {
  }

  /** An exponent always carries its sign. */
  lemma ExponentSigned(d: seq<Digit>, n: int)
    requires d != [] && (n > 21 || n <= -6)
    ensures exists k | 0 <= k < |Magnitude(d, n)| - 1 ::
              Magnitude(d, n)[k] == 'e' && Magnitude(d, n)[k + 1] == if n > 21 then '+' else '-'
  {
    var front := DigitText(d[..1]) + PointPart(d[1..]);
    assert Magnitude(d, n) == front + ExponentPart(n - 1);
    assert ExponentPart(n - 1)[0] == 'e' && ExponentPart(n - 1)[1] == if n > 21 then '+' else '-';
    assert Magnitude(d, n)[|front|] == 'e' && Magnitude(d, n)[|front| + 1] == ExponentPart(n - 1)[1];
  }

  /** An exponent is written exactly for values of at least 10^21 or below 10^-6. */
  lemma ExponentExactlyWhen(d: seq<Digit>, n: int)
    requires d != []
    ensures 'e' in Magnitude(d, n) <==> n > 21 || n <= -6
  {
    if n > 21 || n <= -6 {
      assert 'e' in ExponentPart(n - 1) by {
        assert ExponentPart(n - 1)[0] == 'e';
      }
    } else if |d| <= n {
      DigitsPlain(d);
      DigitsPlain(Zeros(n - |d|));
    } else if 0 < n {
      DigitsPlain(d[..n]);
      DigitsPlain(d[n..]);
    } else {
      DigitsPlain(d);
      DigitsPlain(Zeros(-n));
    }
  }
}
