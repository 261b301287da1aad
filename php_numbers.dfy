// PHP 8's numeric strings, and the loose comparison `$string == $int` that tests a statement's
// contract code against a constant: white space, an optional sign, decimal digits with an
// optional fraction and exponent, white space; compared as a number when the string is numeric.

module PhpNumbers {
  import opened Wrappers

  predicate IsDigit(c: char)
  {
    '0' <= c <= '9'
  }

  /** The white space PHP allows around a numeric string: space, \t, \n, \r, \v and \f. */
  predicate IsNumericSpace(c: char)
  {
    c == ' ' || c == '\t' || c == '\n' || c == '\r' || c == '\U{000B}' || c == '\U{000C}'
  }

  /** The value of a string of decimal digits. */
  function DigitsValue(s: string): nat
    requires forall i :: 0 <= i < |s| ==> IsDigit(s[i])
  {
    if |s| == 0 then 0
    else
      assert IsDigit(s[|s| - 1]);
      DigitsValue(s[..|s| - 1]) * 10 + (s[|s| - 1] as int - '0' as int)
  }

  /** The end of the run of digits that starts at `i`. */
  function DigitsEnd(s: string, i: nat): (j: nat)
    requires i <= |s|
    ensures i <= j <= |s|
    ensures forall k :: i <= k < j ==> IsDigit(s[k])
    ensures j < |s| ==> !IsDigit(s[j])
    decreases |s| - i
  {
    if i < |s| && IsDigit(s[i]) then DigitsEnd(s, i + 1) else i
  }

  /** The end of the run of white space that starts at `i`. */
  function SpacesEnd(s: string, i: nat): (j: nat)
    requires i <= |s|
    ensures i <= j <= |s|
    ensures forall k :: i <= k < j ==> IsNumericSpace(s[k])
    ensures j < |s| ==> !IsNumericSpace(s[j])
    decreases |s| - i
  {
    if i < |s| && IsNumericSpace(s[i]) then SpacesEnd(s, i + 1) else i
  }

  /** The start of the run of white space that ends at `j`, not before `lo`. */
  function SpacesStart(s: string, lo: nat, j: nat): (b: nat)
    requires lo <= j <= |s|
    ensures lo <= b <= j
    ensures forall k :: b <= k < j ==> IsNumericSpace(s[k])
    ensures b > lo ==> !IsNumericSpace(s[b - 1])
    decreases j
  {
    if j > lo && IsNumericSpace(s[j - 1]) then SpacesStart(s, lo, j - 1) else j
  }

  /** A decimal value: (-1 if negative) · mantissa · 10^scale. */
  datatype Decimal = Decimal(negative: bool, mantissa: nat, scale: int)

  function Pow10(n: nat): (p: nat)
    ensures p >= 1
  {
    if n == 0 then 1 else 10 * Pow10(n - 1)
  }

  function Pow2(n: nat): (p: nat)
    ensures p >= 1
  {
    if n == 0 then 1 else 2 * Pow2(n - 1)
  }

  /** The exponent `e`/`E`, an optional sign and at least one digit, running from `k` to the end. */
  function ParseExponent(t: string, k: nat): Option<int>
    requires k <= |t|
  {
    if k < |t| && (t[k] == 'e' || t[k] == 'E') then
      var m := if k + 1 < |t| && (t[k + 1] == '+' || t[k + 1] == '-') then k + 2 else k + 1;
      var n := DigitsEnd(t, m);
      if m < n == |t| then
        var e: int := DigitsValue(t[m..n]);
        Some(if t[m - 1] == '-' then -e else e)
      else None
    else None
  }

  /** The length of the optional sign at the front. */
  function SignLength(t: string): nat
  {
    if |t| > 0 && (t[0] == '+' || t[0] == '-') then 1 else 0
  }

  /** Just past the decimal point at `j`, or `j` when there is none. */
  function PointEnd(t: string, j: nat): (f: nat)
    requires j <= |t|
    ensures j <= f <= |t|
  {
    if j < |t| && t[j] == '.' then j + 1 else j
  }

  /** The digits before and after the point, without the point. */
  function Significand(t: string, i: nat, j: nat, f: nat, k: nat): (r: string)
    requires i <= j <= f <= k <= |t|
    requires forall p :: i <= p < j ==> IsDigit(t[p])
    requires forall p :: f <= p < k ==> IsDigit(t[p])
    ensures |r| == (j - i) + (k - f)
    ensures forall p :: 0 <= p < |r| ==> IsDigit(r[p])
  {
    var r := t[i..j] + t[f..k];
    assert forall p :: 0 <= p < j - i ==> r[p] == t[i + p];
    assert forall p :: j - i <= p < |r| ==> r[p] == t[f + p - (j - i)];
    r
  }

  /**
   * The numeric body without its surrounding white space: an optional sign, digits, an
   * optional point followed by digits (at least one digit on either side of it), and an
   * optional exponent, nothing else.
   */
  function ParseBody(t: string): Option<Decimal>
  {
    var i := SignLength(t);
    var j := DigitsEnd(t, i);
    var f := PointEnd(t, j);
    var k := DigitsEnd(t, f);
    var digits := Significand(t, i, j, f, k);
    if |digits| == 0 then None
    else
      var d := Decimal(i == 1 && t[0] == '-', DigitsValue(digits), -(k - f));
      if k == |t| then Some(d)
      else
        match ParseExponent(t, k)
        case Some(e) => Some(d.(scale := d.scale + e))
        case None => None
  }

  /** The string without the white space around it. */
  function StripNumericSpace(s: string): string
  {
    var a := SpacesEnd(s, 0);
    s[a..SpacesStart(s, a, |s|)]
  }

  /** is_numeric: the value of a numeric string, or nothing for any other string. */
  function ParseNumeric(s: string): Option<Decimal>
  {
    ParseBody(StripNumericSpace(s))
  }

  /** |d - n| <= 2^-h, in integers. */
  predicate WithinHalfPow2(d: Decimal, n: int, h: nat)
  {
    var v := if d.negative then -(d.mantissa as int) else d.mantissa as int;
    if d.scale >= 0 then
      var diff := v * Pow10(d.scale) - n;
      (if diff < 0 then -diff else diff) * Pow2(h) <= 1
    else
      var diff := v - n * Pow10(-d.scale);
      (if diff < 0 then -diff else diff) * Pow2(h) <= Pow10(-d.scale)
  }

  /** The value of a Decimal whose scale is not negative: an integer. */
  function IntegerValue(d: Decimal): int
    requires d.scale >= 0
  {
    (if d.negative then -(d.mantissa as int) else d.mantissa as int) * Pow10(d.scale)
  }

  /** An integral value is within 2^-h of `n` (h >= 1) exactly when it is `n`. */
  lemma IntegralWithin(d: Decimal, n: int, h: nat)
    requires d.scale >= 0 && h >= 1
    ensures WithinHalfPow2(d, n, h) <==> IntegerValue(d) == n
  {
    assert Pow2(h) >= 2;
  }

  /** A whole number written with zeros after the point is within 2^-h of `n` (h >= 1) exactly when it is `n`. */
  lemma ScaledIntegralWithin(d: Decimal, m: nat, n: int, h: nat)
    requires h >= 1 && !d.negative && d.scale <= 0 && d.mantissa == m * Pow10(-d.scale)
    ensures WithinHalfPow2(d, n, h) <==> m == n
  {
    var scale := Pow10(-d.scale);
    assert Pow2(h) == 2 * Pow2(h - 1);
    var diff := d.mantissa - n * scale;
    assert diff == (m - n) * scale;
    MultipleBound(m - n, scale, Pow2(h));
    if d.scale == 0 {
      assert scale == 1;
    }
  }

  /** A non-zero multiple of `p` is at least `p` in size, so `h` times it exceeds `p` when h >= 2. */
  lemma MultipleBound(x: int, p: nat, h: nat)
    requires p >= 1 && h >= 2
    ensures var y := x * p; (if y < 0 then -y else y) * h <= p <==> x == 0
  {
    var y := x * p;
    if x > 0 {
      assert y == (x - 1) * p + p;
      assert (x - 1) * p >= 0;
      assert y * h == y * (h - 2) + 2 * y;
      assert y * (h - 2) >= 0;
    } else if x < 0 {
      assert -y == (-x - 1) * p + p;
      assert (-x - 1) * p >= 0;
      assert -y * h == -y * (h - 2) + 2 * -y;
      assert -y * (h - 2) >= 0;
    }
  }

  /** A string that neither starts nor ends with white space is its own stripped form. */
  lemma StripUnspaced(s: string)
    requires |s| > 0 && !IsNumericSpace(s[0]) && !IsNumericSpace(s[|s| - 1])
    ensures StripNumericSpace(s) == s
  {
    assert SpacesEnd(s, 0) == 0;
    assert SpacesStart(s, 0, |s|) == |s|;
  }

  /** The body of an unsigned number without exponent: its digits, scaled down by those after the point. */
  lemma UnsignedBody(t: string, j: nat, f: nat)
    requires |t| > 0 && t[0] != '+' && t[0] != '-'
    requires j <= |t| && j == DigitsEnd(t, 0) && f == PointEnd(t, j)
    requires DigitsEnd(t, f) == |t| && (j > 0 || f < |t|)
    ensures ParseBody(t) == Some(Decimal(false, DigitsValue(Significand(t, 0, j, f, |t|)), -(|t| - f)))
  {
    assert SignLength(t) == 0;
  }

  /** The body of an unsigned number with an exponent: the exponent adds to the scale. */
  lemma UnsignedExponentBody(t: string, j: nat, f: nat, k: nat, e: int)
    requires |t| > 0 && t[0] != '+' && t[0] != '-'
    requires j <= |t| && j == DigitsEnd(t, 0) && f == PointEnd(t, j)
    requires k == DigitsEnd(t, f) && k < |t| && (j > 0 || f < k)
    requires ParseExponent(t, k) == Some(e)
    ensures ParseBody(t) == Some(Decimal(false, DigitsValue(Significand(t, 0, j, f, k)), e - (k - f)))
  {
    assert SignLength(t) == 0;
  }

  /** A non-empty string of digits is numeric, with its decimal value. */
  lemma DigitStringNumeric(s: string)
    requires |s| > 0 && forall i :: 0 <= i < |s| ==> IsDigit(s[i])
    ensures ParseNumeric(s) == Some(Decimal(false, DigitsValue(s), 0))
  {
    StripUnspaced(s);
    assert DigitsEnd(s, 0) == |s|;
    UnsignedBody(s, |s|, |s|);
    assert Significand(s, 0, |s|, |s|, |s|) == s;
  }

  /** Appending digits shifts the value left by as many decimal places. */
  lemma {:induction false} DigitsValueAppend(p: string, q: string)
    requires forall i :: 0 <= i < |p| ==> IsDigit(p[i])
    requires forall i :: 0 <= i < |q| ==> IsDigit(q[i])
    ensures forall i :: 0 <= i < |p + q| ==> IsDigit((p + q)[i])
    ensures DigitsValue(p + q) == DigitsValue(p) * Pow10(|q|) + DigitsValue(q)
    decreases |q|
  {
    assert forall i :: 0 <= i < |p + q| ==> IsDigit((p + q)[i]) by {
      assert forall i :: |p| <= i < |p + q| ==> (p + q)[i] == q[i - |p|];
    }
    if |q| == 0 {
      assert p + q == p;
    } else {
      var q' := q[..|q| - 1];
      var d := q[|q| - 1] as int - '0' as int;
      assert (p + q)[..|p + q| - 1] == p + q';
      DigitsValueAppend(p, q');
      assert DigitsValue(p + q) == DigitsValue(p + q') * 10 + d;
      assert DigitsValue(q) == DigitsValue(q') * 10 + d;
      assert Pow10(|q|) == Pow10(|q'|) * 10;
      ShiftLeft(DigitsValue(p), Pow10(|q'|), DigitsValue(q'), d);
    }
  }

  lemma ShiftLeft(a: int, power: int, b: int, d: int)
    ensures (a * power + b) * 10 + d == a * (power * 10) + (b * 10 + d)
  {
  }

  /** A string of zeros has the value nothing. */
  lemma {:induction false} ZerosValue(z: string)
    requires forall i :: 0 <= i < |z| ==> z[i] == '0'
    ensures forall i :: 0 <= i < |z| ==> IsDigit(z[i])
    ensures DigitsValue(z) == 0
  {
    if |z| > 0 {
      ZerosValue(z[..|z| - 1]);
    }
  }

  /** Digits, a point and digits are numeric: their digits scaled down by the digits after the point. */
  lemma PointNumeric(p: string, q: string)
    requires |p| > 0 && forall i :: 0 <= i < |p| ==> IsDigit(p[i])
    requires forall i :: 0 <= i < |q| ==> IsDigit(q[i])
    ensures forall i :: 0 <= i < |p + q| ==> IsDigit((p + q)[i])
    ensures ParseNumeric(p + "." + q) == Some(Decimal(false, DigitsValue(p + q), -|q|))
  {
    var t := p + "." + q;
    PointLayout(p, q, t);
    UnsignedBody(t, |p|, |p| + 1);
  }

  /** Where the runs of digits and the point lie in `p + "." + q`. */
  lemma PointLayout(p: string, q: string, t: string)
    requires |p| > 0 && forall i :: 0 <= i < |p| ==> IsDigit(p[i])
    requires forall i :: 0 <= i < |q| ==> IsDigit(q[i])
    requires t == p + "." + q
    ensures StripNumericSpace(t) == t && t[0] != '+' && t[0] != '-'
    ensures DigitsEnd(t, 0) == |p| && PointEnd(t, |p|) == |p| + 1 && DigitsEnd(t, |p| + 1) == |t|
    ensures Significand(t, 0, |p|, |p| + 1, |t|) == p + q
  {
    assert t[0..|p|] == p && t[|p| + 1..] == q;
    assert t[0] == p[0] && t[|t| - 1] == if |q| == 0 then '.' else q[|q| - 1];
    StripUnspaced(t);
    assert DigitsEnd(t, 0) == |p| by {
      assert t[|p|] == '.';
      assert forall i :: 0 <= i < |p| ==> t[i] == p[i];
    }
    assert DigitsEnd(t, |p| + 1) == |t| by {
      assert forall i :: |p| + 1 <= i < |t| ==> t[i] == q[i - |p| - 1];
    }
  }

  /** Digits and an exponent are numeric: the exponent moves the point right. */
  lemma ExponentNumeric(p: string, x: string)
    requires |p| > 0 && forall i :: 0 <= i < |p| ==> IsDigit(p[i])
    requires |x| > 0 && forall i :: 0 <= i < |x| ==> IsDigit(x[i])
    ensures ParseNumeric(p + "e" + x) == Some(Decimal(false, DigitsValue(p), DigitsValue(x)))
  {
    var t := p + "e" + x;
    ExponentLayout(p, x, t);
    ExponentTail(t, |p|, x);
    UnsignedExponentBody(t, |p|, |p|, |p|, DigitsValue(x));
  }

  /** Where the digits and the exponent lie in `p + "e" + x`. */
  lemma ExponentLayout(p: string, x: string, t: string)
    requires |p| > 0 && forall i :: 0 <= i < |p| ==> IsDigit(p[i])
    requires |x| > 0 && forall i :: 0 <= i < |x| ==> IsDigit(x[i])
    requires t == p + "e" + x
    ensures StripNumericSpace(t) == t && t[0] != '+' && t[0] != '-'
    ensures DigitsEnd(t, 0) == |p| && PointEnd(t, |p|) == |p| && DigitsEnd(t, |p|) == |p|
    ensures |p| < |t| && Significand(t, 0, |p|, |p|, |p|) == p
    ensures t[|p|] == 'e' && t[|p| + 1..] == x
  {
    assert t[0..|p|] == p && t[|p| + 1..] == x;
    assert t[0] == p[0] && t[|t| - 1] == x[|x| - 1];
    StripUnspaced(t);
    assert DigitsEnd(t, 0) == |p| by {
      assert t[|p|] == 'e';
      assert forall i :: 0 <= i < |p| ==> t[i] == p[i];
    }
  }

  /** An `e` followed by digits only is an exponent of their value. */
  lemma ExponentTail(t: string, k: nat, x: string)
    requires k < |t| && t[k] == 'e' && t[k + 1..] == x
    requires |x| > 0 && forall i :: 0 <= i < |x| ==> IsDigit(x[i])
    ensures ParseExponent(t, k) == Some(DigitsValue(x) as int)
  {
    assert t[k + 1] == x[0];
    assert DigitsEnd(t, k + 1) == |t| by {
      assert forall i :: k + 1 <= i < |t| ==> t[i] == x[i - k - 1];
    }
    assert t[k + 1..|t|] == x;
  }

  /** PHP 8 rejects a leading-numeric string: one that ends in anything but a digit, a point or white space is not numeric. */
  lemma TrailingGarbage(s: string)
    requires |s| > 0
    requires var c := s[|s| - 1]; !IsDigit(c) && c != '.' && !IsNumericSpace(c)
    ensures ParseNumeric(s) == None
  {
    var a := SpacesEnd(s, 0);
    var b := SpacesStart(s, a, |s|);
    assert a < |s|;
    assert b == |s|;
    var t := s[a..b];
    assert |t| > 0 && t[|t| - 1] == s[|s| - 1];
    if ParseBody(t).Some? {
      BodyEnds(t);
    }
  }

  /** A numeric body ends in a digit or a point. */
  lemma BodyEnds(t: string)
    requires ParseBody(t).Some?
    ensures |t| > 0 && (IsDigit(t[|t| - 1]) || t[|t| - 1] == '.')
  {
    var i := SignLength(t);
    var j := DigitsEnd(t, i);
    var f := PointEnd(t, j);
    var k := DigitsEnd(t, f);
    if k == |t| {
      assert |Significand(t, i, j, f, k)| > 0;
      if k > f {
        assert IsDigit(t[k - 1]);
      } else if f == j + 1 {
        assert t[k - 1] == '.';
      } else {
        assert j > i;
        assert IsDigit(t[j - 1]);
      }
    }
  }

  /** White space in front of a string does not change whether or how it is numeric. */
  lemma LeadingSpace(c: char, s: string)
    requires IsNumericSpace(c)
    ensures ParseNumeric([c] + s) == ParseNumeric(s)
  {
    StripConsSpace(c, s);
  }

  lemma StripConsSpace(c: char, s: string)
    requires IsNumericSpace(c)
    ensures StripNumericSpace([c] + s) == StripNumericSpace(s)
  {
    var t := [c] + s;
    var a := SpacesEnd(s, 0);
    var b := SpacesStart(s, a, |s|);
    assert t[0] == c;
    SpacesEndCons(c, s, 0);
    assert SpacesEnd(t, 0) == a + 1;
    SpacesStartCons(c, s, a, |s|);
    assert SpacesStart(t, a + 1, |t|) == b + 1;
    ConsSlice(c, s, a, b);
  }

  lemma SnocSlice(s: string, c: char, a: nat, b: nat)
    requires a <= b <= |s|
    ensures (s + [c])[a..b] == s[a..b]
  {
    var x, y := (s + [c])[a..b], s[a..b];
    assert forall i :: 0 <= i < |x| ==> x[i] == y[i];
  }

  lemma ConsSlice(c: char, s: string, a: nat, b: nat)
    requires a <= b <= |s|
    ensures ([c] + s)[a + 1..b + 1] == s[a..b]
  {
    var x, y := ([c] + s)[a + 1..b + 1], s[a..b];
    assert forall i :: 0 <= i < |x| ==> x[i] == y[i];
  }

  /** White space after a string does not change whether or how it is numeric. */
  lemma TrailingSpace(s: string, c: char)
    requires IsNumericSpace(c)
    ensures ParseNumeric(s + [c]) == ParseNumeric(s)
  {
    StripSnocSpace(s, c);
  }

  lemma StripSnocSpace(s: string, c: char)
    requires IsNumericSpace(c)
    ensures StripNumericSpace(s + [c]) == StripNumericSpace(s)
  {
    var t := s + [c];
    var a := SpacesEnd(s, 0);
    SpacesEndSnoc(s, c, 0);
    if a < |s| {
      SpacesStartSnoc(s, c, a, |s|);
      SnocSlice(s, c, a, SpacesStart(s, a, |s|));
    }
  }

  lemma {:induction false} SpacesEndCons(c: char, s: string, i: nat)
    requires i <= |s|
    ensures SpacesEnd([c] + s, i + 1) == SpacesEnd(s, i) + 1
    decreases |s| - i
  {
    if i < |s| && IsNumericSpace(s[i]) {
      SpacesEndCons(c, s, i + 1);
    }
  }

  lemma {:induction false} SpacesStartCons(c: char, s: string, lo: nat, j: nat)
    requires lo <= j <= |s|
    ensures SpacesStart([c] + s, lo + 1, j + 1) == SpacesStart(s, lo, j) + 1
    decreases j
  {
    if j > lo && IsNumericSpace(s[j - 1]) {
      SpacesStartCons(c, s, lo, j - 1);
    }
  }

  lemma {:induction false} SpacesEndSnoc(s: string, c: char, i: nat)
    requires i <= |s| && IsNumericSpace(c)
    ensures SpacesEnd(s, i) < |s| ==> SpacesEnd(s + [c], i) == SpacesEnd(s, i)
    ensures SpacesEnd(s, i) == |s| ==> SpacesEnd(s + [c], i) == |s| + 1
    decreases |s| - i
  {
    if i < |s| && IsNumericSpace(s[i]) {
      SpacesEndSnoc(s, c, i + 1);
    }
  }

  lemma {:induction false} SpacesStartSnoc(s: string, c: char, lo: nat, j: nat)
    requires lo <= j <= |s|
    ensures SpacesStart(s + [c], lo, j) == SpacesStart(s, lo, j)
    decreases j
  {
    if j > lo && IsNumericSpace(s[j - 1]) {
      SpacesStartSnoc(s, c, lo, j - 1);
    }
  }
}
