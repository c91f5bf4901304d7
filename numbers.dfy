/**
 * Numeric conversions of the two runtimes the core runs on.
 * JavaScript numbers are modelled as exact reals extended with the
 * infinities and NaN (signed zero is not modelled); Python's `int()` of a
 * float truncates toward zero; `Math.round` rounds half up.
 */
module Numbers {
  import opened Wrappers
  import opened Text

  /** Python `int(x)` for a float: truncation toward zero. */
  function Trunc(x: real): (r: int)
    ensures x >= 0.0 ==> 0 <= r && r as real <= x < r as real + 1.0
    ensures x < 0.0 ==> r <= 0 && r as real - 1.0 < x <= r as real
  {
    if x >= 0.0 then x.Floor else -((-x).Floor)
  }

  /** JavaScript `Math.round(x)`: the nearest integer, halves rounded up. */
  function RoundHalfUp(x: real): (r: int)
    ensures x - 0.5 < r as real <= x + 0.5
  {
    (x + 0.5).Floor
  }

  /** The value of the digits after a decimal point: 0.d1d2... */
  function Fraction(ds: string): (f: real)
    requires AllDigits(ds)
    ensures 0.0 <= f < 1.0
  {
    if ds == [] then 0.0
    else ((ds[0] as int - '0' as int) as real + Fraction(ds[1..])) / 10.0
  }

  /** The value `x` with the sign written at the start of `t` applied. */
  function Signed(t: string, x: real): real {
    if t != [] && t[0] == '-' then -x else x
  }

  /** A JavaScript number value. */
  datatype Number = Finite(value: real) | PosInf | NegInf | NaN

  /** IEEE division; a zero divisor is taken to be +0. */
  function Div(a: Number, b: Number): (r: Number)
    ensures r.NaN? <==> a.NaN? || b.NaN? || (a == Finite(0.0) && b == Finite(0.0))
                        || (!a.Finite? && !b.Finite?)
    ensures a.Finite? && b.Finite? && b.value != 0.0 ==> r == Finite(a.value / b.value)
  {
    match (a, b)
    case (NaN, _) => NaN
    case (_, NaN) => NaN
    case (Finite(x), Finite(y)) =>
      if y != 0.0 then Finite(x / y)
      else if x > 0.0 then PosInf
      else if x < 0.0 then NegInf
      else NaN
    case (Finite(_), _) => Finite(0.0)
    case (PosInf, Finite(y)) => if y >= 0.0 then PosInf else NegInf
    case (NegInf, Finite(y)) => if y >= 0.0 then NegInf else PosInf
    case (_, _) => NaN
  }

  /** JavaScript `a + b`: infinities absorb finite values, opposite infinities give NaN. */
  function Add(a: Number, b: Number): (r: Number)
    ensures r.NaN? <==> a.NaN? || b.NaN? || (a.PosInf? && b.NegInf?) || (a.NegInf? && b.PosInf?)
    ensures a.Finite? && b.Finite? ==> r == Finite(a.value + b.value)
  {
    match (a, b)
    case (NaN, _) => NaN
    case (_, NaN) => NaN
    case (Finite(x), Finite(y)) => Finite(x + y)
    case (PosInf, NegInf) => NaN
    case (NegInf, PosInf) => NaN
    case (PosInf, _) => PosInf
    case (_, PosInf) => PosInf
    case (NegInf, _) => NegInf
    case (_, NegInf) => NegInf
  }

  /** JavaScript `a * k` for a positive constant `k`. */
  function Times(a: Number, k: real): (r: Number)
    requires k > 0.0
    ensures r.Finite? <==> a.Finite?
    ensures !a.Finite? ==> r == a
  {
    if a.Finite? then Finite(a.value * k) else a
  }

  /** JavaScript `Math.round(a)`: infinities and NaN are returned unchanged. */
  function Round(a: Number): (r: Number)
    ensures r.Finite? <==> a.Finite?
    ensures a.Finite? ==> r == Finite(RoundHalfUp(a.value) as real)
  {
    if a.Finite? then Finite(RoundHalfUp(a.value) as real) else a
  }

  /** `a > c`; every comparison with NaN is false. */
  predicate Gt(a: Number, c: real) {
    match a
    case Finite(x) => x > c
    case PosInf => true
    case _ => false
  }

  /** `a < c`; every comparison with NaN is false. */
  predicate Lt(a: Number, c: real) {
    match a
    case Finite(x) => x < c
    case NegInf => true
    case _ => false
  }

  /** JavaScript truthiness of a number: everything except 0 and NaN. */
  predicate Truthy(a: Number) {
    a != NaN && a != Finite(0.0)
  }

  /** Drops one leading '+' or '-'. */
  function Unsigned(t: string): string {
    if t != [] && (t[0] == '-' || t[0] == '+') then t[1..] else t
  }

  predicate IsHexDigit(c: char) {
    IsDigit(c) || 'a' <= c <= 'f' || 'A' <= c <= 'F'
  }

  function HexDigitValue(c: char): (v: nat)
    requires IsHexDigit(c)
    ensures v < 16
  {
    if IsDigit(c) then c as int - '0' as int
    else if 'a' <= c <= 'f' then c as int - 'a' as int + 10
    else c as int - 'A' as int + 10
  }

  /** Number of hexadecimal digits at the start of `s`. */
  function HexPrefix(s: string): (n: nat)
    ensures n <= |s|
    ensures forall i :: 0 <= i < n ==> IsHexDigit(s[i])
    ensures n < |s| ==> !IsHexDigit(s[n])
  {
    if s == [] || !IsHexDigit(s[0]) then 0 else 1 + HexPrefix(s[1..])
  }

  /** The value of a run of hexadecimal digits. */
  function HexValue(s: string): nat
    requires forall i :: 0 <= i < |s| ==> IsHexDigit(s[i])
  {
    if s == [] then 0
    else 16 * HexValue(s[..|s| - 1]) + HexDigitValue(s[|s| - 1])
  }

  /** The text starts with the "0x" or "0X" that makes `parseInt` read base 16. */
  predicate HexMarked(u: string) {
    |u| >= 2 && u[0] == '0' && (u[1] == 'x' || u[1] == 'X')
  }

  /**
   * JavaScript `parseInt(s)` with no radix: leading whitespace skipped, an
   * optional sign, then the longest run of digits, read in base 16 after a
   * "0x" or "0X" and in base 10 otherwise; anything after the run is
   * ignored; NaN when the run is empty.
   */
  function ParseInt(s: string): (r: Number)
    ensures r.Finite? || r.NaN?
    ensures r.Finite? ==> r.value == r.value.Floor as real
  {
    var t := TrimStart(s);
    var u := Unsigned(t);
    var n := if HexMarked(u) then HexPrefix(u[2..]) else DigitPrefix(u);
    var v: int := if HexMarked(u) then HexValue(u[2..][..n]) else DigitsValue(u[..n]);
    if n == 0 then NaN else Finite((if t != [] && t[0] == '-' then -v else v) as real)
  }

  /** The digits after a '.' at the start of `rest`, if there is one. */
  function FractionDigits(rest: string): (f: string)
    ensures AllDigits(f)
  {
    if rest != [] && rest[0] == '.' then rest[1..][..DigitPrefix(rest[1..])] else []
  }

  /** `x` times 10 to the power `e`, computed exactly, one decimal place at a time. */
  function Scale(x: real, e: int): real
    decreases if e >= 0 then e else -e
  {
    if e == 0 then x
    else if e > 0 then Scale(x * 10.0, e - 1)
    else Scale(x / 10.0, e + 1)
  }

  /**
   * The exponent part `e` or `E`, an optional sign and at least one digit,
   * at the start of `s`; None when `s` does not start with one.
   */
  function ExponentOf(s: string): Option<int> {
    if s == [] || (s[0] != 'e' && s[0] != 'E') then None
    else
      var v := Unsigned(s[1..]);
      var n := DigitPrefix(v);
      if n == 0 then None
      else
        var k: int := DigitsValue(v[..n]);
        Some(if s[1] == '-' then -k else k)
  }

  const InfinityText: string := "Infinity"

  /** `u` starts with the letters of "Infinity". */
  predicate HasInfinityPrefix(u: string) {
    |u| >= 8 && u[..8] == InfinityText
  }

  /**
   * JavaScript `parseFloat(s)`: leading whitespace skipped, an optional sign,
   * then either "Infinity" or the longest decimal literal (digits with an
   * optional fractional part and an optional exponent); the rest is
   * ignored; NaN when the literal holds no digit. The value is exact: a
   * magnitude beyond the largest double stays finite.
   */
  function ParseFloat(s: string): (r: Number)
    ensures r.PosInf? || r.NegInf? <==> HasInfinityPrefix(Unsigned(TrimStart(s)))
  {
    var t := TrimStart(s);
    var u := Unsigned(t);
    if HasInfinityPrefix(u) then
      (if t != [] && t[0] == '-' then NegInf else PosInf)
    else
      var n := DigitPrefix(u);
      var rest := u[n..];
      var f := FractionDigits(rest);
      if n == 0 && f == [] then NaN
      else
        var after := if rest != [] && rest[0] == '.' then rest[1 + |f|..] else rest;
        var m := DigitsValue(u[..n]) as real + Fraction(f);
        Finite(Signed(t, match ExponentOf(after) case None => m case Some(e) => Scale(m, e)))
  }

  /**
   * Python `float(s)` for decimal text: surrounding whitespace allowed, an
   * optional sign, digits with an optional fractional part, and nothing else;
   * None where Python raises ValueError.
   */
  function PyFloat(s: string): (r: Option<real>)
  {
    var t := Trim(s);
    var u := Unsigned(t);
    var n := DigitPrefix(u);
    var rest := u[n..];
    if rest == [] then
      (if n == 0 then None else Some(Signed(t, DigitsValue(u[..n]) as real)))
    else if rest[0] != '.' || DigitPrefix(rest[1..]) != |rest| - 1 || (n == 0 && |rest| == 1) then None
    else Some(Signed(t, DigitsValue(u[..n]) as real + Fraction(rest[1..])))
  }

  lemma DigitPrefixOfDigits(d: string, rest: string)
    requires AllDigits(d)
    requires rest == [] || !IsDigit(rest[0])
    ensures DigitPrefix(d + rest) == |d|
  {
    if d != [] {
      assert (d + rest)[1..] == d[1..] + rest;
      DigitPrefixOfDigits(d[1..], rest);
    }
  }

  /** parseInt reads back the decimal text of a number, whatever non-digit text other than an 'x' follows it. */
  lemma ParseIntOfNat(n: nat, rest: string)
    requires rest == [] || (!IsDigit(rest[0]) && rest[0] != 'x' && rest[0] != 'X')
    ensures ParseInt(NatToString(n) + rest) == Finite(n as real)
  {
    var d := NatToString(n);
    var u := d + rest;
    assert u[0] == d[0];
    assert !HexMarked(u) by {
      if |u| >= 2 && |d| >= 2 {
        assert u[1] == d[1];
      } else if |u| >= 2 {
        assert u[1] == rest[0];
      }
    }
    DigitPrefixOfDigits(d, rest);
    assert u[..|d|] == d;
  }

  /** parseFloat reads back the decimal text of a number when no digit, '.' or exponent follows it. */
  lemma ParseFloatOfNat(n: nat, rest: string)
    requires rest == [] || (!IsDigit(rest[0]) && rest[0] != '.' && rest[0] != 'e' && rest[0] != 'E')
    ensures ParseFloat(NatToString(n) + rest) == Finite(n as real)
  {
    var d := NatToString(n);
    var u := d + rest;
    assert u[0] == d[0];
    assert LeadingSpaces(u) == 0;
    assert TrimStart(u) == u;
    assert Unsigned(u) == u;
    assert !(|u| >= 8 && u[..8] == InfinityText) by {
      if |u| >= 8 {
        assert u[..8][0] != InfinityText[0];
      }
    }
    DigitPrefixOfDigits(d, rest);
    assert u[..|d|] == d;
    assert u[|d|..] == rest;
    assert FractionDigits(rest) == [];
    assert ExponentOf(rest) == None;
    assert Fraction([]) == 0.0;
  }

  /** parseFloat reads an exponent: "1e3" is 1000. */
  lemma ExponentExample(e3: string)
    requires e3 == "1e3"
    ensures ParseFloat(e3) == Finite(1000.0)
  {
    assert TrimStart(e3) == e3 && Unsigned(e3) == e3;
    assert DigitPrefix(e3) == 1;
    var x := e3[1..];
    assert x == "e3" && FractionDigits(x) == [];
    assert ExponentOf(x) == Some(3) by {
      var v := x[1..];
      assert x[0] == 'e' && v == "3" && Unsigned(v) == v;
      assert DigitPrefix(v) == 1 && v[..1] == v;
      assert DigitsValue(v) == 3 by {
        assert v[..0] == [];
      }
    }
    assert DigitsValue(e3[..1]) == 1 by {
      assert e3[..1][..0] == [];
    }
    assert Scale(1.0, 3) == 1000.0;
  }

  /** Text that starts, after an optional sign, with "Infinity" reads as the infinity of that sign. */
  lemma ParseInfinity(t: string)
    requires t != [] && !IsSpace(t[0]) && HasInfinityPrefix(Unsigned(t))
    ensures ParseFloat(t) == if t[0] == '-' then NegInf else PosInf
  {
    assert LeadingSpaces(t) == 0;
    assert TrimStart(t) == t;
  }

  /** parseFloat reads "Infinity" and "-Infinity" as the two infinities. */
  lemma InfinityExample(inf: string, minusInf: string)
    requires inf == "Infinity" && minusInf == "-Infinity"
    ensures ParseFloat(inf) == PosInf && ParseFloat(minusInf) == NegInf
  {
    assert Unsigned(inf) == inf && inf[..8] == InfinityText;
    ParseInfinity(inf);
    var u := minusInf[1..];
    assert u == InfinityText && Unsigned(minusInf) == u && u[..8] == u;
    ParseInfinity(minusInf);
  }

  /** parseInt reads a "0x" prefix as base 16: "0x1A" is 26. */
  lemma HexExample(hex: string)
    requires hex == "0x1A"
    ensures ParseInt(hex) == Finite(26.0)
  {
    assert TrimStart(hex) == hex && Unsigned(hex) == hex && HexMarked(hex);
    var h := hex[2..];
    assert h == "1A" && HexPrefix(h) == 2 && h[..2] == h;
    assert HexValue(h) == 26 by {
      assert h[..1] == "1" && "1"[..0] == [];
    }
  }

  lemma TrimUnpadded(t: string)
    requires t != [] && !IsSpace(t[0]) && !IsSpace(t[|t| - 1])
    ensures Trim(t) == t
  {
  }

  /** Python's `float(str(n))` gives n back. */
  lemma PyFloatOfNat(n: nat)
    ensures PyFloat(NatToString(n)) == Some(n as real)
  {
    var d := NatToString(n);
    TrimUnpadded(d);
    DigitPrefixOfDigits(d, []);
    assert d + [] == d;
    assert d[|d|..] == [];
  }

  /** Python's `float(str(float(n)))`, whose text ends in ".0", gives n back. */
  lemma PyFloatOfWholeFloat(n: nat)
    ensures PyFloat(NatToString(n) + ".0") == Some(n as real)
  {
    var d := NatToString(n);
    var t := d + ".0";
    assert t[0] == d[0] && t[|t| - 1] == '0';
    TrimUnpadded(t);
    assert Unsigned(t) == t;
    DigitPrefixOfDigits(d, ".0");
    assert t[..|d|] == d;
    var rest := t[|d|..];
    assert rest == ".0";
    assert rest[1..] == "0";
    assert DigitPrefix(rest[1..]) == 1;
    var z := rest[1..];
    assert z[1..] == [];
    assert Fraction(z) == 0.0;
  }
}
