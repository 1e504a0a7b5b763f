/**
 * Whole numbers as decimal text, and the two JavaScript number parsers the forms use:
 * `parseInt(s, 10)` and `parseFloat(s)`. NaN is `None`. Without a radix, `parseInt` would also
 * read a `0x` prefix as hexadecimal; the inputs it is applied to are `type="number"` fields,
 * whose value is never written that way, so the decimal reading is the one that applies.
 */
module Numeric {
  import opened Wrappers
  import opened Text

  function Pow10(k: nat): (r: nat)
    ensures r >= 1
  {
    if k == 0 then 1 else 10 * Pow10(k - 1)
  }

  function DigitChar(d: int): (c: char)
    requires 0 <= d < 10
    ensures IsAsciiDigit(c)
  {
    ('0' as int + d) as char
  }

  function DigitValue(c: char): (d: nat)
    requires IsAsciiDigit(c)
    ensures d < 10 && DigitChar(d) == c
  {
    c as int - '0' as int
  }

  predicate AllDigits(s: string)
  {
    forall i :: 0 <= i < |s| ==> IsAsciiDigit(s[i])
  }

  /** `n.toString()` for a whole number `n >= 0`: no sign, no leading zero. */
  function NatToDecimal(n: nat): (r: string)
    ensures |r| >= 1 && AllDigits(r)
    ensures |r| > 1 ==> r[0] != '0'
    decreases n
  {
    if n < 10 then [DigitChar(n)] else NatToDecimal(n / 10) + [DigitChar(n % 10)]
  }

  /** `n.toString()` for any whole number. */
  function IntToDecimal(n: int): string
  {
    if n < 0 then "-" + NatToDecimal(-n) else NatToDecimal(n)
  }

  /** The value of a run of decimal digits, read left to right. */
  function DigitsValue(ds: string): nat
    requires AllDigits(ds)
    decreases |ds|
  {
    if ds == [] then 0 else 10 * DigitsValue(ds[..|ds| - 1]) + DigitValue(ds[|ds| - 1])
  }

  /** Reading back the decimal text of `n` gives `n`. */
  lemma {:induction false} DecimalRoundTrip(n: nat)
    ensures DigitsValue(NatToDecimal(n)) == n
    decreases n
  {
    if n >= 10 {
      var s := NatToDecimal(n);
      assert s[..|s| - 1] == NatToDecimal(n / 10);
      DecimalRoundTrip(n / 10);
    }
  }

  /** Length of the longest prefix of decimal digits. */
  function DigitRunLength(s: string): (k: nat)
    ensures k <= |s| && AllDigits(s[..k])
    ensures k < |s| ==> !IsAsciiDigit(s[k])
  {
    if s != [] && IsAsciiDigit(s[0]) then 1 + DigitRunLength(s[1..]) else 0
  }

  lemma DigitRunOfDigits(s: string)
    requires AllDigits(s)
    ensures DigitRunLength(s) == |s|
  {
  }

  /** The decimal text of `n` is read back, as a whole, by the digit reader. */
  lemma DigitsOfDecimal(n: nat)
    ensures DigitRunLength(NatToDecimal(n)) == |NatToDecimal(n)|
    ensures ParseDigits(NatToDecimal(n)) == Some(n)
  {
    var d := NatToDecimal(n);
    DecimalRoundTrip(n);
    DigitRunOfDigits(d);
    assert d[..|d|] == d;
  }

  /** The text after an optional leading `+` or `-`, and whether the sign was `-`. */
  function SplitSign(t: string): (bool, string)
  {
    if t != [] && (t[0] == '-' || t[0] == '+') then (t[0] == '-', t[1..]) else (false, t)
  }

  /**
   * `parseInt(s, 10)`: skip leading white space, read an optional sign, then the longest run
   * of decimal digits; NaN (`None`) when that run is empty.
   */
  function ParseInt(s: string): Option<int>
  {
    var (neg, u) := SplitSign(TrimStart(s));
    match ParseDigits(u)
    case None => None
    case Some(v) => Some(if neg then -v else v)
  }

  /** The value of the leading run of digits of `u`, or `None` when `u` does not start with one. */
  function ParseDigits(u: string): Option<int>
  {
    var k := DigitRunLength(u);
    if k == 0 then None else Some(DigitsValue(u[..k]))
  }

  /** `parseInt(s, 10) || fallback`: NaN and 0 are both falsy, so both give `fallback`. */
  function ParseIntOr(s: string, fallback: int): (r: int)
    ensures r == fallback || r != 0
    ensures r != fallback ==> ParseInt(s) == Some(r)
    ensures ParseInt(s).Some? && ParseInt(s).value != 0 ==> r == ParseInt(s).value
  {
    match ParseInt(s)
    case Some(v) => if v != 0 then v else fallback
    case None => fallback
  }

  /**
   * `parseInt(value) || 0`, how the integer fields of the stock forms read their text: the
   * parsed integer, or 0 when the text does not start with one.
   */
  function IntegerInput(text: string): (n: int)
    ensures n == 0 || ParseInt(text) == Some(n)
    ensures ParseInt(text).Some? ==> n == ParseInt(text).value
  {
    ParseIntOr(text, 0)
  }

  /** `parseInt` reads back the decimal text of every whole number. */
  lemma ParseIntDecimal(n: int)
    ensures ParseInt(IntToDecimal(n)) == Some(n)
  {
    var m := if n < 0 then -n else n;
    DigitsOfDecimal(m);
    SignOfDecimal(n);
  }

  /** The text of a whole number has no white space to skip, and its sign is read back. */
  lemma SignOfDecimal(n: int)
    ensures SplitSign(TrimStart(IntToDecimal(n))) == (n < 0, NatToDecimal(if n < 0 then -n else n))
  {
    var m := if n < 0 then -n else n;
    var d := NatToDecimal(m);
    var t := IntToDecimal(n);
    assert !IsJsSpace(t[0]) by {
      assert t[0] == '-' || IsAsciiDigit(t[0]);
    }
    assert TrimStart(t) == t;
    if n < 0 {
      assert t == "-" + d;
      assert t[1..] == d;
    }
  }

  /** The `|| fallback` of a whole number's text: the number itself unless it is 0. */
  lemma ParseIntOrDecimal(n: int, fallback: int)
    ensures ParseIntOr(IntToDecimal(n), fallback) == if n == 0 then fallback else n
  {
    ParseIntDecimal(n);
  }

  /** The value of the digits after a decimal point. */
  function FractionValue(ds: string): (v: real)
    requires AllDigits(ds)
    ensures 0.0 <= v <= 1.0
  {
    if ds == [] then 0.0 else (DigitValue(ds[0]) as real + FractionValue(ds[1..])) / 10.0
  }

  /**
   * `parseFloat(s)` without exponents and `Infinity`: skip leading white space, read an optional
   * sign, digits, and an optional `.` followed by digits; NaN (`None`) when there is no digit.
   */
  function ParseFloat(s: string): Option<real>
  {
    var (neg, u) := SplitSign(TrimStart(s));
    match ParseUnsignedDecimal(u)
    case None => None
    case Some(v) => Some(if neg then -v else v)
  }

  /** Digits, then optionally `.` and digits; `None` when neither part has a digit. */
  function ParseUnsignedDecimal(u: string): Option<real>
  {
    var k := DigitRunLength(u);
    var frac := FractionDigits(u[k..]);
    if k == 0 && frac == [] then None
    else Some(DigitsValue(u[..k]) as real + FractionValue(frac))
  }

  /** The digits after a leading `.`, if `rest` starts with one. */
  function FractionDigits(rest: string): (f: string)
    ensures AllDigits(f)
  {
    if rest != [] && rest[0] == '.' then rest[1..][..DigitRunLength(rest[1..])] else []
  }

  /** `parseFloat(s) || 0`. */
  function ParseFloatOr0(s: string): (r: real)
    ensures r != 0.0 ==> ParseFloat(s) == Some(r)
    ensures ParseFloat(s).None? ==> r == 0.0
    ensures ParseFloat(s).Some? ==> r == ParseFloat(s).value
  {
    match ParseFloat(s)
    case Some(v) => v
    case None => 0.0
  }

  lemma UnsignedDecimalOfDecimal(n: nat)
    ensures ParseUnsignedDecimal(NatToDecimal(n)) == Some(n as real)
  {
    var d := NatToDecimal(n);
    DigitsOfDecimal(n);
    assert d[|d|..] == [];
    assert d[..|d|] == d;
    assert DigitsValue(d) == n;
  }

  /** `parseFloat` reads a whole number's text as that number. */
  lemma ParseFloatDecimal(n: int)
    ensures ParseFloat(IntToDecimal(n)) == Some(n as real)
  {
    var m := if n < 0 then -n else n;
    UnsignedDecimalOfDecimal(m);
    SignOfDecimal(n);
  }

  /** `parseFloat` reads digits after the point: " 12.50" is 12.5. */
  lemma ParseFloatExample()
    ensures ParseFloat(" 12.50") == Some(12.5)
  {
    LeadingSpaceExample();
    UnsignedExample();
  }

  lemma LeadingSpaceExample()
    ensures SplitSign(TrimStart(" 12.50")) == (false, "12.50")
  {
    var u := "12.50";
    assert " 12.50"[1..] == u;
    assert !IsJsSpace(u[0]);
    assert TrimStart(u) == u;
  }

  lemma UnsignedExample()
    ensures ParseUnsignedDecimal("12.50") == Some(12.5)
  {
    var u := "12.50";
    assert DigitRunLength(u) == 2 by {
      assert u[1..] == "2.50";
      assert "2.50"[1..] == ".50";
      assert DigitRunLength(".50") == 0;
    }
    assert FractionDigits(u[2..]) == "50" by {
      assert u[2..] == ".50";
      assert ".50"[1..] == "50";
      assert DigitRunLength("50") == 2 by {
        assert "50"[1..] == "0";
        assert "0"[1..] == "";
      }
    }
    assert DigitsValue(u[..2]) == 12 by {
      assert u[..2] == "12";
      assert "12"[..1] == "1";
      assert "1"[..0] == "";
    }
    assert FractionValue("50") == 0.5 by {
      assert "50"[1..] == "0";
      assert "0"[1..] == "";
    }
  }

  /** Text without a leading digit is NaN. */
  lemma ParseFloatNaN()
    ensures ParseFloat("abc") == None
  {
    var t := "abc";
    assert !IsJsSpace(t[0]);
    assert TrimStart(t) == t;
    assert SplitSign(t) == (false, t);
    assert ParseUnsignedDecimal(t) == None by {
      assert DigitRunLength(t) == 0;
      assert t[0..] == t;
      assert FractionDigits(t) == [];
    }
  }

  /** `s.slice(-k)`: the last `k` characters, or all of them when there are fewer. */
  function LastChars(s: string, k: nat): (r: string)
    ensures |r| == if |s| < k then |s| else k
  {
    if |s| <= k then s else s[|s| - k..]
  }

  /** The last `k` decimal digits of `m`, zero-padded on the left. */
  function FixedDigits(m: nat, k: nat): (r: string)
    ensures |r| == k && AllDigits(r)
  {
    if k == 0 then [] else FixedDigits(m / 10, k - 1) + [DigitChar(m % 10)]
  }

  lemma {:induction false} DecimalLength(n: nat, k: nat)
    requires n >= Pow10(k)
    ensures |NatToDecimal(n)| >= k + 1
  {
    if k > 0 {
      DecimalLength(n / 10, k - 1);
    }
  }

  /**
   * For a number of at least `k` digits, the last `k` characters of its decimal text are its
   * last `k` digits: `k` characters, nothing left to pad.
   */
  lemma {:induction false} LastDigitsOfDecimal(n: nat, k: nat)
    requires k >= 1 && n >= Pow10(k - 1)
    ensures LastChars(NatToDecimal(n), k) == FixedDigits(n, k)
  {
    if n >= 10 {
      var d := DigitChar(n % 10);
      var s' := NatToDecimal(n / 10);
      assert NatToDecimal(n) == s' + [d];
      if k == 1 {
        LastCharsSnoc(s', d, 1);
      } else {
        assert n / 10 >= Pow10(k - 2);
        LastDigitsOfDecimal(n / 10, k - 1);
        DecimalLength(n / 10, k - 2);
        LastCharsSnoc(s', d, k);
      }
    }
  }

  /** Taking the last `k` characters commutes with appending one, when nothing is left to pad. */
  lemma LastCharsSnoc(s: string, c: char, k: nat)
    requires k >= 1 && |s| >= k - 1
    ensures LastChars(s + [c], k) == LastChars(s, k - 1) + [c]
  {
    if |s| >= k {
      assert (s + [c])[|s| + 1 - k..] == s[|s| - (k - 1)..] + [c];
    }
  }

  /** A number below `10^k` has at most `k` digits (and always at least one). */
  lemma {:induction false} DecimalLengthAtMost(n: nat, k: nat)
    requires k >= 1 && n < Pow10(k)
    ensures |NatToDecimal(n)| <= k
  {
    if n >= 10 {
      DecimalLengthAtMost(n / 10, k - 1);
    }
  }
}
