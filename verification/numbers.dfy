/**
 * Python's `int(...)` and `float(...)` on the tokens the parser feeds them.
 * `int` rejects a string of more than `IntMaxStrDigits` digits (CPython's
 * default integer-string conversion limit) with a `ValueError`; `None`
 * stands for that error. `float` is modelled as the exact decimal it reads.
 */
module Numbers {
  import opened Wrappers
  import opened Text

  /** CPython's default `sys.get_int_max_str_digits()`. */
  const IntMaxStrDigits: nat := 4300

  function DigitValue(c: char): (d: nat)
    ensures d < 10
  {
    if IsDigit(c) then c as int - '0' as int else 0
  }

  /** The value of a string of digits, most significant first. */
  function DigitsValue(s: string): nat
  {
    if s == [] then 0 else DigitsValue(s[..|s| - 1]) * 10 + DigitValue(s[|s| - 1])
  }

  function Pow10(n: nat): (p: nat)
    ensures p >= 1
  {
    if n == 0 then 1 else 10 * Pow10(n - 1)
  }

  /** `int(s)` for a string of digits. */
  function ParseDigits(s: string): Option<nat>
  {
    if IsDigits(s) && |s| <= IntMaxStrDigits then Some(DigitsValue(s)) else None
  }

  /** `int(s)` for a whitespace-free token: an optional sign, then digits. */
  function ParseInt(s: string): Option<int>
  {
    if IsDigits(s) then ParseDigits(s)
    else if |s| > 1 && (s[0] == '+' || s[0] == '-') then
      match ParseDigits(s[1..])
      case None => None
      case Some(n) => Some(if s[0] == '-' then -(n as int) else n as int)
    else None
  }

  /** The decimal digits of `n`, most significant first, without leading zeros. */
  function ShowNat(n: nat): (s: string)
    ensures IsDigits(s)
  {
    if n < 10 then [DigitChar(n)] else ShowNat(n / 10) + [DigitChar(n % 10)]
  }

  function DigitChar(d: nat): (c: char)
    requires d < 10
    ensures IsDigit(c) && DigitValue(c) == d
  {
    ('0' as int + d) as char
  }

  /** Appending a digit multiplies the value by ten and adds the digit. */
  lemma DigitsValueSnoc(s: string, c: char)
    ensures DigitsValue(s + [c]) == DigitsValue(s) * 10 + DigitValue(c)
  {
    assert (s + [c])[..|s|] == s;
  }

  /** `int(str(n))` gives back `n` whenever `str(n)` is within the digit limit. */
  lemma {:induction false} ParseDigitsShowNat(n: nat)
    ensures DigitsValue(ShowNat(n)) == n
    ensures |ShowNat(n)| <= IntMaxStrDigits ==> ParseDigits(ShowNat(n)) == Some(n)
  {
    if n >= 10 {
      ParseDigitsShowNat(n / 10);
      DigitsValueSnoc(ShowNat(n / 10), DigitChar(n % 10));
    }
  }

  /** `int` reads an unsigned string of digits exactly as `ParseDigits` does, and a sign in front negates. */
  lemma ParseIntSigned(s: string)
    requires IsDigits(s)
    ensures ParseInt(s) == ParseDigits(s)
    ensures ParseInt("+" + s) == ParseDigits(s)
    ensures ParseDigits(s).Some? ==> ParseInt("-" + s) == Some(-(ParseDigits(s).value as int))
    ensures ParseDigits(s).None? ==> ParseInt("-" + s).None?
  {
    assert ("+" + s)[1..] == s;
    assert ("-" + s)[1..] == s;
    assert !IsDigit('+') && !IsDigit('-');
  }

  /** `int` accepts only an optional sign followed by digits. */
  lemma ParseIntShape(s: string)
    ensures ParseInt(s).Some? ==> IsDigits(s) || (|s| >= 2 && (s[0] == '+' || s[0] == '-') && IsDigits(s[1..]))
  {
  }

  /** The regex `^\d+\.\d+$`: digits, a point, digits. */
  predicate IsDecimalToken(s: string) {
    |s| > 0 && IsDigit(s[0]) && DigitsThenPoint(s, 1)
  }

  /** From `i` on: more digits, then a point followed by at least one digit and nothing else. */
  predicate DigitsThenPoint(s: string, i: nat)
    decreases |s| - i
  {
    i < |s| && if IsDigit(s[i]) then DigitsThenPoint(s, i + 1) else s[i] == '.' && i + 1 < |s| && DigitsFrom(s, i + 1)
  }

  /** Everything from `i` on is a digit. */
  predicate DigitsFrom(s: string, i: nat)
    decreases |s| - i
  {
    i >= |s| || (IsDigit(s[i]) && DigitsFrom(s, i + 1))
  }

  /**
   * A number as `float(...)` reads it, kept exact: `mantissa / 10^scale`.
   * Rounding to binary floating point is not modelled.
   */
  datatype Decimal = Decimal(mantissa: int, scale: nat)

  const Zero := Decimal(0, 0)

  /** The value is in the closed interval [0, 10]. */
  predicate InZeroTen(d: Decimal) {
    0 <= d.mantissa <= 10 * Pow10(d.scale)
  }

  /**
   * An unsigned decimal numeral (`d+`, `d+.`, `d+.d+` or `.d+`) read left to
   * right from `i`: `mantissa` holds the digits so far, `scale` the digits
   * after the point, `point` whether the point was seen, `digits` whether any
   * digit was.
   */
  function DecimalFrom(s: string, i: nat, mantissa: nat, scale: nat, point: bool, digits: bool): Option<Decimal>
    requires i <= |s|
    decreases |s| - i
  {
    if i == |s| then (if digits then Some(Decimal(mantissa, scale)) else None)
    else if IsDigit(s[i]) then
      DecimalFrom(s, i + 1, mantissa * 10 + DigitValue(s[i]), if point then scale + 1 else scale, point, true)
    else if s[i] == '.' && !point then DecimalFrom(s, i + 1, mantissa, scale, true, digits)
    else None
  }

  /** `float(s)` for a whitespace-free token: an optional sign, then a decimal numeral. */
  function ParseFloat(s: string): Option<Decimal>
  {
    if |s| > 0 && (s[0] == '+' || s[0] == '-') then
      match DecimalFrom(s, 1, 0, 0, false, false)
      case None => None
      case Some(v) => Some(if s[0] == '-' then Decimal(-v.mantissa, v.scale) else v)
    else DecimalFrom(s, 0, 0, 0, false, false)
  }

  /** Reading on through digits only: the value of the whole prefix, no point. */
  lemma {:induction false} DecimalFromDigits(s: string, i: nat)
    requires i <= |s| && IsDigits(s)
    ensures DecimalFrom(s, i, DigitsValue(s[..i]), 0, false, i > 0) == Some(Decimal(DigitsValue(s), 0))
    decreases |s| - i
  {
    if i < |s| {
      assert s[..i + 1] == s[..i] + [s[i]];
      DigitsValueSnoc(s[..i], s[i]);
      DecimalFromDigits(s, i + 1);
    } else {
      assert s[..i] == s;
    }
  }

  /** `float` of a string of digits is that integer, with no fractional digits. */
  lemma ParseFloatDigits(s: string)
    requires IsDigits(s)
    ensures ParseFloat(s) == Some(Decimal(DigitsValue(s), 0))
  {
    DecimalFromDigits(s, 0);
    assert s[..0] == [];
  }

  /** After the point, a non-empty run of digits (or any run, once a digit was read) is accepted. */
  lemma {:induction false} DecimalFromFraction(s: string, i: nat, m: nat, sc: nat, d: bool)
    requires i <= |s| && DigitsFrom(s, i) && (d || i < |s|)
    ensures DecimalFrom(s, i, m, sc, true, d).Some?
    decreases |s| - i
  {
    if i < |s| {
      DecimalFromFraction(s, i + 1, m * 10 + DigitValue(s[i]), sc + 1, true);
    }
  }

  /** Digits, a point and a non-empty run of digits are accepted. */
  lemma {:induction false} DecimalFromPoint(s: string, i: nat, m: nat, sc: nat)
    requires i <= |s| && DigitsThenPoint(s, i)
    ensures DecimalFrom(s, i, m, sc, false, true).Some?
    decreases |s| - i
  {
    if IsDigit(s[i]) {
      DecimalFromPoint(s, i + 1, m * 10 + DigitValue(s[i]), sc);
    } else {
      DecimalFromFraction(s, i + 1, m, sc, true);
    }
  }

  /** Whatever the reader returns is not negative. */
  lemma {:induction false} DecimalFromNonNegative(s: string, i: nat, m: nat, sc: nat, p: bool, d: bool)
    requires i <= |s|
    ensures DecimalFrom(s, i, m, sc, p, d).Some? ==> DecimalFrom(s, i, m, sc, p, d).value.mantissa >= 0
    decreases |s| - i
  {
    if i < |s| {
      if IsDigit(s[i]) {
        DecimalFromNonNegative(s, i + 1, m * 10 + DigitValue(s[i]), if p then sc + 1 else sc, p, true);
      } else if s[i] == '.' && !p {
        DecimalFromNonNegative(s, i + 1, m, sc, true, d);
      }
    }
  }

  /** `float` accepts every `\d+\.\d+` token, and its value is not negative. */
  lemma ParseFloatDecimalToken(s: string)
    requires IsDecimalToken(s)
    ensures ParseFloat(s).Some? && ParseFloat(s).value.mantissa >= 0
  {
    DecimalFromPoint(s, 1, DigitValue(s[0]), 0);
    DecimalFromNonNegative(s, 0, 0, 0, false, false);
  }

  /** A run of digits holds no point. */
  lemma {:induction false} NoPointInDigits(t: string, i: nat)
    requires IsDigits(t)
    ensures !DigitsThenPoint(t, i)
    decreases |t| - i
  {
    if i < |t| {
      NoPointInDigits(t, i + 1);
    }
  }

  /** A digit-only token is no decimal, no `@` grace token and none of the marker words the scans skip. */
  lemma DigitTokenIsNoMarker(t: string)
    requires IsDigits(t)
    ensures !IsDecimalToken(t) && !StartsWith(t, "@")
    ensures t != "..." && t != "P" && t != "F" && t != "+"
  {
    NoPointInDigits(t, 1);
    assert t[..1][0] == t[0];
    assert "..."[0] == '.' && "P"[0] == 'P' && "F"[0] == 'F' && "+"[0] == '+' && "@"[0] == '@';
  }

  /** The value a decimal stands for. */
  function Value(d: Decimal): real {
    d.mantissa as real / Pow10(d.scale) as real
  }

  lemma {:induction false} Pow10Add(a: nat, b: nat)
    ensures Pow10(a + b) == Pow10(a) * Pow10(b)
  {
    if a > 0 {
      Pow10Add(a - 1, b);
    }
  }

  /** The sum of two decimals, on the finer of their two scales. */
  function Add(a: Decimal, b: Decimal): (r: Decimal)
    ensures r.scale == if a.scale <= b.scale then b.scale else a.scale
  {
    if a.scale <= b.scale then Decimal(a.mantissa * Pow10(b.scale - a.scale) + b.mantissa, b.scale)
    else Decimal(a.mantissa + b.mantissa * Pow10(a.scale - b.scale), a.scale)
  }

  lemma DivCancel(x: real, p: real, q: real)
    requires p > 0.0 && q > 0.0
    ensures (x * p) / (q * p) == x / q
  {
    var r := x / q;
    assert r * q == x;
    assert x * p == r * (q * p);
  }

  lemma CastMul(a: int, b: int)
    ensures (a * b) as real == a as real * b as real
  {
  }

  /** Scaling the mantissa and the denominator alike keeps the value. */
  lemma Rescale(m: int, small: nat, extra: nat)
    ensures (m * Pow10(extra)) as real / Pow10(small + extra) as real == m as real / Pow10(small) as real
  {
    Pow10Add(small, extra);
    var p, q := Pow10(extra), Pow10(small);
    CastMul(m, p);
    CastMul(q, p);
    DivCancel(m as real, p as real, q as real);
  }

  lemma DivAdd(x: real, y: real, d: real)
    requires d > 0.0
    ensures (x + y) / d == x / d + y / d
  {
  }

  /** Adding `n` to a decimal whose mantissa was scaled up to scale `small + extra`. */
  lemma AddScaled(m: int, n: int, small: nat, extra: nat)
    ensures (m * Pow10(extra) + n) as real / Pow10(small + extra) as real
            == m as real / Pow10(small) as real + n as real / Pow10(small + extra) as real
  {
    DivAdd((m * Pow10(extra)) as real, n as real, Pow10(small + extra) as real);
    Rescale(m, small, extra);
  }

  /** `Add` is exact: the sum stands for the sum of the values. */
  lemma AddValue(a: Decimal, b: Decimal)
    ensures Value(Add(a, b)) == Value(a) + Value(b)
  {
    if a.scale <= b.scale {
      var e := b.scale - a.scale;
      AddScaled(a.mantissa, b.mantissa, a.scale, e);
      assert a.scale + e == b.scale;
    } else {
      var e := a.scale - b.scale;
      AddScaled(b.mantissa, a.mantissa, b.scale, e);
      assert b.scale + e == a.scale;
      assert b.mantissa * Pow10(e) + a.mantissa == a.mantissa + b.mantissa * Pow10(e);
    }
  }

  /** Python's `sum` of decimals, kept exact. */
  function Sum(ds: seq<Decimal>): Decimal {
    if ds == [] then Zero else Add(ds[0], Sum(ds[1..]))
  }

  /** The exact sum of the values. */
  function ValueSum(ds: seq<Decimal>): real {
    if ds == [] then 0.0 else Value(ds[0]) + ValueSum(ds[1..])
  }

  /** `Sum` adds the values exactly. */
  lemma {:induction false} SumValue(ds: seq<Decimal>)
    ensures Value(Sum(ds)) == ValueSum(ds)
  {
    if ds != [] {
      SumValue(ds[1..]);
      AddValue(ds[0], Sum(ds[1..]));
    }
  }
}
