/** Swift's numeric conversions as the app uses them: `Int(String)` (optional sign,
    decimal digits, 64-bit range), `Double(String)` (restricted to plain decimal
    literals), string interpolation of an `Int`, and `Int` division, which
    truncates toward zero unlike Dafny's Euclidean `/`. */
module Numbers {
  import opened Basics

  const IntMin: int := -0x8000_0000_0000_0000
  const IntMax: int := 0x7FFF_FFFF_FFFF_FFFF

  predicate InIntRange(n: int) { IntMin <= n <= IntMax }

  predicate IsDigit(c: char) { '0' <= c <= '9' }

  predicate AllDigits(s: string)
  {
    forall i :: 0 <= i < |s| ==> IsDigit(s[i])
  }

  function DigitValue(c: char): int
    requires IsDigit(c)
  {
    c as int - '0' as int
  }

  function DigitChar(d: int): (c: char)
    requires 0 <= d < 10
    ensures IsDigit(c) && DigitValue(c) == d
  {
    ('0' as int + d) as char
  }

  /** Value of a decimal digit string, most significant digit first. */
  function DigitsValue(ds: string): nat
    requires AllDigits(ds)
  {
    if |ds| == 0 then 0 else DigitsValue(ds[..|ds| - 1]) * 10 + DigitValue(ds[|ds| - 1])
  }

  /** Decimal rendering of a natural number without leading zeros. */
  function FormatNat(n: nat): (s: string)
    ensures |s| > 0 && AllDigits(s)
    ensures DigitsValue(s) == n
  {
    if n < 10 then
      var s := [DigitChar(n)];
      assert s[..0] == [];
      s
    else
      var p := FormatNat(n / 10);
      var s := p + [DigitChar(n % 10)];
      assert s[..|s| - 1] == p;
      s
  }

  /** `"\(n)"` for an `Int`: a leading minus for negatives, no plus sign. */
  function FormatInt(n: int): (s: string)
    ensures |s| > 0
    ensures n < 0 <==> s[0] == '-'
    ensures forall i :: 0 <= i < |s| ==> IsDigit(s[i]) || (i == 0 && s[i] == '-')
  {
    if n < 0 then "-" + FormatNat(-n) else FormatNat(n)
  }

  /** `s` is an optional `+`/`-` followed by at least one decimal digit. */
  predicate IsIntLiteral(s: string)
  {
    (|s| > 0 && AllDigits(s)) ||
    (|s| > 1 && (s[0] == '+' || s[0] == '-') && AllDigits(s[1..]))
  }

  /** `Int(s)`: the value of an integer literal that fits in 64 bits, otherwise `nil`. */
  function ParseInt(s: string): (r: Option<int>)
    ensures r.Some? ==> IsIntLiteral(s) && InIntRange(r.value)
    ensures r.Some? ==> (r.value < 0 ==> s[0] == '-')
  {
    if |s| > 0 && AllDigits(s) then
      var v := DigitsValue(s);
      if v <= IntMax then Some(v) else None
    else if |s| > 1 && (s[0] == '+' || s[0] == '-') && AllDigits(s[1..]) then
      var v: int := if s[0] == '-' then -(DigitsValue(s[1..]) as int) else DigitsValue(s[1..]);
      if InIntRange(v) then Some(v) else None
    else None
  }

  /** Parsing the rendering of any 64-bit integer gives the integer back. */
  lemma ParseFormatInt(n: int)
    requires InIntRange(n)
    ensures ParseInt(FormatInt(n)) == Some(n)
  {
    if n < 0 {
      var s := FormatInt(n);
      assert s[1..] == FormatNat(-n);
      assert !AllDigits(s) by {
        assert !IsDigit(s[0]);
      }
    }
  }

  /** The rendering of an integer is accepted by `ParseInt` only within 64 bits. */
  lemma ParseFormatIntOutOfRange(n: int)
    requires !InIntRange(n)
    ensures ParseInt(FormatInt(n)) == None
  {
    if n < 0 {
      var s := FormatInt(n);
      assert s[1..] == FormatNat(-n);
      assert !AllDigits(s) by {
        assert !IsDigit(s[0]);
      }
    }
  }

  function Pow10(n: nat): (p: nat)
    ensures p > 0
  {
    if n == 0 then 1 else 10 * Pow10(n - 1)
  }

  lemma AllDigitsAppend(a: string, b: string)
    requires AllDigits(a) && AllDigits(b)
    ensures AllDigits(a + b)
  {
    forall i | 0 <= i < |a + b|
      ensures IsDigit((a + b)[i])
    {
      if i >= |a| {
        assert (a + b)[i] == b[i - |a|];
      }
    }
  }

  lemma ShiftStep(x: int, p: int, y: int, d: int)
    ensures (x * p + y) * 10 + d == x * (10 * p) + (y * 10 + d)
  {
  }

  /** The value of a concatenation of digit strings: the left part shifted by the
      length of the right part. */
  lemma {:induction false} DigitsValueAppend(a: string, b: string)
    requires AllDigits(a) && AllDigits(b)
    ensures AllDigits(a + b)
    ensures DigitsValue(a + b) == DigitsValue(a) * Pow10(|b|) + DigitsValue(b)
    decreases |b|
  {
    AllDigitsAppend(a, b);
    if |b| == 0 {
      assert a + b == a;
    } else {
      var b' := b[..|b| - 1];
      var c := b[|b| - 1];
      assert (a + b)[..|a + b| - 1] == a + b';
      assert (a + b)[|a + b| - 1] == c;
      DigitsValueAppend(a, b');
      assert DigitsValue(a + b) == DigitsValue(a + b') * 10 + DigitValue(c);
      assert DigitsValue(b) == DigitsValue(b') * 10 + DigitValue(c);
      ShiftStep(DigitsValue(a), Pow10(|b'|), DigitsValue(b'), DigitValue(c));
    }
  }

  /** A run of `n` zero digits. */
  function Zeros(n: nat): (z: string)
    ensures |z| == n && AllDigits(z)
    ensures forall i :: 0 <= i < n ==> z[i] == '0'
  {
    seq(n, _ => '0')
  }

  lemma {:induction false} ZerosValue(n: nat)
    ensures DigitsValue(Zeros(n)) == 0
  {
    if n > 0 {
      assert Zeros(n)[..n - 1] == Zeros(n - 1);
      ZerosValue(n - 1);
    }
  }

  /** `s` left-padded with zeros to at least `width` characters, as a fixed-width
      date field pattern prints a number. */
  function PadLeft(s: string, width: nat): (r: string)
    ensures |r| == if |s| >= width then |s| else width
    ensures r[|r| - |s|..] == s
    ensures forall i :: 0 <= i < |r| - |s| ==> r[i] == '0'
  {
    if |s| >= width then s else Zeros(width - |s|) + s
  }

  /** Zero padding does not change the value of a digit string. */
  lemma PadLeftValue(s: string, width: nat)
    requires AllDigits(s)
    ensures AllDigits(PadLeft(s, width))
    ensures DigitsValue(PadLeft(s, width)) == DigitsValue(s)
  {
    if |s| < width {
      DigitsValueAppend(Zeros(width - |s|), s);
      ZerosValue(width - |s|);
    }
  }

  /** A number below `10^k` renders in at most `k` digits (and at least one). */
  lemma {:induction false} FormatNatLength(n: nat, k: nat)
    requires k > 0 && n < Pow10(k)
    ensures |FormatNat(n)| <= k
  {
    if n >= 10 {
      assert k > 1;
      FormatNatLength(n / 10, k - 1);
    }
  }

  /** Value of `[intDigits].[fracDigits]` as an exact real. */
  function DecimalValue(intDigits: string, fracDigits: string): (v: real)
    requires AllDigits(intDigits) && AllDigits(fracDigits)
    ensures v >= 0.0
  {
    DigitsValue(intDigits) as real + DigitsValue(fracDigits) as real / Pow10(|fracDigits|) as real
  }

  /** `Double(s)` on plain decimal literals: optional sign, digits, at most one point,
      at least one digit. The value is exact; binary rounding is not modelled. */
  function ParseDouble(s: string): (r: Option<real>)
    ensures r.Some? ==> exists i :: 0 <= i < |s| && IsDigit(s[i])
    ensures r.Some? ==> forall i :: 0 <= i < |s| ==>
      IsDigit(s[i]) || s[i] == '.' || (i == 0 && (s[i] == '+' || s[i] == '-'))
    ensures r.Some? && r.value < 0.0 ==> s[0] == '-'
  {
    var neg := |s| > 0 && s[0] == '-';
    var body := if |s| > 0 && (s[0] == '-' || s[0] == '+') then s[1..] else s;
    match IndexOf(body, '.')
    case None =>
      if |body| > 0 && AllDigits(body) then
        var v := DigitsValue(body) as real;
        Some(if neg then -v else v)
      else None
    case Some(d) =>
      var ip := body[..d];
      var fp := body[d + 1..];
      if |ip| + |fp| > 0 && AllDigits(ip) && AllDigits(fp) then
        var v := DecimalValue(ip, fp);
        Some(if neg then -v else v)
      else None
  }

  /** Every integer rendering is also a decimal literal with the same value. */
  lemma ParseDoubleOfInt(n: int)
    ensures ParseDouble(FormatInt(n)) == Some(n as real)
  {
    var s := FormatInt(n);
    if n < 0 {
      assert s[1..] == FormatNat(-n);
      assert '.' !in FormatNat(-n);
    } else {
      assert '.' !in s;
    }
  }

  /** Swift's `Int` division by a positive divisor: the quotient is rounded toward
      zero, so the remainder takes the sign of the dividend. */
  function TruncDiv(a: int, b: int): (q: int)
    requires b > 0
    ensures a >= 0 ==> 0 <= a - q * b < b
    ensures a < 0 ==> -b < a - q * b <= 0
  {
    if a >= 0 then a / b
    else
      var q := (-a) / b;
      assert -a == q * b + (-a) % b;
      -q
  }
}
