/** The pieces of C string handling and `sprintf` formatting that the
    bridge's observable strings depend on: C-string truncation at the first
    NUL, `%d` and `%f`. Each formatter is paired with a parser and a proof
    that parsing recovers the formatted value. */
module Text {
  import opened Wrappers
  import opened Numerics

  const NUL: char := '\0'

  /** The text a `const char *` carries when a `std::string` is built from
      it: everything before the first NUL. */
  function CStr(s: string): (r: string)
    ensures r <= s
    ensures NUL !in r
    ensures |r| < |s| ==> s[|r|] == NUL
  {
    if s == [] || s[0] == NUL then [] else [s[0]] + CStr(s[1..])
  }

  /** A string without NUL passes through a C string unchanged. */
  lemma CStrOfPlain(s: string)
    requires NUL !in s
    ensures CStr(s) == s
  {
  }

  /** Whatever follows a NUL never reaches the C string. */
  lemma {:induction false} CStrStopsAtNul(s: string, t: string)
    ensures NUL in s ==> CStr(s + t) == CStr(s)
  {
    if NUL in s && s[0] != NUL {
      assert (s + t)[1..] == s[1..] + t;
      CStrStopsAtNul(s[1..], t);
    }
  }

  predicate IsDigit(c: char) {
    '0' <= c <= '9'
  }

  predicate AllDigits(s: string) {
    forall i :: 0 <= i < |s| ==> IsDigit(s[i])
  }

  function DigitChar(d: nat): (c: char)
    requires d < 10
    ensures IsDigit(c) && c as int - '0' as int == d
  {
    ('0' as int + d) as char
  }

  /** The decimal digits of `n`, most significant first, no leading zero. */
  function NatDigits(n: nat): (s: string)
    ensures |s| >= 1 && AllDigits(s)
    ensures s[0] == '0' ==> n == 0
  {
    if n < 10 then [DigitChar(n)] else NatDigits(n / 10) + [DigitChar(n % 10)]
  }

  /** The number a string of decimal digits denotes. */
  function ParseNat(s: string): nat
    requires AllDigits(s)
  {
    if s == [] then 0 else 10 * ParseNat(s[..|s| - 1]) + (s[|s| - 1] as int - '0' as int)
  }

  lemma {:induction false} ParseNatDigits(n: nat)
    ensures ParseNat(NatDigits(n)) == n
  {
    if n >= 10 {
      var s := NatDigits(n);
      assert s[..|s| - 1] == NatDigits(n / 10);
      ParseNatDigits(n / 10);
    }
  }

  /** `sprintf(buf, "%d", n)`. */
  function Decimal(n: int): (s: string)
    ensures |s| >= 1
    ensures s[0] == '-' <==> n < 0
  {
    if n < 0 then "-" + NatDigits(-n) else NatDigits(n)
  }

  /** Reads an optionally signed decimal integer, as `strtol` would read a
      whole string. */
  function ParseDecimal(s: string): Option<int> {
    if |s| >= 2 && s[0] == '-' && AllDigits(s[1..]) then Some(0 - ParseNat(s[1..]))
    else if |s| >= 1 && AllDigits(s) then Some(ParseNat(s))
    else None
  }

  lemma ParseSigned(digits: string)
    requires |digits| >= 1 && AllDigits(digits)
    ensures ParseDecimal("-" + digits) == Some(0 - ParseNat(digits))
    ensures ParseDecimal(digits) == Some(ParseNat(digits))
  {
    assert ("-" + digits)[1..] == digits;
    assert IsDigit(digits[0]);
  }

  lemma DecimalRoundTrip(n: int)
    ensures ParseDecimal(Decimal(n)) == Some(n)
  {
    var m := if n < 0 then -n else n;
    ParseSigned(NatDigits(m));
    ParseNatDigits(m);
  }

  function Pow10(w: nat): (p: nat)
    ensures p >= 1
  {
    if w == 0 then 1 else 10 * Pow10(w - 1)
  }

  /** The last `width` decimal digits of `n`, zero-padded on the left. */
  function PadDigits(n: nat, width: nat): (s: string)
    ensures |s| == width && AllDigits(s)
  {
    if width == 0 then [] else PadDigits(n / 10, width - 1) + [DigitChar(n % 10)]
  }

  lemma {:induction false} MulAtLeast(t: nat, m: nat)
    requires t >= 1
    ensures t * m >= m
  {
    if t > 1 {
      MulAtLeast(t - 1, m);
      assert t * m == (t - 1) * m + m;
    }
  }

  /** Division with remainder has only one answer. */
  lemma ModUnique(n: int, m: int, k: int, r: int)
    requires m > 0 && 0 <= r < m && n == k * m + r
    ensures n % m == r
  {
    var k', r' := n / m, n % m;
    assert n == k' * m + r';
    assert k * m - k' * m == r' - r;
    if k > k' {
      assert (k - k') * m == k * m - k' * m;
      MulAtLeast(k - k', m);
    } else if k < k' {
      assert (k' - k) * m == k' * m - k * m;
      MulAtLeast(k' - k, m);
    }
  }

  lemma ModOfShifted(n: nat, p: nat)
    requires p >= 1
    ensures (n / 10) % p * 10 + n % 10 == n % (10 * p)
  {
    var q, d := n / 10, n % 10;
    var a, b := q / p, q % p;
    assert n == 10 * q + d;
    assert q == p * a + b;
    assert 10 * q == (10 * p) * a + 10 * b;
    ModUnique(n, 10 * p, a, 10 * b + d);
  }

  lemma {:induction false} ParsePadDigits(n: nat, width: nat)
    ensures ParseNat(PadDigits(n, width)) == n % Pow10(width)
  {
    if width > 0 {
      var s := PadDigits(n, width);
      assert s[..|s| - 1] == PadDigits(n / 10, width - 1);
      ParsePadDigits(n / 10, width - 1);
      ModOfShifted(n, Pow10(width - 1));
    }
  }

  /** Rounds a non-negative real to the nearest integer, ties to even, the
      rounding `printf` applies to the exact value it prints. */
  function RoundHalfEven(x: real): (n: nat)
    requires x >= 0.0
    ensures n as real - x <= 0.5 && x - n as real <= 0.5
  {
    var f := x.Floor;
    var d := x - f as real;
    if d > 0.5 then f + 1
    else if d < 0.5 then f
    else if f % 2 == 0 then f
    else f + 1
  }

  const Micro: nat := 1000000

  /** `sprintf(buf, "%f", f)`: the sign when `f` is negative, the integer
      part, a point and exactly six rounded decimals. */
  function FormatFixed(f: real): (s: string)
    ensures |s| >= 8 && s[|s| - 7] == '.' && AllDigits(s[|s| - 6..])
    ensures s[0] == '-' <==> f < 0.0
  {
    var n := RoundHalfEven((if f < 0.0 then -f else f) * Micro as real);
    var body := NatDigits(n / Micro) + "." + PadDigits(n % Micro, 6);
    assert body[0] == NatDigits(n / Micro)[0] && body[|body| - 6..] == PadDigits(n % Micro, 6);
    (if f < 0.0 then "-" else "") + body
  }

  /** The value of a fixed-point text with integer part `ip` and six
      decimals `fp`. */
  function FixedValue(neg: bool, ip: nat, fp: nat): real {
    var v := (ip * Micro + fp) as real / Micro as real;
    if neg then -v else v
  }

  /** Reads back an unsigned string of the shape `FormatFixed` writes:
      digits, a point and six digits. */
  function ParseUnsignedFixed(body: string): Option<real> {
    var k := |body| - 7;
    if k >= 1 && body[k] == '.' && AllDigits(body[..k]) && AllDigits(body[k + 1..]) then
      Some(FixedValue(false, ParseNat(body[..k]), ParseNat(body[k + 1..])))
    else
      None
  }

  /** Reads back a string of the shape `FormatFixed` writes. */
  function ParseFixed(s: string): Option<real> {
    if |s| > 0 && s[0] == '-' then
      match ParseUnsignedFixed(s[1..])
      case None => None
      case Some(v) => Some(-v)
    else
      ParseUnsignedFixed(s)
  }

  lemma Pow10Six()
    ensures Pow10(6) == Micro
  {
    assert Pow10(2) == 100;
    assert Pow10(4) == 10000;
  }

  lemma ParseUnsignedSplit(ip: string, fp: string)
    requires |ip| >= 1 && |fp| == 6 && AllDigits(ip) && AllDigits(fp)
    ensures ParseUnsignedFixed(ip + "." + fp) == Some(FixedValue(false, ParseNat(ip), ParseNat(fp)))
  {
    var body := ip + "." + fp;
    var k := |body| - 7;
    assert k == |ip| && body[k] == '.';
    assert body[..k] == ip && body[k + 1..] == fp;
  }

  lemma ParseUnsignedParts(q: nat, m: nat)
    requires m < Micro
    ensures ParseUnsignedFixed(NatDigits(q) + "." + PadDigits(m, 6)) == Some(FixedValue(false, q, m))
  {
    assert ParseNat(NatDigits(q)) == q by {
      ParseNatDigits(q);
    }
    assert ParseNat(PadDigits(m, 6)) == m by {
      ParsePadDigits(m, 6);
      Pow10Six();
      ModUnique(m, Micro, 0, m);
    }
    ParseUnsignedSplit(NatDigits(q), PadDigits(m, 6));
  }

  /** A leading minus negates what the unsigned parser reads. */
  lemma ParseFixedSign(neg: bool, body: string)
    requires |body| > 0 && body[0] != '-'
    ensures ParseFixed((if neg then "-" else "") + body)
         == if neg then (match ParseUnsignedFixed(body) case None => None case Some(v) => Some(-v))
            else ParseUnsignedFixed(body)
  {
    var s := (if neg then "-" else "") + body;
    if neg {
      assert s[0] == '-' && s[1..] == body;
    } else {
      assert s == body;
    }
  }

  /** The parser reads the integer part, the six decimals and the sign
      that the formatter writes. */
  lemma ParseFixedParts(neg: bool, q: nat, m: nat)
    requires m < Micro
    ensures ParseFixed((if neg then "-" else "") + (NatDigits(q) + "." + PadDigits(m, 6)))
         == Some(FixedValue(neg, q, m))
  {
    var body := NatDigits(q) + "." + PadDigits(m, 6);
    ParseUnsignedParts(q, m);
    assert body[0] == NatDigits(q)[0] && IsDigit(body[0]);
    ParseFixedSign(neg, body);
  }

  /** Six fixed decimals of `n` millionths denote `n / 1000000`. */
  lemma FixedValueSplit(neg: bool, n: nat)
    ensures FixedValue(neg, n / Micro, n % Micro)
         == if neg then -(n as real / Micro as real) else n as real / Micro as real
  {
    assert (n / Micro) * Micro + n % Micro == n;
  }

  /** A whole number within half of `a` millionths is within half a
      millionth of `a` once scaled back. */
  lemma ScaledRounding(a: real, n: nat)
    requires -0.5 <= n as real - a * Micro as real <= 0.5
    ensures -0.0000005 <= n as real / Micro as real - a <= 0.0000005
  {
    var v := n as real / Micro as real;
    assert n as real == v * 1000000.0;
    assert (v - a) * 1000000.0 == n as real - a * 1000000.0;
  }

  /** `%f` output denotes the printed value to within half a unit in its
      sixth decimal. */
  lemma FormatFixedRoundTrip(f: real)
    ensures ParseFixed(FormatFixed(f)).Some?
    ensures -0.0000005 <= ParseFixed(FormatFixed(f)).value - f <= 0.0000005
  {
    var neg := f < 0.0;
    var a := if neg then -f else f;
    var n := RoundHalfEven(a * Micro as real);
    FormatFixedParses(f, n);
    FixedValueSplit(neg, n);
    ScaledRounding(a, n);
  }

  /** What the parser reads from `%f` output: the rounded millionths,
      split at the point. */
  lemma FormatFixedParses(f: real, n: nat)
    requires n == RoundHalfEven((if f < 0.0 then -f else f) * Micro as real)
    ensures ParseFixed(FormatFixed(f)) == Some(FixedValue(f < 0.0, n / Micro, n % Micro))
  {
    ParseFixedParts(f < 0.0, n / Micro, n % Micro);
  }
}
