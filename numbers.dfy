/** Go's `strconv.ParseInt(s, 10, 64)` and `strconv.FormatInt(n, 10)`, as
    far as the health-check annotations need them. The source ignores
    ParseInt's error, so only the value it returns matters: 0 after a syntax
    error, the nearest int64 bound after a range error. */
module Numbers {

  const MaxUint64: int := 0xFFFF_FFFF_FFFF_FFFF
  const MaxInt64: int := 0x7FFF_FFFF_FFFF_FFFF
  const MinInt64: int := -0x8000_0000_0000_0000

  predicate IsDigit(c: char)
  {
    '0' <= c <= '9'
  }

  function DigitValue(c: char): (d: nat)
    requires IsDigit(c)
    ensures d < 10
  {
    c as int - '0' as int
  }

  function DigitChar(d: nat): (c: char)
    requires d < 10
    ensures IsDigit(c) && DigitValue(c) == d
  {
    ('0' as int + d) as char
  }

  /** The outcome of scanning an unsigned decimal number (Go's ParseUint). */
  datatype Scan = Value(n: nat) | SyntaxError | RangeError

  /** Scans `s` left to right after the digits already read into `acc`:
      a non-digit is a syntax error, and exceeding 2^64 - 1 is a range error
      at once, before the rest of the text is looked at. */
  function ScanDigits(s: string, acc: nat): (r: Scan)
    requires acc <= MaxUint64
    ensures r.Value? ==> acc <= r.n <= MaxUint64
    decreases |s|
  {
    if s == [] then Value(acc)
    else if !IsDigit(s[0]) then SyntaxError
    else if acc * 10 + DigitValue(s[0]) > MaxUint64 then RangeError
    else ScanDigits(s[1..], acc * 10 + DigitValue(s[0]))
  }

  /** ParseUint: the empty text is a syntax error. */
  function ParseUint(s: string): (r: Scan)
    ensures r.Value? ==> r.n <= MaxUint64
  {
    if s == [] then SyntaxError else ScanDigits(s, 0)
  }

  /** The value `strconv.ParseInt(s, 10, 64)` returns, its error dropped. */
  function ParseInt(s: string): (r: int)
    ensures MinInt64 <= r <= MaxInt64
    ensures s == [] ==> r == 0
  {
    if s == [] then 0
    else
      var neg := s[0] == '-';
      var body := if s[0] == '+' || s[0] == '-' then s[1..] else s;
      match ParseUint(body)
      case SyntaxError => 0 as int
      case RangeError => if neg then MinInt64 else MaxInt64
      case Value(un) =>
        if !neg && un > MaxInt64 then MaxInt64
        else if neg && un > -MinInt64 then MinInt64
        else if neg then -(un as int) else un as int
  }

  /** The decimal digits of `m`, without leading zeros. */
  function Digits(m: nat): (s: string)
    ensures |s| > 0 && IsDigit(s[0])
    decreases m
  {
    if m < 10 then [DigitChar(m)] else Digits(m / 10) + [DigitChar(m % 10)]
  }

  /** `strconv.FormatInt(n, 10)`. */
  function FormatInt(n: int): (s: string)
    ensures |s| > 0
    ensures n < 0 <==> s[0] == '-'
  {
    if n < 0 then "-" + Digits(-n) else Digits(n)
  }

  /** Scanning a concatenation is scanning the first part, then the second
      from where the first stopped. */
  lemma {:induction false} ScanAppend(a: string, b: string, acc: nat)
    requires acc <= MaxUint64
    ensures ScanDigits(a + b, acc) ==
      match ScanDigits(a, acc)
      case Value(v) => ScanDigits(b, v)
      case other => other
    decreases |a|
  {
    if a == [] {
      assert a + b == b;
    } else {
      assert (a + b)[0] == a[0];
      assert (a + b)[1..] == a[1..] + b;
      if IsDigit(a[0]) && acc * 10 + DigitValue(a[0]) <= MaxUint64 {
        ScanAppend(a[1..], b, acc * 10 + DigitValue(a[0]));
      }
    }
  }

  /** Reading back the digits of a number that fits in 64 bits gives it. */
  lemma {:induction false} ScanDigitsOf(m: nat)
    requires m <= MaxUint64
    ensures ScanDigits(Digits(m), 0) == Value(m)
    decreases m
  {
    if m >= 10 {
      ScanDigitsOf(m / 10);
      ScanAppend(Digits(m / 10), [DigitChar(m % 10)], 0);
      assert ScanDigits([DigitChar(m % 10)], m / 10) == ScanDigits([], m);
    }
  }

  /** FormatInt and ParseInt are inverse on the int64 range: a health-check
      annotation written as a number is read back as that number. */
  lemma ParseFormatRoundTrip(n: int)
    requires MinInt64 <= n <= MaxInt64
    ensures ParseInt(FormatInt(n)) == n
  {
    var s := FormatInt(n);
    if n < 0 {
      ScanDigitsOf(-n);
      assert s[1..] == Digits(-n);
    } else {
      ScanDigitsOf(n);
    }
  }

  /** Text with no digit where the number should begin reads as 0, not as
      an error the caller could see. */
  lemma ParseIntNonNumeric(s: string)
    requires s == [] || (!IsDigit(s[0]) && s[0] != '+' && s[0] != '-')
             || ((s[0] == '+' || s[0] == '-') && (|s| == 1 || !IsDigit(s[1])))
    ensures ParseInt(s) == 0
  {
  }
}
