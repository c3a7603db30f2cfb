/** Go int64 arithmetic and the base-10 int64 parser (`strconv.ParseInt(s, 10, 64)`),
    with the decimal rendering `%d` as its inverse. */
module Int64Arith {
  import opened MetricTypes

  const TwoTo64: int := 0x1_0000_0000_0000_0000

  /** Two's-complement truncation of an unbounded integer to int64. */
  function Wrap(x: int): (r: Int64)
    ensures (r - x) % TwoTo64 == 0
    ensures MinInt64 <= x <= MaxInt64 ==> r == x
  {
    ((x - MinInt64) % TwoTo64) + MinInt64
  }

  /** Go's `a + b` on int64, which wraps around silently on overflow. */
  function AddInt64(a: Int64, b: Int64): (r: Int64)
    ensures MinInt64 <= a + b <= MaxInt64 ==> r == a + b
    ensures a + b > MaxInt64 ==> r == a + b - TwoTo64
    ensures a + b < MinInt64 ==> r == a + b + TwoTo64
  {
    Wrap(a + b)
  }

  /** Wrapping an intermediate sum does not change the wrapped total:
      a running int64 total equals the wrapped mathematical sum. */
  lemma WrapAdd(x: int, y: int)
    ensures Wrap(Wrap(x) + y) == Wrap(x + y)
  {
    var q := (x - MinInt64) / TwoTo64;
    assert Wrap(x) == x - q * TwoTo64;
    ModShift(x + y - MinInt64, q);
  }

  lemma ModShift(z: int, q: int)
    ensures (z - q * TwoTo64) % TwoTo64 == z % TwoTo64
  {
    var r := z % TwoTo64;
    var d := z / TwoTo64;
    assert z == d * TwoTo64 + r;
    assert z - q * TwoTo64 == (d - q) * TwoTo64 + r;
  }

  predicate IsDigit(c: char)
  {
    '0' <= c <= '9'
  }

  predicate AllDigits(s: string)
  {
    forall i :: 0 <= i < |s| ==> IsDigit(s[i])
  }

  function DigitValue(c: char): (d: nat)
    requires IsDigit(c)
    ensures d < 10
  {
    (c as int) - ('0' as int)
  }

  function DigitChar(d: nat): (c: char)
    requires d < 10
    ensures IsDigit(c) && DigitValue(c) == d
  {
    (('0' as int) + d) as char
  }

  /** The number a string of decimal digits denotes, most significant first. */
  function DigitsValue(s: string): nat
    requires AllDigits(s)
  {
    if s == [] then 0 else DigitsValue(s[..|s| - 1]) * 10 + DigitValue(s[|s| - 1])
  }

  /** The shortest decimal rendering of a natural number. */
  function NatDigits(n: nat): (s: string)
    ensures |s| > 0 && AllDigits(s)
    decreases n
  {
    if n < 10 then [DigitChar(n)] else NatDigits(n / 10) + [DigitChar(n % 10)]
  }

  /** `fmt.Sprintf("%d", x)` / `strconv.FormatInt(x, 10)`. */
  function FormatInt(x: int): (s: string)
    ensures |s| > 0
  {
    if x < 0 then "-" + NatDigits(-x) else NatDigits(x)
  }

  /** `strconv.ParseInt(s, 10, 64)`: an optional '+' or '-', then one or more
      decimal digits (no underscores, no base prefix at base 10), and a value
      within int64. Any other input is an error, here `None`. */
  function ParseInt64(s: string): (r: Option<Int64>)
    ensures r.Some? ==> |s| > 0
  {
    if |s| == 0 then None
    else
      var neg := s[0] == '-';
      var digits := if s[0] == '+' || s[0] == '-' then s[1..] else s;
      if |digits| == 0 || !AllDigits(digits) then None
      else
        var n: int := DigitsValue(digits);
        var v := if neg then -n else n;
        if MinInt64 <= v <= MaxInt64 then Some(v) else None
  }

  lemma {:induction false} DigitsValueOfNatDigits(n: nat)
    ensures DigitsValue(NatDigits(n)) == n
    decreases n
  {
    if n >= 10 {
      var s := NatDigits(n);
      assert s[..|s| - 1] == NatDigits(n / 10);
      DigitsValueOfNatDigits(n / 10);
    }
  }

  /** Parsing the decimal rendering of an int64 gives that int64 back. */
  lemma ParseFormatRoundTrip(x: Int64)
    ensures ParseInt64(FormatInt(x)) == Some(x)
  {
    var s := FormatInt(x);
    if x < 0 {
      var magnitude: nat := -(x as int);
      DigitsValueOfNatDigits(magnitude);
      assert s[1..] == NatDigits(magnitude);
    } else {
      DigitsValueOfNatDigits(x);
      var d := NatDigits(x);
      assert IsDigit(d[0]);
    }
  }

  /** Whatever ParseInt64 accepts is a sign-optional run of digits, and the
      value is the one those digits denote, negated after a '-'. */
  lemma ParseAcceptsOnlyDecimal(s: string)
    requires ParseInt64(s).Some?
    ensures AllDigits(s) || ((s[0] == '+' || s[0] == '-') && |s| > 1 && AllDigits(s[1..]))
    ensures AllDigits(s) ==> ParseInt64(s).value == DigitsValue(s)
    ensures s[0] == '+' ==> AllDigits(s[1..]) && ParseInt64(s).value == DigitsValue(s[1..])
    ensures s[0] == '-' ==> AllDigits(s[1..]) && ParseInt64(s).value == -(DigitsValue(s[1..]) as int)
  {
    if AllDigits(s) {
      assert IsDigit(s[0]);
    }
  }

  /** The value an optional sign followed by decimal digits denotes. */
  function SignedValue(sign: string, digits: string): int
    requires AllDigits(digits)
  {
    if sign == "-" then -(DigitsValue(digits) as int) else DigitsValue(digits)
  }

  /** Every optionally signed run of decimal digits whose value lies in int64
      parses, to that value: leading zeros, a '+' and "-0" included. */
  lemma ParseAcceptsDecimal(sign: string, digits: string)
    requires sign == "" || sign == "+" || sign == "-"
    requires digits != [] && AllDigits(digits)
    requires MinInt64 <= SignedValue(sign, digits) <= MaxInt64
    ensures ParseInt64(sign + digits) == Some(SignedValue(sign, digits))
  {
    var s := sign + digits;
    if sign == "" {
      assert s == digits;
      assert IsDigit(s[0]);
    } else {
      assert s[0] == sign[0];
      assert s[1..] == digits;
    }
  }

}
