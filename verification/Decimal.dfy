/** The text form of the counters kept in the key-value store: Go's base-10
    `strconv.FormatInt` and `strconv.ParseInt`, with the error of the latter
    dropped the way `MemStore.Incr` drops it. */
module Decimal {
  import opened Wrappers

  const MAX_INT64: int := 0x7fff_ffff_ffff_ffff
  const MIN_INT64: int := -0x8000_0000_0000_0000
  const MAX_UINT64: int := 0xffff_ffff_ffff_ffff

  predicate IsInt64(n: int) {
    MIN_INT64 <= n <= MAX_INT64
  }

  predicate IsDigit(c: char) {
    '0' <= c <= '9'
  }

  function DigitValue(c: char): (d: int)
    requires IsDigit(c)
    ensures 0 <= d < 10
  {
    c as int - '0' as int
  }

  function Digit(d: nat): (c: char)
    requires d < 10
    ensures IsDigit(c) && DigitValue(c) == d
  {
    '0' + d as char
  }

  function Digits(n: nat): (s: string)
    ensures s != "" && forall i :: 0 <= i < |s| ==> IsDigit(s[i])
  {
    if n < 10 then [Digit(n)] else Digits(n / 10) + [Digit(n % 10)]
  }

  function FormatInt(n: int): string {
    if n < 0 then "-" + Digits(-n) else Digits(n)
  }

  // The digit loop of strconv.ParseUint: it gives up with a syntax error at the
  // first character that is no digit, and saturates as soon as 64 bits overflow.
  function ScanUint(s: string, acc: nat): (r: Option<nat>)
    ensures r.Some? && acc <= MAX_UINT64 ==> r.value <= MAX_UINT64
    decreases |s|
  {
    if s == "" then Some(acc)
    else if !IsDigit(s[0]) then None
    else if acc > MAX_UINT64 / 10 || 10 * acc + DigitValue(s[0]) > MAX_UINT64 then Some(MAX_UINT64)
    else ScanUint(s[1..], 10 * acc + DigitValue(s[0]))
  }

  // The value strconv.ParseInt returns next to its error: zero for a syntax
  // error, the nearest bound when the text is out of range.
  function ParseInt(s: string): (n: int)
    ensures IsInt64(n)
  {
    var signed := s != "" && (s[0] == '-' || s[0] == '+');
    var digits := if signed then s[1..] else s;
    if digits == "" then 0
    else
      var u: int := match ScanUint(digits, 0) case None => 0 case Some(v) => v;
      if signed && s[0] == '-' then (if u > -MIN_INT64 then MIN_INT64 else -u)
      else if u > MAX_INT64 then MAX_INT64 else u
  }

  // int64 addition of one, with wrap-around.
  function Next(n: int): (m: int)
    requires IsInt64(n)
    ensures IsInt64(m)
  {
    if n == MAX_INT64 then MIN_INT64 else n + 1
  }

  // Two's complement: of all int64 it is the one congruent to n + 1 modulo 2^64.
  lemma NextWraps(n: int, m: int)
    requires IsInt64(n)
    ensures m == Next(n) <==> IsInt64(m) && (m - (n + 1)) % (MAX_UINT64 + 1) == 0
  {
    if IsInt64(m) && (m - (n + 1)) % (MAX_UINT64 + 1) == 0 {
      var q := (m - (n + 1)) / (MAX_UINT64 + 1);
      assert m - (n + 1) == q * (MAX_UINT64 + 1);
      assert -1 <= q <= 0;
    }
  }

  lemma {:induction false} ScanSnoc(s: string, c: char, acc: nat)
    requires acc <= MAX_UINT64 && IsDigit(c)
    requires ScanUint(s, acc).Some? && 10 * ScanUint(s, acc).value + DigitValue(c) <= MAX_UINT64
    ensures ScanUint(s + [c], acc) == Some(10 * ScanUint(s, acc).value + DigitValue(c))
    decreases |s|
  {
    if s == "" {
      assert (s + [c])[1..] == "";
    } else {
      assert (s + [c])[1..] == s[1..] + [c];
      ScanSnoc(s[1..], c, 10 * acc + DigitValue(s[0]));
    }
  }

  lemma {:induction false} ScanDigits(n: nat)
    requires n <= MAX_UINT64
    ensures ScanUint(Digits(n), 0) == Some(n)
  {
    if n < 10 {
      assert Digits(n)[1..] == "";
    } else {
      ScanDigits(n / 10);
      ScanSnoc(Digits(n / 10), Digit(n % 10), 0);
    }
  }

  // Printing a counter and parsing it back is the identity on every int64.
  lemma ParseFormat(n: int)
    requires IsInt64(n)
    ensures ParseInt(FormatInt(n)) == n
  {
    if n < 0 {
      ScanDigits(-n);
      assert FormatInt(n)[1..] == Digits(-n);
    } else {
      ScanDigits(n);
      assert IsDigit(Digits(n)[0]);
    }
  }
}
