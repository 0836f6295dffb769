/** Decoding the Covid Tracking Project's integer dates (`YYYYMMDD`) the way
    `date_convert` does it: print the integer in decimal, cut the text at
    character positions 0..4, 4..6 and 6..8, read each piece back with `int()`,
    and hand the three numbers to `date(year, month, day)`. */
module DateDecoding {
  import opened Wrappers
  import opened Dates

  /** The ValueError that `int()` or `date()` raises on a bad encoding. */
  datatype DateError = InvalidDateEncoding(encoded: int)

  predicate IsDigit(c: char) {
    '0' <= c <= '9'
  }

  predicate AllDigits(s: string) {
    forall i :: 0 <= i < |s| ==> IsDigit(s[i])
  }

  function DigitChar(k: int): (c: char)
    requires 0 <= k < 10
    ensures IsDigit(c) && DigitValue(c) == k
  {
    (k + '0' as int) as char
  }

  function DigitValue(c: char): int
    requires IsDigit(c)
  {
    c as int - '0' as int
  }

  function Pow10(k: nat): (p: nat)
    ensures p >= 1
  {
    if k == 0 then 1 else 10 * Pow10(k - 1)
  }

  /** `str(n)` for a non-negative integer: no sign, no leading zero. */
  function DecimalString(n: nat): (s: string)
    ensures |s| >= 1 && AllDigits(s)
  {
    if n < 10 then [DigitChar(n)] else DecimalString(n / 10) + [DigitChar(n % 10)]
  }

  /** The number a string of decimal digits spells. */
  function DigitsValue(s: string): nat
    requires AllDigits(s)
  {
    if s == [] then 0 else DigitsValue(s[..|s| - 1]) * 10 + DigitValue(s[|s| - 1])
  }

  /** `int(s)` on a piece of the decimal text of a non-negative integer: such
      a piece holds only digits, and the empty piece raises. */
  function ParseInt(s: string): (r: Option<int>)
    ensures r.Some? <==> s != [] && AllDigits(s)
    ensures r.Some? ==> 0 <= r.value < Pow10(|s|)
  {
    if s != [] && AllDigits(s) then
      DigitsBound(s);
      Some(DigitsValue(s))
    else None
  }

  /** An index clamped to a length. */
  function Clamp(i: nat, n: nat): nat {
    if i <= n then i else n
  }

  /** Python's `s[i:j]` for 0 <= i <= j: both ends are clamped to the length. */
  function Slice(s: string, i: nat, j: nat): (r: string)
    requires i <= j
    ensures |r| == Clamp(j, |s|) - Clamp(i, |s|)
  {
    if |s| <= i then [] else if |s| <= j then s[i..] else s[i..j]
  }

  /** Character k of a slice is character i + k of the text. */
  lemma SliceAt(s: string, i: nat, j: nat)
    requires i <= j
    ensures forall k :: 0 <= k < |Slice(s, i, j)| ==> Slice(s, i, j)[k] == s[i + k]
  {
  }

  /** `date_convert(n)`. A negative integer prints with a leading '-', so its
      year piece reads back as a number below 1 (or not at all) and `date()`
      rejects it; that case is decided up front. */
  function DateConvert(n: int): Result<Date, DateError> {
    if n < 0 then Failure(InvalidDateEncoding(n))
    else
      var s := DecimalString(n);
      match (ParseInt(Slice(s, 0, 4)), ParseInt(Slice(s, 4, 6)), ParseInt(Slice(s, 6, 8)))
      case (Some(y), Some(m), Some(d)) =>
        if IsValid(Ymd(y, m, d)) then Success(Ymd(y, m, d)) else Failure(InvalidDateEncoding(n))
      case _ => Failure(InvalidDateEncoding(n))
  }

  /** The `YYYYMMDD` integer of a triple. */
  function Encode(d: Ymd): int {
    d.year * 10000 + d.month * 100 + d.day
  }

  /** Reading back the decimal text of n gives n. */
  lemma {:induction false} DecimalStringValue(n: nat)
    ensures DigitsValue(DecimalString(n)) == n
  {
    var s := DecimalString(n);
    if n >= 10 {
      DecimalStringValue(n / 10);
      assert s[..|s| - 1] == DecimalString(n / 10);
    }
  }

  /** `int(str(n)) == n`: parsing the decimal text of a non-negative integer
      gives the integer back. */
  lemma ParseIntDecimal(n: nat)
    ensures ParseInt(DecimalString(n)) == Some(n)
  {
    DecimalStringValue(n);
  }

  /** An integer with k digits prints as k characters. */
  lemma {:induction false} DecimalStringLength(n: nat, k: nat)
    requires k >= 1 && Pow10(k - 1) <= n < Pow10(k)
    ensures |DecimalString(n)| == k
  {
    if n >= 10 {
      assert k >= 2;
      DecimalStringLength(n / 10, k - 1);
    }
  }

  /** The value of a concatenation: the left part is shifted by the right
      part's length in digits. */
  lemma {:induction false} DigitsConcat(a: string, b: string)
    requires AllDigits(a) && AllDigits(b)
    ensures AllDigits(a + b)
    ensures DigitsValue(a + b) == DigitsValue(a) * Pow10(|b|) + DigitsValue(b)
    decreases |b|
  {
    var ab := a + b;
    assert AllDigits(ab) by {
      forall i | 0 <= i < |ab| ensures IsDigit(ab[i]) {
        if i < |a| { assert ab[i] == a[i]; } else { assert ab[i] == b[i - |a|]; }
      }
    }
    if b == [] {
      assert ab == a;
    } else {
      var b' := b[..|b| - 1];
      assert ab[..|ab| - 1] == a + b';
      DigitsConcat(a, b');
      assert b[..|b| - 1] == b';
      ShiftDigit(DigitsValue(a), Pow10(|b'|), DigitsValue(b'), DigitValue(b[|b| - 1]));
    }
  }

  /** Appending a digit to a number shifted left by p. */
  lemma ShiftDigit(x: int, p: int, y: int, d: int)
    ensures (x * p + y) * 10 + d == x * (p * 10) + (y * 10 + d)
  {
  }

  /** A string of k digits spells a number below 10^k. */
  lemma {:induction false} DigitsBound(s: string)
    requires AllDigits(s)
    ensures DigitsValue(s) < Pow10(|s|)
  {
    if s != [] {
      DigitsBound(s[..|s| - 1]);
    }
  }

  /** For an eight-digit integer the three pieces are exactly n / 10000,
      (n / 100) % 100 and n % 100. */
  lemma EightDigitFields(n: int)
    requires 10000000 <= n <= 99999999
    ensures var s := DecimalString(n);
      && ParseInt(Slice(s, 0, 4)) == Some(n / 10000)
      && ParseInt(Slice(s, 4, 6)) == Some((n / 100) % 100)
      && ParseInt(Slice(s, 6, 8)) == Some(n % 100)
  {
    var s := DecimalString(n);
    assert Pow10(2) == 100 && Pow10(7) == 10000000 && Pow10(8) == 100000000;
    DecimalStringLength(n, 8);
    var a, b, c := s[0..4], s[4..6], s[6..8];
    assert s == (a + b) + c;
    DigitsConcat(a, b);
    DigitsConcat(a + b, c);
    DigitsBound(b);
    DigitsBound(c);
    DecimalStringValue(n);
    var va, vb, vc := DigitsValue(a), DigitsValue(b), DigitsValue(c);
    var vab := DigitsValue(a + b);
    assert vab == va * 100 + vb;
    assert n == vab * 100 + vc;
    DecimalFields(n, va, vb, vc);
  }

  /** The arithmetic behind the three pieces of an eight-digit integer. */
  lemma DecimalFields(n: int, y: int, m: int, d: int)
    requires 0 <= m < 100 && 0 <= d < 100 && n == (y * 100 + m) * 100 + d
    ensures n / 10000 == y && (n / 100) % 100 == m && n % 100 == d
  {
    assert n / 100 == y * 100 + m;
  }

  /** `date_convert` on an eight-digit integer: year n / 10000, month
      (n / 100) % 100 and day n % 100; an impossible month or day raises. */
  lemma DateConvertEightDigits(n: int)
    requires 10000000 <= n <= 99999999
    ensures var f := Ymd(n / 10000, (n / 100) % 100, n % 100);
      DateConvert(n) == if IsValid(f) then Success(f) else Failure(InvalidDateEncoding(n))
    ensures DateConvert(n).Success? ==> Encode(DateConvert(n).value) == n
  {
    EightDigitFields(n);
    FieldsEncode(n);
  }

  /** The three pieces of a non-negative integer put back together. */
  lemma FieldsEncode(n: int)
    requires n >= 0
    ensures (n / 10000) * 10000 + ((n / 100) % 100) * 100 + n % 100 == n
  {
    var h := n / 100;
    assert n == h * 100 + n % 100;
    assert h / 100 == n / 10000;
    assert h == (h / 100) * 100 + h % 100;
  }

  /** Encoding a date of a four-digit year and decoding it again gives the
      date back. */
  lemma DateConvertEncode(d: Date)
    requires d.year >= 1000
    ensures DateConvert(Encode(d)) == Success(d)
  {
    var n := Encode(d);
    DecimalFields(n, d.year, d.month, d.day);
    DateConvertEightDigits(n);
  }
}
