/**
 * The two conversions between integers and decimal text that the checkout and the
 * pagination code rely on: Go's strconv.Atoi (base 10, 64-bit int) and the `%d`
 * formatting verb.
 */
module GoStrconv {

  const MaxInt64: int := 0x7fff_ffff_ffff_ffff
  const MinInt64: int := -0x8000_0000_0000_0000
  const MaxUint64: int := 0xffff_ffff_ffff_ffff

  predicate IsDigit(c: char) { '0' <= c <= '9' }

  predicate AllDigits(s: string) { forall k :: 0 <= k < |s| ==> IsDigit(s[k]) }

  function DigitValue(c: char): nat
    requires IsDigit(c)
  {
    c as int - '0' as int
  }

  function DigitChar(d: nat): (c: char)
    requires d < 10
    ensures IsDigit(c) && DigitValue(c) == d
  {
    ('0' as int + d) as char
  }

  /** The number a string of decimal digits spells, most significant digit first. */
  function DecimalValue(s: string): nat
    requires AllDigits(s)
  {
    if s == [] then 0 else DecimalValue(s[..|s| - 1]) * 10 + DigitValue(s[|s| - 1])
  }

  /** `%d` of an unsigned integer: the canonical decimal digits of `n`. */
  function FormatUint(n: nat): (r: string)
    ensures 1 <= |r| && AllDigits(r)
    ensures DecimalValue(r) == n
    ensures |r| > 1 ==> r[0] != '0'
  {
    if n < 10 then [DigitChar(n)]
    else
      var front := FormatUint(n / 10);
      var r := front + [DigitChar(n % 10)];
      assert r[..|r| - 1] == front;
      r
  }

  /** `%d` of a signed integer: a minus sign before the digits of a negative number. */
  function FormatInt(n: int): (r: string)
    ensures 1 <= |r|
    ensures n < 0 <==> r[0] == '-'
  {
    if n < 0 then "-" + FormatUint(-n) else FormatUint(n)
  }

  /** Distinct numbers print differently. */
  lemma FormatUintInjective(a: nat, b: nat)
    requires FormatUint(a) == FormatUint(b)
    ensures a == b
  {
    assert DecimalValue(FormatUint(a)) == a;
  }

  /**
   * Where ParseUint's digit loop (base 10, 64 bits) ends on `s`: the value of the
   * digits, the first character that is not a digit, or the first digit at which
   * the value passes 2^64-1. The loop runs left to right, so an overflow is reported
   * even when a bad character comes after it.
   */
  datatype Scan = Digits(value: nat) | BadChar | Overflow

  function ScanUint(s: string): Scan
  {
    if s == [] then Digits(0)
    else
      var front := ScanUint(s[..|s| - 1]);
      var c := s[|s| - 1];
      if !front.Digits? then front
      else if !IsDigit(c) then BadChar
      else if front.value * 10 + DigitValue(c) > MaxUint64 then Overflow
      else Digits(front.value * 10 + DigitValue(c))
  }

  /** What strconv.Atoi returns: the int, or which of its two errors it reports. */
  datatype AtoiResult = Int(value: int) | SyntaxError | RangeError(clamped: int)

  predicate Negative(s: string) { |s| > 0 && s[0] == '-' }

  /** The text after an optional leading '+' or '-'. */
  function Unsigned(s: string): string
  {
    if |s| > 0 && (s[0] == '+' || s[0] == '-') then s[1..] else s
  }

  /** strconv.Atoi on a 64-bit platform. */
  function Atoi(s: string): (r: AtoiResult)
    ensures s == "" ==> r == SyntaxError
    ensures r.Int? ==> MinInt64 <= r.value <= MaxInt64
    ensures r.RangeError? ==> r.clamped == if Negative(s) then MinInt64 else MaxInt64
  {
    var body := Unsigned(s);
    if body == [] then SyntaxError
    else
      match ScanUint(body)
      case BadChar => SyntaxError
      case Overflow => RangeError(if Negative(s) then MinInt64 else MaxInt64)
      case Digits(u) =>
        if Negative(s) then (if u > -MinInt64 then RangeError(MinInt64) else Int(-(u as int)))
        else (if u > MaxInt64 then RangeError(MaxInt64) else Int(u))
  }

  /** The int Atoi hands back beside its error: 0 on a syntax error, the clamped bound on a range error. */
  function AtoiValue(r: AtoiResult): int
  {
    match r
    case Int(v) => v
    case SyntaxError => 0
    case RangeError(c) => c
  }

  /** An optional sign followed by at least one decimal digit. */
  predicate IsDecimal(s: string) { Unsigned(s) != [] && AllDigits(Unsigned(s)) }

  function SignedValue(s: string): int
    requires IsDecimal(s)
  {
    if Negative(s) then -(DecimalValue(Unsigned(s)) as int) else DecimalValue(Unsigned(s))
  }

  lemma {:induction false} ScanUintOfDigits(s: string)
    requires AllDigits(s)
    ensures ScanUint(s) == if DecimalValue(s) <= MaxUint64 then Digits(DecimalValue(s)) else Overflow
  {
    if s != [] {
      var front := s[..|s| - 1];
      assert AllDigits(front) by {
        forall k | 0 <= k < |front| ensures IsDigit(front[k]) { assert front[k] == s[k]; }
      }
      ScanUintOfDigits(front);
    }
  }

  lemma {:induction false} ScanUintDigitsOnly(s: string)
    requires ScanUint(s).Digits?
    ensures AllDigits(s)
  {
    if s != [] {
      var front := s[..|s| - 1];
      ScanUintDigitsOnly(front);
      forall k | 0 <= k < |s| ensures IsDigit(s[k]) {
        if k < |s| - 1 { assert s[k] == front[k]; }
      }
    }
  }

  /**
   * Atoi accepts exactly an optional sign and one or more digits whose value fits
   * in 64 bits, and then returns that value; well-formed text is never a syntax error.
   */
  lemma AtoiAccepts(s: string)
    ensures Atoi(s).Int? <==> IsDecimal(s) && MinInt64 <= SignedValue(s) <= MaxInt64
    ensures Atoi(s).Int? ==> Atoi(s).value == SignedValue(s)
    ensures IsDecimal(s) ==> !Atoi(s).SyntaxError?
  {
    var body := Unsigned(s);
    if body != [] {
      if ScanUint(body).Digits? {
        ScanUintDigitsOnly(body);
      }
      if AllDigits(body) {
        ScanUintOfDigits(body);
      }
    }
  }

  function Pow10(n: nat): (r: nat)
    ensures r >= 1
  {
    if n == 0 then 1 else 10 * Pow10(n - 1)
  }

  /** The digits of a text of at most 19 characters stay below 10^19 < 2^64: the scan cannot overflow. */
  lemma {:induction false} ScanUintShort(s: string)
    requires |s| <= 19
    ensures !ScanUint(s).Overflow?
    ensures ScanUint(s).Digits? ==> ScanUint(s).value < Pow10(|s|)
  {
    if s != [] {
      var front := s[..|s| - 1];
      ScanUintShort(front);
      if ScanUint(front).Digits? && IsDigit(s[|s| - 1]) {
        var v := ScanUint(front).value;
        assert v * 10 + DigitValue(s[|s| - 1]) < Pow10(|s|) by {
          assert v + 1 <= Pow10(|front|);
          assert (v + 1) * 10 <= Pow10(|front|) * 10;
        }
        PowBound(|s|);
      }
    }
  }

  lemma PowBound(n: nat)
    requires n <= 19
    ensures Pow10(n) <= Pow10(19) && Pow10(19) == 10000000000000000000
  {
    PowMono(n, 19);
    assert Pow10(6) == 1000000;
    assert Pow10(12) == 1000000000000;
    assert Pow10(18) == 1000000000000000000;
  }

  /**
   * Text shorter than 19 characters (Go's fast path for Atoi on 64-bit
   * platforms) is never out of range, and is a syntax error exactly when it is
   * not an optional sign followed by digits.
   */
  lemma AtoiShortText(s: string)
    requires |s| < 19
    ensures !Atoi(s).RangeError?
    ensures Atoi(s).SyntaxError? <==> !IsDecimal(s)
  {
    var body := Unsigned(s);
    if body != [] {
      ScanUintShort(body);
      PowBound(|body|);
      if ScanUint(body).Digits? {
        ScanUintDigitsOnly(body);
        assert Pow10(|body|) <= Pow10(18) by { PowMono(|body|, 18); }
      }
      if AllDigits(body) {
        ScanUintOfDigits(body);
      }
    }
  }

  lemma {:induction false} PowMono(m: nat, n: nat)
    requires m <= n
    ensures Pow10(m) <= Pow10(n)
  {
    if m < n {
      PowMono(m, n - 1);
    }
  }

  /** Reading back what `%d` printed gives the number again. */
  lemma AtoiFormatInt(n: int)
    requires MinInt64 <= n <= MaxInt64
    ensures Atoi(FormatInt(n)) == Int(n)
  {
    var s := FormatInt(n);
    if n < 0 {
      assert Unsigned(s) == FormatUint(-n);
    } else {
      assert IsDigit(s[0]);
      assert Unsigned(s) == FormatUint(n);
    }
    AtoiAccepts(s);
  }
}
