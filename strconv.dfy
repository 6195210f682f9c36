/** The two parsers of Go's `strconv` package the configuration loader and the
    handlers rely on: `Atoi` (decimal, 64-bit `int`) and `ParseBool`. */
module StrConv {
  import opened Models

  const MaxUint64: int := 0xFFFF_FFFF_FFFF_FFFF
  const MaxInt64: int := 0x7FFF_FFFF_FFFF_FFFF
  const MinInt64: int := -0x8000_0000_0000_0000

  /** What `Atoi` returns. On a syntax error the accompanying value is 0, on a
      range error it is the bound the number passed. */
  datatype Parsed = Number(n: int) | SyntaxError | RangeError(bound: int)
  {
    predicate Failed()
    {
      !Number?
    }

    /** The integer result that comes back with the error (or without it). */
    function Value(): int
    {
      match this
      case Number(n) => n
      case SyntaxError => 0
      case RangeError(b) => b
    }
  }

  predicate IsDigit(c: char)
  {
    '0' <= c <= '9'
  }

  function DigitValue(c: char): int
    requires IsDigit(c)
  {
    c as int - '0' as int
  }

  /** Where the digit loop of `ParseUint` stands after reading a prefix: the
      value so far, or the error that stopped it. */
  datatype Scan = Digits(n: nat) | NotDigit | Overflow

  predicate AllDigits(s: string)
  {
    forall k :: 0 <= k < |s| ==> IsDigit(s[k])
  }

  /** Reference definition: the number a string of digits spells, unbounded. */
  function DecimalValue(s: string): nat
    requires AllDigits(s)
  {
    if s == [] then 0 else DecimalValue(s[..|s| - 1]) * 10 + DigitValue(s[|s| - 1])
  }

  /** The digit loop of `ParseUint`, left to right: a non-digit is a syntax
      error, a value above 2^64-1 a range error, whichever comes first. A
      text of digits scans to the number it spells when that fits in 64
      bits and overflows otherwise; any other text never scans to a number. */
  function ScanUint(s: string): (r: Scan)
    ensures r.Digits? ==> AllDigits(s) && r.n == DecimalValue(s) && r.n <= MaxUint64
    ensures AllDigits(s) ==> (r.Digits? <==> DecimalValue(s) <= MaxUint64)
    ensures AllDigits(s) && !r.Digits? ==> r.Overflow?
  {
    if s == [] then Digits(0)
    else
      var p := s[..|s| - 1];
      assert AllDigits(s) ==> AllDigits(p);
      match ScanUint(p)
      case Digits(n) =>
        var c := s[|s| - 1];
        if !IsDigit(c) then NotDigit
        else if n * 10 + DigitValue(c) > MaxUint64 then Overflow
        else Digits(n * 10 + DigitValue(c))
      case NotDigit => NotDigit
      case Overflow => Overflow
  }

  /** `strconv.Atoi` on a 64-bit platform (the same as `ParseInt(s, 10, 0)`):
      an optional sign, then one or more decimal digits, in the range of a
      64-bit signed integer. */
  function Atoi(s: string): (r: Parsed)
    ensures r.Number? ==> MinInt64 <= r.n <= MaxInt64
    ensures r.RangeError? ==> r.bound == MaxInt64 || r.bound == MinInt64
    ensures s == [] ==> r == SyntaxError
  {
    if s == [] then SyntaxError
    else
      var neg := s[0] == '-';
      var digits := if s[0] == '-' || s[0] == '+' then s[1..] else s;
      if digits == [] then SyntaxError
      else
        match ScanUint(digits)
        case NotDigit => SyntaxError
        case Overflow => if neg then RangeError(MinInt64) else RangeError(MaxInt64)
        case Digits(u) =>
          if !neg && u > MaxInt64 then RangeError(MaxInt64)
          else if neg && u > -MinInt64 then RangeError(MinInt64)
          else Number(if neg then -(u as int) else u as int)
  }

  /** The decimal spelling of a natural number, without sign or leading zeros. */
  function Decimal(n: nat): (s: string)
    ensures |s| >= 1 && forall k :: 0 <= k < |s| ==> IsDigit(s[k])
  {
    var d := ['0' + (n % 10) as char];
    if n < 10 then d else Decimal(n / 10) + d
  }

  /** The digit loop reads a decimal spelling back as its value. */
  lemma {:induction false} ScanDecimal(n: nat)
    requires n <= MaxUint64
    ensures ScanUint(Decimal(n)) == Digits(n)
  {
    var s := Decimal(n);
    if n >= 10 {
      ScanDecimal(n / 10);
      assert s[..|s| - 1] == Decimal(n / 10);
    } else {
      assert s[..|s| - 1] == [];
    }
  }

  /** `Atoi` inverts decimal printing on every 64-bit integer. */
  lemma AtoiDecimal(n: int)
    requires MinInt64 <= n <= MaxInt64
    ensures n >= 0 ==> Atoi(Decimal(n)) == Number(n)
    ensures n < 0 ==> Atoi("-" + Decimal(-n)) == Number(n)
  {
    if n >= 0 {
      ScanDecimal(n);
    } else {
      ScanDecimal(-n);
      assert ("-" + Decimal(-n))[1..] == Decimal(-n);
    }
  }

  /** `strconv.ParseBool`: the twelve spellings it accepts; anything else is
      a syntax error (reported with the value false). */
  function ParseBool(s: string): (r: Option<bool>)
    ensures r == Some(true) <==> s in {"1", "t", "T", "true", "TRUE", "True"}
    ensures r == Some(false) <==> s in {"0", "f", "F", "false", "FALSE", "False"}
  {
    if s in {"1", "t", "T", "true", "TRUE", "True"} then Some(true)
    else if s in {"0", "f", "F", "false", "FALSE", "False"} then Some(false)
    else None
  }
}
