/// `strconv.ParseInt(s, 10, 64)` as `listUsers` calls it, and the decimal
/// form that it reads back.
module Numbers {
  import opened GitHub

  const MaxUint64: nat := 0xFFFF_FFFF_FFFF_FFFF
  /// `1 << 63`: the magnitude of the most negative 64-bit integer.
  const Int64Cutoff: nat := 0x8000_0000_0000_0000

  predicate IsInt64(x: int)
  {
    -(Int64Cutoff as int) <= x < Int64Cutoff as int
  }

  predicate IsDigit(c: char)
  {
    '0' <= c <= '9'
  }

  predicate AllDigits(s: string)
  {
    forall i :: 0 <= i < |s| ==> IsDigit(s[i])
  }

  /// The value of a digit string read left to right onto `n`.
  function LeftValue(s: string, n: nat): nat
    requires AllDigits(s)
    decreases |s|
  {
    if s == [] then n else LeftValue(s[1..], n * 10 + (s[0] - '0') as nat)
  }

  /// How the unsigned scan of `strconv.ParseUint` ends.
  datatype Scan = Value(n: nat) | NotDigit | Overflow

  /// The digit loop of `strconv.ParseUint` in base 10, from the value `n`
  /// read so far: a character that is not a decimal digit is a syntax error
  /// and a value past 2^64 - 1 a range error, whichever comes first.
  function ScanDigits(s: string, n: nat): Scan
    requires n <= MaxUint64
    decreases |s|
  {
    if s == [] then Value(n)
    else if !IsDigit(s[0]) then NotDigit
    else if n >= MaxUint64 / 10 + 1 then Overflow
    else
      var n1 := n * 10 + (s[0] - '0') as nat;
      if n1 > MaxUint64 then Overflow else ScanDigits(s[1..], n1)
  }

  /// `strconv.ParseInt(s, 10, 64)`: an optional sign, then `ParseUint`'s scan
  /// of the rest, then the signed range check. Either error names the whole text.
  function ParseInt(s: string): (r: Result<int>)
    ensures r.Ok? ==> IsInt64(r.value)
    ensures r.Err? ==> r == Err(Syntax(s)) || r == Err(Range(s))
  {
    if s == [] then Err(Syntax(s))
    else
      var neg := s[0] == '-';
      var body := if s[0] == '+' || s[0] == '-' then s[1..] else s;
      var scan := if body == [] then NotDigit else ScanDigits(body, 0);
      match scan
      case NotDigit => Err(Syntax(s))
      case Overflow => Err(Range(s))
      case Value(un) =>
        if !neg && un >= Int64Cutoff then Err(Range(s))
        else if neg && un > Int64Cutoff then Err(Range(s))
        else Ok(if neg then -(un as int) else un)
  }

  /// An optional sign followed by at least one decimal digit.
  predicate IsNumeral(s: string)
  {
    && |s| > 0
    && var body := if s[0] == '+' || s[0] == '-' then s[1..] else s;
       |body| > 0 && AllDigits(body)
  }

  /// The value a numeral denotes.
  function NumeralValue(s: string): int
    requires IsNumeral(s)
  {
    var body := if s[0] == '+' || s[0] == '-' then s[1..] else s;
    if s[0] == '-' then -(LeftValue(body, 0) as int) else LeftValue(body, 0)
  }

  /// Reading more digits never makes the value smaller.
  lemma {:induction false} LeftValueGrows(s: string, n: nat)
    requires AllDigits(s)
    ensures LeftValue(s, n) >= n
    decreases |s|
  {
    if s != [] {
      LeftValueGrows(s[1..], n * 10 + (s[0] - '0') as nat);
    }
  }

  /// Reading `a + b` is reading `a`, then `b` onto what `a` gave.
  lemma {:induction false} LeftValueAppend(a: string, b: string, n: nat)
    requires AllDigits(a) && AllDigits(b)
    ensures AllDigits(a + b) && LeftValue(a + b, n) == LeftValue(b, LeftValue(a, n))
    decreases |a|
  {
    if a == [] {
      assert a + b == b;
    } else {
      assert (a + b)[0] == a[0] && (a + b)[1..] == a[1..] + b;
      LeftValueAppend(a[1..], b, n * 10 + (a[0] - '0') as nat);
    }
  }

  /// The scan succeeds exactly on digit strings whose value fits in 64
  /// unsigned bits, and then yields that value.
  lemma {:induction false} ScanDigitsResult(s: string, n: nat)
    requires n <= MaxUint64
    ensures ScanDigits(s, n).Value? <==> AllDigits(s) && LeftValue(s, n) <= MaxUint64
    ensures ScanDigits(s, n).Value? ==> ScanDigits(s, n).n == LeftValue(s, n)
    ensures AllDigits(s) && LeftValue(s, n) > MaxUint64 ==> ScanDigits(s, n) == Overflow
    decreases |s|
  {
    if s != [] && IsDigit(s[0]) {
      var n1 := n * 10 + (s[0] - '0') as nat;
      if n >= MaxUint64 / 10 + 1 || n1 > MaxUint64 {
        if AllDigits(s) {
          LeftValueGrows(s[1..], n1);
        }
      } else {
        ScanDigitsResult(s[1..], n1);
        if AllDigits(s[1..]) {
          assert AllDigits(s);
        }
      }
    }
  }

  /// `ParseInt` succeeds exactly on numerals whose value is a 64-bit
  /// integer, and returns that value; a numeral out of range is a range
  /// error and anything that is not a numeral an error too.
  lemma ParseIntResult(s: string)
    ensures ParseInt(s).Ok? <==> IsNumeral(s) && IsInt64(NumeralValue(s))
    ensures ParseInt(s).Ok? ==> ParseInt(s).value == NumeralValue(s)
    ensures IsNumeral(s) && !IsInt64(NumeralValue(s)) ==> ParseInt(s) == Err(Range(s))
    ensures ParseInt(s).Err? ==> ParseInt(s) == Err(Syntax(s)) || ParseInt(s) == Err(Range(s))
  {
    if s != [] {
      var body := if s[0] == '+' || s[0] == '-' then s[1..] else s;
      if body != [] {
        ScanDigitsResult(body, 0);
      }
    }
  }

  function DigitChar(d: nat): char
    requires d < 10
  {
    (d + '0' as int) as char
  }

  /// The decimal digits of `v`, most significant first, without leading zeros.
  function Digits(v: nat): (s: string)
    ensures |s| > 0 && AllDigits(s)
    decreases v
  {
    if v < 10 then [DigitChar(v)] else Digits(v / 10) + [DigitChar(v % 10)]
  }

  /// The decimal form of `x`, as `strconv.FormatInt(x, 10)` writes it.
  function Decimal(x: int): string
  {
    if x < 0 then "-" + Digits(-x) else Digits(x)
  }

  /// The digits read back give the number.
  lemma {:induction false} DigitsValue(v: nat)
    ensures LeftValue(Digits(v), 0) == v
    decreases v
  {
    if v >= 10 {
      DigitsValue(v / 10);
      LeftValueAppend(Digits(v / 10), [DigitChar(v % 10)], 0);
    }
  }

  /// Every 64-bit integer written in decimal is read back by `ParseInt`.
  lemma ParseIntDecimal(x: int)
    requires IsInt64(x)
    ensures IsNumeral(Decimal(x)) && ParseInt(Decimal(x)) == Ok(x)
  {
    var s := Decimal(x);
    if x < 0 {
      DigitsValue(-x);
      assert s[1..] == Digits(-x);
    } else {
      DigitsValue(x);
      assert IsDigit(s[0]);
    }
    ParseIntResult(s);
  }
}
