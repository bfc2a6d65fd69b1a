/**
 * The two conversions of Go's strconv package that the light-state builder calls, with
 * their error results folded in the way the caller sees them once it discards the error:
 * ParseBool and Atoi, on a platform whose `int` is 64 bits wide.
 */
module Strconv {
  import opened Wrappers

  const MaxInt: int := 0x7FFF_FFFF_FFFF_FFFF
  const MinInt: int := -0x8000_0000_0000_0000
  const MaxUint: int := 0xFFFF_FFFF_FFFF_FFFF

  /** The spellings ParseBool accepts. */
  const TrueWords: set<string> := {"1", "t", "T", "true", "TRUE", "True"}
  const FalseWords: set<string> := {"0", "f", "F", "false", "FALSE", "False"}

  /** strconv.ParseBool: None stands for the syntax error. */
  function ParseBool(s: string): (r: Option<bool>)
    ensures r == Some(true) <==> s in TrueWords
    ensures r == Some(false) <==> s in FalseWords
  {
    if s in TrueWords then Some(true)
    else if s in FalseWords then Some(false)
    else None
  }

  /** strconv.FormatBool, the inverse of ParseBool on its canonical spellings. */
  function FormatBool(b: bool): string {
    if b then "true" else "false"
  }

  lemma ParseFormatBool(b: bool)
    ensures ParseBool(FormatBool(b)) == Some(b)
  {
  }

  predicate IsDigit(c: char) {
    '0' <= c <= '9'
  }

  /** How a run of decimal digits reads: its value, a syntax error, or a range error. */
  datatype Scan = Digits(value: nat) | SyntaxError | RangeError

  /**
   * The unsigned decimal scan behind Atoi: digits are accumulated from the left into `acc`;
   * the first non-digit is a syntax error, and a value past the unsigned 64-bit range is a
   * range error as soon as it arises, before the rest of the input is looked at.
   */
  function ScanDigits(s: string, acc: nat): (r: Scan)
    requires acc <= MaxUint
    ensures r.Digits? ==> acc <= r.value <= MaxUint
  {
    if s == [] then Digits(acc)
    else if !IsDigit(s[0]) then SyntaxError
    else
      var next := acc * 10 + ((s[0] as int) - ('0' as int));
      if next > MaxUint then RangeError else ScanDigits(s[1..], next)
  }

  /**
   * strconv.Atoi with its error discarded: an optional sign, then at least one digit. A syntax
   * error (empty input, a sign alone, a non-digit) yields 0; a range error, and a value outside
   * the signed 64-bit range, saturate to the bound on the side of the sign.
   */
  function Atoi(s: string): (n: int)
    ensures MinInt <= n <= MaxInt
    ensures s == [] ==> n == 0
  {
    var negative := |s| > 0 && s[0] == '-';
    var body := if |s| > 0 && (s[0] == '-' || s[0] == '+') then s[1..] else s;
    if body == [] then 0 else Signed(negative, ScanDigits(body, 0))
  }

  /** The value Atoi returns for a scanned run of digits after the sign. */
  function Signed(negative: bool, scan: Scan): int {
    match scan
    case SyntaxError => 0
    case RangeError => if negative then MinInt else MaxInt
    case Digits(m) =>
      var v: int := m;
      if negative then (if -v < MinInt then MinInt else -v)
      else (if v > MaxInt then MaxInt else v)
  }

  /** The decimal digits of n, without leading zeros. */
  function FormatNat(n: nat): (s: string)
    ensures s != [] && IsDigit(s[0])
  {
    var d := ['0' + (n % 10) as char];
    if n < 10 then d else FormatNat(n / 10) + d
  }

  /** strconv.Itoa: the reference rendering Atoi is checked against. */
  function Itoa(n: int): string {
    if n < 0 then "-" + FormatNat(-n) else FormatNat(n)
  }

  /** Scanning a concatenation is scanning the second part from where the first part stopped. */
  lemma {:induction false} ScanDigitsAppend(a: string, b: string, acc: nat)
    requires acc <= MaxUint
    ensures ScanDigits(a + b, acc) ==
            match ScanDigits(a, acc)
            case Digits(m) => ScanDigits(b, m)
            case SyntaxError => SyntaxError
            case RangeError => RangeError
  {
    if a == [] {
      assert a + b == b;
    } else {
      assert (a + b)[0] == a[0] && (a + b)[1..] == a[1..] + b;
      if IsDigit(a[0]) {
        var next := acc * 10 + ((a[0] as int) - ('0' as int));
        if next <= MaxUint {
          ScanDigitsAppend(a[1..], b, next);
        }
      }
    }
  }

  lemma {:induction false} ScanFormatNat(n: nat)
    requires n <= MaxUint
    ensures ScanDigits(FormatNat(n), 0) == Digits(n)
  {
    var d := ['0' + (n % 10) as char];
    if n >= 10 {
      ScanFormatNat(n / 10);
      ScanDigitsAppend(FormatNat(n / 10), d, 0);
      assert ScanDigits(d, n / 10) == ScanDigits([], n) by {
        assert d[1..] == [];
      }
    }
  }

  /** Atoi reads back every number Itoa writes, over the whole signed 64-bit range. */
  lemma AtoiItoa(n: int)
    requires MinInt <= n <= MaxInt
    ensures Atoi(Itoa(n)) == n
  {
    var m: nat := if n < 0 then -n else n;
    ScanFormatNat(m);
    if n < 0 {
      assert Itoa(n)[1..] == FormatNat(m);
    }
  }

  /**
   * A string that does not start with a sign or a digit is a syntax error: Atoi yields 0. This
   * is AtoiSyntaxError with neither sign nor digits.
   */
  lemma AtoiNotANumber(s: string)
    requires s != [] && s[0] != '-' && s[0] != '+' && !IsDigit(s[0])
    ensures Atoi(s) == 0
  {
    AtoiSyntaxError("", [], s[0], s[1..]);
    assert "" + [] + [s[0]] + s[1..] == s;
  }

  /** The characters Atoi accepts in front of the digits: none, a plus or a minus. */
  predicate IsSign(sign: string) {
    sign == "" || sign == "+" || sign == "-"
  }

  predicate AllDigits(ds: string) {
    forall i :: 0 <= i < |ds| ==> IsDigit(ds[i])
  }

  /** The value of a run of decimal digits, read from the right: the reference the scan is checked against. */
  function DecimalValue(ds: string): nat
    requires AllDigits(ds)
  {
    if ds == [] then 0 else DecimalValue(ds[..|ds| - 1]) * 10 + ((ds[|ds| - 1] as int) - ('0' as int))
  }

  /** A signed value brought into the signed 64-bit range, as ParseInt does on a range error. */
  function Clamp(v: int): int {
    if v > MaxInt then MaxInt else if v < MinInt then MinInt else v
  }

  /** Atoi of a sign and a non-empty unsigned part is the scan of that part, signed. */
  lemma SplitSign(sign: string, u: string)
    requires IsSign(sign) && u != []
    requires sign == "" ==> u[0] != '+' && u[0] != '-'
    ensures Atoi(sign + u) == Signed(sign == "-", ScanDigits(u, 0))
  {
    var s := sign + u;
    if sign == "" {
      assert s == u;
    } else {
      assert s[0] == sign[0] && s[1..] == u;
    }
  }

  /**
   * The scan of a run of digits is its decimal value while that fits in 64 unsigned bits, and a
   * range error beyond.
   */
  lemma {:induction false} ScanDecimal(ds: string)
    requires AllDigits(ds)
    ensures ScanDigits(ds, 0) == if DecimalValue(ds) <= MaxUint then Digits(DecimalValue(ds)) else RangeError
  {
    if ds != [] {
      var init, last := ds[..|ds| - 1], ds[|ds| - 1..];
      assert ds == init + last;
      assert AllDigits(init);
      ScanDecimal(init);
      ScanDigitsAppend(init, last, 0);
      if DecimalValue(init) <= MaxUint {
        assert last[1..] == [];
      }
    }
  }

  /**
   * Atoi of an optional sign and a run of digits is the signed decimal value, leading zeros and
   * a plus sign included, saturated to the signed 64-bit range.
   */
  lemma AtoiDecimal(sign: string, ds: string)
    requires IsSign(sign) && ds != [] && AllDigits(ds)
    ensures Atoi(sign + ds) == Clamp(if sign == "-" then -(DecimalValue(ds) as int) else DecimalValue(ds))
  {
    ScanDecimal(ds);
    assert IsDigit(ds[0]);
    SplitSign(sign, ds);
  }

  /**
   * A non-digit after the sign and a run of digits that does not overflow is a syntax error,
   * whatever follows: "1.5", "12a", "-x", "1_000" and "+-5" all read as 0. Without sign and
   * digits, the non-digit must not itself be a sign.
   */
  lemma AtoiSyntaxError(sign: string, ds: string, c: char, rest: string)
    requires IsSign(sign) && AllDigits(ds) && DecimalValue(ds) <= MaxUint && !IsDigit(c)
    requires sign == "" && ds == [] ==> c != '+' && c != '-'
    ensures Atoi(sign + ds + [c] + rest) == 0
  {
    ScanDecimal(ds);
    ScanDigitsAppend(ds, [c] + rest, 0);
    var u := ds + ([c] + rest);
    assert u[0] == if ds == [] then c else ds[0];
    SplitSign(sign, u);
    assert sign + ds + [c] + rest == sign + u;
  }

  /** A sign with nothing after it is a syntax error. */
  lemma AtoiSignAlone(sign: string)
    requires IsSign(sign)
    ensures Atoi(sign) == 0
  {
  }

  /**
   * A run of digits that overflows 64 unsigned bits is a range error, reported before any
   * character after it is read: Atoi saturates to the bound on the side of the sign instead of
   * yielding 0, even when junk follows.
   */
  lemma AtoiSaturatesBeforeSyntaxError(sign: string, ds: string, rest: string)
    requires IsSign(sign) && ds != [] && IsDigit(ds[0]) && ScanDigits(ds, 0) == RangeError
    ensures Atoi(sign + ds + rest) == if sign == "-" then MinInt else MaxInt
  {
    ScanDigitsAppend(ds, rest, 0);
    assert (ds + rest)[0] == ds[0];
    SplitSign(sign, ds + rest);
    assert sign + ds + rest == sign + (ds + rest);
  }
}
