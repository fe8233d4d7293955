/**
  Integers as decimal text: how a bound int64 is printed for the SDK, and how a column is parsed back.

  `Decimal` is what `snprintf("%lld")` writes; `ParseInt64` accepts what `strconv.ParseInt(s, 10, 64)` does.
 */
module IntegerText {
  import opened Basics

  const INT64_MIN: int := -0x8000_0000_0000_0000
  const INT64_MAX: int := 0x7FFF_FFFF_FFFF_FFFF

  /** The size of the buffer `csqlgo_bind_set_int64` prints into, terminator included. */
  const BUFFER_SIZE := 64

  predicate IsInt64(n: int) { INT64_MIN <= n <= INT64_MAX }

  function Digit(d: nat): char
    requires d < 10
  {
    "0123456789"[d]
  }

  function Digits(n: nat): (text: string) {
    if n < 10 then [Digit(n)] else Digits(n / 10) + [Digit(n % 10)]
  }

  function Decimal(n: int): string {
    if n < 0 then "-" + Digits(-n) else Digits(n)
  }

  predicate IsDigit(c: char) { '0' <= c <= '9' }

  /** The value of a digit string, most significant digit first. */
  function Magnitude(s: string): Option<nat> {
    if s == [] then Some(0)
    else
      var c := s[|s| - 1];
      if !IsDigit(c) then None
      else
        match Magnitude(s[..|s| - 1])
        case None => None
        case Some(high) => Some(10 * high + (c as int - '0' as int))
  }

  /** Optional sign, at least one digit, nothing else, and the value in range. */
  function ParseInt64(s: string): Option<int> {
    var signed := s != [] && (s[0] == '+' || s[0] == '-');
    var body := if signed then s[1..] else s;
    if body == [] then None
    else
      match Magnitude(body)
      case None => None
      case Some(m) =>
        var n: int := if signed && s[0] == '-' then -(m as int) else m as int;
        if IsInt64(n) then Some(n) else None
  }

  function Pow10(k: nat): nat { if k == 0 then 1 else 10 * Pow10(k - 1) }

  /** A number has at most `k` digits exactly when it is below 10^k. */
  lemma {:induction false} DigitsLength(n: nat, k: nat)
    requires k >= 1
    ensures |Digits(n)| <= k <==> n < Pow10(k)
  {
    if n < 10 {
      Pow10AtLeast(k);
    } else if k == 1 {
      assert |Digits(n / 10)| >= 1;
      assert Pow10(1) == 10 * Pow10(0);
    } else {
      DigitsLength(n / 10, k - 1);
    }
  }

  lemma {:induction false} Pow10AtLeast(k: nat)
    requires k >= 1
    ensures Pow10(k) >= 10
  {
    if k > 1 { Pow10AtLeast(k - 1); }
  }

  /** The printed text of an int64 fits the buffer with its terminator, so the length check never fails. */
  lemma DecimalFits(n: int)
    requires IsInt64(n)
    ensures 1 <= |Decimal(n)| <= 20 && |Decimal(n)| + 1 <= BUFFER_SIZE
  {
    var m := if n < 0 then -n else n;
    DigitsLength(m, 19);
    assert Pow10(19) == 10_000_000_000_000_000_000 by {
      assert Pow10(6) == 1_000_000;
      assert Pow10(12) == 1_000_000_000_000;
      assert Pow10(18) == 1_000_000_000_000_000_000;
    }
  }

  lemma {:induction false} MagnitudeOfDigits(n: nat)
    ensures Magnitude(Digits(n)) == Some(n) && IsDigit(Digits(n)[0])
  {
    if n < 10 {
      assert Digits(n)[..0] == [];
    } else {
      MagnitudeOfDigits(n / 10);
      assert Digits(n)[..|Digits(n)| - 1] == Digits(n / 10);
    }
  }

  /** Parsing a printed int64 gives it back, the minimum included. */
  lemma PrintParse(n: int)
    ensures ParseInt64(Decimal(n)) == if IsInt64(n) then Some(n) else None
  {
    var m := if n < 0 then -n else n;
    MagnitudeOfDigits(m);
    if n < 0 { assert Decimal(n)[1..] == Digits(m); }
  }

  /** What parses is an int64, so printing it again gives the same value. */
  lemma ParsePrint(s: string)
    ensures match ParseInt64(s)
            case Some(n) => IsInt64(n) && ParseInt64(Decimal(n)) == Some(n)
            case None => true
  {
    if ParseInt64(s).Some? { PrintParse(ParseInt64(s).value); }
  }

  lemma {:induction false} NoMagnitude(s: string, i: nat)
    requires i < |s| && !IsDigit(s[i])
    ensures Magnitude(s) == None
  {
    if i < |s| - 1 { NoMagnitude(s[..|s| - 1], i); }
  }

  /** Anything but a digit after the first character makes a text no integer. */
  lemma OnlyDigitsParse(s: string, i: nat)
    requires 0 < i < |s| && !IsDigit(s[i])
    ensures ParseInt64(s) == None
  {
    if s[0] == '+' || s[0] == '-' { NoMagnitude(s[1..], i - 1); } else { NoMagnitude(s, i); }
  }

  lemma {:induction false} ZeroMagnitude(s: string)
    ensures Magnitude("0" + s) == Magnitude(s)
  {
    if s == [] {
      assert ("0" + s)[..0] == [];
    } else {
      assert ("0" + s)[..|s|] == "0" + s[..|s| - 1];
      ZeroMagnitude(s[..|s| - 1]);
    }
  }

  /** A plus sign and leading zeros make no difference to a text that begins with a digit. */
  lemma PlusAndZeros(s: string)
    requires s != [] && IsDigit(s[0])
    ensures ParseInt64("+" + s) == ParseInt64(s) == ParseInt64("0" + s)
  {
    assert ("+" + s)[1..] == s;
    ZeroMagnitude(s);
  }
}
