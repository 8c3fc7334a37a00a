/**
 * The PL/pgSQL function `base36_encode(long_number bigint)` that the server
 * installs in its database, and the expression that turns a tank's hash into
 * its short URL with it.
 *
 * The encoder takes the absolute value of a bigint and then runs a loop whose
 * exit test sits at the bottom: take the remainder by 36, divide by 36,
 * prepend the digit for the remainder. It is specified here by `Digits`
 * (the numeral the loop builds) and `Value` (reading a numeral back), which
 * are proved to be inverses of each other.
 */
module Base36 {

  const Base: nat := 36

  /** The digit alphabet, digit d at (0-based) position d. */
  const Alphabet: string := "0123456789abcdefghijklmnopqrstuvwxyz"

  /** The range of PostgreSQL's 64-bit `bigint`. */
  const BigintMin: int := -0x8000_0000_0000_0000
  const BigintMax: int := 0x7FFF_FFFF_FFFF_FFFF

  predicate IsBigint(n: int) {
    BigintMin <= n <= BigintMax
  }

  /** The SQL errors the modelled expressions can raise. */
  datatype SqlError =
    | BigintOutOfRange         // abs() of the smallest bigint
    | NegativeSubstringLength  // SUBSTRING with a negative count

  datatype Result<T> = Success(value: T) | Failure(error: SqlError)

  function Min(a: int, b: int): (m: int) { if a < b then a else b }
  function Max(a: int, b: int): (m: int) { if a < b then b else a }

  // ---------------------------------------------------------------------
  // Digits

  predicate IsDigit(c: char) {
    '0' <= c <= '9' || 'a' <= c <= 'z'
  }

  /** A string made only of alphabet characters. */
  predicate IsNumeral(s: string) {
    forall k :: 0 <= k < |s| ==> IsDigit(s[k])
  }

  /** The shape the encoder produces: at least one digit and no leading '0' except in "0" itself. */
  predicate IsCanonical(s: string) {
    IsNumeral(s) && |s| >= 1 && (s[0] == '0' ==> s == "0")
  }

  /** The character at position d of the alphabet, computed from character codes. */
  function DigitChar(d: nat): (c: char)
    requires d < Base
    ensures IsDigit(c)
  {
    if d < 10 then ('0' as int + d) as char else ('a' as int + d - 10) as char
  }

  lemma AlphabetIsDigitChars()
    ensures |Alphabet| == Base
    ensures forall d :: 0 <= d < Base ==> Alphabet[d] == DigitChar(d)
  {
  }

  /** The position of a digit character in the alphabet. */
  function DigitValue(c: char): (d: nat)
    requires IsDigit(c)
    ensures d < Base && Alphabet[d] == c
  {
    AlphabetIsDigitChars();
    if c <= '9' then (c as int - '0' as int) else (c as int - 'a' as int) + 10
  }

  /** Looking up a digit and reading it back gives the digit. */
  lemma DigitValueOfAlphabet(d: nat)
    requires d < Base
    ensures IsDigit(Alphabet[d]) && DigitValue(Alphabet[d]) == d
  {
    AlphabetIsDigitChars();
  }

  // ---------------------------------------------------------------------
  // The numeral of a natural number and the value of a numeral

  /**
   * The base-36 numeral of v, most significant digit first, as the
   * conversion loop builds it; because the loop tests for exit only after
   * emitting a digit, 0 has the one-digit numeral "0".
   */
  function Digits(v: nat): (s: string)
    ensures IsCanonical(s)
    decreases v
  {
    DigitValueOfAlphabet(v % Base);
    if v < Base then [Alphabet[v]] else Digits(v / Base) + [Alphabet[v % Base]]
  }

  /** The number a numeral denotes, reading its characters as base-36 digits, most significant first. */
  function Value(s: string): (v: nat)
    requires IsNumeral(s)
    decreases |s|
  {
    if s == [] then 0 else Value(s[..|s| - 1]) * Base + DigitValue(s[|s| - 1])
  }

  /** Round trip: reading back the numeral of v gives v. */
  lemma {:induction false} ValueOfDigits(v: nat)
    ensures Value(Digits(v)) == v
    decreases v
  {
    var s := Digits(v);
    DigitValueOfAlphabet(v % Base);
    if v < Base {
      assert s[..0] == [];
    } else {
      ValueOfDigits(v / Base);
      assert s[..|s| - 1] == Digits(v / Base);
    }
  }

  /** A numeral that does not start with '0' denotes a positive number. */
  lemma {:induction false} ValuePositive(s: string)
    requires IsNumeral(s) && |s| >= 1 && s[0] != '0'
    ensures Value(s) >= 1
    decreases |s|
  {
    if |s| == 1 {
      assert s[..0] == [];
      AlphabetIsDigitChars();
    } else {
      ValuePositive(s[..|s| - 1]);
    }
  }

  /** The other direction: every canonical numeral is the numeral of its value. */
  lemma {:induction false} DigitsOfValue(s: string)
    requires IsCanonical(s)
    ensures Digits(Value(s)) == s
    decreases |s|
  {
    var last := DigitValue(s[|s| - 1]);
    if |s| == 1 {
      assert s[..0] == [];
      assert s == [Alphabet[last]];
    } else {
      var prefix := s[..|s| - 1];
      assert prefix[0] == s[0];
      ValuePositive(prefix);
      DigitsOfValue(prefix);
      assert Value(s) / Base == Value(prefix) && Value(s) % Base == last;
      assert s == prefix + [Alphabet[last]];
    }
  }

  /** Two numbers with the same numeral are equal: the encoding loses nothing. */
  lemma DigitsInjective(v: nat, w: nat)
    requires Digits(v) == Digits(w)
    ensures v == w
  {
    ValueOfDigits(v);
    ValueOfDigits(w);
  }

  function Pow(b: nat, k: nat): (p: nat) {
    if k == 0 then 1 else b * Pow(b, k - 1)
  }

  /** A number below 36^k has at most k digits. */
  lemma {:induction false} DigitsLengthBound(v: nat, k: nat)
    requires k >= 1 && v < Pow(Base, k)
    ensures |Digits(v)| <= k
    decreases v
  {
    if v >= Base {
      assert k != 1;
      DigitsLengthBound(v / Base, k - 1);
    }
  }

  /** Every magnitude of a bigint, up to 2^63, has at most 13 base-36 digits. */
  lemma BigintDigitsAtMost13(v: nat)
    requires v <= BigintMax + 1
    ensures |Digits(v)| <= 13
  {
    assert Pow(Base, 13) == 170_581_728_179_578_208_256;
    DigitsLengthBound(v, 13);
  }

  // ---------------------------------------------------------------------
  // base36_encode

  /** PostgreSQL's abs(bigint): the smallest bigint has no bigint magnitude and raises an error. */
  function BigintAbs(n: int): (r: Result<nat>)
    requires IsBigint(n)
    ensures r.Failure? <==> n == BigintMin
    ensures r.Success? ==> r.value <= BigintMax && (r.value == n || r.value == -n)
  {
    if n == BigintMin then Failure(BigintOutOfRange) else Success(if n < 0 then -n else n)
  }

  /** What `base36_encode(n)` returns: the numeral of |n|, or the error abs raises. */
  function Encode(n: int): (r: Result<string>)
    requires IsBigint(n)
    ensures r.Failure? <==> n == BigintMin
    ensures r.Success? ==> IsCanonical(r.value) && Value(r.value) == (if n < 0 then -n else n)
  {
    match BigintAbs(n)
    case Success(a) => ValueOfDigits(a); Success(Digits(a))
    case Failure(e) => Failure(e)
  }

  /** One turn of the conversion loop: the last digit of v's numeral is the digit of v % 36. */
  lemma DigitsStep(v: nat)
    ensures Digits(v) == (if v / Base == 0 then [] else Digits(v / Base)) + [Alphabet[v % Base]]
  {
  }

  /** The encoder's body: the conversion loop over v_interim and v_return_text, exit test at the bottom. */
  method Base36Encode(longNumber: int) returns (r: Result<string>)
    requires IsBigint(longNumber)
    ensures r.Failure? <==> longNumber == BigintMin
    ensures r.Success? ==> IsCanonical(r.value)
    ensures r.Success? ==> Value(r.value) == (if longNumber < 0 then -longNumber else longNumber)
    ensures r == Encode(longNumber)
  {
    var magnitude := BigintAbs(longNumber);
    if magnitude.Failure? {
      return Failure(magnitude.error);
    }
    var interim: nat := magnitude.value;
    var returnText: string := "";
    while true
      invariant Digits(interim) + returnText == Digits(magnitude.value)
      decreases interim
    {
      var remainder := interim % Base;
      DigitsStep(interim);
      interim := interim / Base;
      returnText := [Alphabet[remainder]] + returnText;
      if interim <= 0 {
        break;
      }
    }
    ValueOfDigits(magnitude.value);
    r := Success(returnText);
  }

  /** The sign is ignored: n and -n encode alike wherever both are bigints. */
  lemma EncodeIgnoresSign(n: int)
    requires IsBigint(n) && IsBigint(-n)
    ensures Encode(n) == Encode(-n)
    ensures Encode(n).Success?
  {
  }

  /** Zero encodes to the one-digit numeral "0". */
  lemma EncodeZero()
    ensures Encode(0) == Success("0")
  {
  }

  // ---------------------------------------------------------------------
  // The tank URL: SUBSTRING(base36_encode(...), 0, 8)

  /** Whether the 1-based position p lies in the count positions from start on. */
  predicate Spans(start: int, count: int, p: int) {
    start <= p < start + count
  }

  /**
   * PostgreSQL's SUBSTRING(s, start, count): the characters at 1-based
   * positions start .. start + count - 1 that exist in s; positions before
   * the first character are simply absent, and a negative count is an error.
   */
  function Substring(s: string, start: int, count: int): (r: Result<string>)
    ensures r.Failure? <==> count < 0
    ensures r.Success? ==> |r.value| <= count
    ensures r.Success? && r.value != [] ==>
              Max(start, 1) - 1 + |r.value| <= |s| && r.value == s[Max(start, 1) - 1 .. Max(start, 1) - 1 + |r.value|]
    ensures r.Success? ==> forall p :: 1 <= p <= |s| ==>
              (Spans(start, count, p) <==> Spans(Max(start, 1), |r.value|, p))
  {
    if count < 0 then Failure(NegativeSubstringLength)
    else
      var lo := Max(start, 1);
      var hi := Min(start + count, |s| + 1);
      if hi <= lo then Success("") else Success(s[lo - 1 .. hi - 1])
  }

  /** Starting at position 0 with count 8 covers positions 1-7: the first seven characters. */
  lemma SubstringFromZero(s: string)
    ensures Substring(s, 0, 8) == Success(s[..Min(|s|, 7)])
  {
  }

  /**
   * The `url` column written by insert_tank for a tank whose hash prefix,
   * read as a bigint, is idBits.
   */
  method TankUrl(idBits: int) returns (url: Result<string>)
    requires IsBigint(idBits)
    ensures url.Failure? <==> idBits == BigintMin
    ensures url.Success? ==> 1 <= |url.value| <= 7 && IsNumeral(url.value)
    ensures url.Success? ==> Encode(idBits).Success? && url.value == Encode(idBits).value[..Min(|Encode(idBits).value|, 7)]
  {
    var encoded := Base36Encode(idBits);
    if encoded.Failure? {
      return Failure(encoded.error);
    }
    SubstringFromZero(encoded.value);
    url := Substring(encoded.value, 0, 8);
  }
}
