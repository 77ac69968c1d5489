/**
  The pieces of the Java platform that the component-id codec relies on:
  nullable values, the exceptions the core throws, the ranges of `long` and
  `int`, and the decimal conversions `Long.toUnsignedString`,
  `Long.parseUnsignedLong`, `Integer.toString` and `Integer.valueOf`.
 */
module JavaLang {

  /** A Java reference that may be null. */
  datatype Option<+T> = None | Some(value: T)

  /** Why an IllegalArgumentException was thrown (the message the source attaches). */
  datatype ArgumentProblem =
    | NullIdOrUser      // "ID and user must not be null"
    | NullPayload       // "... has payload but the payload is Null!"
    | TooLong           // "... has length greater than 100 characters!"
    | NullComponent     // "Component cannot be null"
    | NotFromPlugin     // "Component is not created from this plugin"
    | InvalidOwner      // "Component ID is invalid"
    | NotSnowflake      // thrown by the platform's snowflake check, which is not part of this model
    | IsDirectory       // "Cannot add folder to WebhookData."
    | FileMissing       // "File does not exist in the filesystem to be added."

  /** The exceptions the modelled code can throw. */
  datatype Exception =
    | IllegalArgument(problem: ArgumentProblem)
    | IllegalState
    | ClassCast
    | NumberFormat
    | NullPointer

  /** A value, or the exception thrown instead of returning it. */
  datatype Result<+T> = Ok(value: T) | Err(error: Exception)

  const TWO_TO_64: int := 0x1_0000_0000_0000_0000
  const MIN_LONG: int := -0x8000_0000_0000_0000
  const MAX_LONG: int := 0x7FFF_FFFF_FFFF_FFFF
  const MIN_INT: int := -0x8000_0000
  const MAX_INT: int := 0x7FFF_FFFF

  /** A Java `long`. */
  type Long = x: int | MIN_LONG <= x <= MAX_LONG

  /** A Java `int`. */
  type Int = x: int | MIN_INT <= x <= MAX_INT

  predicate IsDigit(c: char) {
    '0' <= c <= '9'
  }

  predicate IsDigits(s: string) {
    forall i :: 0 <= i < |s| ==> IsDigit(s[i])
  }

  function DigitChar(d: nat): (c: char)
    requires d < 10
    ensures IsDigit(c)
  {
    ('0' as int + d) as char
  }

  function DigitValue(c: char): (d: nat)
    requires IsDigit(c)
    ensures d < 10
  {
    c as int - '0' as int
  }

  function Pow10(k: nat): (p: nat)
    ensures p >= 1
  {
    if k == 0 then 1 else 10 * Pow10(k - 1)
  }

  /** The decimal digits of n, most significant first, without leading zeros. */
  function Decimal(n: nat): (s: string)
    ensures |s| > 0 && IsDigits(s)
    ensures |s| > 1 ==> s[0] != '0'
  {
    if n < 10 then [DigitChar(n)] else Decimal(n / 10) + [DigitChar(n % 10)]
  }

  /** The number a string of decimal digits denotes, most significant digit first. */
  function DigitsValue(s: string): nat
    requires IsDigits(s)
  {
    if s == [] then 0 else DigitsValue(s[..|s| - 1]) * 10 + DigitValue(s[|s| - 1])
  }

  /** Reading back the digits of n gives n. */
  lemma {:induction false} DigitsValueOfDecimal(n: nat)
    ensures DigitsValue(Decimal(n)) == n
  {
    if n >= 10 {
      var s := Decimal(n);
      assert s[..|s| - 1] == Decimal(n / 10);
      DigitsValueOfDecimal(n / 10);
    }
  }

  /** A number below 10^k has at most k digits. */
  lemma {:induction false} DecimalLength(n: nat, k: nat)
    requires 1 <= k && n < Pow10(k)
    ensures |Decimal(n)| <= k
  {
    if n >= 10 {
      assert k >= 2;
      DecimalLength(n / 10, k - 1);
    }
  }

  lemma {:induction false} Pow10Add(a: nat, b: nat)
    ensures Pow10(a + b) == Pow10(a) * Pow10(b)
  {
    if a > 0 {
      Pow10Add(a - 1, b);
    }
  }

  /** A run of digits is worth at least its leading digit times ten to the number of digits after it. */
  lemma {:induction false} DigitsValueLeading(s: string)
    requires |s| > 0 && IsDigits(s)
    ensures DigitsValue(s) >= DigitValue(s[0]) * Pow10(|s| - 1)
    decreases |s|
  {
    if |s| > 1 {
      var init := s[..|s| - 1];
      assert init[0] == s[0];
      DigitsValueLeading(init);
      var d, p := DigitValue(s[0]), Pow10(|s| - 2);
      assert DigitsValue(s) >= DigitsValue(init) * 10;
      assert Pow10(|s| - 1) == 10 * p;
      assert d * (10 * p) == (d * p) * 10;
    }
  }

  /** An unsigned 64-bit number has at most 20 decimal digits. */
  lemma DecimalOfUnsignedLongLength(n: nat)
    requires n < TWO_TO_64
    ensures |Decimal(n)| <= 20
  {
    assert Pow10(5) == 100_000;
    Pow10Add(5, 5);
    Pow10Add(10, 10);
    DecimalLength(n, 20);
  }

  /** The unsigned reading of a `long`'s 64 bits: a negative value maps to value + 2^64. */
  function ToUnsigned(x: Long): (u: nat)
    ensures u < TWO_TO_64
    ensures u % TWO_TO_64 == x % TWO_TO_64
  {
    if x < 0 then x + TWO_TO_64 else x
  }

  /** `Long.toUnsignedString(x)`. */
  function UnsignedString(x: Long): (s: string)
    ensures 0 < |s| <= 20 && IsDigits(s)
  {
    DecimalOfUnsignedLongLength(ToUnsigned(x));
    Decimal(ToUnsigned(x))
  }

  /**
    `Long.parseUnsignedLong(s)` on text without a sign: a non-empty run of
    decimal digits whose value fits in 64 bits, else NumberFormatException.
    The result is the unsigned value (the `long` bits read as unsigned).
   */
  function ParseUnsignedLong(s: string): (r: Result<nat>)
    ensures r.Ok? ==> r.value < TWO_TO_64
    ensures r.Err? ==> r.error == NumberFormat
  {
    if |s| == 0 || !IsDigits(s) then Err(NumberFormat)
    else if DigitsValue(s) < TWO_TO_64 then Ok(DigitsValue(s))
    else Err(NumberFormat)
  }

  /** `Long.parseUnsignedLong` inverts `Long.toUnsignedString` on every `long`. */
  lemma ParseUnsignedOfUnsignedString(x: Long)
    ensures ParseUnsignedLong(UnsignedString(x)) == Ok(ToUnsigned(x))
  {
    DigitsValueOfDecimal(ToUnsigned(x));
  }

  /** `Integer.toString(v)`: an optional '-' and the decimal digits of |v|. */
  function SignedString(v: int): (s: string)
    ensures |s| > 0
    ensures v >= 0 ==> IsDigits(s)
    ensures v < 0 ==> s[0] == '-' && IsDigits(s[1..])
  {
    if v < 0 then "-" + Decimal(-v) else Decimal(v)
  }

  /**
    `Integer.valueOf(s)`: an optional '+' or '-' followed by at least one
    decimal digit, denoting a value in the `int` range; anything else throws
    NumberFormatException.
   */
  function ParseInt(s: string): (r: Result<Int>)
    ensures r.Err? ==> r.error == NumberFormat
    ensures r.Ok? ==> |s| > 0 && (IsDigits(s) || ((s[0] == '-' || s[0] == '+') && |s| > 1 && IsDigits(s[1..])))
    ensures r.Ok? && IsDigits(s) ==> r.value == DigitsValue(s)
  {
    if |s| == 0 then Err(NumberFormat)
    else
      var signed := s[0] == '-' || s[0] == '+';
      var digits := if signed then s[1..] else s;
      if |digits| == 0 || !IsDigits(digits) then Err(NumberFormat)
      else
        var v: int := if s[0] == '-' then 0 - DigitsValue(digits) as int else DigitsValue(digits);
        if MIN_INT <= v <= MAX_INT then Ok(v) else Err(NumberFormat)
  }

  /** `Integer.valueOf` inverts `Integer.toString` on every `int`. */
  lemma ParseIntOfSignedString(v: Int)
    ensures ParseInt(SignedString(v)) == Ok(v)
  {
    var s := SignedString(v);
    if v < 0 {
      var m: nat := -(v as int);
      assert s[1..] == Decimal(m);
      DigitsValueOfDecimal(m);
    } else {
      DigitsValueOfDecimal(v);
    }
  }
}
