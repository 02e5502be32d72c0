/**
 * The command line's tty number: `validate_tty_number` and its default. The number
 * is parsed as Rust parses a `u16`: an optional leading `+`, then one or more
 * decimal digits whose value fits 16 bits.
 */
module TtyNumber {
  import opened Wrappers

  const U16_MAX: nat := 0xFFFF

  /** The tty number when none is given, for the `tty` mode and when no command is given. */
  const DEFAULT_TTY_NUMBER: nat := 1

  predicate IsDigit(c: char)
  {
    '0' <= c <= '9'
  }

  predicate AllDigits(ds: string)
  {
    forall i :: 0 <= i < |ds| ==> IsDigit(ds[i])
  }

  /** The value of a string of decimal digits, most significant first. */
  function DigitsValue(ds: string): (n: nat)
    requires AllDigits(ds)
  {
    if ds == [] then 0
    else DigitsValue(ds[..|ds| - 1]) * 10 + (ds[|ds| - 1] as int - '0' as int)
  }

  /** The digits of a number text: without its one optional leading `+`. */
  function Unsigned(s: string): (ds: string)
    ensures s != [] && s[0] == '+' ==> ds == s[1..]
    ensures (s == [] || s[0] != '+') ==> ds == s
  {
    if s != [] && s[0] == '+' then s[1..] else s
  }

  /**
   * `u16::from_str`: the text is an optional `+` followed by at least one digit, and
   * the number those digits spell is at most 65535; a bare `+`, a `-`, any other
   * character and an empty text are all rejected.
   */
  function ParseU16(s: string): (r: Option<nat>)
    ensures r.Some? <==> Unsigned(s) != [] && AllDigits(Unsigned(s)) && DigitsValue(Unsigned(s)) <= U16_MAX
    ensures r.Some? ==> r.value == DigitsValue(Unsigned(s)) && r.value <= U16_MAX
  {
    var ds := Unsigned(s);
    if ds == [] || !AllDigits(ds) then None
    else
      var n := DigitsValue(ds);
      if n <= U16_MAX then Some(n) else None
  }

  /** The digit character of `d`. */
  function DigitChar(d: nat): (c: char)
    requires d < 10
    ensures IsDigit(c) && c as int - '0' as int == d
  {
    ('0' as int + d) as char
  }

  /** The decimal text of `n`, without leading zeros. */
  function Decimal(n: nat): (s: string)
    ensures s != [] && AllDigits(s)
    ensures s[0] != '+'
  {
    if n < 10 then [DigitChar(n)] else Decimal(n / 10) + [DigitChar(n % 10)]
  }

  /** The digits of a number spell the number back. */
  lemma {:induction false} DecimalValue(n: nat)
    ensures DigitsValue(Decimal(n)) == n
  {
    if n >= 10 {
      var s := Decimal(n);
      assert s[..|s| - 1] == Decimal(n / 10);
      DecimalValue(n / 10);
    }
  }

  /** Every number up to 65535 parses back from its decimal text, with or without a leading `+`. */
  lemma ParseDecimal(n: nat)
    requires n <= U16_MAX
    ensures ParseU16(Decimal(n)) == Some(n)
    ensures ParseU16("+" + Decimal(n)) == Some(n)
  {
    DecimalValue(n);
    assert Unsigned("+" + Decimal(n)) == Decimal(n);
  }

  /** A number above 65535 does not parse. */
  lemma ParseRejectsOverflow(n: nat)
    requires n > U16_MAX
    ensures ParseU16(Decimal(n)) == None
  {
    DecimalValue(n);
  }

  /** The message for a text that is not a `u16`. */
  function NotANumber(s: string): string
  {
    "'" + s + "' is not a valid number"
  }

  const TOO_SMALL: string := "TTY number must be >= 1"

  /**
   * `validate_tty_number`: a text that is not a `u16` is rejected with a message
   * quoting it, 0 is rejected as too small, every other number is accepted as is.
   */
  function ValidateTtyNumber(s: string): (r: Result<nat, string>)
    ensures ParseU16(s).None? ==> r == Err(NotANumber(s))
    ensures ParseU16(s) == Some(0) ==> r == Err(TOO_SMALL)
    ensures r.Ok? <==> ParseU16(s).Some? && ParseU16(s).value >= 1
    ensures r.Ok? ==> 1 <= r.value <= U16_MAX && Some(r.value) == ParseU16(s)
  {
    match ParseU16(s)
    case None => Err(NotANumber(s))
    case Some(num) => if num < 1 then Err(TOO_SMALL) else Ok(num)
  }

  /** Exactly the numbers 1 to 65535 are accepted from their decimal text; 0 is too small. */
  lemma ValidateDecimal(n: nat)
    ensures 1 <= n <= U16_MAX ==> ValidateTtyNumber(Decimal(n)) == Ok(n)
    ensures n == 0 ==> ValidateTtyNumber(Decimal(n)) == Err(TOO_SMALL)
    ensures n > U16_MAX ==> ValidateTtyNumber(Decimal(n)) == Err(NotANumber(Decimal(n)))
  {
    DecimalValue(n);
  }

  /** The default, given to the parser as its text, is accepted as tty 1. */
  lemma DefaultTtyNumberIsValid()
    ensures ValidateTtyNumber(Decimal(DEFAULT_TTY_NUMBER)) == Ok(1)
  {
    ValidateDecimal(DEFAULT_TTY_NUMBER);
  }
}
