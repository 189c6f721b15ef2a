/**
 * Two-decimal fixed-point money, held as integer cents.
 *
 * Every money column of the app (`Product.price`, `Order.total_price`,
 * `Transaction.amount`) is a decimal with 10 digits of which 2 are decimals,
 * so a stored amount in cents lies strictly between -10^10 and 10^10.
 * The amount sent to the payment provider is the amount rendered with
 * exactly two decimals (Python's `f"{x:.2f}"` on a two-place decimal).
 */
module Money {
  import opened Wrappers

  /** Cents per currency unit: two decimal places. */
  const Scale: nat := 100

  /** 10 significant digits, 2 of them decimals: |cents| < 10^10. */
  const Limit: nat := 10_000_000_000

  /** Whether a value in cents fits a `max_digits=10, decimal_places=2` column. */
  predicate Fits(cents: int) {
    -(Limit as int) < cents < Limit
  }

  predicate IsDigit(c: char) {
    '0' <= c <= '9'
  }

  predicate AllDigits(s: string) {
    forall i :: 0 <= i < |s| ==> IsDigit(s[i])
  }

  function DigitChar(d: nat): (c: char)
    requires d < 10
    ensures IsDigit(c) && c as int - '0' as int == d
  {
    ('0' as int + d) as char
  }

  /** The decimal numeral of `n`, without leading zeros. */
  function Digits(n: nat): (s: string)
    ensures |s| >= 1 && AllDigits(s)
    ensures |s| > 1 ==> s[0] != '0'
    decreases n
  {
    if n < 10 then [DigitChar(n)] else Digits(n / 10) + [DigitChar(n % 10)]
  }

  /** The number a numeral denotes; the reading direction of `Digits`. */
  function DigitsValue(s: string): (n: nat)
    requires AllDigits(s)
    decreases |s|
  {
    if s == [] then 0
    else DigitsValue(s[..|s| - 1]) * 10 + (s[|s| - 1] as int - '0' as int)
  }

  lemma {:induction false} DigitsValueOfDigits(n: nat)
    ensures DigitsValue(Digits(n)) == n
    decreases n
  {
    if n >= 10 {
      var s := Digits(n);
      assert s[..|s| - 1] == Digits(n / 10);
      DigitsValueOfDigits(n / 10);
    }
  }

  function Abs(x: int): (a: nat)
    ensures a == x || a == -x
  {
    if x < 0 then -x else x
  }

  /** The integral part without leading zeros, a point and exactly two digits. */
  function FormatUnsigned(a: nat): (s: string)
    ensures |s| >= 4 && s[|s| - 3] == '.' && s[0] != '-'
    ensures IsDigit(s[|s| - 2]) && IsDigit(s[|s| - 1])
  {
    Digits(a / Scale) + "." + [DigitChar(a % Scale / 10), DigitChar(a % 10)]
  }

  /**
   * `f"{amount:.2f}"` for an amount of `cents` cents: a minus sign exactly
   * when negative, then the unsigned rendering of its magnitude.
   */
  function FormatAmount(cents: int): (s: string)
    ensures |s| >= 4 && s[|s| - 3] == '.'
    ensures IsDigit(s[|s| - 2]) && IsDigit(s[|s| - 1])
    ensures (s[0] == '-') <==> cents < 0
  {
    (if cents < 0 then "-" else "") + FormatUnsigned(Abs(cents))
  }

  /** Reads digits, a point and two digits back into cents. */
  function ParseUnsigned(s: string): (r: Option<nat>)
  {
    if |s| < 4 || s[|s| - 3] != '.' then None
    else
      var whole, fraction := s[..|s| - 3], s[|s| - 2..];
      if !AllDigits(whole) || !AllDigits(fraction) then None
      else Some(DigitsValue(whole) * Scale + DigitsValue(fraction))
  }

  /** Reads a numeral of the shape `FormatAmount` produces back into cents. */
  function ParseAmount(s: string): (r: Option<int>)
  {
    if |s| > 0 && s[0] == '-' then
      match ParseUnsigned(s[1..])
      case None => None
      case Some(a) => Some(-(a as int))
    else
      match ParseUnsigned(s)
      case None => None
      case Some(a) => Some(a as int)
  }

  /** The two digits after the point read back as the cents below one unit. */
  lemma TwoDigitsValue(c: nat)
    requires c < Scale
    ensures DigitsValue([DigitChar(c / 10), DigitChar(c % 10)]) == c
  {
    var f := [DigitChar(c / 10), DigitChar(c % 10)];
    assert f[..1] == [DigitChar(c / 10)];
    assert f[..1][..0] == [];
    assert DigitsValue(f[..1]) == c / 10;
    assert DigitsValue(f) == DigitsValue(f[..1]) * 10 + c % 10;
  }

  /** The unsigned rendering reads back as the same number. */
  lemma {:induction false} ParseFormatUnsigned(a: nat)
    ensures ParseUnsigned(FormatUnsigned(a)) == Some(a)
  {
    var s := FormatUnsigned(a);
    assert s[..|s| - 3] == Digits(a / Scale);
    assert s[|s| - 2..] == [DigitChar(a % Scale / 10), DigitChar(a % 10)];
    DigitsValueOfDigits(a / Scale);
    TwoDigitsValue(a % Scale);
  }

  /** The rendering loses nothing: the provider reads back exactly the stored cents. */
  lemma {:induction false} ParseFormatAmount(cents: int)
    ensures ParseAmount(FormatAmount(cents)) == Some(cents)
  {
    var u := FormatUnsigned(Abs(cents));
    ParseFormatUnsigned(Abs(cents));
    if cents < 0 {
      assert FormatAmount(cents)[1..] == u;
    } else {
      assert FormatAmount(cents) == u;
    }
  }
}
