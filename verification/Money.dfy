/** Amounts of money, held as whole cents. */
module Money {
  import opened Prelude
  import opened Texts

  /** The largest amount a Numeric(12, 2) column and a 12-digit response field can hold, in cents. */
  const MAX_AMOUNT: nat := 999_999_999_999

  function FormatAmount(cents: nat): string {
    NatText(cents / 100) + "." + [DigitChar(cents / 10 % 10), DigitChar(cents % 10)]
  }

  function ParseAmount(s: string): Option<nat> {
    if |s| >= 4 && s[|s| - 3] == '.' && AllDigits(s[..|s| - 3]) && AllDigits(s[|s| - 2..]) then
      Some(100 * NatValue(s[..|s| - 3]) + 10 * DigitValue(s[|s| - 2]) + DigitValue(s[|s| - 1]))
    else None
  }

  /** The text is exact: two places, and the cents come back from it. */
  lemma AmountReadsBack(cents: nat)
    ensures ParseAmount(FormatAmount(cents)) == Some(cents)
  {
    var s := FormatAmount(cents);
    NatTextReadsBack(cents / 100);
    assert s[..|s| - 3] == NatText(cents / 100);
    assert s[|s| - 2..] == [DigitChar(cents / 10 % 10), DigitChar(cents % 10)];
    assert cents / 10 / 10 == cents / 100;
  }
}
