/** Display strings for prices and allowances, `src/utils/priceUtils.ts`. Prices are whole
    cents. */
module PriceFormat {
  import opened Wrappers
  import opened Text

  function Abs(c: int): nat { if c < 0 then -c else c }

  function SignText(c: int): string { if c < 0 then "-" else "" }

  /** `formatPrice`: 'Free' for zero, otherwise the amount in whole dollars. `toFixed(0)`
      rounds the magnitude to the nearest dollar with halves going up, and keeps the sign
      (so -30 cents is "$-0"). */
  function FormatPrice(priceInCents: int): (s: string)
    ensures priceInCents == 0 ==> s == "Free"
    ensures priceInCents != 0 ==> StartsWith(s, "$")
  {
    if priceInCents == 0 then "Free"
    else
      var r := "$" + SignText(priceInCents) + NatToString((Abs(priceInCents) + 50) / 100);
      assert r[..1] == "$";
      r
  }

  /** Two digits, with a leading zero below ten. */
  function TwoDigits(d: nat): (s: string)
    requires d < 100
    ensures |s| == 2 && AllDigits(s) && DigitsValue(s) == d
  {
    NatToStringDenotes(d);
    if d < 10 then
      assert DigitsValue("0" + NatToString(d)) == d by {
        assert NatToString(d) == [DigitChar(d)];
        DigitCharValue(d);
        assert ("0" + NatToString(d))[..1] == "0";
      }
      "0" + NatToString(d)
    else
      NatToStringDenotes(d / 10);
      assert NatToString(d) == [DigitChar(d / 10)] + [DigitChar(d % 10)];
      NatToString(d)
  }

  /** `formatPriceDecimal`: 'Free' for zero, otherwise dollars and two-digit cents. */
  function FormatPriceDecimal(priceInCents: int): (s: string)
    ensures priceInCents == 0 ==> s == "Free"
    ensures priceInCents != 0 ==> StartsWith(s, "$")
  {
    if priceInCents == 0 then "Free"
    else
      var a := Abs(priceInCents);
      var r := "$" + SignText(priceInCents) + NatToString(a / 100) + "." + TwoDigits(a % 100);
      assert r[..1] == "$";
      r
  }

  /** The decimal form spells out the exact amount: the digits before and after the point
      denote the dollars and the cents of the price. */
  lemma PriceDecimalDenotesAmount(priceInCents: int)
    requires priceInCents > 0
    ensures exists dollars: string, cents: string ::
      && FormatPriceDecimal(priceInCents) == "$" + dollars + "." + cents
      && AllDigits(dollars) && AllDigits(cents) && |cents| == 2
      && DigitsValue(dollars) * 100 + DigitsValue(cents) == priceInCents
  {
    var d := priceInCents / 100;
    var c := priceInCents % 100;
    var dollars := NatToString(d);
    var cents := TwoDigits(c);
    NatToStringDenotes(d);
    assert Abs(priceInCents) == priceInCents && SignText(priceInCents) == "";
    assert FormatPriceDecimal(priceInCents) == "$" + dollars + "." + cents by {
      assert "$" + SignText(priceInCents) == "$";
    }
    assert DigitsValue(dollars) == d && DigitsValue(cents) == c;
    assert d * 100 + c == priceInCents;
  }

  /** The whole-dollar form is the nearest dollar amount, a half rounding up. */
  lemma PriceRoundsToNearestDollar(priceInCents: int)
    requires priceInCents > 0
    ensures exists dollars: string ::
      && FormatPrice(priceInCents) == "$" + dollars
      && AllDigits(dollars)
      && DigitsValue(dollars) * 100 - 50 <= priceInCents < DigitsValue(dollars) * 100 + 50
  {
    var n := (priceInCents + 50) / 100;
    var dollars := NatToString(n);
    NatToStringDenotes(n);
    assert FormatPrice(priceInCents) == "$" + dollars;
  }

  /** The plan prices as the pricing page shows them. */
  lemma PlanPriceTexts()
    ensures FormatPrice(900) == "$9" && FormatPrice(2900) == "$29"
    ensures FormatPriceDecimal(900) == "$9.00" && FormatPriceDecimal(2900) == "$29.00"
  {
    assert NatToString(9) == "9";
    assert NatToString(2) == "2";
    assert NatToString(29) == NatToString(2) + [DigitChar(9)] == "29";
    assert NatToString(0) == "0";
    assert TwoDigits(0) == "0" + NatToString(0) == "00";
  }

  /** `formatReceiptLimit`: 'Unlimited' for -1, otherwise the number. */
  function FormatReceiptLimit(limit: int): (s: string)
    ensures limit == -1 ==> s == "Unlimited"
    ensures limit != -1 ==> ParseInt(s) == Some(limit)
  {
    if limit == -1 then "Unlimited"
    else
      ParseIntOfIntToString(limit);
      IntToString(limit)
  }

  /** The unlimited label is not a number, so it cannot be mistaken for any allowance. */
  lemma UnlimitedIsNotANumber()
    ensures ParseInt(FormatReceiptLimit(-1)).None?
  {
    assert !IsSpace('U') && !IsDigit('U');
  }
}
