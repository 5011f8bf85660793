/**
 * The checks the payment form applies before it reports success: a
 * sixteen-digit card number (spaces allowed), an `MM/YY` expiry that is not
 * in the past, a three- or four-digit CVV and a non-empty cardholder name.
 * The clock is a parameter: `currentYear` is the full year and
 * `currentMonth` counts from 1.
 */
module Payment {
  import opened Text

  /** `/^\d{16}$/.test(num.replace(/\s+/g, ""))`. */
  function ValidateCardNumber(num: string): (r: bool)
    ensures r <==> |RemoveWhitespace(num)| == 16 && forall c :: c in num ==> IsWhitespace(c) || IsDigit(c)
  {
    var digits := RemoveWhitespace(num);
    assert AllDigits(digits) <==> forall c :: c in num ==> IsWhitespace(c) || IsDigit(c) by {
      if AllDigits(digits) {
        forall c | c in num && !IsWhitespace(c) ensures IsDigit(c) {
          assert c in digits;
        }
      }
    }
    |digits| == 16 && AllDigits(digits)
  }

  /** Whitespace anywhere in a card number is ignored: groups of four are accepted like one block. */
  lemma CardNumberSpacingIgnored(a: string, b: string, gap: string)
    requires AllWhitespace(gap)
    ensures ValidateCardNumber(a + gap + b) == ValidateCardNumber(a + b)
  {
    RemoveWhitespaceAppend(a + gap, b);
    RemoveWhitespaceAppend(a, gap);
    RemoveWhitespaceAppend(a, b);
    RemoveWhitespaceBlank(gap);
    assert RemoveWhitespace(a) + [] == RemoveWhitespace(a);
  }

  /** `/^\d{3,4}$/.test(num)`: no whitespace is stripped here. */
  function ValidateCVV(num: string): (r: bool)
    ensures r ==> forall c :: c in num ==> !IsWhitespace(c)
    ensures r <==> (|num| == 3 || |num| == 4) && AllDigits(num)
  {
    (|num| == 3 || |num| == 4) && AllDigits(num)
  }

  /** `/^\d{2}\/\d{2}$/`: two digits, a slash, two digits. */
  predicate ExpiryShape(exp: string) {
    |exp| == 5 && AllDigits(exp[..2]) && exp[2] == '/' && AllDigits(exp[3..])
  }

  /** The month field of a well-shaped expiry, as `Number` reads it. */
  function ExpiryMonth(exp: string): (m: nat)
    requires ExpiryShape(exp)
    ensures m == DigitValue(exp[0]) * 10 + DigitValue(exp[1]) && m <= 99
  {
    TwoDigits(exp[..2]);
    DecimalValue(exp[..2])
  }

  /** The two-digit year field of a well-shaped expiry. */
  function ExpiryYear(exp: string): (y: nat)
    requires ExpiryShape(exp)
    ensures y == DigitValue(exp[3]) * 10 + DigitValue(exp[4]) && y <= 99
  {
    TwoDigits(exp[3..]);
    DecimalValue(exp[3..])
  }

  /** Two decimal digits read as tens and units. */
  lemma TwoDigits(s: string)
    requires |s| == 2 && AllDigits(s)
    ensures DecimalValue(s) == DigitValue(s[0]) * 10 + DigitValue(s[1])
  {
    var tens := s[..1];
    assert tens[..0] == [] && tens[0] == s[0];
    assert DecimalValue(tens) == DigitValue(s[0]);
  }

  /**
   * `validateExpiry`: the shape, a month from 1 to 12, and a two-digit year
   * and month no earlier than the current ones.
   */
  function ValidateExpiry(exp: string, currentYear: nat, currentMonth: int): (r: bool)
    ensures r ==> ExpiryShape(exp) && 1 <= ExpiryMonth(exp) <= 12
    ensures r ==> ExpiryYear(exp) >= currentYear % 100
    ensures ExpiryShape(exp) && 1 <= ExpiryMonth(exp) <= 12 ==>
              (r <==> ExpiryYear(exp) > currentYear % 100
                      || (ExpiryYear(exp) == currentYear % 100 && ExpiryMonth(exp) >= currentMonth))
  {
    if !ExpiryShape(exp) then false
    else
      var mm := ExpiryMonth(exp);
      var yy := ExpiryYear(exp);
      if mm < 1 || mm > 12 then false
      else yy > currentYear % 100 || (yy == currentYear % 100 && mm >= currentMonth)
  }

  /**
   * Within one century, an expiry accepted at some month is accepted at
   * every earlier month too: validity only runs out as the clock advances.
   */
  lemma ExpiryValidEarlier(exp: string, year: nat, month: int, earlierYear: nat, earlierMonth: int)
    requires ValidateExpiry(exp, year, month)
    requires year / 100 == earlierYear / 100
    requires earlierYear < year || (earlierYear == year && earlierMonth <= month)
    ensures ValidateExpiry(exp, earlierYear, earlierMonth)
  {
  }

  /** An expiry in the current two-digit year is accepted up to and including its own month. */
  lemma ExpiryThisYear(exp: string, currentYear: nat, currentMonth: int)
    requires ExpiryShape(exp) && 1 <= ExpiryMonth(exp) <= 12
    requires ExpiryYear(exp) == currentYear % 100
    ensures ValidateExpiry(exp, currentYear, currentMonth) <==> currentMonth <= ExpiryMonth(exp)
  {
  }

  /** Concrete readings of the expiry check in June 2025. */
  lemma ExpiryExamples()
    ensures ValidateExpiry("06/25", 2025, 6)
    ensures !ValidateExpiry("05/25", 2025, 6)
    ensures ValidateExpiry("01/26", 2025, 6)
    ensures !ValidateExpiry("13/30", 2025, 6)
    ensures !ValidateExpiry("6/25", 2025, 6)
  {
    assert "06/25"[..2] == "06" && "06/25"[3..] == "25";
    assert "05/25"[..2] == "05" && "05/25"[3..] == "25";
    assert "01/26"[..2] == "01" && "01/26"[3..] == "26";
    assert "13/30"[..2] == "13" && "13/30"[3..] == "30";
  }

  /** `handlePayment`'s condition for reporting success. */
  function PaymentAccepted(name: string, cardNumber: string, expiry: string, cvv: string,
                           currentYear: nat, currentMonth: int): (r: bool)
    ensures r <==>
              && name != ""
              && |RemoveWhitespace(cardNumber)| == 16
              && (forall c :: c in cardNumber ==> IsWhitespace(c) || IsDigit(c))
              && ExpiryShape(expiry) && 1 <= ExpiryMonth(expiry) <= 12
              && (ExpiryYear(expiry) > currentYear % 100
                  || (ExpiryYear(expiry) == currentYear % 100 && ExpiryMonth(expiry) >= currentMonth))
              && (|cvv| == 3 || |cvv| == 4) && AllDigits(cvv)
  {
    name != "" && ValidateCardNumber(cardNumber) && ValidateExpiry(expiry, currentYear, currentMonth)
    && ValidateCVV(cvv)
  }

  /** A card number written as four space-separated groups of four digits passes. */
  lemma GroupedCardNumberValid(g1: string, g2: string, g3: string, g4: string)
    requires |g1| == 4 && |g2| == 4 && |g3| == 4 && |g4| == 4
    requires AllDigits(g1) && AllDigits(g2) && AllDigits(g3) && AllDigits(g4)
    ensures ValidateCardNumber(g1 + " " + g2 + " " + g3 + " " + g4)
  {
    var gap := " ";
    assert AllWhitespace(gap);
    CardNumberSpacingIgnored(g1 + gap + g2 + gap + g3, g4, gap);
    assert g1 + gap + g2 + gap + g3 + g4 == (g1 + gap + g2) + gap + (g3 + g4);
    CardNumberSpacingIgnored(g1 + gap + g2, g3 + g4, gap);
    assert g1 + gap + g2 + (g3 + g4) == g1 + gap + (g2 + g3 + g4);
    CardNumberSpacingIgnored(g1, g2 + g3 + g4, gap);
    var digits := g1 + (g2 + g3 + g4);
    assert AllDigits(digits) by {
      forall i | 0 <= i < |digits| ensures IsDigit(digits[i]) {
        if i < 4 {
          assert digits[i] == g1[i];
        } else if i < 8 {
          assert digits[i] == g2[i - 4];
        } else if i < 12 {
          assert digits[i] == g3[i - 8];
        } else {
          assert digits[i] == g4[i - 12];
        }
      }
    }
    RemoveWhitespaceNone(digits);
  }

  /** A spaced card number, a current expiry and a three-digit CVV are accepted. */
  lemma PaymentAcceptedExample(name: string, g1: string, g2: string, g3: string, g4: string, cvv: string)
    requires name != ""
    requires |g1| == 4 && |g2| == 4 && |g3| == 4 && |g4| == 4
    requires AllDigits(g1) && AllDigits(g2) && AllDigits(g3) && AllDigits(g4)
    requires |cvv| == 3 && AllDigits(cvv)
    ensures PaymentAccepted(name, g1 + " " + g2 + " " + g3 + " " + g4, "06/25", cvv, 2025, 6)
  {
    GroupedCardNumberValid(g1, g2, g3, g4);
    ExpiryExamples();
  }
}
