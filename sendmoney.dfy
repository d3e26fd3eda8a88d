/** The four-step send-money wizard of src/screens/SendMoneyScreen.tsx:
    1 choose recipient, 2 amount and purpose, 3 review, 4 payment and send.
    Amounts are exact reals; the amount text is what the user typed. */
module SendMoney {
  import opened Strings
  import opened Options
  import opened Decimal
  import opened Api

  const ConversionRate: real := 82.9
  const MinimumFee: real := 1.99
  const FeeRate: real := 0.01

  /** The amount field's guard `/^\d*\.?\d{0,2}$/`, read as a scanner:
      leading digits, then either the end or a '.' followed by at most two
      digits. */
  predicate AmountPattern(s: string)
  {
    var n := LeadingDigits(s);
    n == |s| || (s[n] == '.' && |s| - n - 1 <= 2 && AllDigits(s[n + 1..]))
  }

  /** The regular expression read literally: digits, or digits '.' digits
      with at most two digits after the point. */
  ghost predicate MatchesAmountRegex(s: string)
  {
    AllDigits(s) ||
    exists i :: 0 <= i < |s| && s[i] == '.' && AllDigits(s[..i]) && AllDigits(s[i + 1..]) && |s| - i - 1 <= 2
  }

  /** The scanner accepts exactly the strings the regular expression matches. */
  lemma AmountPatternIsRegex(s: string)
    ensures AmountPattern(s) <==> MatchesAmountRegex(s)
  {
    var n := LeadingDigits(s);
    if AmountPattern(s) && n < |s| {
      assert 0 <= n < |s| && s[n] == '.' && AllDigits(s[..n]) && AllDigits(s[n + 1..]) && |s| - n - 1 <= 2;
    }
    if MatchesAmountRegex(s) {
      if AllDigits(s) {
        AllDigitsLeading(s);
      } else {
        var i :| 0 <= i < |s| && s[i] == '.' && AllDigits(s[..i]) && AllDigits(s[i + 1..]) && |s| - i - 1 <= 2;
        LeadingDigitsStop(s, i);
      }
    }
  }

  lemma AmountPatternNumeric(s: string)
    requires AmountPattern(s)
    ensures NumericChars(s)
  {
    var n := LeadingDigits(s);
    forall i | 0 <= i < |s|
      ensures IsDigit(s[i]) || s[i] == '.' || s[i] == ','
    {
      if i < n {
        assert s[..n][i] == s[i];
      } else if i > n {
        assert s[n + 1..][i - n - 1] == s[i];
      }
    }
  }

  /** The amount in cents that an accepted text denotes, read digit by digit:
      the whole part times 100 plus the (zero-padded) two decimals. */
  function AmountCents(s: string): nat
    requires AmountPattern(s)
  {
    var n := LeadingDigits(s);
    var whole := DigitsValue(s[..n]) * 100;
    if n == |s| then whole
    else
      var frac := s[n + 1..];
      if |frac| == 0 then whole
      else if |frac| == 1 then whole + DigitValue(frac[0]) * 10
      else whole + DigitValue(frac[0]) * 10 + DigitValue(frac[1])
  }

  /** `parsedAmount`: `parseFloat(amount)`, 0 when that is not finite,
      and never below 0. */
  function ParsedAmount(text: string): (r: real)
    requires NumericChars(text)
    ensures r >= 0.0
    ensures ParseFloatPrefix(text).None? ==> r == 0.0
  {
    match ParseFloatPrefix(text)
    case None => 0.0
    case Some(v) => if v > 0.0 then v else 0.0
  }

  /** Every text the amount guard accepts parses to a whole number of cents. */
  lemma ParsedAmountIsCents(s: string)
    requires AmountPattern(s)
    ensures NumericChars(s)
    ensures ParsedAmount(s) == AmountCents(s) as real / 100.0
  {
    AmountPatternNumeric(s);
    var n := LeadingDigits(s);
    var whole := DigitsValue(s[..n]) as real;
    if n < |s| {
      var rest := s[n + 1..];
      AllDigitsLeading(rest);
      assert rest[..|rest|] == rest;
      var v := whole + FracValue(rest);
      assert ParseFloatPrefix(s) == if n == 0 && |rest| == 0 then None else Some(v);
      if |rest| == 0 {
        assert v == whole;
      } else if |rest| == 1 {
        assert FracValue(rest[1..]) == 0.0;
        assert v == whole + DigitValue(rest[0]) as real / 10.0;
      } else {
        assert FracValue(rest[2..]) == 0.0;
        assert rest[1..][1..] == rest[2..];
        assert FracValue(rest[1..]) == DigitValue(rest[1]) as real / 10.0;
        assert v == whole + DigitValue(rest[0]) as real / 10.0 + DigitValue(rest[1]) as real / 100.0;
      }
    } else {
      assert ParseFloatPrefix(s) == if n == 0 then None else Some(whole);
    }
  }

  /** The examples "" and "." are not numbers and count as 0. */
  lemma EmptyOrPointIsZero()
    ensures AmountPattern("") && ParsedAmount("") == 0.0
    ensures AmountPattern(".") && ParsedAmount(".") == 0.0
  {
    assert LeadingDigits(".") == 0;
    assert LeadingDigits(".."[1..]) == 0;
  }

  /** `fee`: nothing on a zero amount, otherwise 1% with a 1.99 minimum. */
  function Fee(p: real): (r: real)
    ensures p == 0.0 ==> r == 0.0
    ensures p != 0.0 ==> r >= MinimumFee && r >= p * FeeRate
    ensures p != 0.0 && p <= 199.0 ==> r == MinimumFee
    ensures p >= 199.0 ==> r == p * FeeRate
  {
    if p == 0.0 then 0.0
    else if MinimumFee >= p * FeeRate then MinimumFee else p * FeeRate
  }

  /** `convertedAmount`: the amount in the destination currency. */
  function ConvertedAmount(p: real): real
  {
    p * ConversionRate
  }

  /** `convertedNet`: what the recipient gets after the fee, never negative. */
  function ConvertedNet(p: real): (r: real)
    requires p >= 0.0
    ensures 0.0 <= r <= ConvertedAmount(p)
    ensures 0.0 < p <= MinimumFee ==> r == 0.0
    ensures MinimumFee < p ==> r > 0.0
    ensures p >= 199.0 ==> r == ConvertedAmount(p) * 0.99
  {
    var net := ConvertedAmount(p) - Fee(p) * ConversionRate;
    if net > 0.0 then net else 0.0
  }

  /** The worked example: sending "250" at 82.9. */
  lemma SendTwoHundredFifty()
    ensures AmountPattern("250") && NumericChars("250")
    ensures ParsedAmount("250") == 250.0
    ensures ConvertedAmount(250.0) == 20725.0
    ensures Fee(250.0) == 2.5
    ensures ConvertedNet(250.0) == 20517.75
  {
    assert LeadingDigits("250") == 3 by {
      assert LeadingDigits("250"[1..][1..][1..]) == 0;
    }
    AllDigitsLeading("250");
    assert "250"[..3] == "250";
    assert DigitsValue("250") == 250 by {
      assert "250"[..2] == "25";
      assert "25"[..1] == "2";
      assert "2"[..0] == "";
    }
    ParsedAmountIsCents("250");
  }

  class Wizard {
    var step: int
    var selectedRecipient: Option<Recipient>
    var recipients: seq<Recipient>
    var amount: string
    var purpose: string
    var loading: bool
    /** The requests handed to `sendMoneyAPI.sendMoney`, oldest first. */
    var requests: seq<SendMoneyRequest>

    /** The amount the screen computes from the text in the field. */
    function Amount(): (r: real)
      reads this
      requires AmountPattern(amount)
      ensures r == AmountCents(amount) as real / 100.0
    {
      ParsedAmountIsCents(amount);
      ParsedAmount(amount)
    }

    /** The guard of `handleSend` (and, without the recipient, of Review). */
    predicate ReadyToSend()
      reads this
      requires AmountPattern(amount)
    {
      selectedRecipient.Some? && Amount() != 0.0 && purpose != ""
    }

    /** The step is one of the four screens; the amount text always passed the
        guard; any step past the first has a recipient, and any step past the
        second has a positive amount and a purpose. */
    ghost predicate Valid()
      reads this
    {
      && 1 <= step <= 4
      && AmountPattern(amount)
      && !loading
      && (step >= 2 ==> selectedRecipient.Some?)
      && (step >= 3 ==> ReadyToSend())
    }

    constructor ()
      ensures Valid()
      ensures step == 1 && selectedRecipient == None && recipients == []
      ensures amount == "250" && purpose == "" && !loading && requests == []
    {
      step := 1;
      selectedRecipient := None;
      recipients := [];
      amount := "250";
      purpose := "";
      loading := false;
      requests := [];
      assert LeadingDigits("250") == 3 by {
        assert LeadingDigits("250"[1..][1..][1..]) == 0;
      }
    }

    /** `loadRecipients`, run when the screen mounts. */
    method LoadRecipients()
      modifies this`recipients
      requires Valid()
      ensures Valid()
      ensures recipients == GetRecipients()
    {
      recipients := GetRecipients();
    }

    /** Pressing a recipient row on step 1. */
    method SelectRecipient(r: Recipient)
      modifies this`selectedRecipient
      requires Valid() && step == 1 && r in recipients
      ensures Valid()
      ensures selectedRecipient == Some(r)
    {
      selectedRecipient := Some(r);
    }

    /** Continue on step 1; the button is disabled while no recipient is chosen. */
    method Continue()
      modifies this`step
      requires Valid() && step == 1
      ensures Valid()
      ensures step == if selectedRecipient.Some? then 2 else 1
    {
      if selectedRecipient.Some? {
        step := 2;
      }
    }

    /** The amount field's `onChangeText`: the text is kept only if it matches the guard. */
    method EditAmount(text: string)
      modifies this`amount
      requires Valid() && step == 2
      ensures Valid()
      ensures amount == if AmountPattern(text) then text else old(amount)
    {
      if AmountPattern(text) {
        amount := text;
      }
    }

    /** The purpose field's `onChangeText`. */
    method EditPurpose(text: string)
      modifies this`purpose
      requires Valid() && step == 2
      ensures Valid()
      ensures purpose == text
    {
      purpose := text;
    }

    /** Review on step 2; disabled while the amount is 0 or the purpose empty. */
    method Review()
      modifies this`step
      requires Valid() && step == 2
      ensures Valid()
      ensures step == if Amount() != 0.0 && purpose != "" then 3 else 2
    {
      if Amount() != 0.0 && purpose != "" {
        step := 3;
      }
    }

    /** "Continue to payment" on step 3, always enabled. */
    method ContinueToPayment()
      modifies this`step
      requires Valid() && step == 3
      ensures Valid()
      ensures step == 4
    {
      step := 4;
    }

    /** Back on steps 2, 3 and 4: one step back, nothing entered is lost. */
    method Back()
      modifies this`step
      requires Valid() && 2 <= step <= 4
      ensures Valid()
      ensures step == old(step) - 1
    {
      step := step - 1;
    }

    /** `handleSend` on step 4: when the guard holds, one `sendMoney` call
        with the recipient's id, the parsed amount, "USD" and the purpose;
        `loading` is set for the call and cleared after it whether the call
        resolves or is rejected (`rejected`; the mock service never is).
        `now` stands for the clock the mock service reads. */
    method HandleSend(now: nat, rejected: bool) returns (result: Option<SendMoneyResult>)
      modifies this`loading, this`requests
      requires Valid() && step == 4
      ensures Valid()
      ensures old(ReadyToSend())
      ensures requests == old(requests) +
        [SendMoneyRequest(selectedRecipient.value.id, Amount(), "USD", purpose)]
      ensures rejected ==> result == None
      ensures !rejected ==>
        result.Some? && result.value.success && result.value == SendMoney(requests[|requests| - 1], now)
    {
      if selectedRecipient.None? || Amount() == 0.0 || purpose == "" {
        result := None;
        return;
      }
      loading := true;
      var request := SendMoneyRequest(selectedRecipient.value.id, Amount(), "USD", purpose);
      requests := requests + [request];
      if rejected {
        result := None;
      } else {
        result := Some(SendMoney(request, now));
      }
      loading := false;
    }
  }
}
