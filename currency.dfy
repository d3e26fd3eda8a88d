/** The linked "You send" / "They receive" fields of
    src/screens/SendMoneyCurrencyScreen.tsx (EUR to PKR at 287.46). An edit
    keeps only the digits and commas typed, and recomputes the other field
    unless the text is empty, "0,00", or not a number. */
module Currency {
  import opened Strings
  import opened Options
  import opened Seqs
  import opened Decimal

  const Rate: real := 287.46
  const ZeroText: string := "0,00"

  predicate DigitOrComma(c: char) { IsDigit(c) || c == ',' }

  predicate DigitsAndCommas(s: string)
  {
    forall i :: 0 <= i < |s| ==> DigitOrComma(s[i])
  }

  /** `text.replace(/[^0-9,]/g, '')` */
  function Sanitize(text: string): (r: string)
    ensures DigitsAndCommas(r)
    ensures |r| <= |text|
    ensures forall i :: 0 <= i < |text| && DigitOrComma(text[i]) ==> text[i] in r
  {
    Filter(text, DigitOrComma)
  }

  /** The sanitiser keeps the digits and commas in the order they were typed. */
  lemma SanitizeKeepsOrder(text: string)
    ensures IsSubsequence(Sanitize(text), text)
  {
    FilterIsSubsequence(text, DigitOrComma);
  }

  /** Sanitising twice is sanitising once. */
  lemma SanitizeIdempotent(text: string)
    ensures Sanitize(Sanitize(text)) == Sanitize(text)
  {
    FilterIdempotent(text, DigitOrComma);
  }

  /** A text that is already digits and commas passes unchanged. */
  lemma SanitizeClean(text: string)
    requires DigitsAndCommas(text)
    ensures Sanitize(text) == text
  {
    FilterKeepsAll(text, DigitOrComma);
  }

  /** The sanitiser keeps each digit and comma as many times as it was typed
      and drops every other character. */
  lemma SanitizeCounts(text: string)
    ensures forall c :: multiset(Sanitize(text))[c] == if DigitOrComma(c) then multiset(text)[c] else 0
  {
    FilterCounts(text, DigitOrComma);
  }

  /** The sanitiser works character by character: a concatenation is
      sanitised part by part, and one character is kept exactly when it is a
      digit or a comma. */
  lemma SanitizeAppend(a: string, b: string)
    ensures Sanitize(a + b) == Sanitize(a) + Sanitize(b)
  {
    FilterAppend(a, b, DigitOrComma);
  }

  lemma SanitizeChar(c: char)
    ensures Sanitize([c]) == if DigitOrComma(c) then [c] else []
  {
    FilterCons(c, [], DigitOrComma);
    assert [c] + [] == [c];
  }

  /** The index of the first comma of `s`, or `|s|` when there is none. */
  function FirstComma(s: string): (k: nat)
    ensures k <= |s|
    ensures forall j :: 0 <= j < k ==> s[j] != ','
    ensures k < |s| ==> s[k] == ','
  {
    if s == [] || s[0] == ',' then 0 else 1 + FirstComma(s[1..])
  }

  /** `s.replace(',', '.')`: the first comma becomes a point, nothing else changes. */
  function ReplaceFirstComma(s: string): (r: string)
    ensures |r| == |s|
    ensures forall i :: 0 <= i < |s| && i != FirstComma(s) ==> r[i] == s[i]
    ensures FirstComma(s) < |s| ==> r[FirstComma(s)] == '.'
  {
    var k := FirstComma(s);
    if k == |s| then s else s[..k] + "." + s[k + 1..]
  }

  /** The value the handler computes from the sanitised text, or None for NaN. */
  function NumberIn(formatted: string): (r: Option<real>)
    requires DigitsAndCommas(formatted)
    ensures r.Some? ==> r.value >= 0.0
  {
    var t := ReplaceFirstComma(formatted);
    assert NumericChars(t);
    ParseFloatPrefix(t)
  }

  /** A run of digits ends at the comma that follows it. */
  lemma {:induction false} FirstCommaAfterDigits(w: string, x: string)
    requires AllDigits(w) && (x == "" || x[0] == ',')
    ensures FirstComma(w + x) == |w|
    decreases |w|
  {
    if w != [] {
      assert (w + x)[1..] == w[1..] + x;
      FirstCommaAfterDigits(w[1..], x);
    } else {
      assert w + x == x;
    }
  }

  /** A sanitised text without a comma reads as the integer its digits spell. */
  lemma NumberInDigits(w: string)
    requires AllDigits(w)
    ensures DigitsAndCommas(w)
    ensures NumberIn(w) == if w == "" then None else Some(DigitsValue(w) as real)
  {
    FirstCommaAfterDigits(w, "");
    assert w + "" == w;
    if w != "" {
      ParseWhole(w, "");
    }
  }

  lemma DigitsAndCommasNumeric(s: string)
    requires DigitsAndCommas(s)
    ensures NumericChars(s)
  {
    forall i | 0 <= i < |s| ensures IsDigit(s[i]) || s[i] == '.' || s[i] == ',' {
      assert DigitOrComma(s[i]);
    }
  }

  /** Digits, a comma, then digits and commas: a sanitised text. */
  lemma DigitsCommaTail(whole: string, tail: string)
    requires AllDigits(whole) && DigitsAndCommas(tail)
    ensures DigitsAndCommas(whole + "," + tail)
  {
    var s := whole + "," + tail;
    forall i | 0 <= i < |s| ensures DigitOrComma(s[i]) {
      if i < |whole| {
        assert s[i] == whole[i];
      } else if i > |whole| {
        assert s[i] == tail[i - |whole| - 1];
      }
    }
  }

  /** After a run of digits, the first comma is the one that ends the run. */
  lemma ReplaceCommaAfterDigits(whole: string, tail: string)
    requires AllDigits(whole)
    ensures ReplaceFirstComma(whole + "," + tail) == whole + "." + tail
  {
    var s := whole + ("," + tail);
    assert whole + "," + tail == s;
    FirstCommaAfterDigits(whole, "," + tail);
    assert s[..|whole|] == whole && s[|whole| + 1..] == tail;
  }

  /** A sanitised text with a comma reads as the digits before the first
      comma plus the fraction the digits up to the second comma spell;
      everything from the second comma on is ignored. It is NaN only when
      both digit runs are empty. */
  lemma NumberInParts(whole: string, frac: string, rest: string)
    requires AllDigits(whole) && AllDigits(frac)
    requires DigitsAndCommas(rest) && (rest == "" || rest[0] == ',')
    ensures DigitsAndCommas(whole + "," + frac + rest)
    ensures NumberIn(whole + "," + frac + rest) ==
      if whole == "" && frac == "" then None
      else Some(DigitsValue(whole) as real + FracValue(frac))
  {
    DigitsAndCommasNumeric(rest);
    var tail := frac + rest;
    assert DigitsAndCommas(tail) by {
      forall i | 0 <= i < |tail| ensures DigitOrComma(tail[i]) {
        if i >= |frac| { assert tail[i] == rest[i - |frac|]; }
      }
    }
    DigitsCommaTail(whole, tail);
    ReplaceCommaAfterDigits(whole, tail);
    assert whole + "," + frac + rest == whole + "," + tail;
    assert whole + "." + tail == whole + "." + frac + rest;
    if whole == "" && frac == "" {
      assert whole + "." + tail == "." + rest;
    } else {
      ParseDecimal(whole, frac, rest);
    }
  }

  /** "12,5" is twelve and a half. */
  lemma NumberInTwelveAndAHalf()
    ensures NumberIn("12,5") == Some(12.5)
  {
    NumberInParts("12", "5", "");
    assert "12" + "," + "5" + "" == "12,5";
    assert DigitsValue("12") == 12;
    assert FracValue("5") == 0.5 by {
      assert "5"[1..] == "";
    }
  }

  /** In "1,2,3" the second comma ends the number: it reads as 1.2. */
  lemma NumberInStopsAtSecondComma()
    ensures NumberIn("1,2,3") == Some(1.2)
  {
    var s := "1" + "," + "2" + ",3";
    assert s == "1,2,3" by {
      assert |s| == 5 && s[0] == '1' && s[1] == ',' && s[2] == '2' && s[3] == ',' && s[4] == '3';
    }
    assert DigitsAndCommas(",3") by {
      assert ",3"[0] == ',' && ",3"[1] == '3';
    }
    NumberInParts("1", "2", ",3");
    assert DigitsValue("1") == 1 by {
      assert "1"[..0] == "";
    }
    assert FracValue("2") == 0.2 by {
      assert "2"[1..] == "" && DigitValue('2') == 2;
    }
  }

  /** The text is not a number exactly when it starts with a comma that is
      not followed by a digit (",", ",,5"). */
  lemma NotANumberIff(formatted: string)
    requires DigitsAndCommas(formatted) && formatted != ""
    ensures NumberIn(formatted).None? <==> formatted[0] == ',' && (|formatted| == 1 || formatted[1] == ',')
  {
    var t := ReplaceFirstComma(formatted);
    if formatted[0] == ',' {
      assert t == "." + formatted[1..];
    } else {
      assert t[0] == formatted[0];
    }
  }

  class CurrencyScreen {
    var sendAmount: string
    var receiveAmount: string

    constructor ()
      ensures sendAmount == ZeroText && receiveAmount == ZeroText
    {
      sendAmount := ZeroText;
      receiveAmount := ZeroText;
    }

    /** The "You send" field's `onChangeText`. `format` stands for
        `toFixed(2).replace('.', ',')`. */
    method EditSend(text: string, format: real -> string)
      modifies this
      ensures sendAmount == Sanitize(text)
      ensures Sanitize(text) == "" || Sanitize(text) == ZeroText ==> receiveAmount == ZeroText
      ensures Sanitize(text) != "" && Sanitize(text) != ZeroText ==>
        receiveAmount == match NumberIn(Sanitize(text))
                         case None => old(receiveAmount)
                         case Some(v) => format(v * Rate)
    {
      var formatted := Sanitize(text);
      sendAmount := formatted;
      if formatted != "" && formatted != ZeroText {
        var numValue := NumberIn(formatted);
        if numValue.Some? {
          receiveAmount := format(numValue.value * Rate);
        }
      } else {
        receiveAmount := ZeroText;
      }
    }

    /** The "They receive" field's `onChangeText`, converting back by division. */
    method EditReceive(text: string, format: real -> string)
      modifies this
      ensures receiveAmount == Sanitize(text)
      ensures Sanitize(text) == "" || Sanitize(text) == ZeroText ==> sendAmount == ZeroText
      ensures Sanitize(text) != "" && Sanitize(text) != ZeroText ==>
        sendAmount == match NumberIn(Sanitize(text))
                      case None => old(sendAmount)
                      case Some(v) => format(v / Rate)
    {
      var formatted := Sanitize(text);
      receiveAmount := formatted;
      if formatted != "" && formatted != ZeroText {
        var numValue := NumberIn(formatted);
        if numValue.Some? {
          sendAmount := format(numValue.value / Rate);
        }
      } else {
        sendAmount := ZeroText;
      }
    }
  }
}
