/** JavaScript's `parseFloat` on the texts the screens feed it: strings made
    of decimal digits, '.' and ','. It reads the longest prefix of the form
    digits, optional '.', digits that holds at least one digit, and gives NaN
    (here `None`) when there is none. Values are exact reals. */
module Decimal {
  import opened Strings
  import opened Options

  /** The characters the screens' numeric texts are made of. */
  predicate NumericChars(s: string)
  {
    forall i :: 0 <= i < |s| ==> IsDigit(s[i]) || s[i] == '.' || s[i] == ','
  }

  /** The number of decimal digits `s` starts with. */
  function LeadingDigits(s: string): (n: nat)
    ensures n <= |s|
    ensures AllDigits(s[..n])
    ensures n < |s| ==> !IsDigit(s[n])
  {
    if s == [] || !IsDigit(s[0]) then 0
    else
      var m := LeadingDigits(s[1..]);
      assert s[..1 + m] == [s[0]] + s[1..][..m];
      1 + m
  }

  lemma AllDigitsLeading(s: string)
    requires AllDigits(s)
    ensures LeadingDigits(s) == |s|
  {
  }

  /** The digit scan stops at the first character that is not a digit. */
  lemma {:induction false} LeadingDigitsStop(s: string, i: nat)
    requires i < |s| && AllDigits(s[..i]) && !IsDigit(s[i])
    ensures LeadingDigits(s) == i
    decreases i
  {
    if i > 0 {
      assert s[..i][0] == s[0];
      assert s[1..][..i - 1] == s[..i][1..];
      LeadingDigitsStop(s[1..], i - 1);
    }
  }

  /** A run of digits followed by a non-digit (or by nothing) is read whole. */
  lemma LeadingDigitsOf(w: string, x: string)
    requires AllDigits(w) && (x == "" || !IsDigit(x[0]))
    ensures LeadingDigits(w + x) == |w|
  {
    assert (w + x)[..|w|] == w;
    if x == "" {
      assert w + x == w;
      AllDigitsLeading(w);
    } else {
      LeadingDigitsStop(w + x, |w|);
    }
  }

  /** The value of the digits after a decimal point: "25" is 0.25. */
  function FracValue(d: string): (v: real)
    requires AllDigits(d)
    ensures 0.0 <= v < 1.0
  {
    if d == [] then 0.0 else (DigitValue(d[0]) as real + FracValue(d[1..])) / 10.0
  }

  /** `parseFloat(s)` for `s` made of digits, '.' and ','. */
  function ParseFloatPrefix(s: string): (r: Option<real>)
    requires NumericChars(s)
    ensures r.Some? ==> r.value >= 0.0
    ensures r.None? <==> s == "" || (!IsDigit(s[0]) && !(s[0] == '.' && |s| > 1 && IsDigit(s[1])))
  {
    var a := LeadingDigits(s);
    var intPart := DigitsValue(s[..a]) as real;
    if a < |s| && s[a] == '.' then
      var rest := s[a + 1..];
      var b := LeadingDigits(rest);
      if a == 0 && b == 0 then None else Some(intPart + FracValue(rest[..b]))
    else if a == 0 then None
    else Some(intPart)
  }

  /** A text that starts with digits not followed by a point reads as the
      integer those digits spell; what follows them is ignored. */
  lemma ParseWhole(w: string, rest: string)
    requires AllDigits(w) && w != ""
    requires NumericChars(rest) && (rest == "" || (!IsDigit(rest[0]) && rest[0] != '.'))
    ensures NumericChars(w + rest)
    ensures ParseFloatPrefix(w + rest) == Some(DigitsValue(w) as real)
  {
    LeadingDigitsOf(w, rest);
    assert (w + rest)[..|w|] == w;
  }

  /** The value of a text whose leading digits are followed by a point. */
  lemma ParseAtPoint(s: string, w: string, f: string)
    requires NumericChars(s) && LeadingDigits(s) == |w| && s[..|w|] == w
    requires |w| < |s| && s[|w|] == '.'
    requires LeadingDigits(s[|w| + 1..]) == |f| && s[|w| + 1..][..|f|] == f
    requires w != "" || f != ""
    ensures AllDigits(f)
    ensures ParseFloatPrefix(s) == Some(DigitsValue(w) as real + FracValue(f))
  {
  }

  /** A text of the form digits, point, digits reads as the whole part plus
      the fraction the second run spells; what follows them is ignored. */
  lemma ParseDecimal(w: string, f: string, rest: string)
    requires AllDigits(w) && AllDigits(f) && (w != "" || f != "")
    requires NumericChars(rest) && (rest == "" || !IsDigit(rest[0]))
    ensures NumericChars(w + "." + f + rest)
    ensures ParseFloatPrefix(w + "." + f + rest) == Some(DigitsValue(w) as real + FracValue(f))
  {
    var tail := f + rest;
    var s := w + ("." + tail);
    assert w + "." + f + rest == s;
    assert NumericChars(tail) by {
      forall i | 0 <= i < |tail|
        ensures IsDigit(tail[i]) || tail[i] == '.' || tail[i] == ','
      {
        if i >= |f| { assert tail[i] == rest[i - |f|]; }
      }
    }
    assert NumericChars(s) by {
      forall i | 0 <= i < |s|
        ensures IsDigit(s[i]) || s[i] == '.' || s[i] == ','
      {
        if i > |w| { assert s[i] == tail[i - |w| - 1]; }
      }
    }
    LeadingDigitsOf(w, "." + tail);
    assert s[..|w|] == w;
    assert s[|w|] == '.';
    assert s[|w| + 1..] == tail;
    LeadingDigitsOf(f, rest);
    assert tail[..|f|] == f;
    ParseAtPoint(s, w, f);
  }
}
