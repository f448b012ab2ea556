/** The pure helpers of the doctor card: number extraction and image-source validation. */
module DoctorCard {
  import opened Text
  import opened Wrappers

  /** The longest prefix of `s` made of decimal digits. */
  function DigitPrefix(s: string): (r: string)
    ensures r <= s && AllDigits(r)
    ensures |r| < |s| ==> !IsDigit(s[|r|])
  {
    if s != [] && IsDigit(s[0]) then [s[0]] + DigitPrefix(s[1..]) else []
  }

  /**
   * The text matched by the regular expression `/\d+/`: the leftmost maximal
   * run of digits, or the empty string when `s` has no digit (no match).
   */
  function FirstDigitRun(s: string): (run: string)
    ensures AllDigits(run)
  {
    if s == [] then []
    else if IsDigit(s[0]) then DigitPrefix(s)
    else FirstDigitRun(s[1..])
  }

  /**
   * `extractNumber`: `parseInt` of the first digit run, or 0 when there is none.
   * The source defines this helper twice, identically, in the card and in the list.
   */
  function ExtractNumber(s: string): nat
  {
    var run := FirstDigitRun(s);
    if run == [] then 0 else DigitsValue(run)
  }

  /** A string with no digit extracts as 0: it is never treated as missing. */
  lemma {:induction false} ExtractNumberNoDigit(s: string)
    requires NoDigit(s)
    ensures ExtractNumber(s) == 0
  {
    NoDigitHasNoRun(s);
  }

  lemma {:induction false} NoDigitHasNoRun(s: string)
    requires NoDigit(s)
    ensures FirstDigitRun(s) == []
  {
    if s != [] {
      assert !IsDigit(s[0]);
      NoDigitHasNoRun(s[1..]);
    }
  }

  /** The digit prefix of a maximal run followed by anything but a digit is that run. */
  lemma {:induction false} DigitPrefixOfRun(run: string, rest: string)
    requires AllDigits(run)
    requires rest == [] || !IsDigit(rest[0])
    ensures DigitPrefix(run + rest) == run
  {
    if run == [] {
      assert run + rest == rest;
    } else {
      assert (run + rest)[1..] == run[1..] + rest;
      DigitPrefixOfRun(run[1..], rest);
    }
  }

  /**
   * Whatever precedes the first digit is skipped, and the first maximal digit
   * run decides the result: `pre + run + rest` extracts as `run`'s value.
   */
  lemma {:induction false} ExtractNumberFirstRun(pre: string, run: string, rest: string)
    requires NoDigit(pre)
    requires run != [] && AllDigits(run)
    requires rest == [] || !IsDigit(rest[0])
    ensures FirstDigitRun(pre + run + rest) == run
    ensures ExtractNumber(pre + run + rest) == DigitsValue(run)
  {
    if pre == [] {
      assert pre + run + rest == run + rest;
      DigitPrefixOfRun(run, rest);
    } else {
      assert (pre + run + rest)[1..] == pre[1..] + run + rest;
      assert !IsDigit(pre[0]);
      ExtractNumberFirstRun(pre[1..], run, rest);
    }
  }

  /** Characters after the first digit run do not change the result. */
  lemma ExtractNumberIgnoresTail(pre: string, run: string, rest1: string, rest2: string)
    requires NoDigit(pre)
    requires run != [] && AllDigits(run)
    requires rest1 == [] || !IsDigit(rest1[0])
    requires rest2 == [] || !IsDigit(rest2[0])
    ensures ExtractNumber(pre + run + rest1) == ExtractNumber(pre + run + rest2)
  {
    ExtractNumberFirstRun(pre, run, rest1);
    ExtractNumberFirstRun(pre, run, rest2);
  }

  /** The first example of the helper's comment: "₹ 500" gives 500. */
  lemma ExtractNumberExampleFees()
    ensures ExtractNumber("\U{20B9} 500") == 500
  {
    assert DigitsValue("500") == 500 by {
      assert "500"[..2] == "50" && "50"[..1] == "5" && "5"[..0] == "";
    }
    ExtractNumberFirstRun("\U{20B9} ", "500", "");
    assert "\U{20B9} " + "500" + "" == "\U{20B9} 500";
  }

  /** The second example of the helper's comment: "13 Years of experience" gives 13. */
  lemma ExtractNumberExampleYears()
    ensures ExtractNumber("13 Years of experience") == 13
  {
    var rest := " Years of experience";
    assert DigitsValue("13") == 13 by {
      assert "13"[..1] == "1" && "1"[..0] == "";
    }
    assert !IsDigit(rest[0]);
    ExtractNumberFirstRun("", "13", rest);
    assert "" + "13" + rest == "13 Years of experience";
  }

  /** "₹ 100" gives 100. */
  lemma ExtractNumberExampleHundred()
    ensures ExtractNumber("\U{20B9} 100") == 100
  {
    assert DigitsValue("100") == 100 by {
      assert "100"[..2] == "10" && "10"[..1] == "1" && "1"[..0] == "";
    }
    ExtractNumberFirstRun("\U{20B9} ", "100", "");
    assert "\U{20B9} " + "100" + "" == "\U{20B9} 100";
  }

  /** "₹ no-digits" gives 0. */
  lemma ExtractNumberExampleNoDigits()
    ensures ExtractNumber("\U{20B9} no-digits") == 0
  {
    var s := "\U{20B9} no-digits";
    assert NoDigit(s) by {
      forall i | 0 <= i < |s| ensures !IsDigit(s[i]) {
      }
    }
    ExtractNumberNoDigit(s);
  }

  /** The image shown when the record's photo URL is unusable. */
  const Placeholder: string := "/placeholder-doctor.png"

  /**
   * `getSafeImageSrc`: the photo URL itself when it is a string, not blank
   * after trimming, and starts with "http"; otherwise the placeholder.
   * `None` stands for null or undefined.
   */
  function GetSafeImageSrc(photoUrl: Option<string>): (src: string)
    ensures src == Placeholder || (photoUrl.Some? && src == photoUrl.value)
  {
    if photoUrl.Some? && Trim(photoUrl.value) != "" && StartsWith(photoUrl.value, "http")
    then photoUrl.value
    else Placeholder
  }

  /**
   * The blank test is subsumed by the "http" test: the source is returned
   * exactly when it is present and starts with "http", and null, undefined,
   * empty, blank and non-http input all give the placeholder.
   */
  lemma SafeImageSrcIsHttpTest(photoUrl: Option<string>)
    ensures GetSafeImageSrc(photoUrl) ==
            if photoUrl.Some? && StartsWith(photoUrl.value, "http") then photoUrl.value else Placeholder
  {
    if photoUrl.Some? && StartsWith(photoUrl.value, "http") {
      var s := photoUrl.value;
      TrimEmptyIffBlank(s);
      assert !IsSpace(s[0]);
    }
  }
}
