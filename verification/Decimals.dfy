/** Whole numbers as JavaScript prints them, and digits read back. */
module Decimals {
  predicate IsDigit(c: char) {
    '0' <= c <= '9'
  }

  predicate AllDigits(text: string) {
    forall i :: 0 <= i < |text| ==> IsDigit(text[i])
  }

  /** Digits without a needless leading zero: `0`, or digits that start with another one. */
  predicate IsCanonical(text: string) {
    text != "" && AllDigits(text) && (text[0] != '0' || |text| == 1)
  }

  function ToDecimal(n: nat): string {
    if n < 10 then ['0' + n as char] else ToDecimal(n / 10) + ['0' + (n % 10) as char]
  }

  function FromDigits(text: string): nat
    requires AllDigits(text)
  {
    if text == "" then 0 else FromDigits(text[..|text| - 1]) * 10 + (text[|text| - 1] - '0') as nat
  }

  /** A printed number is canonical and reads back as itself. */
  lemma {:induction false} PrintedReadsBack(n: nat)
    ensures IsCanonical(ToDecimal(n)) && FromDigits(ToDecimal(n)) == n
    ensures n > 0 ==> ToDecimal(n)[0] != '0'
  {
    if n >= 10 {
      PrintedReadsBack(n / 10);
      assert ToDecimal(n)[..|ToDecimal(n)| - 1] == ToDecimal(n / 10);
    }
  }

  /** Canonical digits are what their own number prints as. */
  lemma {:induction false} CanonicalPrintsBack(text: string)
    requires IsCanonical(text)
    ensures ToDecimal(FromDigits(text)) == text
    ensures text != "0" ==> FromDigits(text) > 0
  {
    hide ToDecimal;
    var front, last := text[..|text| - 1], text[|text| - 1];
    if |text| > 1 {
      assert front[0] == text[0];
      CanonicalPrintsBack(front);
      DigitBehind(FromDigits(front), last);
      assert text == front + [last];
    } else {
      assert FromDigits(front) == 0;
      DigitAlone(last);
      assert text == [last];
    }
  }

  lemma DigitAlone(digit: char)
    requires IsDigit(digit)
    ensures ToDecimal((digit - '0') as nat) == [digit] && (digit != '0' ==> (digit - '0') as nat > 0)
  {
  }

  lemma DigitBehind(n: nat, digit: char)
    requires n > 0 && IsDigit(digit)
    ensures ToDecimal(n * 10 + (digit - '0') as nat) == ToDecimal(n) + [digit]
  {
    var d := (digit - '0') as nat;
    assert (n * 10 + d) / 10 == n && (n * 10 + d) % 10 == d;
  }
}
