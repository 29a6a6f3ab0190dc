/** Reading an engine score given as text, as JavaScript's `Number` reads an
    optionally negative decimal numeral; any other text reads as NaN. */
module Numerals {
  import opened Rules

  predicate IsDigit(c: char)
  {
    '0' <= c <= '9'
  }

  predicate AllDigits(s: string)
  {
    forall i :: 0 <= i < |s| ==> IsDigit(s[i])
  }

  function DigitsValue(s: string): nat
    requires AllDigits(s)
  {
    if |s| == 0 then 0 else DigitsValue(s[..|s| - 1]) * 10 + (s[|s| - 1] as int - '0' as int)
  }

  /** `Number(text)` for a numeral: `None` stands for NaN. The empty text is
      never read (it is falsy and skipped before), so it is NaN here too. */
  function ParseInteger(text: string): (r: Option<int>)
    ensures r.Some? ==> |text| > 0 && (text[0] == '-' || IsDigit(text[0]))
    ensures r.Some? && r.value < 0 ==> text[0] == '-'
  {
    if |text| > 1 && text[0] == '-' && AllDigits(text[1..]) then Some(0 - DigitsValue(text[1..]) as int)
    else if |text| > 0 && AllDigits(text) then Some(DigitsValue(text))
    else None
  }

  /** The decimal digits of a natural number. */
  function NaturalText(n: nat): (s: string)
    ensures |s| > 0 && AllDigits(s)
  {
    if n < 10 then [('0' as int + n) as char]
    else NaturalText(n / 10) + [('0' as int + n % 10) as char]
  }

  /** The decimal numeral of an integer, with a leading '-' when negative:
      the way a search engine reports a centipawn score. */
  function IntegerText(n: int): string
  {
    if n < 0 then "-" + NaturalText(-n) else NaturalText(n)
  }

  lemma {:induction false} NaturalTextValue(n: nat)
    ensures DigitsValue(NaturalText(n)) == n
  {
    var s := NaturalText(n);
    if n >= 10 {
      NaturalTextValue(n / 10);
      assert s[..|s| - 1] == NaturalText(n / 10);
    }
  }

  /** Every score the engine can report as a numeral reads back as itself. */
  lemma ParseIntegerText(n: int)
    ensures ParseInteger(IntegerText(n)) == Some(n)
  {
    var s := IntegerText(n);
    if n < 0 {
      NaturalTextValue(-n);
      assert s[1..] == NaturalText(-n);
    } else {
      NaturalTextValue(n);
      if |s| > 1 {
        assert IsDigit(s[0]);
      }
    }
  }
}
