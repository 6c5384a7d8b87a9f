/** The text of an integer is a numeral that reads as that integer. */
module Numerals {
  import opened Wrappers
  import opened Syntax
  import opened Values

  lemma DecimalStep(s: string, d: nat)
    requires AllDigits(s) && d < 10
    ensures var t := s + [(d + '0' as int) as char]; AllDigits(t) && Decimal(t) == 10 * Decimal(s) + d
  {
    var t := s + [(d + '0' as int) as char];
    assert t[..|t| - 1] == s;
  }

  lemma {:induction false} DigitsReadBack(n: nat)
    ensures Digits(n) != "" && AllDigits(Digits(n)) && Decimal(Digits(n)) == n
  {
    var more := if n < 10 then "" else Digits(n / 10);
    if n >= 10 { DigitsReadBack(n / 10); }
    DecimalStep(more, n % 10);
    assert Digits(n) == more + [(n % 10 + '0' as int) as char];
    hide Digits, Decimal, AllDigits;
  }

  lemma {:induction false} NoDot(s: string)
    requires AllDigits(s)
    ensures DotIndex(s) == |s|
  {
    if s != "" {
      assert forall i :: 0 <= i < |s[1..]| ==> s[1..][i] == s[i + 1];
      NoDot(s[1..]);
    }
  }

  lemma DigitsAreRead(s: string)
    requires s != "" && AllDigits(s)
    ensures ReadUnsigned(s) == Some(Int(Decimal(s)))
  {
    NoDot(s);
    hide Decimal, DotIndex;
  }

  lemma DigitsAreNumeral(s: string)
    requires s != "" && AllDigits(s)
    ensures IsNumeral(s) && s[0] != '-'
  {
    assert '0' <= s[0] <= '9';
    forall i | 0 <= i < |s| ensures IsDigit(s[i]) {}
  }

  lemma NegatedDigitsAreNumeral(s: string)
    requires s != "" && AllDigits(s)
    ensures ("-" + s)[1..] == s && IsNumeral("-" + s)
  {
    DigitsAreNumeral(s);
    assert ("-" + s)[1..] == s;
    forall i | 0 <= i < |s| ensures IsDigit(s[i]) {}
  }

  lemma IntTextReads(n: int)
    ensures IsNumeral(IntText(n)) && ReadNumber(IntText(n)) == Some(Int(n))
  {
    var m := if n < 0 then -n else n;
    DigitsReadBack(m);
    DigitsAreRead(Digits(m));
    DigitsAreNumeral(Digits(m));
    NegatedDigitsAreNumeral(Digits(m));
    hide Decimal, Digits, DotIndex, ReadUnsigned, AllDigits, IsNumeral;
  }
}
