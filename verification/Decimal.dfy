// Natural numbers as decimal text.
module Decimal {
  predicate IsDigit(c: char) {
    '0' <= c <= '9'
  }

  predicate IsDigits(text: string) {
    text != [] && forall i :: 0 <= i < |text| ==> IsDigit(text[i])
  }

  // As a number is printed: no leading zero but in 0 itself.
  predicate IsCanonical(text: string) {
    IsDigits(text) && (text[0] == '0' ==> |text| == 1)
  }

  function Digit(d: nat): (c: char)
    requires d < 10
    ensures IsDigit(c) && c as int - '0' as int == d
  {
    '0' + d as char
  }

  function Print(n: nat): string {
    if n < 10 then [Digit(n)] else Print(n / 10) + [Digit(n % 10)]
  }

  function Value(text: string): nat
    requires forall i :: 0 <= i < |text| ==> IsDigit(text[i])
  {
    if text == [] then 0
    else
      assert IsDigit(text[|text| - 1]);
      10 * Value(text[..|text| - 1]) + (text[|text| - 1] as int - '0' as int)
  }

  lemma {:induction false} PrintedIsCanonical(n: nat)
    ensures IsCanonical(Print(n)) && (Print(n)[0] == '0' <==> n == 0)
  {
    if n >= 10 {
      PrintedIsCanonical(n / 10);
    }
  }

  lemma {:induction false} ValueOfPrinted(n: nat)
    ensures IsDigits(Print(n)) && Value(Print(n)) == n
  {
    PrintedIsCanonical(n);
    if n >= 10 {
      ValueOfPrinted(n / 10);
      assert Print(n)[..|Print(n)| - 1] == Print(n / 10);
    } else {
      assert Print(n)[..0] == [];
    }
  }

  lemma {:induction false} PrintOfValue(text: string)
    requires IsCanonical(text)
    ensures Print(Value(text)) == text && (Value(text) == 0 ==> text == "0")
  {
    var init, last := text[..|text| - 1], text[|text| - 1] as int - '0' as int;
    if |text| == 1 {
      assert Value(init) == 0;
      assert text == [Digit(last)];
    } else {
      PrintOfValue(init);
      assert text == init + [Digit(last)];
    }
  }

  lemma PrintIsInjective(a: nat, b: nat)
    requires Print(a) == Print(b)
    ensures a == b
  {
    ValueOfPrinted(a);
    ValueOfPrinted(b);
  }
}
