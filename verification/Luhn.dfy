/** The credit-card check of the guardrails: `digitsOnly` and `luhnValid`. */
module Luhn {
  import opened Text

  function DigitValue(c: char): (d: nat)
    requires '0' <= c <= '9'
    ensures d < 10
  {
    c as int - '0' as int
  }

  /** What a digit counts; of a doubled digit, the digits of the double are added. */
  function Weighed(c: char, double: bool): (w: nat)
    requires '0' <= c <= '9'
    ensures w < 10
  {
    var d := DigitValue(c);
    if !double then d else if 2 * d > 9 then 2 * d - 9 else 2 * d
  }

  /** The sum from the right end, where every second digit is doubled. */
  function Sum(s: string, double: bool): nat
    requires AllDigits(s)
    decreases |s|
  {
    if s == "" then 0 else Weighed(s[|s| - 1], double) + Sum(s[..|s| - 1], !double)
  }

  /** The sum has to be a multiple of ten (Annex B of ISO/IEC 7812-1), and here not zero. */
  predicate Valid(s: string)
    requires AllDigits(s)
  {
    Sum(s, false) > 0 && Sum(s, false) % 10 == 0
  }

  function Digits(s: string): (r: string)
    ensures AllDigits(r)
  {
    if s == "" then "" else Digits(s[..|s| - 1]) + if '0' <= s[|s| - 1] <= '9' then [s[|s| - 1]] else ""
  }

  method DigitsOnly(value: string) returns (b: string)
    ensures b == Digits(value)
  {
    b := "";
    for i := 0 to |value|
      invariant b == Digits(value[..i])
    {
      assert value[..i + 1][..i] == value[..i];
      if '0' <= value[i] <= '9' {
        b := b + [value[i]];
      }
    }
    assert value[..|value|] == value;
  }

  method LuhnValid(digits: string) returns (valid: bool)
    requires AllDigits(digits)
    ensures valid == Valid(digits)
  {
    var sum, double := 0, false;
    var i := |digits| - 1;
    assert digits[..|digits|] == digits;
    while i >= 0
      invariant -1 <= i < |digits|
      invariant sum + Sum(digits[..i + 1], double) == Sum(digits, false)
    {
      assert digits[..i + 1][..i] == digits[..i];
      var n := digits[i] as int - '0' as int;
      if double {
        n := n * 2;
        if n > 9 {
          n := n - 9;
        }
      }
      sum := sum + n;
      double := !double;
      i := i - 1;
    }
    valid := sum > 0 && sum % 10 == 0;
  }

  /** The test of the credit-card rule: 13 to 19 digits with a good sum. */
  method CardNumber(text: string) returns (r: bool)
    ensures r == (13 <= |Digits(text)| <= 19 && Valid(Digits(text)))
  {
    var digits := DigitsOnly(text);
    if 13 <= |digits| <= 19 {
      r := LuhnValid(digits);
    } else {
      r := false;
    }
  }

  lemma {:induction false} DigitsJoin(a: string, b: string)
    ensures Digits(a + b) == Digits(a) + Digits(b)
    decreases |b|
  {
    if b == "" {
      WithNothing(a);
      WithNothing(Digits(a));
    } else {
      LastOfJoin(a, b);
      DigitsJoin(a, b[..|b| - 1]);
    }
  }

  lemma {:induction false} DigitsKept(s: string)
    requires AllDigits(s)
    ensures Digits(s) == s
    decreases |s|
  {
    if s != "" {
      DigitsKept(s[..|s| - 1]);
      LastOf(s);
    }
  }

  /** Separators do not matter and digits do: taking out a character that is no digit changes nothing, and a
      number of digits only is taken as it is. */
  lemma SeparatorsIgnored(a: string, c: char, b: string)
    ensures !('0' <= c <= '9') ==> Digits(a + [c] + b) == Digits(a + b)
    ensures AllDigits(a) ==> Digits(a) == a
  {
    DigitsJoin(a, b);
    DigitsJoin(a + [c], b);
    DigitsJoin(a, [c]);
    if !('0' <= c <= '9') {
      assert [c][..0] == "" && Digits([c]) == "";
      WithNothing(Digits(a));
    }
    if AllDigits(a) {
      DigitsKept(a);
    }
  }

  // ---------------------------------------------------------------- what the sum detects

  /** Is the digit with `right` digits to its right doubled? */
  predicate DoubledAt(right: nat, double: bool) {
    if right == 0 then double else DoubledAt(right - 1, !double)
  }

  lemma {:induction false} NeighboursDiffer(right: nat, double: bool)
    ensures DoubledAt(right + 1, double) == !DoubledAt(right, double)
  {
    if right > 0 {
      NeighboursDiffer(right - 1, !double);
    }
  }

  /** Changing one digit moves the sum by the change of what that digit counts. */
  lemma {:induction false} SumUpdate(s: string, i: nat, c: char, double: bool)
    requires AllDigits(s) && i < |s| && '0' <= c <= '9'
    ensures AllDigits(s[i := c])
    ensures var at := DoubledAt(|s| - 1 - i, double);
      Sum(s[i := c], double) == Sum(s, double) - Weighed(s[i], at) + Weighed(c, at)
    decreases |s|
  {
    var n, t := |s| - 1, s[i := c];
    if i == n {
      assert t[..n] == s[..n];
    } else {
      SumUpdate(s[..n], i, c, !double);
      assert t[..n] == s[..n][i := c];
    }
  }

  lemma OffByLessThanTen(sum: nat, other: nat, change: int)
    requires sum > 0 && sum % 10 == 0 && other == sum + change && -10 < change < 10
    ensures (other > 0 && other % 10 == 0) <==> change == 0
  {
  }

  /** Doubling maps the ten digits to ten different numbers. */
  lemma WeighedInjective(c: char, d: char, double: bool)
    requires '0' <= c <= '9' && '0' <= d <= '9'
    ensures Weighed(c, double) == Weighed(d, double) <==> c == d
  {
  }

  /** MAIN RESULT. Of the ten digits that can stand at a place of a valid number, only the one that
      stands there is valid: every single-digit error is caught, at any length. */
  lemma SingleDigitErrorCaught(s: string, i: nat, c: char)
    requires AllDigits(s) && Valid(s) && i < |s| && '0' <= c <= '9'
    ensures AllDigits(s[i := c])
    ensures Valid(s[i := c]) <==> c == s[i]
  {
    var at := DoubledAt(|s| - 1 - i, false);
    SumUpdate(s, i, c, false);
    WeighedInjective(s[i], c, at);
    OffByLessThanTen(Sum(s, false), Sum(s[i := c], false), Weighed(c, at) - Weighed(s[i], at));
  }

  function Swapped(s: string, i: nat): string
    requires i + 1 < |s|
  {
    s[i := s[i + 1]][i + 1 := s[i]]
  }

  predicate ZeroAndNine(c: char, d: char) {
    (c == '0' && d == '9') || (c == '9' && d == '0')
  }

  /** By how much the sum changes when `d`, right of `c`, moves to its left. */
  function Change(c: char, d: char, at: bool): int
    requires '0' <= c <= '9' && '0' <= d <= '9'
  {
    Weighed(d, at) - Weighed(c, at) + Weighed(c, !at) - Weighed(d, !at)
  }

  lemma SumSwapped(s: string, i: nat)
    requires AllDigits(s) && i + 1 < |s|
    ensures AllDigits(Swapped(s, i))
    ensures Sum(Swapped(s, i), false)
      == Sum(s, false) + Change(s[i], s[i + 1], DoubledAt(|s| - 1 - i, false))
  {
    var t := s[i := s[i + 1]];
    NeighboursDiffer(|s| - 2 - i, false);
    SumUpdate(s, i, s[i + 1], false);
    SumUpdate(t, i + 1, s[i], false);
  }

  lemma ChangeZero(c: char, d: char, at: bool)
    requires '0' <= c <= '9' && '0' <= d <= '9'
    ensures -10 < Change(c, d, at) < 10
    ensures Change(c, d, at) == 0 <==> c == d || ZeroAndNine(c, d)
  {
  }

  /** MAIN RESULT. Swapping two neighbours of a valid number is caught exactly when they differ and
      are not 0 and 9. */
  lemma AdjacentSwapCaught(s: string, i: nat)
    requires AllDigits(s) && Valid(s) && i + 1 < |s|
    ensures AllDigits(Swapped(s, i))
    ensures Valid(Swapped(s, i)) <==> s[i] == s[i + 1] || ZeroAndNine(s[i], s[i + 1])
  {
    var at := DoubledAt(|s| - 1 - i, false);
    SumSwapped(s, i);
    ChangeZero(s[i], s[i + 1], at);
    OffByLessThanTen(Sum(s, false), Sum(Swapped(s, i), false), Change(s[i], s[i + 1], at));
  }

  /** Only zeros add up to nothing. */
  lemma {:induction false} OnlyZerosWeighNothing(s: string, double: bool)
    requires AllDigits(s)
    ensures Sum(s, double) == 0 <==> forall i :: 0 <= i < |s| ==> s[i] == '0'
    decreases |s|
  {
    if s != "" {
      OnlyZerosWeighNothing(s[..|s| - 1], !double);
      assert Weighed(s[|s| - 1], double) == 0 <==> s[|s| - 1] == '0';
    }
  }

  lemma OneDigitFits(d: nat, t: nat)
    requires d < 10
    ensures (d + t > 0 && (d + t) % 10 == 0) <==> (d == (10 - t % 10) % 10 && t != 0)
  {
  }

  /** MAIN RESULT. A number that is not all zeros has exactly one check digit; a number of zeros has
      none. */
  lemma CheckDigit(s: string, c: char)
    requires AllDigits(s) && '0' <= c <= '9'
    ensures AllDigits(s + [c])
    ensures Valid(s + [c]) <==>
      DigitValue(c) == (10 - Sum(s, true) % 10) % 10 && exists i :: 0 <= i < |s| && s[i] != '0'
  {
    WithoutLast(s, c);
    OnlyZerosWeighNothing(s, true);
    assert Sum(s + [c], false) == DigitValue(c) + Sum(s, true);
    OneDigitFits(DigitValue(c), Sum(s, true));
  }
}
