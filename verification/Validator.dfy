/**
 Card-number syntax and checksum (pkg/validator/card.go).

 A Go string is a sequence of bytes; a `char` stands for one byte here.
 `LuhnValid` is the right-to-left definition of the checksum (ISO/IEC 7812-1,
 Annex B); the method `Luhn` is the left-to-right parity loop of the source.
*/
module Validator {

  predicate IsDigit(c: char) { '0' <= c <= '9' }

  predicate AllDigits(s: string) { forall i | 0 <= i < |s| :: IsDigit(s[i]) }

  predicate ValidBin(bin: string) { (|bin| == 6 || |bin| == 8) && AllDigits(bin) }

  method IsValidBin(bin: string) returns (ok: bool)
    ensures ok <==> ValidBin(bin)
    ensures ok <==> (|bin| == 6 || |bin| == 8) && forall i | 0 <= i < |bin| :: '0' <= bin[i] <= '9'
  {
    if |bin| != 6 && |bin| != 8 {
      return false;
    }
    for i := 0 to |bin|
      invariant forall j | 0 <= j < i :: IsDigit(bin[j])
    {
      if bin[i] < '0' || bin[i] > '9' {
        return false;
      }
    }
    return true;
  }

  function Digit(c: char): (d: int)
    requires IsDigit(c)
    ensures 0 <= d <= 9
  {
    c as int - '0' as int
  }

  /** What a digit adds to the checksum: doubled digits count their decimal digit sum. */
  function Term(d: int, doubled: bool): int {
    if !doubled then d else DigitSum(2 * d)
  }

  /** Digit sum of a number below 20. */
  function DigitSum(n: int): int { if n >= 10 then 1 + (n - 10) else n }

  /** Checksum read from the right; `doubled` says whether the last digit is doubled. */
  function RightSum(s: string, doubled: bool): int
    requires AllDigits(s)
  {
    if s == "" then 0
    else Term(Digit(s[|s| - 1]), doubled) + RightSum(s[..|s| - 1], !doubled)
  }

  /** The rightmost digit is the check digit: it is not doubled, its left neighbour is. */
  predicate LuhnValid(number: string) {
    13 <= |number| <= 19 && AllDigits(number) && RightSum(number, false) % 10 == 0
  }

  lemma EmptySum(doubled: bool)
    ensures RightSum("", doubled) == 0
  {
  }

  lemma AppendDigit(s: string, i: nat, doubled: bool)
    requires i < |s| && AllDigits(s[..i]) && IsDigit(s[i])
    ensures AllDigits(s[..i + 1])
    ensures RightSum(s[..i + 1], doubled) == Term(Digit(s[i]), doubled) + RightSum(s[..i], !doubled)
  {
    assert s[..i + 1][..i] == s[..i];
  }

  /** Counting from the left with the length's parity is counting from the right. */
  lemma FromTheRight(n: int, i: int)
    ensures i % 2 == n % 2 <==> (n - i - 1) % 2 == 1
    ensures (n - (i + 1)) % 2 == 1 <==> !((n - i) % 2 == 1)
  {
  }

  method Luhn(number: string) returns (ok: bool)
    ensures ok <==> LuhnValid(number)
    ensures ok ==> 13 <= |number| <= 19 && forall i | 0 <= i < |number| :: '0' <= number[i] <= '9'
  {
    hide RightSum;
    assert RightSum("", |number| % 2 == 1) == 0 by { EmptySum(|number| % 2 == 1); }
    assert number[..0] == "";
    if |number| < 13 || |number| > 19 {
      return false;
    }
    var sum := 0;
    var parity := |number| % 2;
    for i := 0 to |number|
      invariant AllDigits(number[..i])
      invariant sum == RightSum(number[..i], (|number| - i) % 2 == 1)
    {
      if number[i] < '0' || number[i] > '9' {
        return false;
      }
      var digit := number[i] as int - '0' as int;
      FromTheRight(|number|, i);
      if i % 2 == parity {
        digit := digit * 2;
        if digit > 9 {
          digit := digit - 9;
        }
      }
      assert digit == Term(Digit(number[i]), i % 2 == parity);
      sum := sum + digit;
      AppendDigit(number, i, (|number| - i - 1) % 2 == 1);
    }
    assert number[..|number|] == number;
    return sum % 10 == 0;
  }

  lemma {:induction false} OnesSum(n: nat, doubled: bool)
    ensures AllDigits(Ones(n))
    ensures RightSum(Ones(n), doubled) == n + (n + if doubled then 1 else 0) / 2
  {
    if n > 0 {
      OnesSum(n - 1, !doubled);
      assert Ones(n)[..n - 1] == Ones(n - 1);
    }
  }

  function Ones(n: nat): string { seq(n, _ => '1') }

  /** The well-known test number is accepted (its leading digit counts double), and not with another last digit. */
  lemma KnownNumbers()
    ensures LuhnValid("4111111111111111") && !LuhnValid("4111111111111112")
  {
    assert "4111111111111111" == ['4'] + Ones(15);
    LeadingFour(15, false);
    OnesSum(15, false);
    assert "4111111111111112" == "4111111111111111"[15 := '2'];
    DetectsSingleDigitError("4111111111111111", 15, '2');
  }

  lemma {:induction false} LeadingFour(n: nat, doubled: bool)
    ensures AllDigits(['4'] + Ones(n)) && AllDigits(Ones(n))
    ensures RightSum(['4'] + Ones(n), doubled)
         == RightSum(Ones(n), doubled) + if doubled == (n % 2 == 0) then 8 else 4
  {
    var s := ['4'] + Ones(n);
    OnesSum(n, doubled);
    if n > 0 {
      LeadingFour(n - 1, !doubled);
      OnesSum(n - 1, !doubled);
      assert s[..n] == ['4'] + Ones(n - 1) && Ones(n)[..n - 1] == Ones(n - 1);
      assert s[..n + 1] == s && Ones(n)[..n] == Ones(n) && s[n] == '1' == Ones(n)[n - 1];
      AppendDigit(s, n, doubled);
      AppendDigit(Ones(n), n - 1, doubled);
      ParityFlips(n);
    } else {
      assert s == ['4'] && s[..0] == "" && Ones(0) == "";
      AppendDigit(s, 0, doubled);
      EmptySum(!doubled);
      EmptySum(doubled);
      assert s[..1] == s;
    }
    hide RightSum;
  }

  /** Is position i doubled when the whole string is read with `doubled` at its last place? */
  predicate DoubledAt(s: string, i: nat, doubled: bool)
    requires i < |s|
  {
    doubled == ((|s| - 1 - i) % 2 == 0)
  }

  /** Replacing one digit moves the checksum by exactly the change of that digit's term. */
  lemma {:induction false} ReplaceOne(s: string, i: nat, c: char, doubled: bool)
    requires AllDigits(s) && i < |s| && IsDigit(c)
    ensures AllDigits(s[i := c])
    ensures RightSum(s[i := c], doubled) - RightSum(s, doubled)
         == Term(Digit(c), DoubledAt(s, i, doubled)) - Term(Digit(s[i]), DoubledAt(s, i, doubled))
  {
    var n := |s| - 1;
    if i == n {
      assert s[i := c][..n] == s[..n];
    } else {
      assert s[i := c][..n] == s[..n][i := c];
      ReplaceOne(s[..n], i, c, !doubled);
      ParityFlips(n - i);
    }
  }

  /** Doubling permutes the ten digits, so different digits have terms that differ modulo ten. */
  lemma TermInjective(a: int, b: int, doubled: bool, sum: int)
    requires 0 <= a <= 9 && 0 <= b <= 9 && a != b
    requires sum % 10 == 0
    ensures (sum + Term(a, doubled) - Term(b, doubled)) % 10 != 0
  {
    var d := Term(a, doubled) - Term(b, doubled);
    assert -9 <= d <= 9 && d != 0;
  }

  /** Every single-digit error in an accepted number is detected. */
  lemma DetectsSingleDigitError(number: string, i: nat, c: char)
    requires LuhnValid(number) && i < |number| && c != number[i]
    ensures !LuhnValid(number[i := c])
  {
    var wrong := number[i := c];
    if AllDigits(wrong) {
      assert IsDigit(wrong[i]);
      ReplaceOne(number, i, c, false);
      TermInjective(Digit(c), Digit(number[i]), DoubledAt(number, i, false), RightSum(number, false));
    }
  }

  function SwapAt(s: string, i: nat): (r: string)
    requires i + 1 < |s|
  {
    s[i := s[i + 1]][i + 1 := s[i]]
  }

  /** Swapping neighbours a, b keeps the sum (mod 10) only for a == b or {a, b} == {0, 9}. */
  lemma SwapTerms(a: int, b: int, doubled: bool, sum: int)
    requires 0 <= a <= 9 && 0 <= b <= 9 && a != b
    requires sum % 10 == 0
    ensures (sum + (Term(b, doubled) - Term(a, doubled)) + (Term(a, !doubled) - Term(b, !doubled))) % 10 == 0
       <==> (a == 0 && b == 9) || (a == 9 && b == 0)
  {
    var d := (Term(b, doubled) - Term(a, doubled)) + (Term(a, !doubled) - Term(b, !doubled));
    assert -8 <= d <= 8;
  }

  /** A swap is two replacements, at places of opposite parity. */
  lemma SwapSum(s: string, i: nat, a: int, b: int, dbl: bool)
    requires AllDigits(s) && i + 1 < |s|
    requires a == Digit(s[i]) && b == Digit(s[i + 1]) && dbl == DoubledAt(s, i, false)
    ensures AllDigits(SwapAt(s, i))
    ensures RightSum(SwapAt(s, i), false)
         == RightSum(s, false) + (Term(b, dbl) - Term(a, dbl)) + (Term(a, !dbl) - Term(b, !dbl))
  {
    hide RightSum, Term;
    var t := s[i := s[i + 1]];
    ReplaceOne(s, i, s[i + 1], false);
    ParityFlips(|s| - 1 - i);
    assert dbl != DoubledAt(t, i + 1, false);
    ReplaceOne(t, i + 1, s[i], false);
  }

  lemma ParityFlips(n: int)
    ensures (n % 2 == 0) != ((n - 1) % 2 == 0)
  {
  }

  /** An adjacent transposition of different digits goes unnoticed exactly for 0 and 9. */
  lemma DetectsAdjacentSwap(number: string, i: nat)
    requires LuhnValid(number) && i + 1 < |number| && number[i] != number[i + 1]
    ensures LuhnValid(SwapAt(number, i)) <==> {number[i], number[i + 1]} == {'0', '9'}
  {
    var a, b := number[i], number[i + 1];
    SwapSum(number, i, Digit(a), Digit(b), DoubledAt(number, i, false));
    SwapTerms(Digit(a), Digit(b), DoubledAt(number, i, false), RightSum(number, false));
    assert {a, b} == {'0', '9'} <==> (a == '0' && b == '9') || (a == '9' && b == '0') by {
      if {a, b} == {'0', '9'} {
        assert '0' in {a, b} && '9' in {a, b};
      }
    }
  }

  /** The digit that brings the checksum of the payload up to a multiple of ten. */
  function CheckDigit(payload: string): (c: char)
    requires AllDigits(payload)
    ensures IsDigit(c)
  {
    ('0' as int + (10 - RightSum(payload, true) % 10) % 10) as char
  }

  lemma Completes(d: int, r: int)
    requires 0 <= d <= 9
    ensures (d + r) % 10 == 0 <==> d == (10 - r % 10) % 10
  {
    var m := r % 10;
    assert (d + r) % 10 == (d + m) % 10;
  }

  lemma AppendCheckDigit(payload: string, c: char)
    requires AllDigits(payload) && IsDigit(c)
    ensures AllDigits(payload + [c]) && RightSum(payload + [c], false) == Digit(c) + RightSum(payload, true)
  {
    assert (payload + [c])[..|payload|] == payload;
  }

  /** Exactly one character completes a payload to an accepted number. */
  lemma CheckDigitIsUnique(payload: string, c: char)
    requires 12 <= |payload| <= 18 && AllDigits(payload)
    ensures LuhnValid(payload + [c]) <==> c == CheckDigit(payload)
  {
    hide RightSum;
    assert (payload + [c])[|payload|] == c;
    if IsDigit(c) {
      AppendCheckDigit(payload, c);
      Completes(Digit(c), RightSum(payload, true));
      SameDigit(c, (10 - RightSum(payload, true) % 10) % 10);
    }
  }

  lemma SameDigit(c: char, d: int)
    requires IsDigit(c) && 0 <= d <= 9
    ensures Digit(c) == d <==> c == ('0' as int + d) as char
  {
  }
}
