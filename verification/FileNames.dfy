/**
 Reading the number that a file name begins with: `strings.IndexByte` and `strconv.ParseInt`
 as internal/database/migrate.go uses them, and what they mean in decimal notation.
*/
module FileNames {
  import opened Wrappers

  const MAX_INT64 := 0x7fff_ffff_ffff_ffff

  function IndexOf(s: string, c: char): (i: int)
    ensures -1 <= i < |s|
  {
    if s == "" then -1
    else if s[0] == c then 0
    else
      var i := IndexOf(s[1..], c);
      if i < 0 then -1 else i + 1
  }

  function DigitValue(c: char): nat
    requires '0' <= c <= '9'
  {
    c as int - '0' as int
  }

  /** Decimal digits, most significant first; None for anything else. */
  function ParseDigits(s: string): (v: Option<nat>) {
    if s == "" then Some(0)
    else
      var c := s[|s| - 1];
      var front := ParseDigits(s[..|s| - 1]);
      if front.None? || c < '0' || c > '9' then None
      else
        var v: nat := front.value;
        Some(10 * v + DigitValue(c))
  }

  /** `strconv.ParseInt(s, 10, 64)`: an optional sign, then at least one digit. */
  function ParseInt64(s: string): Option<int> {
    if s == "" then None
    else
      var signed := s[0] == '+' || s[0] == '-';
      var digits := if signed then s[1..] else s;
      var v := ParseDigits(digits);
      if digits == "" || v.None? then None
      else
        var magnitude: int := v.value;
        var value := if s[0] == '-' then -magnitude else magnitude;
        if -MAX_INT64 - 1 <= value <= MAX_INT64 then Some(value) else None
  }

  /** The usual decimal notation of a number. */
  function Decimal(n: nat): (s: string)
    ensures s != "" && AllDecimal(s)
  {
    if n < 10 then [NumeralOf(n)] else Decimal(n / 10) + [NumeralOf(n % 10)]
  }

  function NumeralOf(d: nat): (c: char)
    requires d < 10
    ensures '0' <= c <= '9' && DigitValue(c) == d
  {
    ('0' as int + d) as char
  }

  predicate AllDecimal(s: string) { forall i | 0 <= i < |s| :: '0' <= s[i] <= '9' }

  function Zeros(k: nat): (s: string)
    ensures |s| == k && AllDecimal(s)
  {
    seq(k, _ => '0')
  }

  lemma ParseSnoc(s: string, c: char)
    ensures ParseDigits(s + [c])
         == if ParseDigits(s).None? || !('0' <= c <= '9') then None
            else Some(10 * ParseDigits(s).value + DigitValue(c))
  {
    assert (s + [c])[..|s|] == s;
  }

  lemma {:induction false} ZerosParse(k: nat)
    ensures ParseDigits(Zeros(k)) == Some(0)
  {
    if k > 0 {
      ZerosParse(k - 1);
      assert Zeros(k) == Zeros(k - 1) + ['0'];
      ParseSnoc(Zeros(k - 1), '0');
    }
  }

  /** Leading zeros do not change the number... */
  lemma {:induction false} DecimalParses(k: nat, n: nat)
    ensures ParseDigits(Zeros(k) + Decimal(n)) == Some(n)
  {
    if n < 10 {
      ZerosParse(k);
      ParseSnoc(Zeros(k), NumeralOf(n));
    } else {
      DecimalParses(k, n / 10);
      ParseSnoc(Zeros(k) + Decimal(n / 10), NumeralOf(n % 10));
      assert Zeros(k) + Decimal(n) == Zeros(k) + Decimal(n / 10) + [NumeralOf(n % 10)];
    }
  }

  /** ...and nothing else is read as it. */
  lemma {:induction false} ParsedDecimal(s: string, n: nat) returns (k: nat)
    requires s != "" && ParseDigits(s) == Some(n)
    ensures s == Zeros(k) + Decimal(n)
  {
    var front, c := s[..|s| - 1], s[|s| - 1];
    assert s == front + [c];
    ParseSnoc(front, c);
    var d := DigitValue(c);
    assert NumeralOf(d) == c;
    if front == "" {
      k := 0;
      assert Zeros(0) == "";
    } else {
      var m := ParseDigits(front).value;
      var j := ParsedDecimal(front, m);
      if m == 0 {
        k := j + 1;
        assert front == Zeros(j) + ['0'] == Zeros(j + 1);
      } else {
        k := j;
        assert n / 10 == m && n % 10 == d;
        assert s == Zeros(j) + (Decimal(m) + [c]);
      }
    }
  }

  lemma {:induction false} FirstIndex(s: string, c: char)
    ensures IndexOf(s, c) < 0 <==> c !in s
    ensures IndexOf(s, c) >= 0 ==> s[IndexOf(s, c)] == c && c !in s[..IndexOf(s, c)]
  {
    if s != "" && s[0] != c {
      FirstIndex(s[1..], c);
      var i := IndexOf(s[1..], c);
      assert s == [s[0]] + s[1..];
      if i >= 0 { assert s[..i + 1] == [s[0]] + s[1..][..i]; }
    }
  }

  lemma {:induction false} IndexIs(before: string, c: char, after: string)
    requires c !in before
    ensures IndexOf(before + [c] + after, c) == |before|
  {
    if before != "" {
      assert before[0] in before && before[0] != c;
      assert (before + [c] + after)[1..] == before[1..] + [c] + after;
      IndexIs(before[1..], c, after);
    }
  }

  /** A positive number: digits with that value, perhaps after a plus sign. */
  lemma PositiveInt(p: string, v: int) returns (sign: string, digits: string)
    requires ParseInt64(p) == Some(v) && v > 0
    ensures p == sign + digits && sign in {"", "+"} && digits != "" && ParseDigits(digits) == Some(v) && v <= MAX_INT64
  {
    hide ParseDigits;
    if p[0] == '+' {
      sign, digits := "+", p[1..];
    } else {
      sign, digits := "", p;
    }
  }

  lemma IntOf(sign: string, digits: string, v: int)
    requires sign in {"", "+"} && digits != "" && AllDecimal(digits) && ParseDigits(digits) == Some(v) && v <= MAX_INT64
    ensures ParseInt64(sign + digits) == Some(v)
  {
    hide ParseDigits;
    if sign == "" {
      assert sign + digits == digits;
    } else {
      assert (sign + digits)[1..] == digits;
    }
  }

  lemma NoUnderscore(sign: string, digits: string)
    requires sign in {"", "+"} && AllDecimal(digits)
    ensures '_' !in sign + digits
  {
  }
}
