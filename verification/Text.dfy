/** The string operations used on provider and dataset fields, over ASCII strings. */
module Text {

  predicate IsSpace(c: char) { c as int in {9, 10, 11, 12, 13, 32} }

  function Trim(s: string): string {
    if s == "" then ""
    else if IsSpace(s[0]) then Trim(s[1..])
    else if IsSpace(s[|s| - 1]) then Trim(s[..|s| - 1])
    else s
  }

  function LowerChar(c: char): char { if 'A' <= c <= 'Z' then (c as int + 32) as char else c }

  function UpperChar(c: char): char { if 'a' <= c <= 'z' then (c as int - 32) as char else c }

  function Lower(s: string): (r: string)
    ensures |r| == |s| && forall i | 0 <= i < |s| :: r[i] == LowerChar(s[i])
  {
    seq(|s|, i requires 0 <= i < |s| => LowerChar(s[i]))
  }

  function Upper(s: string): (r: string)
    ensures |r| == |s| && forall i | 0 <= i < |s| :: r[i] == UpperChar(s[i])
  {
    seq(|s|, i requires 0 <= i < |s| => UpperChar(s[i]))
  }

  /** Lower case has no upper-case letter, upper case no lower-case one, and nothing but the case changes. */
  lemma CaseLaws(s: string)
    ensures forall i | 0 <= i < |s| :: !('A' <= Lower(s)[i] <= 'Z') && !('a' <= Upper(s)[i] <= 'z')
    ensures forall i | 0 <= i < |s| && !('A' <= s[i] <= 'Z') :: Lower(s)[i] == s[i]
    ensures forall i | 0 <= i < |s| && !('a' <= s[i] <= 'z') :: Upper(s)[i] == s[i]
    ensures Lower(Lower(s)) == Lower(s) && Upper(Upper(s)) == Upper(s)
    ensures Lower(Upper(s)) == Lower(s) && Upper(Lower(s)) == Upper(s)
  {
  }

  /** The letters correspond one to one, in alphabetical order. */
  lemma LetterPairs(i: nat)
    requires i < 26
    ensures LowerChar((65 + i) as char) == (97 + i) as char && UpperChar((97 + i) as char) == (65 + i) as char
  {
  }

  predicate IsTrimmed(s: string) { s == "" || (!IsSpace(s[0]) && !IsSpace(s[|s| - 1])) }

  predicate AllSpaces(s: string) { forall c | c in s :: IsSpace(c) }

  /** `s` is `t` between spaces. */
  ghost predicate Padded(s: string, before: string, t: string, after: string) {
    s == before + t + after && AllSpaces(before) && AllSpaces(after)
  }

  lemma PadFirst(s: string, before: string, t: string, after: string)
    requires s != "" && IsSpace(s[0]) && Padded(s[1..], before, t, after)
    ensures Padded(s, [s[0]] + before, t, after)
  {
    assert s == [s[0]] + s[1..];
  }

  lemma PadLast(s: string, before: string, t: string, after: string)
    requires s != "" && IsSpace(s[|s| - 1]) && Padded(s[..|s| - 1], before, t, after)
    ensures Padded(s, before, t, after + [s[|s| - 1]])
  {
    assert s == s[..|s| - 1] + [s[|s| - 1]];
  }

  /** Trimming removes nothing but outer spaces... */
  lemma {:induction false} TrimPads(s: string) returns (before: string, after: string)
    ensures Padded(s, before, Trim(s), after)
  {
    hide IsSpace, Padded;
    if s == "" || !(IsSpace(s[0]) || IsSpace(s[|s| - 1])) {
      before, after := "", "";
      NoPadding(s);
    } else if IsSpace(s[0]) {
      before, after := TrimPads(s[1..]);
      PadFirst(s, before, Trim(s[1..]), after);
      before := [s[0]] + before;
    } else {
      before, after := TrimPads(s[..|s| - 1]);
      PadLast(s, before, Trim(s[..|s| - 1]), after);
      after := after + [s[|s| - 1]];
    }
  }

  lemma NoPadding(s: string)
    ensures Padded(s, "", s, "")
  {
  }

  /** ...and leaves none. */
  lemma {:induction false} TrimTrims(s: string)
    ensures IsTrimmed(Trim(s)) && |Trim(s)| <= |s|
    ensures IsTrimmed(s) ==> Trim(s) == s
  {
    hide IsSpace;
    if s != "" {
      if IsSpace(s[0]) {
        TrimTrims(s[1..]);
      } else if IsSpace(s[|s| - 1]) {
        TrimTrims(s[..|s| - 1]);
      }
    }
  }

  /** Tabs, line ends, page breaks and blanks around a text are trimmed off, whatever is inside it. */
  lemma {:induction false} TrimsAround(before: string, t: string, after: string)
    requires forall i | 0 <= i < |before| :: before[i] as int in {9, 10, 11, 12, 13, 32}
    requires forall i | 0 <= i < |after| :: after[i] as int in {9, 10, 11, 12, 13, 32}
    requires t != "" ==> t[0] as int !in {9, 10, 11, 12, 13, 32} && t[|t| - 1] as int !in {9, 10, 11, 12, 13, 32}
    ensures Trim(before + t + after) == t
    decreases |before| + |after|
  {
    var s := before + t + after;
    if before != "" {
      assert IsSpace(s[0]) && s[1..] == before[1..] + t + after;
      TrimsAround(before[1..], t, after);
    } else if after != "" {
      var n := |after| - 1;
      assert IsSpace(s[|s| - 1]) && s[..|s| - 1] == before + t + after[..n];
      if t == "" {
        assert s == after && s[1..] == "" + t + after[1..];
        TrimsAround("", t, after[1..]);
      } else {
        assert s[0] == t[0];
        TrimsAround(before, t, after[..n]);
      }
    } else {
      assert s == t;
    }
  }

  lemma CaseKeepsSpaces(c: char)
    ensures IsSpace(LowerChar(c)) == IsSpace(c) && IsSpace(UpperChar(c)) == IsSpace(c)
  {
  }

  /** A trimmed field stays trimmed, and as long, when its case changes. */
  lemma CaseKeepsTrim(s: string)
    ensures Trim(Lower(Trim(s))) == Lower(Trim(s)) && Trim(Upper(Trim(s))) == Upper(Trim(s))
    ensures Trim(Trim(s)) == Trim(s)
  {
    var t := Trim(s);
    TrimTrims(s);
    TrimTrims(t);
    TrimTrims(Lower(t));
    TrimTrims(Upper(t));
    if t != "" {
      CaseKeepsSpaces(t[0]);
      CaseKeepsSpaces(t[|t| - 1]);
    }
  }
}
