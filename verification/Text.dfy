/** The string operations the engine compares attribute values with (ASCII letters). */
module Text {
  predicate IsSpace(c: char) {
    '\t' <= c <= '\r' || '\U{1C}' <= c <= ' '
  }

  function LowerChar(c: char): char {
    if 'A' <= c <= 'Z' then c - 'A' + 'a' else c
  }

  function Lower(s: string): (t: string)
    ensures |t| == |s|
    ensures forall i :: 0 <= i < |s| ==> t[i] == LowerChar(s[i])
  {
    seq(|s|, i requires 0 <= i < |s| => LowerChar(s[i]))
  }

  function StripLeft(s: string): string {
    if s != [] && IsSpace(s[0]) then StripLeft(s[1..]) else s
  }

  function StripRight(s: string): string {
    if s != [] && IsSpace(s[|s| - 1]) then StripRight(s[..|s| - 1]) else s
  }

  /** `value.strip().lower()` */
  function Normalise(s: string): string {
    Lower(StripRight(StripLeft(s)))
  }

  predicate Contains(s: string, part: string) {
    part <= s || (s != [] && Contains(s[1..], part))
  }

  predicate StartsWith(s: string, part: string) {
    part <= s
  }

  // What normalising means.

  predicate OccursAt(s: string, part: string, i: nat) {
    i + |part| <= |s| && s[i..i + |part|] == part
  }

  /** Containing a text is having it as a stretch of one's own. */
  lemma {:induction false} ContainsIff(s: string, part: string)
    ensures Contains(s, part) <==> exists i :: OccursAt(s, part, i)
  {
    if part <= s {
      assert OccursAt(s, part, 0);
    } else {
      assert !OccursAt(s, part, 0);
      if s != [] {
        ContainsIff(s[1..], part);
        forall i: nat ensures OccursAt(s[1..], part, i) <==> OccursAt(s, part, i + 1) {
          if i + 1 + |part| <= |s| {
            assert s[1..][i..i + |part|] == s[i + 1..i + 1 + |part|];
          }
        }
        if i: nat :| OccursAt(s, part, i) {
          assert i > 0;
          assert OccursAt(s[1..], part, i - 1);
        }
      }
    }
  }

  /** Two texts that differ only in the case of their letters. */
  ghost predicate SameButForCase(s: string, t: string) {
    |s| == |t| && forall i :: 0 <= i < |s| ==> LowerChar(s[i]) == LowerChar(t[i])
  }

  /** Letters A to Z are taken for a to z, and no other character for anything but itself. */
  lemma LettersIgnoreCase(c: char)
    ensures 'A' <= c <= 'Z' ==> 'a' <= LowerChar(c) <= 'z' && LowerChar(c) - 'a' == c - 'A'
    ensures !('A' <= c <= 'Z') ==> LowerChar(c) == c
  {
  }

  lemma {:induction false} StripLeftOf(s: string)
    ensures StripLeft(s) == [] || !IsSpace(StripLeft(s)[0])
    ensures s == [] || IsSpace(s[0]) || StripLeft(s) == s
  {
    if s != [] && IsSpace(s[0]) {
      StripLeftOf(s[1..]);
    }
  }

  lemma {:induction false} StripRightOf(s: string)
    ensures StripRight(s) == [] || !IsSpace(StripRight(s)[|StripRight(s)| - 1])
    ensures StripRight(s) <= s
    ensures s == [] || IsSpace(s[|s| - 1]) || StripRight(s) == s
  {
    if s != [] && IsSpace(s[|s| - 1]) {
      StripRightOf(s[..|s| - 1]);
    }
  }

  /** What is left has no capital letter and no blank at either end, and is left alone from then on. */
  lemma NormalIsFinal(s: string)
    ensures var t := Normalise(s);
      && (forall i :: 0 <= i < |t| ==> !('A' <= t[i] <= 'Z'))
      && (t != [] ==> !IsSpace(t[0]) && !IsSpace(t[|t| - 1]))
      && Normalise(t) == t
  {
    var a := StripLeft(s);
    var b := StripRight(a);
    StripLeftOf(s);
    StripRightOf(a);
    var t := Lower(b);
    assert t != [] ==> !IsSpace(t[0]) && !IsSpace(t[|t| - 1]);
    StripLeftOf(t);
    StripRightOf(t);
    assert Lower(t) == t;
  }

  /** The blanks, those texts of one character of which nothing is left, are these ten. */
  lemma BlanksAre(c: char)
    ensures Normalise([c]) == "" <==>
      c in ['\t', '\n', '\U{0B}', '\U{0C}', '\r', '\U{1C}', '\U{1D}', '\U{1E}', '\U{1F}', ' ']
  {
    assert [c][1..] == [c][..0] == [];
    assert StripLeft([c]) == if IsSpace(c) then [] else [c];
    assert StripRight([c]) == if IsSpace(c) then [] else [c];
  }

  /** Nothing but blanks at the ends goes: a text without them keeps its length and its characters but for case. */
  lemma OnlyBlanksGo(s: string)
    requires s != "" ==> !IsSpace(s[0]) && !IsSpace(s[|s| - 1])
    ensures |Normalise(s)| == |s|
    ensures forall i :: 0 <= i < |s| ==> Normalise(s)[i] == LowerChar(s[i])
  {
    StripLeftOf(s);
    StripRightOf(s);
  }

  /** A blank before or after the text makes no difference. */
  lemma {:induction false} BlanksMakeNoDifference(s: string, blank: char)
    requires IsSpace(blank)
    ensures Normalise([blank] + s) == Normalise(s)
    ensures Normalise(s + [blank]) == Normalise(s)
  {
    assert ([blank] + s)[1..] == s;
    PadRight(s, blank);
  }

  lemma {:induction false} PadRight(s: string, blank: char)
    requires IsSpace(blank)
    ensures StripRight(StripLeft(s + [blank])) == StripRight(StripLeft(s))
  {
    if s == [] {
      assert s + [blank] == [blank];
      assert [blank][1..] == [];
    } else if IsSpace(s[0]) {
      assert (s + [blank])[1..] == s[1..] + [blank];
      PadRight(s[1..], blank);
    } else {
      assert (s + [blank])[..|s|] == s;
    }
  }

  lemma {:induction false} StripLeftSame(s: string, t: string)
    requires SameButForCase(s, t)
    ensures SameButForCase(StripLeft(s), StripLeft(t))
  {
    if s != [] {
      assert LowerChar(s[0]) == LowerChar(t[0]);
      if IsSpace(s[0]) {
        assert forall i :: 0 <= i < |s| - 1 ==> s[1..][i] == s[i + 1] && t[1..][i] == t[i + 1];
        StripLeftSame(s[1..], t[1..]);
      }
    }
  }

  lemma {:induction false} StripRightSame(s: string, t: string)
    requires SameButForCase(s, t)
    ensures SameButForCase(StripRight(s), StripRight(t))
  {
    if s != [] {
      var n := |s| - 1;
      assert LowerChar(s[n]) == LowerChar(t[n]);
      if IsSpace(s[n]) {
        StripRightSame(s[..n], t[..n]);
      }
    }
  }

  /** Neither does the case of its letters. */
  lemma CaseMakesNoDifference(s: string, t: string)
    requires SameButForCase(s, t)
    ensures Normalise(s) == Normalise(t)
  {
    StripLeftSame(s, t);
    StripRightSame(StripLeft(s), StripLeft(t));
  }
}
