/**
 * The JavaScript string operations the reply generator relies on, over
 * ASCII: `toLowerCase`, `includes`, `split(/\W+/)`, a global
 * `replace` with a plain replacement string, `substring(0, n)` and the
 * "lower-case the first character" idiom.
 */
module Text {

  /** A character of the regular-expression class `\w`: `[A-Za-z0-9_]`. */
  predicate IsWordChar(c: char)
  {
    ('a' <= c <= 'z') || ('A' <= c <= 'Z') || ('0' <= c <= '9') || c == '_'
  }

  predicate IsUpper(c: char)
  {
    'A' <= c <= 'Z'
  }

  /** `toLowerCase` on one ASCII character; every other character is left alone. */
  function LowerChar(c: char): (d: char)
    ensures !IsUpper(d)
    ensures d != c <==> IsUpper(c)
    ensures IsWordChar(d) == IsWordChar(c)
  {
    if IsUpper(c) then (c as int + 32) as char else c
  }

  /** `s.toLowerCase()`. */
  function Lower(s: string): (r: string)
    ensures |r| == |s|
    ensures forall i :: 0 <= i < |s| ==> r[i] == LowerChar(s[i])
  {
    if s == [] then [] else [LowerChar(s[0])] + Lower(s[1..])
  }

  /** Lower-casing a text without upper-case letters changes nothing. */
  lemma LowerKeeps(s: string)
    requires forall i :: 0 <= i < |s| ==> !IsUpper(s[i])
    ensures Lower(s) == s
  {
    assert forall i :: 0 <= i < |s| ==> Lower(s)[i] == s[i];
  }

  /** Lower-casing twice is lower-casing once. */
  lemma LowerIdempotent(s: string)
    ensures Lower(Lower(s)) == Lower(s)
  {
    LowerKeeps(Lower(s));
  }

  /** `sub` occurs in `s` starting at position `i`. */
  predicate OccursAt(s: string, sub: string, i: int)
  {
    0 <= i && i + |sub| <= |s| && s[i..i + |sub|] == sub
  }

  /** `s.includes(sub)`: only strings no longer than `s` occur in it, and one of the same length only when it is `s`. */
  predicate Contains(s: string, sub: string)
    ensures Contains(s, sub) ==> |sub| <= |s|
    ensures |sub| == |s| ==> (Contains(s, sub) <==> sub == s)
  {
    assert |sub| == |s| ==> s[0..|sub|] == s;
    assert |sub| == |s| && sub == s ==> OccursAt(s, sub, 0);

    exists i :: 0 <= i <= |s| && OccursAt(s, sub, i)
  }

  /** Every string includes the empty string. */
  lemma ContainsEmpty(s: string)
    ensures Contains(s, "")
  {
    assert OccursAt(s, "", 0);
  }

  /** A string includes itself. */
  lemma ContainsSelf(s: string)
    ensures Contains(s, s)
  {
    assert OccursAt(s, s, 0);
  }

  /** An occurrence survives appending text on either side. */
  lemma ContainsInAppend(a: string, b: string, sub: string)
    ensures Contains(a, sub) ==> Contains(a + b, sub)
    ensures Contains(b, sub) ==> Contains(a + b, sub)
  {
    if Contains(a, sub) {
      var i :| 0 <= i <= |a| && OccursAt(a, sub, i);
      assert (a + b)[i..i + |sub|] == a[i..i + |sub|];
      assert OccursAt(a + b, sub, i);
    }
    if Contains(b, sub) {
      var i :| 0 <= i <= |b| && OccursAt(b, sub, i);
      assert (a + b)[|a| + i..|a| + i + |sub|] == b[i..i + |sub|];
      assert OccursAt(a + b, sub, |a| + i);
    }
  }

  /** A string without `c` includes no string that starts with `c`. */
  lemma AbsentCharExcludes(s: string, sub: string)
    requires |sub| > 0 && sub[0] !in s
    ensures !Contains(s, sub)
  {
  }

  /** Every character of `s` belongs to `\w`. */
  predicate AllWordChars(s: string)
  {
    forall i :: 0 <= i < |s| ==> IsWordChar(s[i])
  }

  /** No character of `s` belongs to `\w`. */
  predicate NoWordChars(s: string)
  {
    forall i :: 0 <= i < |s| ==> !IsWordChar(s[i])
  }

  /** What is left of `s` once its leading run of non-word characters is removed. */
  function DropNonWord(s: string): (r: string)
    ensures |r| <= |s| && r == s[|s| - |r|..]
    ensures NoWordChars(s[..|s| - |r|])
    ensures r == [] || IsWordChar(r[0])
  {
    if s == [] || IsWordChar(s[0]) then s else DropNonWord(s[1..])
  }

  /**
   * `s.split(/\W+/)`: the pieces between maximal runs of non-word
   * characters. The empty string gives one empty piece, and a run at
   * either end leaves an empty piece there.
   */
  function Split(s: string): (r: seq<string>)
    ensures |r| > 0
    ensures forall i :: 0 <= i < |r| ==> AllWordChars(r[i])
    decreases |s|
  {
    if s == [] then [""]
    else if IsWordChar(s[0]) then
      var rest := Split(s[1..]);
      [[s[0]] + rest[0]] + rest[1..]
    else [""] + Split(DropNonWord(s[1..]))
  }

  /** The separator runs that `Split(s)` removes, in order. */
  function Separators(s: string): (r: seq<string>)
    ensures forall i :: 0 <= i < |r| ==> |r[i]| > 0 && NoWordChars(r[i])
    decreases |s|
  {
    if s == [] then []
    else if IsWordChar(s[0]) then Separators(s[1..])
    else
      var t := DropNonWord(s[1..]);
      [s[..|s| - |t|]] + Separators(t)
  }

  /** Pieces glued back together with the separators between them. */
  function Join(pieces: seq<string>, seps: seq<string>): string
    requires |pieces| == |seps| + 1
  {
    if seps == [] then pieces[0]
    else pieces[0] + seps[0] + Join(pieces[1..], seps[1..])
  }

  /** Prepending to the first piece prepends to the joined text. */
  lemma {:induction false} JoinPrepend(c: string, pieces: seq<string>, seps: seq<string>)
    requires |pieces| == |seps| + 1
    ensures Join([c + pieces[0]] + pieces[1..], seps) == c + Join(pieces, seps)
  {
    var moved := [c + pieces[0]] + pieces[1..];
    assert moved[1..] == pieces[1..];
  }

  /** The join of a text that starts with a word character, from the join of the rest. */
  lemma SplitJoinWordStep(s: string)
    requires s != [] && IsWordChar(s[0])
    requires |Split(s[1..])| == |Separators(s[1..])| + 1
    requires Join(Split(s[1..]), Separators(s[1..])) == s[1..]
    ensures |Split(s)| == |Separators(s)| + 1
    ensures Join(Split(s), Separators(s)) == s
  {
    var rest, seps := Split(s[1..]), Separators(s[1..]);
    assert Split(s) == [[s[0]] + rest[0]] + rest[1..];
    JoinPrepend([s[0]], rest, seps);
    assert [s[0]] + s[1..] == s;
  }

  /** How `Split` and `Separators` unfold on a text that starts with a separator run. */
  lemma UnfoldAtRun(s: string)
    requires s != [] && !IsWordChar(s[0])
    ensures DropNonWord(s[1..]) == s[|s| - |DropNonWord(s[1..])|..]
    ensures Split(s) == [""] + Split(DropNonWord(s[1..]))
    ensures Separators(s) == [s[..|s| - |DropNonWord(s[1..])|]] + Separators(DropNonWord(s[1..]))
  {
    var t := DropNonWord(s[1..]);
    assert t == s[1..][|s| - 1 - |t|..];
  }

  /** The join of a text that starts with a separator run, from the join of what follows the run. */
  lemma SplitJoinRunStep(s: string)
    requires s != [] && !IsWordChar(s[0])
    requires |Split(DropNonWord(s[1..]))| == |Separators(DropNonWord(s[1..]))| + 1
    requires Join(Split(DropNonWord(s[1..])), Separators(DropNonWord(s[1..]))) == DropNonWord(s[1..])
    ensures |Split(s)| == |Separators(s)| + 1
    ensures Join(Split(s), Separators(s)) == s
  {
    var t := DropNonWord(s[1..]);
    UnfoldAtRun(s);
    JoinAfterRun(s, t, Split(t), Separators(t));
  }

  /** Gluing an empty first piece and the run before `t` onto a join of `t` gives back `s`. */
  lemma JoinAfterRun(s: string, t: string, pieces: seq<string>, seps: seq<string>)
    requires |t| <= |s| && t == s[|s| - |t|..]
    requires |pieces| == |seps| + 1 && Join(pieces, seps) == t
    ensures Join([""] + pieces, [s[..|s| - |t|]] + seps) == s
  {
    var run := s[..|s| - |t|];
    calc {
      Join([""] + pieces, [run] + seps);
      { JoinCons("", run, pieces, seps); }
      "" + run + t;
      { assert "" + run == run; }
      run + t;
      { assert s[..|s| - |t|] + s[|s| - |t|..] == s; }
      s;
    }
  }

  /** Joining after a first piece and a first separator. */
  lemma JoinCons(piece: string, sep: string, pieces: seq<string>, seps: seq<string>)
    requires |pieces| == |seps| + 1
    ensures Join([piece] + pieces, [sep] + seps) == piece + sep + Join(pieces, seps)
  {
    assert ([piece] + pieces)[1..] == pieces;
    assert ([sep] + seps)[1..] == seps;
  }

  /**
   * `Split` loses nothing: between consecutive pieces there is exactly one
   * separator run, and gluing pieces and runs back gives the input.
   */
  lemma {:induction false} SplitJoin(s: string)
    ensures |Split(s)| == |Separators(s)| + 1
    ensures Join(Split(s), Separators(s)) == s
    decreases |s|
  {
    if s == [] {
    } else if IsWordChar(s[0]) {
      SplitJoin(s[1..]);
      SplitJoinWordStep(s);
    } else {
      SplitJoin(DropNonWord(s[1..]));
      SplitJoinRunStep(s);
    }
  }

  /** Every piece strictly between the first and the last is non-empty. */
  lemma {:induction false} SplitInnerNonEmpty(s: string)
    ensures forall i :: 0 < i < |Split(s)| - 1 ==> |Split(s)[i]| > 0
    decreases |s|
  {
    if s == [] {
    } else if IsWordChar(s[0]) {
      SplitInnerNonEmpty(s[1..]);
    } else {
      var t := DropNonWord(s[1..]);
      SplitInnerNonEmpty(t);
      SplitFirstNonEmpty(t);
    }
  }

  /**
   * The first piece is empty exactly when the text is empty or starts with a
   * separator, and in the second case more pieces follow.
   */
  lemma SplitFirstNonEmpty(s: string)
    ensures s != [] && IsWordChar(s[0]) ==> |Split(s)[0]| > 0
    ensures s == [] || IsWordChar(s[0]) || |Split(s)| > 1
    ensures (s == [] || !IsWordChar(s[0])) ==> Split(s)[0] == ""
  {
  }

  /** `s.substring(0, n)`: the first `n` characters, or all of them when fewer. */
  function Take(s: string, n: nat): (r: string)
    ensures |r| <= n && |r| <= |s|
    ensures r == s[..|r|]
    ensures |s| >= n ==> |r| == n
    ensures |s| < n ==> r == s
  {
    if |s| <= n then s else s[..n]
  }

  /** `s.charAt(0).toLowerCase() + s.slice(1)`. */
  function LowerFirst(s: string): (r: string)
    ensures |r| == |s|
    ensures |s| > 0 ==> r[0] == LowerChar(s[0]) && r[1..] == s[1..]
  {
    if s == [] then [] else [LowerChar(s[0])] + s[1..]
  }

  /** `s.replace(/pat/g, rep)`: every non-overlapping occurrence, scanning left to right. */
  function ReplaceAll(s: string, pat: string, rep: string): (r: string)
    requires |pat| > 0
    ensures |s| < |pat| ==> r == s
    ensures |rep| == |pat| ==> |r| == |s|
    ensures |rep| >= |pat| ==> |r| >= |s|
    decreases |s|
  {
    if |s| < |pat| then s
    else if s[..|pat|] == pat then rep + ReplaceAll(s[|pat|..], pat, rep)
    else [s[0]] + ReplaceAll(s[1..], pat, rep)
  }

  /** `n` copies of `t`. */
  function Copies(n: nat, t: string): (r: seq<string>)
    ensures |r| == n && forall i :: 0 <= i < n ==> r[i] == t
  {
    seq(n, _ => t)
  }

  /**
   * The text between the matches `s.replace(/pat/g, ...)` finds: scanning
   * left to right, each match of `pat` closes a gap, and what follows the
   * last match is the last gap.
   */
  function Gaps(s: string, pat: string): (gaps: seq<string>)
    requires |pat| > 0
    ensures |gaps| > 0
    decreases |s|
  {
    if |s| < |pat| then [s]
    else if s[..|pat|] == pat then [""] + Gaps(s[|pat|..], pat)
    else
      var rest := Gaps(s[1..], pat);
      [[s[0]] + rest[0]] + rest[1..]
  }

  /** Joining the gaps with the replacement is the replaced text. */
  lemma {:induction false} GapsJoin(s: string, pat: string, rep: string)
    requires |pat| > 0
    ensures Join(Gaps(s, pat), Copies(|Gaps(s, pat)| - 1, rep)) == ReplaceAll(s, pat, rep)
    decreases |s|
  {
    if |s| < |pat| {
      assert Copies(0, rep) == [];
    } else if s[..|pat|] == pat {
      var rest := Gaps(s[|pat|..], pat);
      var seps := Copies(|rest| - 1, rep);
      GapsJoin(s[|pat|..], pat, rep);
      assert Gaps(s, pat) == [""] + rest;
      assert Copies(|rest|, rep) == [rep] + seps;
      JoinCons("", rep, rest, seps);
      assert "" + rep == rep;
      assert ReplaceAll(s, pat, rep) == rep + ReplaceAll(s[|pat|..], pat, rep);
    } else {
      var rest := Gaps(s[1..], pat);
      var seps := Copies(|rest| - 1, rep);
      GapsJoin(s[1..], pat, rep);
      assert Gaps(s, pat) == [[s[0]] + rest[0]] + rest[1..];
      JoinPrepend([s[0]], rest, seps);
      assert ReplaceAll(s, pat, rep) == [s[0]] + ReplaceAll(s[1..], pat, rep);
    }
  }

  /** Replacing a pattern by itself changes nothing. */
  lemma {:induction false} ReplaceAllSelf(s: string, pat: string)
    requires |pat| > 0
    ensures ReplaceAll(s, pat, pat) == s
    decreases |s|
  {
    if |s| >= |pat| {
      if s[..|pat|] == pat {
        ReplaceAllSelf(s[|pat|..], pat);
        assert s[..|pat|] + s[|pat|..] == s;
      } else {
        ReplaceAllSelf(s[1..], pat);
        assert [s[0]] + s[1..] == s;
      }
    }
  }

  /** A text that does not start with `pat` contains it only if the text after its first character does. */
  lemma ConsExcludes(c: char, t: string, pat: string)
    requires |pat| > 0 && !Contains(t, pat) && !OccursAt([c] + t, pat, 0)
    ensures !Contains([c] + t, pat)
  {
    if Contains([c] + t, pat) {
      var i :| 0 <= i <= |[c] + t| && OccursAt([c] + t, pat, i);
      assert ([c] + t)[i..i + |pat|] == t[i - 1..i - 1 + |pat|];
      assert OccursAt(t, pat, i - 1);
    }
  }

  /**
   * No gap holds the pattern, and no gap before a match holds it even
   * together with all but the last character of that match: every match is
   * the leftmost one after the previous match.
   */
  ghost predicate Leftmost(gaps: seq<string>, pat: string)
    requires |gaps| > 0 && |pat| > 0
  {
    (forall i :: 0 <= i < |gaps| - 1 ==> !Contains(gaps[i] + pat[..|pat| - 1], pat)) &&
    !Contains(gaps[|gaps| - 1], pat)
  }

  /** A text that does not start with `pat` has no prefix that does. */
  lemma PrefixNoMatch(s: string, u: string, pat: string)
    requires |pat| <= |u| <= |s| && s[..|u|] == u && s[..|pat|] != pat
    ensures !OccursAt(u, pat, 0)
  {
    assert u[..|pat|] == s[..|u|][..|pat|];
  }

  /** A text whose rest starts with `v` starts with its first character and then `v`. */
  lemma ConsPrefix(s: string, v: string, w: string)
    requires |s| > 0 && s[1..] == v + w
    ensures s[..1 + |v|] == [s[0]] + v
  {
    assert s[..1 + |v|] == [s[0]] + s[1..][..|v|];
  }

  /** Splitting the joint of `pat` and what follows it after all but its last character. */
  lemma RegroupPattern(g: string, pat: string, tail: string)
    requires |pat| > 0
    ensures g + pat + tail == (g + pat[..|pat| - 1]) + (pat[|pat| - 1..] + tail)
  {
    assert pat == pat[..|pat| - 1] + pat[|pat| - 1..];
  }

  /** Joining at least two gaps with copies of `pat`: the first gap, `pat`, then the rest. */
  lemma JoinFirst(gaps: seq<string>, pat: string)
    requires |gaps| > 1
    ensures Join(gaps, Copies(|gaps| - 1, pat)) ==
      gaps[0] + pat + Join(gaps[1..], Copies(|gaps| - 2, pat))
  {
    assert Copies(|gaps| - 1, pat)[1..] == Copies(|gaps| - 2, pat);
  }

  /** The first gap of a text that does not start with the pattern, when a match follows it. */
  lemma FirstGapStep(s: string, pat: string, gap: string, tail: string)
    requires |pat| > 0 && |s| >= |pat| && s[..|pat|] != pat
    requires s[1..] == gap + pat + tail
    requires !Contains(gap + pat[..|pat| - 1], pat)
    ensures !Contains([s[0]] + gap + pat[..|pat| - 1], pat)
  {
    var v := gap + pat[..|pat| - 1];
    RegroupPattern(gap, pat, tail);
    ConsPrefix(s, v, pat[|pat| - 1..] + tail);
    PrefixNoMatch(s, [s[0]] + v, pat);
    ConsExcludes(s[0], v, pat);
    assert [s[0]] + gap + pat[..|pat| - 1] == [s[0]] + v;
  }

  /** Joining the gaps with the pattern itself gives back the text. */
  lemma GapsRejoin(s: string, pat: string)
    requires |pat| > 0
    ensures s == Join(Gaps(s, pat), Copies(|Gaps(s, pat)| - 1, pat))
  {
    GapsJoin(s, pat, pat);
    ReplaceAllSelf(s, pat);
  }

  /** An empty gap in front of leftmost gaps keeps them leftmost. */
  lemma LeftmostEmptyFirst(rest: seq<string>, pat: string)
    requires |rest| > 0 && |pat| > 0 && Leftmost(rest, pat)
    ensures Leftmost([""] + rest, pat)
  {
    var gaps := [""] + rest;
    assert !Contains(gaps[0] + pat[..|pat| - 1], pat);
    assert forall i :: 1 <= i < |gaps| ==> gaps[i] == rest[i - 1];
  }

  /** Replacing the first of leftmost gaps by one that meets the same condition keeps them leftmost. */
  lemma LeftmostNewFirst(first: string, rest: seq<string>, pat: string)
    requires |rest| > 0 && |pat| > 0 && Leftmost(rest, pat)
    requires |rest| == 1 ==> !Contains(first, pat)
    requires |rest| > 1 ==> !Contains(first + pat[..|pat| - 1], pat)
    ensures Leftmost([first] + rest[1..], pat)
  {
    var gaps := [first] + rest[1..];
    assert forall i :: 1 <= i < |gaps| ==> gaps[i] == rest[i];
  }

  /** The gaps are the stretches between leftmost matches. */
  lemma {:induction false} GapsLeftmost(s: string, pat: string)
    requires |pat| > 0
    ensures Leftmost(Gaps(s, pat), pat)
    decreases |s|
  {
    if |s| < |pat| {
    } else if s[..|pat|] == pat {
      GapsLeftmost(s[|pat|..], pat);
      LeftmostEmptyFirst(Gaps(s[|pat|..], pat), pat);
    } else {
      var rest := Gaps(s[1..], pat);
      GapsLeftmost(s[1..], pat);
      GapsRejoin(s[1..], pat);
      if |rest| == 1 {
        ConsExcludes(s[0], s[1..], pat);
        assert [s[0]] + rest[0] == [s[0]] + s[1..];
      } else {
        JoinFirst(rest, pat);
        FirstGapStep(s, pat, rest[0], Join(rest[1..], Copies(|rest| - 2, pat)));
        assert [s[0]] + rest[0] + pat[..|pat| - 1] == ([s[0]] + rest[0]) + pat[..|pat| - 1];
      }
      LeftmostNewFirst([s[0]] + rest[0], rest, pat);
    }
  }

  /**
   * `s.replace(/pat/g, rep)` cuts the text at the leftmost non-overlapping
   * matches of `pat` and puts `rep` in place of each: the same gaps joined
   * with `pat` give the text, and joined with `rep` give the result.
   */
  lemma ReplaceAllGaps(s: string, pat: string, rep: string)
    requires |pat| > 0
    ensures s == Join(Gaps(s, pat), Copies(|Gaps(s, pat)| - 1, pat))
    ensures ReplaceAll(s, pat, rep) == Join(Gaps(s, pat), Copies(|Gaps(s, pat)| - 1, rep))
    ensures forall i :: 0 <= i < |Gaps(s, pat)| ==> !Contains(Gaps(s, pat)[i], pat)
    ensures Leftmost(Gaps(s, pat), pat)
  {
    GapsRejoin(s, pat);
    GapsJoin(s, pat, rep);
    GapsLeftmost(s, pat);
    var gaps := Gaps(s, pat);
    forall i | 0 <= i < |gaps| - 1 ensures !Contains(gaps[i], pat) {
      ContainsInAppend(gaps[i], pat[..|pat| - 1], pat);
    }
  }

  /** Text in front without the pattern's first character passes through replacement untouched. */
  lemma {:induction false} ReplaceAllAfterFree(a: string, t: string, pat: string, rep: string)
    requires |pat| > 0 && pat[0] !in a
    ensures ReplaceAll(a + t, pat, rep) == a + ReplaceAll(t, pat, rep)
    decreases |a|
  {
    if a != [] {
      var s := a + t;
      assert s[0] == a[0] && s[1..] == a[1..] + t;
      ReplaceAllAfterFree(a[1..], t, pat, rep);
      if |s| >= |pat| {
        assert s[..|pat|][0] != pat[0];
      } else {
        assert ReplaceAll(t, pat, rep) == t;
      }
      assert [a[0]] + (a[1..] + ReplaceAll(t, pat, rep)) == a + ReplaceAll(t, pat, rep);
    } else {
      assert a + t == t;
    }
  }

  /** A single match with no other occurrence of the pattern's first character around it is replaced. */
  lemma ReplaceAllOne(a: string, b: string, pat: string, rep: string)
    requires |pat| > 0 && pat[0] !in a && pat[0] !in b
    ensures ReplaceAll(a + pat + b, pat, rep) == a + rep + b
  {
    assert a + pat + b == a + (pat + b);
    ReplaceAllAfterFree(a, pat + b, pat, rep);
    assert (pat + b)[..|pat|] == pat && (pat + b)[|pat|..] == b;
    AbsentCharExcludes(b, pat);
    ReplaceAllAbsent(b, pat, rep);
  }

  /** Replacing a pattern that does not occur changes nothing. */
  lemma {:induction false} ReplaceAllAbsent(s: string, pat: string, rep: string)
    requires |pat| > 0 && !Contains(s, pat)
    ensures ReplaceAll(s, pat, rep) == s
    decreases |s|
  {
    if |s| >= |pat| {
      assert !OccursAt(s, pat, 0);
      assert !Contains(s[1..], pat) by {
        if Contains(s[1..], pat) {
          var i :| 0 <= i <= |s[1..]| && OccursAt(s[1..], pat, i);
          assert s[1..][i..i + |pat|] == s[i + 1..i + 1 + |pat|];
          assert OccursAt(s, pat, i + 1);
        }
      }
      ReplaceAllAbsent(s[1..], pat, rep);
      assert [s[0]] + s[1..] == s;
    }
  }

  /** A non-empty text stays non-empty when each match becomes a non-empty replacement. */
  lemma ReplaceAllNonEmpty(s: string, pat: string, rep: string)
    requires |pat| > 0 && |s| > 0 && |rep| > 0
    ensures |ReplaceAll(s, pat, rep)| > 0
  {
  }
}
