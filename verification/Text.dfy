/** Character classes and the string algorithms that the adaptor takes from Boost.
    Characters are classified as in the "C" locale. */
module Text {

  datatype Option<+T> = None | Some(value: T)

  predicate IsSpace(c: char) {
    c == ' ' || '\t' <= c <= '\r'
  }

  lemma SpaceIs(c: char)
    ensures IsSpace(c) <==> c in {' ', '\t', '\n', '\U{000B}', '\U{000C}', '\r'}
  {
  }

  predicate IsAlnum(c: char) {
    '0' <= c <= '9' || 'a' <= c <= 'z' || 'A' <= c <= 'Z'
  }

  predicate IsDigit(c: char) {
    '0' <= c <= '9'
  }

  function LowerChar(c: char): char {
    if 'A' <= c <= 'Z' then (c as int + 32) as char else c
  }

  /** boost::to_lower. */
  function Lower(s: string): (r: string)
    ensures |r| == |s| && forall i | 0 <= i < |s| :: r[i] == LowerChar(s[i])
  {
    if s == "" then "" else [LowerChar(s[0])] + Lower(s[1..])
  }

  lemma LowerIs(s: string, i: nat)
    requires i < |s|
    ensures |Lower(s)| == |s|
    ensures Lower(s)[i] == if 'A' <= s[i] <= 'Z' then s[i] - 'A' + 'a' else s[i]
  {
  }

  lemma LowerConcat(s: string, t: string)
    ensures Lower(s + t) == Lower(s) + Lower(t)
  {
  }

  /** The word w stands in s at position i. */
  predicate IsAt(s: string, i: nat, w: string) {
    i + |w| <= |s| && s[i..i + |w|] == w
  }

  lemma IsAtChar(s: string, i: nat, w: string, k: nat)
    requires IsAt(s, i, w) && k < |w|
    ensures s[i + k] == w[k]
  {
    assert s[i..i + |w|][k] == s[i + k];
  }

  ghost predicate Contains(s: string, w: string) {
    exists i: nat :: IsAt(s, i, w)
  }

  lemma IsAtConcat(s: string, i: nat, u: string, v: string)
    ensures IsAt(s, i, u + v) <==> IsAt(s, i, u) && IsAt(s, i + |u|, v)
  {
    if IsAt(s, i, u + v) {
      assert s[i..i + |u|] == s[i..i + |u + v|][..|u|];
      assert s[i + |u|..i + |u| + |v|] == s[i..i + |u + v|][|u|..];
    }
    if IsAt(s, i, u) && IsAt(s, i + |u|, v) {
      assert s[i..i + |u + v|] == s[i..i + |u|] + s[i + |u|..i + |u| + |v|];
    }
  }

  /** boost::replace_all: one pass from the left, without rescanning what was put in. */
  function ReplaceAll(s: string, w: string, r: string): string
    requires w != ""
  {
    if |s| < |w| then s
    else if w <= s then r + ReplaceAll(s[|w|..], w, r)
    else [s[0]] + ReplaceAll(s[1..], w, r)
  }

  /** A text without the word is left alone, and a text with it gets shorter
      when the replacement is shorter. */
  lemma {:induction false} ReplaceAllShrinks(s: string, w: string, r: string)
    requires |r| < |w|
    ensures |ReplaceAll(s, w, r)| <= |s|
    ensures |ReplaceAll(s, w, r)| == |s| <==> !Contains(s, w)
    ensures !Contains(s, w) ==> ReplaceAll(s, w, r) == s
  {
    ContainsTail(s, w);
    hide Contains;
    if |s| >= |w| {
      if w <= s {
        ReplaceAllShrinks(s[|w|..], w, r);
      } else {
        ReplaceAllShrinks(s[1..], w, r);
      }
    }
  }

  lemma ContainsTail(s: string, w: string)
    ensures |s| < |w| ==> !Contains(s, w)
    ensures w <= s ==> Contains(s, w)
    ensures w != "" && |s| >= |w| && !(w <= s) ==> (Contains(s, w) <==> Contains(s[1..], w))
  {
    if w <= s {
      assert IsAt(s, 0, w);
    } else if w != "" && |s| >= |w| {
      if Contains(s, w) {
        var i: nat :| IsAt(s, i, w);
        assert i != 0;
        assert IsAt(s[1..], i - 1, w);
      }
      if Contains(s[1..], w) {
        var i: nat :| IsAt(s[1..], i, w);
        assert IsAt(s, i + 1, w);
      }
    }
  }

  /** Where the word does not start, one character is passed over unchanged. */
  lemma ReplaceAllPassesOne(c: char, v: string, w: string, r: string)
    requires w != "" && !(w <= [c] + v)
    ensures ReplaceAll([c] + v, w, r) == [c] + ReplaceAll(v, w, r)
  {
    assert ([c] + v)[1..] == v;
  }

  /** A stretch without the word's first character is passed over unchanged. */
  lemma {:induction false} ReplaceAllPasses(u: string, v: string, w: string, r: string)
    requires w != "" && w[0] !in u
    ensures ReplaceAll(u + v, w, r) == u + ReplaceAll(v, w, r)
  {
    if u == "" {
      assert u + v == v;
    } else {
      assert u + v == [u[0]] + (u[1..] + v);
      ReplaceAllPassesOne(u[0], u[1..] + v, w, r);
      ReplaceAllPasses(u[1..], v, w, r);
    }
  }

  /** Joins the pieces of a text. */
  function Flatten(ss: seq<string>): string {
    if ss == [] then "" else ss[0] + Flatten(ss[1..])
  }
}
