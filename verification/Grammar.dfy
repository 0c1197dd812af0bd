/** The ClassAd grammar of condor_job/classad.hpp.

    A parser takes a text and a position and yields the position where it stopped, with a
    value, or no match. Alternatives are tried in order and a choice is never reopened;
    a star is greedy. White space is skipped before every token but not inside one, and
    never after one. */
module Grammar {
  import opened Text

  datatype Match<+T> = NoMatch | Match(stop: nat, value: T) {
    predicate IsFailure() { NoMatch? }
    function PropagateFailure<U>(): Match<U>
      requires NoMatch?
    {
      NoMatch
    }
    function Extract(): (nat, T)
      requires Match?
    {
      (stop, value)
    }
  }

  /** An attribute as the semantic actions collect it, before decoding. */
  datatype RawAttribute = RawAttribute(key: string, tag: string, text: string)

  /** The skipper: the next position that does not hold white space. */
  function Skip(s: string, i: nat): (j: nat)
    requires i <= |s|
    ensures i <= j <= |s|
    ensures forall k | i <= k < j :: IsSpace(s[k])
    ensures j < |s| ==> !IsSpace(s[j])
    decreases |s| - i
  {
    if i < |s| && IsSpace(s[i]) then Skip(s, i + 1) else i
  }

  /** A literal token. */
  function Token(s: string, i: nat, w: string): (m: Match<()>)
    requires i <= |s|
    ensures m.Match? ==> i + |w| <= m.stop <= |s|
  {
    var k := Skip(s, i);
    if IsAt(s, k, w) then Match(k + |w|, ()) else NoMatch
  }

  /** Where a greedy star of "any character but q" stops: just after the last one it takes. */
  function StarEnd(s: string, i: nat, q: char): (e: nat)
    requires i <= |s|
    ensures i <= e <= |s|
    decreases |s| - i
  {
    var k := Skip(s, i);
    if k < |s| && s[k] != q then StarEnd(s, k + 1, q) else i
  }

  /** The text in front of q as it is assigned, without the white space around it. */
  function TextBefore(s: string, i: nat, q: char): (m: Match<string>)
    requires i <= |s|
    ensures m.Match? && i <= m.stop <= |s|
  {
    var b := Skip(s, i);
    var e := StarEnd(s, b, q);
    Match(e, s[b..e])
  }

  /** The text in front of q, and then q itself. */
  function TextUntil(s: string, i: nat, q: char): (m: Match<string>)
    requires i <= |s|
    ensures m.Match? ==> i < m.stop <= |s|
  {
    var text := TextBefore(s, i, q);
    var (p, _) :- Token(s, text.stop, [q]);
    Match(p, text.value)
  }

  /** The boolean form of a value: a b element with a v attribute. */
  function BoolValue(s: string, i: nat): (m: Match<(string, string)>)
    requires i <= |s|
    ensures m.Match? ==> i < m.stop <= |s|
  {
    var (p1, _) :- Token(s, i, "<b");
    var (p2, _) :- Token(s, p1, "v=\"");
    var (p3, text) :- TextUntil(s, p2, '"');
    var (p4, _) :- Token(s, p3, "/>");
    Match(p4, ("b", text))
  }

  /** The tag of an element at k. The single letters are tried first, so "er" is read as
      "e" and "rt" as "r". */
  function Tag(s: string, k: nat): Match<string> {
    if k < |s| && s[k] in {'e', 'i', 'r', 's'} then Match(k + 1, [s[k]])
    else if IsAt(s, k, "at") then Match(k + 2, "at")
    else if IsAt(s, k, "rt") then Match(k + 2, "rt")
    else if IsAt(s, k, "un") then Match(k + 2, "un")
    else if IsAt(s, k, "er") then Match(k + 2, "er")
    else NoMatch
  }

  /** The opening of an element: "<" with the tag right behind it. */
  function OpenTag(s: string, i: nat): (m: Match<string>)
    requires i <= |s|
    ensures m.Match? ==> i < m.stop <= |s|
  {
    var (p, _) :- Token(s, i, "<");
    Tag(s, p)
  }

  /** What follows the tag: a text and the matching closing tag, or the empty form. */
  function Content(s: string, i: nat, tag: string): (m: Match<string>)
    requires i <= |s|
    ensures m.Match? ==> i < m.stop <= |s|
  {
    var full := FullContent(s, i, tag);
    if full.Match? then full
    else
      var (p, _) :- Token(s, i, "/>");
      Match(p, "")
  }

  function FullContent(s: string, i: nat, tag: string): (m: Match<string>)
    requires i <= |s|
    ensures m.Match? ==> i < m.stop <= |s|
  {
    var (p1, _) :- Token(s, i, ">");
    var text := TextBefore(s, p1, '<');
    var (p2, _) :- Token(s, text.stop, "</" + tag);
    var (p3, _) :- Token(s, p2, ">");
    Match(p3, text.value)
  }

  function ElementValue(s: string, i: nat): (m: Match<(string, string)>)
    requires i <= |s|
    ensures m.Match? ==> i < m.stop <= |s|
  {
    var (p1, tag) :- OpenTag(s, i);
    var (p2, text) :- Content(s, p1, tag);
    Match(p2, (tag, text))
  }

  function Value(s: string, i: nat): (m: Match<(string, string)>)
    requires i <= |s|
    ensures m.Match? ==> i < m.stop <= |s|
  {
    var b := BoolValue(s, i);
    if b.Match? then b else ElementValue(s, i)
  }

  function Attribute(s: string, i: nat): (m: Match<RawAttribute>)
    requires i <= |s|
    ensures m.Match? ==> i < m.stop <= |s|
  {
    var (p1, _) :- Token(s, i, "<a");
    var (p2, _) :- Token(s, p1, "n=\"");
    var (p3, key) :- TextUntil(s, p2, '"');
    var (p4, _) :- Token(s, p3, ">");
    var (p5, v) :- Value(s, p4);
    var (p6, _) :- Token(s, p5, "</a>");
    Match(p6, RawAttribute(key, v.0, v.1))
  }

  /** The greedy star of attributes. It always matches. */
  function Attributes(s: string, i: nat): (m: Match<seq<RawAttribute>>)
    requires i <= |s|
    ensures m.Match? && i <= m.stop <= |s|
    decreases |s| - i
  {
    var a := Attribute(s, i);
    if a.NoMatch? then Match(i, [])
    else
      var rest := Attributes(s, a.stop);
      Match(rest.stop, [a.value] + rest.value)
  }

  /** A whole record. */
  function Record(s: string, i: nat): (m: Match<seq<RawAttribute>>)
    requires i <= |s|
    ensures m.Match? ==> i + 7 <= m.stop <= |s|
  {
    var (p1, _) :- Token(s, i, "<c>");
    var all := Attributes(s, p1);
    var (p2, _) :- Token(s, all.stop, "</c>");
    Match(p2, all.value)
  }

  /** The opener that skip_to_classad looks for: "<c" at the end of the text or
      before a character that is not alphanumeric. */
  predicate Opener(s: string, i: nat) {
    IsAt(s, i, "<c") && (i + 2 < |s| ==> !IsAlnum(s[i + 2]))
  }

  /** Text that skip_to_classad passes over to its end. */
  ghost predicate NoOpener(s: string) {
    forall k: nat | k < |s| :: !Opener(s, k)
  }

  /** skip_to_classad: the first opener at or after i, or the end of the text. */
  function SkipToClassad(s: string, i: nat): (j: nat)
    requires i <= |s|
    ensures i <= j <= |s|
    ensures forall k: nat | i <= k < j :: !Opener(s, k)
    ensures j < |s| ==> Opener(s, j)
    decreases |s| - i
  {
    if i < |s| && !Opener(s, i) then SkipToClassad(s, i + 1) else i
  }

  /** An opener, character by character. */
  lemma OpenerIs(s: string, i: nat)
    ensures Opener(s, i)
            <==> && i + 1 < |s| && s[i] == '<' && s[i + 1] == 'c'
                 && (i + 2 < |s| ==>
                       var c := s[i + 2]; !('0' <= c <= '9' || 'a' <= c <= 'z' || 'A' <= c <= 'Z'))
  {
    if IsAt(s, i, "<c") {
      IsAtChar(s, i, "<c", 0);
      IsAtChar(s, i, "<c", 1);
    }
    if i + 1 < |s| && s[i] == '<' && s[i + 1] == 'c' {
      assert s[i..i + 2] == "<c";
    }
  }

  /** The skipping goes on exactly as far as no "<c" without a letter or digit behind it has come. */
  lemma SkipStops(s: string, i: nat, j: nat)
    requires i <= j <= |s|
    ensures SkipToClassad(s, i) == j
            <==> && (forall k: nat | i <= k < j && k + 1 < |s| && s[k] == '<' && s[k + 1] == 'c' ::
                       k + 2 < |s| && var c := s[k + 2]; '0' <= c <= '9' || 'a' <= c <= 'z' || 'A' <= c <= 'Z')
                 && (j < |s| ==>
                       && j + 1 < |s| && s[j] == '<' && s[j + 1] == 'c'
                       && (j + 2 < |s| ==>
                             var c := s[j + 2]; !('0' <= c <= '9' || 'a' <= c <= 'z' || 'A' <= c <= 'Z')))
  {
    var stop := SkipToClassad(s, i);
    OpenerIs(s, j);
    OpenerIs(s, stop);
    hide SkipToClassad;
    hide Opener;
    if stop == j {
      forall k: nat | i <= k < j && k + 1 < |s| && s[k] == '<' && s[k + 1] == 'c'
        ensures k + 2 < |s| && var c := s[k + 2]; '0' <= c <= '9' || 'a' <= c <= 'z' || 'A' <= c <= 'Z'
      {
        OpenerIs(s, k);
      }
    } else if j < stop {
      assert !Opener(s, j);
    }
  }

  /** Text is passed over exactly if every "<c" in it has a letter or digit behind it. */
  lemma PassedOver(s: string)
    ensures NoOpener(s)
            <==> forall k: nat | k + 1 < |s| && s[k] == '<' && s[k + 1] == 'c' ::
                   k + 2 < |s| && var c := s[k + 2]; '0' <= c <= '9' || 'a' <= c <= 'z' || 'A' <= c <= 'Z'
  {
    hide Opener;
    if NoOpener(s) {
      forall k: nat | k + 1 < |s| && s[k] == '<' && s[k + 1] == 'c'
        ensures k + 2 < |s| && var c := s[k + 2]; '0' <= c <= '9' || 'a' <= c <= 'z' || 'A' <= c <= 'Z'
      {
        OpenerIs(s, k);
      }
    } else {
      var k: nat :| k < |s| && Opener(s, k);
      OpenerIs(s, k);
    }
  }

  // ----- What a match depends on -----

  /** The two texts have the same first n characters. */
  predicate Agree(s: string, t: string, n: nat) {
    n <= |s| && n <= |t| && s[..n] == t[..n]
  }

  lemma AgreeAt(s: string, t: string, n: nat, k: nat)
    requires Agree(s, t, n) && k < n
    ensures s[k] == t[k]
  {
    assert s[..n][k] == t[..n][k];
  }

  lemma AgreeSlice(s: string, t: string, n: nat, a: nat, b: nat)
    requires Agree(s, t, n) && a <= b <= n
    ensures s[a..b] == t[a..b]
  {
    assert s[a..b] == s[..n][a..b];
    assert t[a..b] == t[..n][a..b];
  }

  lemma AgreeLess(s: string, t: string, n: nat, m: nat)
    requires Agree(s, t, n) && m <= n
    ensures Agree(s, t, m)
  {
    AgreeSlice(s, t, n, 0, m);
  }

  lemma {:induction false} SkipLocal(s: string, t: string, i: nat)
    requires i <= |s| && Skip(s, i) < |s| && Agree(s, t, Skip(s, i) + 1)
    ensures Skip(t, i) == Skip(s, i)
    decreases |s| - i
  {
    AgreeAt(s, t, Skip(s, i) + 1, i);
    if IsSpace(s[i]) {
      SkipLocal(s, t, i + 1);
    }
  }

  /** A token is decided by the text up to its end. */
  lemma TokenLocal(s: string, t: string, i: nat, w: string)
    requires i <= |s| && w != "" && Token(s, i, w).Match? && Agree(s, t, Token(s, i, w).stop)
    ensures i <= |t| && Token(t, i, w) == Token(s, i, w)
  {
    var k, p := Skip(s, i), Token(s, i, w).stop;
    AgreeLess(s, t, p, k + 1);
    SkipLocal(s, t, i);
    AgreeSlice(s, t, p, k, p);
  }

  /** A token that matches rules out a token that starts differently. */
  lemma TokenExcludes(s: string, i: nat, w: string, v: string, k: nat)
    requires i <= |s| && Token(s, i, w).Match?
    requires k < |w| && k < |v| && w[k] != v[k]
    ensures Token(s, i, v).NoMatch?
  {
    var j := Skip(s, i);
    IsAtChar(s, j, w, k);
    if IsAt(s, j, v) {
      IsAtChar(s, j, v, k);
      assert false;
    }
  }

  lemma TokenLater(s: string, i: nat, e: nat, q: char)
    requires i <= |s| && e == StarEnd(s, i, q) && Token(s, e, [q]).Match?
    ensures Skip(s, i) < Token(s, e, [q]).stop
  {
  }

  lemma {:induction false} StarEndLocal(s: string, t: string, i: nat, q: char)
    requires i <= |s| && !IsSpace(q)
    requires var e := StarEnd(s, i, q); Token(s, e, [q]).Match? && Agree(s, t, Token(s, e, [q]).stop)
    ensures i <= |t| && StarEnd(t, i, q) == StarEnd(s, i, q)
    decreases |s| - i
  {
    var e := StarEnd(s, i, q);
    var p := Token(s, e, [q]).stop;
    var k := Skip(s, i);
    hide Token;
    hide Skip;
    TokenLater(s, i, e, q);
    AgreeLess(s, t, p, k + 1);
    AgreeAt(s, t, p, k);
    SkipLocal(s, t, i);
    if s[k] != q {
      StarEndLocal(s, t, k + 1, q);
    }
  }

  /** The text in front of q is settled once q has been seen. */
  lemma TextBeforeLocal(s: string, t: string, i: nat, q: char)
    requires i <= |s| && !IsSpace(q)
    requires var e := TextBefore(s, i, q).stop; Token(s, e, [q]).Match? && Agree(s, t, Token(s, e, [q]).stop)
    ensures i <= |t| && TextBefore(t, i, q) == TextBefore(s, i, q)
  {
    var b := Skip(s, i);
    var e := StarEnd(s, b, q);
    var p := Token(s, e, [q]).stop;
    AgreeLess(s, t, p, b + 1);
    SkipLocal(s, t, i);
    StarEndLocal(s, t, b, q);
    AgreeSlice(s, t, p, b, e);
  }

  lemma TextUntilLocal(s: string, t: string, i: nat, q: char)
    requires i <= |s| && !IsSpace(q)
    requires TextUntil(s, i, q).Match? && Agree(s, t, TextUntil(s, i, q).stop)
    ensures i <= |t| && TextUntil(t, i, q) == TextUntil(s, i, q)
  {
    TextBeforeLocal(s, t, i, q);
    TokenLocal(s, t, TextBefore(s, i, q).stop, [q]);
  }

  lemma BoolValueLocal(s: string, t: string, i: nat)
    requires i <= |s| && BoolValue(s, i).Match? && Agree(s, t, BoolValue(s, i).stop)
    ensures i <= |t| && BoolValue(t, i) == BoolValue(s, i)
  {
    var p := BoolValue(s, i).stop;
    var p1 := Token(s, i, "<b").stop;
    var p2 := Token(s, p1, "v=\"").stop;
    var p3 := TextUntil(s, p2, '"').stop;
    AgreeLess(s, t, p, p1);
    AgreeLess(s, t, p, p2);
    AgreeLess(s, t, p, p3);
    TokenLocal(s, t, i, "<b");
    TokenLocal(s, t, p1, "v=\"");
    TextUntilLocal(s, t, p2, '"');
    TokenLocal(s, t, p3, "/>");
  }

  lemma TagLocal(s: string, t: string, k: nat)
    requires Tag(s, k).Match? && Agree(s, t, Tag(s, k).stop)
    ensures Tag(t, k) == Tag(s, k)
  {
    AgreeAt(s, t, Tag(s, k).stop, k);
    AgreeSlice(s, t, Tag(s, k).stop, k, Tag(s, k).stop);
    if s[k] !in {'e', 'i', 'r', 's'} {
      assert Tag(s, k).stop == k + 2;
      AgreeAt(s, t, k + 2, k + 1);
    }
  }

  lemma OpenTagLocal(s: string, t: string, i: nat)
    requires i <= |s| && OpenTag(s, i).Match? && Agree(s, t, OpenTag(s, i).stop)
    ensures i <= |t| && OpenTag(t, i) == OpenTag(s, i)
  {
    var p1 := Token(s, i, "<").stop;
    AgreeLess(s, t, OpenTag(s, i).stop, p1);
    TokenLocal(s, t, i, "<");
    TagLocal(s, t, p1);
  }

  lemma FullContentLocal(s: string, t: string, i: nat, tag: string)
    requires i <= |s| && FullContent(s, i, tag).Match? && Agree(s, t, FullContent(s, i, tag).stop)
    ensures i <= |t| && FullContent(t, i, tag) == FullContent(s, i, tag)
  {
    var p := FullContent(s, i, tag).stop;
    var p1 := Token(s, i, ">").stop;
    var e := TextBefore(s, p1, '<').stop;
    var close := "</" + tag;
    var p2 := Token(s, e, close).stop;
    TokenPrefix(s, e, close, "<");
    AgreeLess(s, t, p, p1);
    AgreeLess(s, t, p, p2);
    AgreeLess(s, t, p, Token(s, e, "<").stop);
    TokenLocal(s, t, i, ">");
    TextBeforeLocal(s, t, p1, '<');
    TokenLocal(s, t, e, close);
    TokenLocal(s, t, p2, ">");
  }

  lemma TokenPrefix(s: string, i: nat, w: string, v: string)
    requires i <= |s| && Token(s, i, w).Match? && v <= w
    ensures Token(s, i, v).Match? && Token(s, i, v).stop <= Token(s, i, w).stop
  {
    var k := Skip(s, i);
    IsAtConcat(s, k, v, w[|v|..]);
    assert v + w[|v|..] == w;
  }

  lemma ContentLocal(s: string, t: string, i: nat, tag: string)
    requires i <= |s| && Content(s, i, tag).Match? && Agree(s, t, Content(s, i, tag).stop)
    ensures i <= |t| && Content(t, i, tag) == Content(s, i, tag)
  {
    if FullContent(s, i, tag).Match? {
      FullContentLocal(s, t, i, tag);
    } else {
      TokenLocal(s, t, i, "/>");
      TokenExcludes(t, i, "/>", ">", 0);
    }
  }

  lemma ValueLocal(s: string, t: string, i: nat)
    requires i <= |s| && Value(s, i).Match? && Agree(s, t, Value(s, i).stop)
    ensures i <= |t| && Value(t, i) == Value(s, i)
  {
    if BoolValue(s, i).Match? {
      BoolValueLocal(s, t, i);
    } else {
      var p1, tag := OpenTag(s, i).stop, OpenTag(s, i).value;
      AgreeLess(s, t, Value(s, i).stop, p1);
      OpenTagLocal(s, t, i);
      ContentLocal(s, t, p1, tag);
      ElementIsNotBool(t, i);
    }
  }

  /** The two forms of a value never compete. */
  lemma ElementIsNotBool(s: string, i: nat)
    requires i <= |s| && OpenTag(s, i).Match?
    ensures BoolValue(s, i).NoMatch?
  {
    var k := Skip(s, i);
    FirstChar(s, k + 1, "at");
    FirstChar(s, k + 1, "un");
    FirstChar(s, k + 1, "rt");
    FirstChar(s, k + 1, "er");
    if IsAt(s, k, "<b") {
      IsAtChar(s, k, "<b", 1);
      assert false;
    }
  }

  lemma FirstChar(s: string, i: nat, w: string)
    ensures w != "" && IsAt(s, i, w) ==> s[i] == w[0]
  {
    if w != "" && IsAt(s, i, w) {
      IsAtChar(s, i, w, 0);
    }
  }

  lemma AttributeLocal(s: string, t: string, i: nat)
    requires i <= |s| && Attribute(s, i).Match? && Agree(s, t, Attribute(s, i).stop)
    ensures i <= |t| && Attribute(t, i) == Attribute(s, i)
  {
    hide Token;
    hide TextUntil;
    hide Value;
    hide Agree;
    var p := Attribute(s, i).stop;
    var p1 := Token(s, i, "<a").stop;
    var p2 := Token(s, p1, "n=\"").stop;
    var p3 := TextUntil(s, p2, '"').stop;
    var p4 := Token(s, p3, ">").stop;
    var p5 := Value(s, p4).stop;
    AgreeLess(s, t, p, p1);
    AgreeLess(s, t, p, p2);
    AgreeLess(s, t, p, p3);
    AgreeLess(s, t, p, p4);
    AgreeLess(s, t, p, p5);
    TokenLocal(s, t, i, "<a");
    TokenLocal(s, t, p1, "n=\"");
    TextUntilLocal(s, t, p2, '"');
    TokenLocal(s, t, p3, ">");
    ValueLocal(s, t, p4);
    TokenLocal(s, t, p5, "</a>");
  }

  lemma AttributeNeedsOpening(s: string, i: nat, w: string)
    requires i <= |s| && Token(s, i, w).Match? && 2 <= |w| && w[1] != 'a'
    ensures Attribute(s, i).NoMatch?
  {
    TokenExcludes(s, i, w, "<a", 1);
  }

  /** The star of attributes stops for good where the closing tag of the record stands. */
  lemma {:induction false} AttributesLocal(s: string, t: string, i: nat)
    requires i <= |s|
    requires var e := Attributes(s, i).stop;
             Token(s, e, "</c>").Match? && Agree(s, t, Token(s, e, "</c>").stop)
    ensures i <= |t| && Attributes(t, i) == Attributes(s, i)
    decreases |s| - i
  {
    var a := Attribute(s, i);
    var p := Token(s, Attributes(s, i).stop, "</c>").stop;
    if a.Match? {
      AgreeLess(s, t, p, a.stop);
      AttributeLocal(s, t, i);
      AttributesLocal(s, t, a.stop);
    } else {
      TokenLocal(s, t, i, "</c>");
      AttributeNeedsOpening(t, i, "</c>");
    }
  }

  /** Whether and how a record matches is decided by its own characters alone. */
  lemma RecordLocal(s: string, t: string, i: nat)
    requires i <= |s| && Record(s, i).Match? && Agree(s, t, Record(s, i).stop)
    ensures i <= |t| && Record(t, i) == Record(s, i)
  {
    var p := Record(s, i).stop;
    var p1 := Token(s, i, "<c>").stop;
    var all := Attributes(s, p1);
    AgreeLess(s, t, p, p1);
    AgreeLess(s, t, p, all.stop);
    TokenLocal(s, t, i, "<c>");
    AttributesLocal(s, t, p1);
    TokenLocal(s, t, all.stop, "</c>");
  }

  /** Extension stability, and its converse: on an extended text a record matches exactly as
      before, or it did not match before and now ends in the added part. In particular no
      proper prefix of a record is a record. */
  lemma RecordExtension(s: string, u: string, i: nat)
    requires i <= |s|
    ensures Record(s, i).Match? ==> Record(s + u, i) == Record(s, i)
    ensures Record(s, i).NoMatch? && Record(s + u, i).Match? ==> |s| < Record(s + u, i).stop
  {
    var m := Record(s + u, i);
    if Record(s, i).Match? {
      var p := Record(s, i).stop;
      assert (s + u)[..p] == s[..p];
      RecordLocal(s, s + u, i);
    } else if m.Match? && m.stop <= |s| {
      assert (s + u)[..m.stop] == s[..m.stop];
      RecordLocal(s + u, s, i);
    }
  }

  lemma RecordHasNoShorterRecord(s: string, n: nat)
    requires Record(s, 0).Match? && n < Record(s, 0).stop
    ensures Record(s[..n], 0).NoMatch?
  {
    RecordExtension(s[..n], s[n..], 0);
    assert s[..n] + s[n..] == s;
  }

  /** The last character of a record is '>'. */
  lemma RecordEnd(s: string, i: nat)
    requires i <= |s| && Record(s, i).Match?
    ensures s[Record(s, i).stop - 1] == '>'
  {
    var e := Attributes(s, Token(s, i, "<c>").stop).stop;
    IsAtChar(s, Skip(s, e), "</c>", 3);
  }
}
