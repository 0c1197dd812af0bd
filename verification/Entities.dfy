/** The decoding of XML entities that classad::actor::set_attribute applies to keys and values. */
module Entities {
  import opened Text

  /** The table of entities, in the order of the passes. */
  const MARKS: seq<char> := ['"', '&', '\'', '<', '>']

  const MARK_SET: set<char> := {'"', '&', '\'', '<', '>'}

  function Entity(c: char): (e: string)
    requires c in MARKS
  {
    if c == '"' then "&quot;"
    else if c == '&' then "&amp;"
    else if c == '\'' then "&apos;"
    else if c == '<' then "&lt;"
    else "&gt;"
  }

  /** One row of the table applied by boost::replace_all. */
  function Pass(s: string, c: char): string
    requires c in MARKS
  {
    ReplaceAll(s, Entity(c), [c])
  }

  /** The passes for the first n rows of the table. */
  function DecodePasses(s: string, n: nat): string
    requires n <= |MARKS|
  {
    if n == 0 then s else Pass(DecodePasses(s, n - 1), MARKS[n - 1])
  }

  function Decode(s: string): string {
    DecodePasses(s, |MARKS|)
  }

  /** Writes the given marks as entities, character by character. */
  function Expand(t: string, marks: set<char>): string
    requires marks <= MARK_SET
  {
    if t == "" then ""
    else (if t[0] in marks then Entity(t[0]) else [t[0]]) + Expand(t[1..], marks)
  }

  /** The escaping of section 4.6 of XML 1.0: each mark is written as its entity. */
  function Escape(t: string): string {
    Expand(t, MARK_SET)
  }

  lemma {:induction false} ExpandNothing(t: string)
    ensures Expand(t, {}) == t
  {
    if t != "" {
      ExpandNothing(t[1..]);
    }
  }

  lemma EntityShape(c: char)
    requires c in MARKS
    ensures 4 <= |Entity(c)| && Entity(c)[0] == '&' && '&' !in Entity(c)[1..]
    ensures forall i | 1 <= i < |Entity(c)| :: Entity(c)[i] !in MARKS
  {
  }

  /** Two entities at the head of one text are the same entity. */
  lemma EntitiesDiffer(c: char, d: char, u: string)
    requires c in MARKS && d in MARKS && c != d
    ensures !(Entity(d) <= Entity(c) + u)
  {
    assert (Entity(c) + u)[1] == Entity(c)[1] && (Entity(c) + u)[2] == Entity(c)[2];
  }

  lemma PassOverTail(tail: string, u: string, c: char)
    requires c in MARKS && '&' !in tail && !(Entity(c) <= ['&'] + (tail + u))
    ensures Pass(['&'] + (tail + u), c) == ['&'] + (tail + Pass(u, c))
  {
    ReplaceAllPassesOne('&', tail + u, Entity(c), [c]);
    ReplaceAllPasses(tail, u, Entity(c), [c]);
  }

  /** The pass for one mark goes over the entity of another mark. */
  lemma PassOverEntity(x: char, u: string, c: char)
    requires x in MARKS && c in MARKS && x != c
    ensures Pass(Entity(x) + u, c) == Entity(x) + Pass(u, c)
  {
    EntityShape(x);
    EntityShape(c);
    EntitiesDiffer(x, c, u);
    var e, tail := Entity(x), Entity(x)[1..];
    assert e + u == ['&'] + (tail + u);
    PassOverTail(tail, u, c);
    assert e + Pass(u, c) == ['&'] + (tail + Pass(u, c));
  }

  /** The pass for one mark takes up an entity of that mark. */
  lemma PassOnEntity(u: string, c: char)
    requires c in MARKS
    ensures Pass(Entity(c) + u, c) == [c] + Pass(u, c)
  {
    assert (Entity(c) + u)[|Entity(c)|..] == u;
  }

  /** While ampersands are still written as entities (or are what the pass decodes),
      the pass undoes exactly the escapes of its own mark. */
  lemma {:induction false} PassOfEscaped(t: string, marks: set<char>, c: char)
    requires marks <= MARK_SET
    requires '&' in marks && c in marks
    ensures Pass(Expand(t, marks), c) == Expand(t, marks - {c})
  {
    if t != "" {
      var rest := Expand(t[1..], marks);
      PassOfEscaped(t[1..], marks, c);
      EntityShape(c);
      if t[0] == c {
        PassOnEntity(rest, c);
      } else if t[0] in marks {
        PassOverEntity(t[0], rest, c);
      } else {
        ReplaceAllPassesOne(t[0], rest, Entity(c), [c]);
      }
    }
  }

  /** An unmarked word at the head of the expansion stands at the head of the text. */
  lemma {:induction false} PlainPrefix(w: string, t: string, marks: set<char>)
    requires marks <= MARK_SET
    requires '&' !in w && w <= Expand(t, marks)
    ensures w <= t
  {
    if w != "" {
      assert t != "";
      assert w[0] == Expand(t, marks)[0];
      if t[0] in marks {
        EntityShape(t[0]);
        assert false;
      } else {
        assert Expand(t, marks)[1..] == Expand(t[1..], marks);
        PlainPrefix(w[1..], t[1..], marks);
      }
    }
  }

  lemma {:induction false} ExpandUnmarked(w: string, t: string, marks: set<char>)
    requires marks <= MARK_SET
    requires forall i | 0 <= i < |w| :: w[i] !in marks
    ensures Expand(w + t, marks) == w + Expand(t, marks)
  {
    if w == "" {
      assert w + t == t;
    } else {
      assert (w + t)[1..] == w[1..] + t;
      ExpandUnmarked(w[1..], t, marks);
    }
  }

  /** Once ampersands are plain, the pass also takes up the entity texts that the original
      text spells out itself. */
  lemma {:induction false} PassOfPlain(t: string, marks: set<char>, c: char)
    requires marks <= MARK_SET
    requires '&' !in marks && c in marks
    ensures Pass(Expand(t, marks), c)
            == Expand(Pass(t, c), marks - {c})
    decreases |t|
  {
    EntityShape(c);
    if t == "" {
    } else if Entity(c) <= t {
      var u := t[|Entity(c)|..];
      PassOfPlain(u, marks, c);
      assert t == Entity(c) + u;
      ExpandUnmarked(Entity(c), u, marks);
      PassOnEntity(Expand(u, marks), c);
      PassOnEntity(u, c);
      ExpandUnmarked([c], Pass(u, c), marks - {c});
    } else {
      var x, u := t[0], t[1..];
      assert t == [x] + u;
      PassOfPlain(u, marks, c);
      ReplaceAllPassesOne(x, u, Entity(c), [c]);
      PassOfPlainHead(t, marks, c);
      assert Pass(t, c)[1..] == Pass(u, c);
    }
  }

  lemma PassOfPlainHead(t: string, marks: set<char>, c: char)
    requires marks <= MARK_SET
    requires '&' !in marks && c in marks
    requires t != "" && !(Entity(c) <= t)
    ensures Pass(Expand(t, marks), c)
            == (if t[0] in marks - {c} then Entity(t[0]) else [t[0]])
               + Pass(Expand(t[1..], marks), c)
  {
    EntityShape(c);
    var rest := Expand(t[1..], marks);
    if t[0] == c {
      PassOnEntity(rest, c);
    } else if t[0] in marks {
      PassOverEntity(t[0], rest, c);
    } else {
      if Entity(c) <= [t[0]] + rest {
        assert Entity(c)[1..] <= rest by {
          assert ([t[0]] + rest)[1..] == rest;
        }
        PlainPrefix(Entity(c)[1..], t[1..], marks);
        assert false;
      }
      ReplaceAllPassesOne(t[0], rest, Entity(c), [c]);
    }
  }

  lemma DecodeUnfolded(s: string)
    ensures Decode(s) == Pass(Pass(Pass(Pass(Pass(s, '"'), '&'), '\''), '<'), '>')
  {
    assert DecodePasses(s, 0) == s;
    assert DecodePasses(s, 1) == Pass(s, '"');
    assert DecodePasses(s, 2) == Pass(DecodePasses(s, 1), '&');
    assert DecodePasses(s, 3) == Pass(DecodePasses(s, 2), '\'');
    assert DecodePasses(s, 4) == Pass(DecodePasses(s, 3), '<');
  }

  lemma FirstPasses(t: string)
    ensures Pass(Pass(Escape(t), '"'), '&') == Expand(t, {'\'', '<', '>'})
  {
    PassOfEscaped(t, MARK_SET, '"');
    assert MARK_SET - {'"'} == {'&', '\'', '<', '>'};
    PassOfEscaped(t, {'&', '\'', '<', '>'}, '&');
    assert {'&', '\'', '<', '>'} - {'&'} == {'\'', '<', '>'};
  }

  /** A pass on a text whose ampersands are plain, for use with a named set of marks. */
  lemma LaterPass(t: string, marks: set<char>, c: char, rest: set<char>)
    requires marks <= MARK_SET && '&' !in marks && c in marks && rest == marks - {c}
    ensures Pass(Expand(t, marks), c) == Expand(Pass(t, c), rest)
  {
    PassOfPlain(t, marks, c);
  }

  /** What the decoder makes of an escaped text: the escapes are undone, but after that the
      last three passes also decode what the text itself spells like an entity. */
  lemma DecodeOfEscape(t: string)
    ensures Decode(Escape(t))
            == Pass(Pass(Pass(t, '\''), '<'), '>')
  {
    DecodeUnfolded(Escape(t));
    FirstPasses(t);
    LaterPass(t, {'\'', '<', '>'}, '\'', {'<', '>'});
    var t1 := Pass(t, '\'');
    LaterPass(t1, {'<', '>'}, '<', {'>'});
    var t2 := Pass(t1, '<');
    LaterPass(t2, {'>'}, '>', {});
    ExpandNothing(Pass(t2, '>'));
  }

  /** The texts on which the five passes invert the escaping: those that do not
      themselves spell out one of the three entities decoded after the ampersand.
      Spelled-out &quot; and &amp; do no harm. */
  ghost predicate Decodable(t: string) {
    !Contains(t, "&apos;") && !Contains(t, "&lt;") && !Contains(t, "&gt;")
  }

  /** Decoding inverts the escaping of section 4.6 of XML 1.0 exactly on decodable texts. */
  lemma DecodeInvertsEscape(t: string)
    ensures Decode(Escape(t)) == t <==> Decodable(t)
    ensures Decodable(t) <==> !Contains(t, "&apos;") && !Contains(t, "&lt;") && !Contains(t, "&gt;")
  {
    hide Decode;
    hide Escape;
    hide ReplaceAll;
    DecodeOfEscape(t);
    var t1 := Pass(t, '\'');
    var t2 := Pass(t1, '<');
    ReplaceAllShrinks(t, Entity('\''), "'");
    ReplaceAllShrinks(t1, Entity('<'), "<");
    ReplaceAllShrinks(t2, Entity('>'), ">");
  }

  lemma {:induction false} ExpandConcat(u: string, v: string, marks: set<char>)
    requires marks <= MARK_SET
    ensures Expand(u + v, marks) == Expand(u, marks) + Expand(v, marks)
  {
    hide Entity;
    if u == "" {
      assert u + v == v;
    } else {
      assert (u + v)[1..] == u[1..] + v;
      ExpandConcat(u[1..], v, marks);
    }
  }

  lemma OneEscaped(c: char)
    ensures Escape([c]) == if c in MARK_SET then Entity(c) else [c]
  {
    assert [c][1..] == "" && Expand("", MARK_SET) == "";
  }

  /** The escaping, character by character. */
  lemma EscapeIs(u: string, v: string, c: char)
    ensures Escape(u + v) == Escape(u) + Escape(v) && Escape("") == ""
    ensures Escape([c]) == match c
                           case '"' => "&quot;"
                           case '&' => "&amp;"
                           case '\'' => "&apos;"
                           case '<' => "&lt;"
                           case '>' => "&gt;"
                           case _ => [c]
  {
    ExpandConcat(u, v, MARK_SET);
    OneEscaped(c);
  }
}
