/** A printer for ClassAd records, in the form in which Condor writes its log, and the proof that the
    parser of condor_job/classad.hpp undoes it. */
module RecordPrinter {
  import opened Text
  import opened Entities
  import opened Grammar
  import opened ClassAds

  /** An attribute as a program that writes logs means it, the white space in front of it, and whether an empty text
      is written in the short form. */
  datatype Field = Field(key: string, tag: string, text: string, pad: string, brief: bool)

  const TAGS: set<string> := {"b", "e", "i", "r", "s", "at", "un"}

  predicate Trimmed(s: string) {
    s != "" ==> !IsSpace(s[0]) && !IsSpace(s[|s| - 1])
  }

  /** The fields that survive being written and read. */
  ghost predicate Printable(f: Field) {
    && f.tag in TAGS && (forall c | c in f.pad :: IsSpace(c))
    && Trimmed(f.key) && Trimmed(f.text)
    && Decodable(Lower(f.key)) && Decodable(f.text)
  }

  ghost predicate AllPrintable(fields: seq<Field>) {
    forall f | f in fields :: Printable(f)
  }

  function BoolText(text: string): string {
    "<b" + (" v=\"" + (Escape(text) + ("\"" + "/>")))
  }

  function ElementText(tag: string, text: string): string {
    "<" + (tag + (">" + (Escape(text) + (("</" + tag) + ">"))))
  }

  function PrintValue(f: Field): string {
    if f.tag == "b" then BoolText(f.text)
    else if f.brief && f.text == "" then "<" + (f.tag + "/>")
    else ElementText(f.tag, f.text)
  }

  function PrintField(f: Field): string {
    "<a" + (" n=\"" + (Escape(f.key) + ("\"" + (">" + (PrintValue(f) + "</a>")))))
  }

  /** The attributes of a record, each after its white space. */
  function PrintFields(fields: seq<Field>): string {
    if fields == [] then "" else fields[0].pad + (PrintField(fields[0]) + PrintFields(fields[1..]))
  }

  function PrintRecord(fields: seq<Field>, space: string): string {
    "<c>" + (PrintFields(fields) + (space + "</c>"))
  }

  /** The meaning of a record: keys are lowered, and of equal keys the last one counts. */
  function AdOf(fields: seq<Field>): Ad {
    if fields == [] then map[]
    else
      var last := fields[|fields| - 1];
      AdOf(fields[..|fields| - 1])[Lower(last.key) := AdValue(last.tag, last.text)]
  }

  // ----- Reading what was printed -----

  lemma EscapeHasNoMark(t: string, c: char)
    requires c in MARKS && c != '&'
    ensures c !in Escape(t)
  {
    ExpandHasNoMark(t, MARK_SET, c);
  }

  lemma {:induction false} ExpandHasNoMark(t: string, marks: set<char>, c: char)
    requires marks <= MARK_SET && c in marks && c != '&'
    ensures c !in Expand(t, marks)
  {
    if t != "" {
      ExpandHasNoMark(t[1..], marks, c);
      if t[0] in marks {
        EntityShape(t[0]);
        assert Entity(t[0]) == ['&'] + Entity(t[0])[1..];
      }
    }
  }

  /** Escaping neither adds white space at the ends nor removes it. */
  lemma {:induction false} EscapeTrimmed(t: string)
    requires Trimmed(t)
    ensures Trimmed(Escape(t))
  {
    if t != "" {
      EscapeEnds(t);
    }
  }

  lemma {:induction false} EscapeEnds(t: string)
    requires t != ""
    ensures Escape(t) != ""
    ensures IsSpace(Escape(t)[0]) <==> IsSpace(t[0])
    ensures IsSpace(Escape(t)[|Escape(t)| - 1]) <==> IsSpace(t[|t| - 1])
  {
    var head := if t[0] in MARK_SET then Entity(t[0]) else [t[0]];
    var rest := Escape(t[1..]);
    assert Escape(t) == head + rest;
    if |t| == 1 {
      assert rest == "";
      assert Escape(t) == head;
    } else {
      EscapeEnds(t[1..]);
      assert Escape(t)[|Escape(t)| - 1] == rest[|rest| - 1];
    }
  }

  function Written(c: char): string {
    if c in MARK_SET then Entity(c) else [c]
  }

  lemma EscapeFirst(t: string)
    requires t != ""
    ensures Escape(t) == Written(t[0]) + Escape(t[1..])
    ensures Lower(t) != "" && Lower(t)[0] == LowerChar(t[0]) && Lower(t)[1..] == Lower(t[1..])
  {
    hide Entity;
  }

  lemma LowerOfWritten(c: char)
    ensures Lower(Written(c)) == Written(LowerChar(c))
  {
    if c in MARK_SET {
      LowerOfEntity(c);
    }
  }

  lemma {:induction false} LowerOfEscape(t: string)
    ensures Lower(Escape(t)) == Escape(Lower(t))
  {
    if t != "" {
      LowerOfEscape(t[1..]);
      EscapeFirst(t);
      EscapeFirst(Lower(t));
      LowerConcat(Written(t[0]), Escape(t[1..]));
      LowerOfWritten(t[0]);
      hide *;
    }
  }

  lemma LowerOfEntity(c: char)
    requires c in MARK_SET
    ensures Lower(Entity(c)) == Entity(c)
  {
    forall i | 0 <= i < |Entity(c)| ensures LowerChar(Entity(c)[i]) == Entity(c)[i] {
    }
    assert Lower(Entity(c)) == Entity(c);
  }

  lemma SkipNothing(s: string, i: nat)
    requires i < |s| && !IsSpace(s[i])
    ensures Skip(s, i) == i
  {
  }

  lemma {:induction false} SkipOver(s: string, i: nat, j: nat)
    requires i <= j <= |s| && (forall k | i <= k < j :: IsSpace(s[k]))
    ensures Skip(s, i) == Skip(s, j)
    decreases j - i
  {
    if i < j {
      SkipOver(s, i + 1, j);
    }
  }

  lemma GlyphsAreNoSpace()
    ensures !IsSpace('<') && !IsSpace('>') && !IsSpace('"') && !IsSpace('/') && !IsSpace('n') && !IsSpace('v')
  {
  }

  /** A word that does not start with white space is found as a token where it stands. */
  lemma TokenHere(s: string, i: nat, w: string)
    requires w != "" && IsAt(s, i, w) && !IsSpace(w[0])
    ensures Token(s, i, w) == Match(i + |w|, ())
  {
    IsAtChar(s, i, w, 0);
    SkipNothing(s, i);
  }

  lemma {:induction false} StarEndHere(s: string, i: nat, j: nat, q: char)
    requires i <= j < |s| && s[j] == q && !IsSpace(q)
    requires forall k | i <= k < j :: s[k] != q
    requires i < j ==> !IsSpace(s[j - 1])
    ensures StarEnd(s, i, q) == j
    decreases j - i
  {
    var k := Skip(s, i);
    if i == j {
      SkipNothing(s, i);
    } else {
      assert k <= j - 1;
      StarEndHere(s, k + 1, j, q);
    }
  }

  /** A trimmed text without q is found again in front of q. */
  lemma TextHere(s: string, i: nat, t: string, q: char)
    requires IsAt(s, i, t) && IsAt(s, i + |t|, [q])
    requires Trimmed(t) && q !in t && !IsSpace(q)
    ensures TextBefore(s, i, q) == Match(i + |t|, t)
    ensures TextUntil(s, i, q) == Match(i + |t| + 1, t)
  {
    var j := i + |t|;
    assert s[j] == q by { IsAtChar(s, j, [q], 0); }
    forall k | i <= k < j ensures s[k] == t[k - i] { IsAtChar(s, i, t, k - i); }
    SkipNothing(s, i);
    StarEndHere(s, i, j, q);
    TokenHere(s, j, [q]);
  }

  /** The same with one blank in front of the word. */
  lemma TokenAfterBlank(s: string, i: nat, w: string)
    requires w != "" && IsAt(s, i, " " + w) && !IsSpace(w[0])
    ensures Token(s, i, w) == Match(i + 1 + |w|, ())
  {
    IsAtConcat(s, i, " ", w);
    IsAtChar(s, i, " ", 0);
    IsAtChar(s, i + 1, w, 0);
    SkipOver(s, i, i + 1);
    SkipNothing(s, i + 1);
  }

  lemma BoolPieces(s: string, i: nat, e: string)
    requires IsAt(s, i, "<b" + (" v=\"" + (e + ("\"" + "/>"))))
    ensures IsAt(s, i, "<b") && IsAt(s, i + 2, " " + "v=\"") && IsAt(s, i + 6, e)
    ensures IsAt(s, i + 6 + |e|, "\"") && IsAt(s, i + 7 + |e|, "/>")
  {
    IsAtConcat(s, i, "<b", " v=\"" + (e + ("\"" + "/>")));
    IsAtConcat(s, i + 2, " v=\"", e + ("\"" + "/>"));
    IsAtConcat(s, i + 6, e, "\"" + "/>");
    IsAtConcat(s, i + 6 + |e|, "\"", "/>");
    assert " v=\"" == " " + "v=\"";
  }

  lemma BoolHere(s: string, i: nat, text: string)
    requires IsAt(s, i, BoolText(text)) && Trimmed(text)
    ensures Value(s, i) == Match(i + |BoolText(text)|, ("b", Escape(text)))
  {
    var e := Escape(text);
    EscapeHasNoMark(text, '"');
    EscapeTrimmed(text);
    BoolPieces(s, i, e);
    BoolFrom(s, i, e);
  }

  lemma BoolFrom(s: string, i: nat, e: string)
    requires IsAt(s, i, "<b") && IsAt(s, i + 2, " " + "v=\"") && IsAt(s, i + 6, e)
    requires IsAt(s, i + 6 + |e|, "\"") && IsAt(s, i + 7 + |e|, "/>")
    requires Trimmed(e) && '"' !in e
    ensures Value(s, i) == Match(i + 9 + |e|, ("b", e))
  {
    hide *;
    GlyphsAreNoSpace();
    assert Token(s, i, "<b") == Match(i + 2, ()) by { TokenHere(s, i, "<b"); }
    assert Token(s, i + 2, "v=\"") == Match(i + 6, ()) by { TokenAfterBlank(s, i + 2, "v=\""); }
    assert TextUntil(s, i + 6, '"') == Match(i + 7 + |e|, e) by { TextHere(s, i + 6, e, '"'); }
    assert Token(s, i + 7 + |e|, "/>") == Match(i + 9 + |e|, ()) by { TokenHere(s, i + 7 + |e|, "/>"); }
    BoolFromTokens(s, i, i + 2, i + 6, i + 7 + |e|, e, i + 9 + |e|);
  }

  lemma BoolFromTokens(s: string, i: nat, p1: nat, p2: nat, p3: nat, text: string, p4: nat)
    requires i <= |s| && Token(s, i, "<b") == Match(p1, ()) && Token(s, p1, "v=\"") == Match(p2, ())
    requires TextUntil(s, p2, '"') == Match(p3, text) && Token(s, p3, "/>") == Match(p4, ())
    ensures Value(s, i) == Match(p4, ("b", text))
  {
  }

  lemma TagHere(s: string, i: nat, tag: string)
    requires IsAt(s, i, tag) && tag in TAGS && tag != "b"
    ensures Tag(s, i) == Match(i + |tag|, tag)
  {
    IsAtChar(s, i, tag, 0);
    if tag == "un" {
      assert !IsAt(s, i, "at") && !IsAt(s, i, "rt");
    }
  }

  lemma ElementPieces(s: string, i: nat, tag: string, e: string)
    requires IsAt(s, i, "<" + (tag + (">" + (e + (("</" + tag) + ">")))))
    ensures IsAt(s, i, "<") && IsAt(s, i + 1, tag)
    ensures var p := i + 1 + |tag|; IsAt(s, p, ">") && IsAt(s, p + 1, e)
    ensures var q := i + 2 + |tag| + |e|; IsAt(s, q, "</" + tag) && IsAt(s, q, "<") && IsAt(s, q + 2 + |tag|, ">")
  {
    hide IsAt;
    var close := "</" + tag;
    IsAtConcat(s, i, "<", tag + (">" + (e + (close + ">"))));
    IsAtConcat(s, i + 1, tag, ">" + (e + (close + ">")));
    var p := i + 1 + |tag|;
    IsAtConcat(s, p, ">", e + (close + ">"));
    IsAtConcat(s, p + 1, e, close + ">");
    var q := p + 1 + |e|;
    IsAtConcat(s, q, close, ">");
    assert close == "<" + ("/" + tag);
    IsAtConcat(s, q, "<", "/" + tag);
  }

  lemma ElementHere(s: string, i: nat, tag: string, text: string)
    requires tag in TAGS && tag != "b"
    requires IsAt(s, i, ElementText(tag, text)) && Trimmed(text)
    ensures Value(s, i) == Match(i + |ElementText(tag, text)|, (tag, Escape(text)))
  {
    var e := Escape(text);
    EscapeHasNoMark(text, '<');
    EscapeTrimmed(text);
    ElementPieces(s, i, tag, e);
    OpenTagHere(s, i, tag);
    ElementFromPieces(s, i, tag, e);
  }

  lemma OpenTagHere(s: string, i: nat, tag: string)
    requires IsAt(s, i, "<") && IsAt(s, i + 1, tag) && tag in TAGS && tag != "b"
    ensures OpenTag(s, i) == Match(i + 1 + |tag|, tag)
  {
    TokenHere(s, i, "<");
    TagHere(s, i + 1, tag);
  }

  lemma ElementFromPieces(s: string, i: nat, tag: string, e: string)
    requires i <= |s| && OpenTag(s, i) == Match(i + 1 + |tag|, tag)
    requires var p := i + 1 + |tag|; IsAt(s, p, ">") && IsAt(s, p + 1, e)
    requires var q := i + 2 + |tag| + |e|; IsAt(s, q, "</" + tag) && IsAt(s, q, "<") && IsAt(s, q + 2 + |tag|, ">")
    requires Trimmed(e) && '<' !in e
    ensures Value(s, i) == Match(i + 5 + 2 * |tag| + |e|, (tag, e))
  {
    hide *;
    var p := i + 1 + |tag|;
    FullContentHere(s, p, tag, e);
    ElementIsNotBool(s, i);
    ElementFrom(s, i, tag, p, e, p + |e| + |tag| + 4);
  }

  lemma ElementFrom(s: string, i: nat, tag: string, p: nat, e: string, q: nat)
    requires i <= |s| && OpenTag(s, i) == Match(p, tag) && FullContent(s, p, tag) == Match(q, e)
    requires BoolValue(s, i).NoMatch?
    ensures Value(s, i) == Match(q, (tag, e))
  {
  }

  lemma FullContentHere(s: string, p: nat, tag: string, e: string)
    requires IsAt(s, p, ">") && IsAt(s, p + 1, e)
    requires var q := p + 1 + |e|; IsAt(s, q, "</" + tag) && IsAt(s, q, "<") && IsAt(s, q + 2 + |tag|, ">")
    requires Trimmed(e) && '<' !in e
    ensures FullContent(s, p, tag) == Match(p + |e| + |tag| + 4, e)
  {
    hide *;
    GlyphsAreNoSpace();
    var q := p + 1 + |e|;
    assert Token(s, p, ">") == Match(p + 1, ()) by { TokenHere(s, p, ">"); }
    assert TextBefore(s, p + 1, '<') == Match(q, e) by { TextHere(s, p + 1, e, '<'); }
    assert Token(s, q, "</" + tag) == Match(q + 2 + |tag|, ()) by { TokenHere(s, q, "</" + tag); }
    assert Token(s, q + 2 + |tag|, ">") == Match(q + 3 + |tag|, ()) by { TokenHere(s, q + 2 + |tag|, ">"); }
    FullContentFrom(s, p, tag, p + 1, q, e, q + 2 + |tag|, q + 3 + |tag|);
  }

  lemma FullContentFrom(s: string, i: nat, tag: string, p1: nat, e: nat, text: string, p2: nat, p3: nat)
    requires i <= |s| && Token(s, i, ">") == Match(p1, ())
    requires TextBefore(s, p1, '<') == Match(e, text)
    requires Token(s, e, "</" + tag) == Match(p2, ())
    requires Token(s, p2, ">") == Match(p3, ())
    ensures FullContent(s, i, tag) == Match(p3, text)
  {
  }

  function RawOf(f: Field): RawAttribute {
    RawAttribute(Escape(f.key), f.tag, Escape(f.text))
  }

  function RawsOf(fields: seq<Field>): seq<RawAttribute> {
    if fields == [] then [] else [RawOf(fields[0])] + RawsOf(fields[1..])
  }

  lemma FieldPieces(s: string, i: nat, k: string, v: string)
    requires IsAt(s, i, "<a" + (" n=\"" + (k + ("\"" + (">" + (v + "</a>"))))))
    ensures IsAt(s, i, "<a") && IsAt(s, i + 2, " " + "n=\"") && IsAt(s, i + 6, k)
    ensures var p := i + 6 + |k|;
            IsAt(s, p, "\"") && IsAt(s, p + 1, ">") && IsAt(s, p + 2, v) && IsAt(s, p + 2 + |v|, "</a>")
  {
    IsAtConcat(s, i, "<a", " n=\"" + (k + ("\"" + (">" + (v + "</a>")))));
    IsAtConcat(s, i + 2, " n=\"", k + ("\"" + (">" + (v + "</a>"))));
    IsAtConcat(s, i + 6, k, "\"" + (">" + (v + "</a>")));
    var p := i + 6 + |k|;
    IsAtConcat(s, p, "\"", ">" + (v + "</a>"));
    IsAtConcat(s, p + 1, ">", v + "</a>");
    IsAtConcat(s, p + 2, v, "</a>");
    assert " n=\"" == " " + "n=\"";
  }

  lemma ValueHere(s: string, i: nat, f: Field)
    requires Printable(f) && IsAt(s, i, PrintValue(f))
    ensures Value(s, i) == Match(i + |PrintValue(f)|, (f.tag, Escape(f.text)))
  {
    hide Value;
    hide IsAt;
    if f.tag == "b" {
      BoolHere(s, i, f.text);
    } else if f.brief && f.text == "" {
      BriefHere(s, i, f.tag);
    } else {
      ElementHere(s, i, f.tag, f.text);
    }
  }

  /** The short form of an empty text. */
  lemma BriefHere(s: string, i: nat, tag: string)
    requires tag in TAGS && tag != "b" && IsAt(s, i, "<" + (tag + "/>"))
    ensures Value(s, i) == Match(i + 3 + |tag|, (tag, ""))
  {
    hide *;
    GlyphsAreNoSpace();
    IsAtConcat(s, i, "<", tag + "/>");
    IsAtConcat(s, i + 1, tag, "/>");
    OpenTagHere(s, i, tag);
    var p := i + 1 + |tag|;
    assert Token(s, p, "/>") == Match(p + 2, ()) by { TokenHere(s, p, "/>"); }
    TokenExcludes(s, p, "/>", ">", 0);
    EmptyFromTokens(s, i, tag, p);
    ElementIsNotBool(s, i);
    ValueOfElement(s, i);
  }

  lemma EmptyFromTokens(s: string, i: nat, tag: string, p: nat)
    requires i <= |s| && OpenTag(s, i) == Match(p, tag)
    requires Token(s, p, "/>") == Match(p + 2, ()) && Token(s, p, ">").NoMatch?
    ensures ElementValue(s, i) == Match(p + 2, (tag, ""))
  {
    hide Token;
    hide OpenTag;
  }

  lemma ValueOfElement(s: string, i: nat)
    requires i <= |s| && BoolValue(s, i).NoMatch?
    ensures Value(s, i) == ElementValue(s, i)
  {
  }

  lemma FieldHere(s: string, i: nat, f: Field)
    requires IsAt(s, i, PrintField(f)) && Printable(f)
    ensures Attribute(s, i) == Match(i + |PrintField(f)|, RawOf(f))
  {
    hide Attribute;
    hide Value;
    hide Escape;
    hide PrintValue;
    hide IsAt;
    var k, v := Escape(f.key), PrintValue(f);
    FieldPieces(s, i, k, v);
    ValueHere(s, i + 8 + |k|, f);
    EscapeHasNoMark(f.key, '"');
    EscapeTrimmed(f.key);
    AttributeHere(s, i, k, v, (f.tag, Escape(f.text)));
  }

  lemma AttributeHere(s: string, i: nat, k: string, v: string, value: (string, string))
    requires IsAt(s, i, "<a") && IsAt(s, i + 2, " " + "n=\"") && IsAt(s, i + 6, k)
    requires var p := i + 6 + |k|;
             IsAt(s, p, "\"") && IsAt(s, p + 1, ">") && IsAt(s, p + 2, v) && IsAt(s, p + 2 + |v|, "</a>")
    requires Value(s, i + 8 + |k|) == Match(i + 8 + |k| + |v|, value)
    requires Trimmed(k) && '"' !in k
    ensures Attribute(s, i) == Match(i + 12 + |k| + |v|, RawAttribute(k, value.0, value.1))
  {
    hide *;
    GlyphsAreNoSpace();
    var p := i + 6 + |k|;
    assert Token(s, i, "<a") == Match(i + 2, ()) by { TokenHere(s, i, "<a"); }
    assert Token(s, i + 2, "n=\"") == Match(i + 6, ()) by { TokenAfterBlank(s, i + 2, "n=\""); }
    assert TextUntil(s, i + 6, '"') == Match(p + 1, k) by { TextHere(s, i + 6, k, '"'); }
    assert Token(s, p + 1, ">") == Match(p + 2, ()) by { TokenHere(s, p + 1, ">"); }
    assert Token(s, p + 2 + |v|, "</a>") == Match(p + 6 + |v|, ()) by { TokenHere(s, p + 2 + |v|, "</a>"); }
    AttributeFrom(s, i, i + 2, i + 6, p + 1, k, p + 2, p + 2 + |v|, value, p + 6 + |v|);
  }

  lemma AttributeFrom(s: string, i: nat, p1: nat, p2: nat, p3: nat, key: string, p4: nat,
                      p5: nat, value: (string, string), p6: nat)
    requires i <= |s| && Token(s, i, "<a") == Match(p1, ())
    requires Token(s, p1, "n=\"") == Match(p2, ())
    requires TextUntil(s, p2, '"') == Match(p3, key)
    requires Token(s, p3, ">") == Match(p4, ())
    requires Value(s, p4) == Match(p5, value)
    requires Token(s, p5, "</a>") == Match(p6, ())
    ensures Attribute(s, i) == Match(p6, RawAttribute(key, value.0, value.1))
  {
  }

  /** Skipping over the space in front of a token changes nothing for the attribute. */
  lemma AttributeAfterSpace(s: string, i: nat, j: nat)
    requires i <= j <= |s| && (forall k | i <= k < j :: IsSpace(s[k]))
    ensures Attribute(s, i) == Attribute(s, j)
    ensures Token(s, i, "</c>") == Token(s, j, "</c>")
  {
    hide *;
    TokenSkips(s, i, j, "</c>");
    TokenSkips(s, i, j, "<a");
    SameOpening(s, i, j);
  }

  lemma TokenSkips(s: string, i: nat, j: nat, w: string)
    requires i <= j <= |s| && (forall k | i <= k < j :: IsSpace(s[k]))
    ensures Token(s, i, w) == Token(s, j, w)
  {
    SkipOver(s, i, j);
  }

  lemma SameOpening(s: string, i: nat, j: nat)
    requires i <= |s| && j <= |s| && Token(s, i, "<a") == Token(s, j, "<a")
    ensures Attribute(s, i) == Attribute(s, j)
  {
    hide Token;
    hide TextUntil;
    hide Value;
  }

  lemma SpaceAt(s: string, i: nat, space: string)
    requires IsAt(s, i, space) && (forall c | c in space :: IsSpace(c))
    ensures forall k | i <= k < i + |space| :: IsSpace(s[k])
  {
    forall k | i <= k < i + |space| ensures IsSpace(s[k]) {
      IsAtChar(s, i, space, k - i);
    }
  }

  lemma PrintFieldsSteps(fields: seq<Field>)
    requires fields != [] && AllPrintable(fields)
    ensures PrintFields(fields) == fields[0].pad + (PrintField(fields[0]) + PrintFields(fields[1..]))
    ensures RawsOf(fields) == [RawOf(fields[0])] + RawsOf(fields[1..])
    ensures Printable(fields[0]) && AllPrintable(fields[1..]) && forall c | c in fields[0].pad :: IsSpace(c)
  {
  }

  lemma PrintNoFields()
    ensures PrintFields([]) == "" && RawsOf([]) == []
  {
  }

  /** Printed fields are read up to where no further attribute follows. */
  lemma {:induction false} FieldsThen(s: string, i: nat, fields: seq<Field>)
    requires AllPrintable(fields)
    requires IsAt(s, i, PrintFields(fields))
    requires i + |PrintFields(fields)| <= |s|
    requires Attribute(s, i + |PrintFields(fields)|).NoMatch?
    ensures Attributes(s, i) == Match(i + |PrintFields(fields)|, RawsOf(fields))
    decreases |fields|
  {
    hide *;
    if fields == [] {
      PrintNoFields();
      NoFields(s, i);
    } else {
      var space := fields[0].pad;
      var f, rest := PrintField(fields[0]), PrintFields(fields[1..]);
      PrintFieldsSteps(fields);
      IsAtConcat(s, i, space, f + rest);
      IsAtConcat(s, i + |space|, f, rest);
      var p := i + |space| + |f|;
      FieldAfterSpace(s, i, fields[0], space);
      FieldsThen(s, p, fields[1..]);
      OneMoreField(s, i, p, RawOf(fields[0]), p + |rest|, RawsOf(fields[1..]));
    }
  }

  lemma FieldsHere(s: string, i: nat, fields: seq<Field>, space: string)
    requires AllPrintable(fields) && (forall c | c in space :: IsSpace(c))
    requires IsAt(s, i, PrintFields(fields) + (space + "</c>"))
    ensures Attributes(s, i) == Match(i + |PrintFields(fields)|, RawsOf(fields))
    ensures Token(s, i + |PrintFields(fields)|, "</c>")
            == Match(i + |PrintFields(fields)| + |space| + 4, ())
  {
    hide *;
    var p := PrintFields(fields);
    IsAtConcat(s, i, p, space + "</c>");
    IsAtConcat(s, i + |p|, space, "</c>");
    NoMoreFields(s, i + |p|, space);
    AtBounds(s, i, p);
    FieldsThen(s, i, fields);
  }

  lemma FieldAfterSpace(s: string, i: nat, f: Field, space: string)
    requires Printable(f) && (forall c | c in space :: IsSpace(c))
    requires IsAt(s, i, space) && IsAt(s, i + |space|, PrintField(f))
    ensures Attribute(s, i) == Match(i + |space| + |PrintField(f)|, RawOf(f))
  {
    hide *;
    SpaceAt(s, i, space);
    AtBounds(s, i, space);
    AttributeAfterSpace(s, i, i + |space|);
    FieldHere(s, i + |space|, f);
  }

  lemma OneMoreField(s: string, i: nat, p: nat, raw: RawAttribute, q: nat, raws: seq<RawAttribute>)
    requires i <= |s| && Attribute(s, i) == Match(p, raw) && Attributes(s, p) == Match(q, raws)
    ensures Attributes(s, i) == Match(q, [raw] + raws)
  {
  }

  lemma NoMoreFields(s: string, i: nat, space: string)
    requires forall c | c in space :: IsSpace(c)
    requires IsAt(s, i, space) && IsAt(s, i + |space|, "</c>")
    ensures i <= |s| && Attribute(s, i).NoMatch?
    ensures Token(s, i, "</c>") == Match(i + |space| + 4, ())
  {
    hide *;
    GlyphsAreNoSpace();
    var j := i + |space|;
    SpaceAt(s, i, space);
    TokenHere(s, j, "</c>");
    AtBounds(s, i, space);
    AttributeAfterSpace(s, i, j);
    AttributeNeedsOpening(s, j, "</c>");
  }

  lemma NoFields(s: string, i: nat)
    requires i <= |s| && Attribute(s, i).NoMatch?
    ensures Attributes(s, i) == Match(i, [])
  {
    hide Attribute;
  }

  lemma AtBounds(s: string, i: nat, w: string)
    requires IsAt(s, i, w)
    ensures i + |w| <= |s|
  {
  }

  lemma {:induction false} CommitRaws(fields: seq<Field>)
    requires AllPrintable(fields)
    ensures CommitAll(map[], RawsOf(fields)) == AdOf(fields)
  {
    if fields != [] {
      var front, last := fields[..|fields| - 1], fields[|fields| - 1];
      assert fields == front + [last];
      RawsOfAppend(front, last);
      CommitRaws(front);
      CommitOneMore(map[], RawsOf(front), RawOf(last));
      CommitPrinted(AdOf(front), last);
    }
  }

  lemma CommitPrinted(ad: Ad, f: Field)
    requires Printable(f)
    ensures Commit(ad, RawOf(f)) == ad[Lower(f.key) := AdValue(f.tag, f.text)]
  {
    LowerOfEscape(f.key);
    DecodeInvertsEscape(Lower(f.key));
    DecodeInvertsEscape(f.text);
  }

  lemma {:induction false} RawsOfAppend(fields: seq<Field>, f: Field)
    ensures RawsOf(fields + [f]) == RawsOf(fields) + [RawOf(f)]
  {
    if fields == [] {
      assert fields + [f] == [f];
    } else {
      assert (fields + [f])[1..] == fields[1..] + [f];
      RawsOfAppend(fields[1..], f);
    }
  }

  /** A printed record is parsed back in any surroundings, whatever follows it. */
  lemma RecordHere(s: string, i: nat, fields: seq<Field>, space: string)
    requires AllPrintable(fields) && (forall c | c in space :: IsSpace(c))
    requires IsAt(s, i, PrintRecord(fields, space))
    ensures Record(s, i) == Match(i + |PrintRecord(fields, space)|, RawsOf(fields))
  {
    hide *;
    GlyphsAreNoSpace();
    var q := i + 3 + |PrintFields(fields)|;
    RecordPieces(s, i, fields, space);
    TokenHere(s, i, "<c>");
    FieldsHere(s, i + 3, fields, space);
    RecordFrom(s, i, i + 3, q, RawsOf(fields), q + |space| + 4);
  }

  lemma RecordPieces(s: string, i: nat, fields: seq<Field>, space: string)
    requires IsAt(s, i, PrintRecord(fields, space))
    ensures IsAt(s, i, "<c>") && IsAt(s, i + 3, PrintFields(fields) + (space + "</c>"))
    ensures i <= |s| && |PrintRecord(fields, space)| == 3 + |PrintFields(fields)| + |space| + 4
  {
    IsAtConcat(s, i, "<c>", PrintFields(fields) + (space + "</c>"));
  }

  lemma RecordFrom(s: string, i: nat, p1: nat, q: nat, raws: seq<RawAttribute>, p2: nat)
    requires i <= |s| && Token(s, i, "<c>") == Match(p1, ())
    requires Attributes(s, p1) == Match(q, raws) && Token(s, q, "</c>") == Match(p2, ())
    ensures Record(s, i) == Match(p2, raws)
  {
  }

  /** The round trip: after text in which every "<c" has a letter or digit behind it, find_and_parse stops right
      behind a printed record and has read its meaning. */
  lemma RecordRoundTrip(junk: string, fields: seq<Field>, space: string, rest: string)
    requires AllPrintable(fields) && (forall c | c in space :: c in {' ', '\t', '\n', '\U{000B}', '\U{000C}', '\r'})
    requires forall k: nat | k + 1 < |junk| && junk[k] == '<' && junk[k + 1] == 'c' ::
               k + 2 < |junk| && var c := junk[k + 2]; '0' <= c <= '9' || 'a' <= c <= 'z' || 'A' <= c <= 'Z'
    ensures NextRecord(junk + PrintRecord(fields, space) + rest, 0, map[])
            == Hit(|junk|, |junk + PrintRecord(fields, space)|, AdOf(fields))
  {
    PassedOver(junk);
    hide *;
    forall c | c in space ensures IsSpace(c) {
      SpaceIs(c);
    }
    RecordIsFound(junk, fields, space, rest);
  }

  lemma RecordIsFound(junk: string, fields: seq<Field>, space: string, rest: string)
    requires AllPrintable(fields) && (forall c | c in space :: IsSpace(c))
    requires NoOpener(junk)
    ensures NextRecord(junk + PrintRecord(fields, space) + rest, 0, map[])
            == Hit(|junk|, |junk + PrintRecord(fields, space)|, AdOf(fields))
  {
    hide Record;
    hide CommitAll;
    hide AdOf;
    var r := PrintRecord(fields, space);
    var s := junk + r + rest;
    RecordAt(s, junk, fields, space, rest);
    assert s == junk + (r + rest);
    SkipJunk(junk, r + rest);
    assert s[|junk|..] == r + rest;
    RecordHere(r + rest, 0, fields, space);
    CommitRaws(fields);
  }

  lemma RecordAt(s: string, junk: string, fields: seq<Field>, space: string, rest: string)
    requires s == junk + PrintRecord(fields, space) + rest
    ensures IsAt(s, |junk|, PrintRecord(fields, space)) && Opener(s, |junk|)
  {
    var r := PrintRecord(fields, space);
    assert s[|junk|..|junk| + |r|] == r;
    assert r[..3] == "<c>";
    OpenerHere(s, |junk|, r);
  }

  lemma OpenerHere(s: string, i: nat, r: string)
    requires IsAt(s, i, r) && "<c>" <= r
    ensures Opener(s, i)
  {
    assert r == "<c>" + r[3..];
    IsAtConcat(s, i, "<c>", r[3..]);
    IsAtChar(s, i, "<c>", 2);
    assert "<c>" == "<c" + ">";
    IsAtConcat(s, i, "<c", ">");
  }

  /** A record behind text without an opener is where the skipping stops. */
  lemma SkipJunk(junk: string, r: string)
    requires NoOpener(junk) && "<c>" <= r
    ensures SkipToClassad(junk + r, 0) == |junk|
  {
    var s := junk + r;
    forall k: nat | k < |junk| ensures !Opener(s, k) {
      assert !Opener(junk, k);
      if k + 2 <= |junk| {
        assert s[k..k + 2] == junk[k..k + 2];
      } else {
        assert s[k + 1] == r[0];
        if Opener(s, k) {
          IsAtChar(s, k, "<c", 1);
        }
      }
    }
    assert s[|junk|..|junk| + 3] == r[..3];
    assert IsAt(s, |junk|, "<c>");
    assert Opener(s, |junk|) by { OpenerHere(s, |junk|, "<c>"); }
  }

  // ----- Values that are never read -----

  /** The beginning of an attribute whose value carries one of the tags for relative times
      and errors. The grammar lists both, behind the single letters. */
  function UnreadableField(key: string, tag: string): string {
    "<a" + (" n=\"" + (Escape(key) + ("\"" + (">" + ("<" + tag)))))
  }

  lemma UnreadableTag(s: string, i: nat, tag: string)
    requires tag in {"rt", "er"} && IsAt(s, i, "<") && IsAt(s, i + 1, tag)
    ensures Value(s, i).NoMatch?
  {
    IsAtChar(s, i + 1, tag, 0);
    IsAtChar(s, i + 1, tag, 1);
    TokenHere(s, i, "<");
    assert OpenTag(s, i) == Match(i + 2, [tag[0]]);
    SkipNothing(s, i + 2);
    assert Token(s, i + 2, ">").NoMatch? && Token(s, i + 2, "/>").NoMatch? by {
      if IsAt(s, i + 2, ">") { IsAtChar(s, i + 2, ">", 0); }
      if IsAt(s, i + 2, "/>") { IsAtChar(s, i + 2, "/>", 0); }
    }
    ElementIsNotBool(s, i);
    ElementWithoutContent(s, i, [tag[0]], i + 2);
  }

  lemma ElementWithoutContent(s: string, i: nat, tag: string, p: nat)
    requires i <= |s| && OpenTag(s, i) == Match(p, tag) && BoolValue(s, i).NoMatch?
    requires Token(s, p, ">").NoMatch? && Token(s, p, "/>").NoMatch?
    ensures Value(s, i).NoMatch?
  {
  }

  lemma UnreadableHere(s: string, i: nat, key: string, tag: string)
    requires Trimmed(key) && tag in {"rt", "er"} && IsAt(s, i, UnreadableField(key, tag))
    ensures i <= |s| && Attribute(s, i).NoMatch? && Token(s, i, "</c>").NoMatch?
  {
    hide *;
    var k := Escape(key);
    UnreadablePieces(s, i, key, tag);
    EscapeHasNoMark(key, '"') by { MarksAreMarks(); }
    EscapeTrimmed(key);
    GlyphsAreNoSpace();
    var p := i + 6 + |k|;
    AtBounds(s, i, "<a");
    assert Token(s, i, "<a") == Match(i + 2, ()) by { TokenHere(s, i, "<a"); }
    assert Token(s, i + 2, "n=\"") == Match(i + 6, ()) by { TokenAfterBlank(s, i + 2, "n=\""); }
    assert TextUntil(s, i + 6, '"') == Match(p + 1, k) by { TextHere(s, i + 6, k, '"'); }
    assert Token(s, p + 1, ">") == Match(p + 2, ()) by { TokenHere(s, p + 1, ">"); }
    UnreadableTag(s, p + 2, tag);
    TokenExcludes(s, i, "<a", "</c>", 1);
    AttributeWithoutValue(s, i, i + 2, i + 6, p + 1, k, p + 2);
  }

  lemma MarksAreMarks()
    ensures '"' in MARKS && '<' in MARKS
  {
  }

  lemma UnreadablePieces(s: string, i: nat, key: string, tag: string)
    requires IsAt(s, i, UnreadableField(key, tag))
    ensures IsAt(s, i, "<a") && IsAt(s, i + 2, " " + "n=\"") && IsAt(s, i + 6, Escape(key))
    ensures var p := i + 6 + |Escape(key)|;
            IsAt(s, p, "\"") && IsAt(s, p + 1, ">") && IsAt(s, p + 2, "<") && IsAt(s, p + 3, tag)
  {
    hide IsAt;
    hide Escape;
    var k := Escape(key);
    IsAtConcat(s, i, "<a", " n=\"" + (k + ("\"" + (">" + ("<" + tag)))));
    IsAtConcat(s, i + 2, " n=\"", k + ("\"" + (">" + ("<" + tag))));
    IsAtConcat(s, i + 6, k, "\"" + (">" + ("<" + tag)));
    var p := i + 6 + |k|;
    IsAtConcat(s, p, "\"", ">" + ("<" + tag));
    IsAtConcat(s, p + 1, ">", "<" + tag);
    IsAtConcat(s, p + 2, "<", tag);
    assert " n=\"" == " " + "n=\"";
  }

  lemma AttributeWithoutValue(s: string, i: nat, p1: nat, p2: nat, p3: nat, key: string, p4: nat)
    requires i <= |s| && Token(s, i, "<a") == Match(p1, ())
    requires Token(s, p1, "n=\"") == Match(p2, ())
    requires TextUntil(s, p2, '"') == Match(p3, key)
    requires Token(s, p3, ">") == Match(p4, ())
    requires Value(s, p4).NoMatch?
    ensures Attribute(s, i).NoMatch?
  {
  }

  /** A record in which any attribute carries such a tag is never read, whatever follows. */
  lemma UnreadableRecord(fields: seq<Field>, space: string, key: string, tag: string, rest: string)
    requires AllPrintable(fields) && (forall c | c in space :: IsSpace(c))
    requires Trimmed(key) && tag in {"rt", "er"}
    ensures Record("<c>" + (PrintFields(fields) + (space + (UnreadableField(key, tag) + rest))), 0).NoMatch?
  {
    hide *;
    var p, u := PrintFields(fields), UnreadableField(key, tag);
    var s := "<c>" + (p + (space + (u + rest)));
    AtStart("<c>", p + (space + (u + rest)));
    IsAtConcat(s, 0, "<c>", p + (space + (u + rest)));
    WholeTextAt(s);
    IsAtConcat(s, 3, p, space + (u + rest));
    IsAtConcat(s, 3 + |p|, space, u + rest);
    var j := 3 + |p| + |space|;
    IsAtConcat(s, j, u, rest);
    GlyphsAreNoSpace();
    TokenHere(s, 0, "<c>");
    AtBounds(s, 3 + |p|, space);
    SpaceAt(s, 3 + |p|, space);
    UnreadableHere(s, j, key, tag);
    AttributeAfterSpace(s, 3 + |p|, j);
    FieldsThen(s, 3, fields);
    RecordWithoutEnd(s, 0, 3, 3 + |p|, RawsOf(fields));
  }

  lemma AtStart(u: string, v: string)
    ensures IsAt(u + v, 0, u)
  {
  }

  lemma WholeTextAt(s: string)
    ensures IsAt(s, 0, s)
  {
    assert s[0..|s|] == s;
  }

  lemma RecordWithoutEnd(s: string, i: nat, p1: nat, q: nat, raws: seq<RawAttribute>)
    requires i <= |s| && Token(s, i, "<c>") == Match(p1, ())
    requires Attributes(s, p1) == Match(q, raws) && Token(s, q, "</c>").NoMatch?
    ensures Record(s, i).NoMatch?
  {
  }
}
