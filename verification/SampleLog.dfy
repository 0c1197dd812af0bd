/** One record of condor_job/test/saga-condor-log.classad, from its text to the job that it is about. */
module SampleLog {
  import opened Text
  import opened Entities
  import opened ClassAds
  import opened Grammar
  import opened RecordPrinter
  import opened LogReader
  import opened Events
  import EventCodes

  /** A line of a record, as Condor writes it. */
  function Line(key: string, tag: string, text: string): string {
    "\n    <a n=\"" + key + "\"><" + tag + ">" + text + "</" + tag + "></a>"
  }

  predicate Unmarked(t: string) {
    forall c | c in t :: c !in {'"', '&', '\'', '<', '>'}
  }

  lemma {:induction false} UnmarkedStays(t: string)
    requires Unmarked(t)
    ensures Escape(t) == t
  {
    if t != "" {
      assert t[0] in t;
      assert forall c | c in t[1..] :: c in t;
      UnmarkedStays(t[1..]);
      assert t == [t[0]] + t[1..];
    }
  }

  function FieldOf(key: string, tag: string, text: string): Field {
    Field(key, tag, text, "\n    ", false)
  }

  lemma FieldIsLine(key: string, tag: string, text: string)
    requires Unmarked(key) && Unmarked(text) && tag != "b"
    ensures var f := FieldOf(key, tag, text); f.pad + PrintField(f) == Line(key, tag, text)
  {
    UnmarkedStays(key);
    UnmarkedStays(text);
    hide Escape;
    hide Unmarked;
    var f := FieldOf(key, tag, text);
    assert PrintField(f) == "<a" + (" n=\"" + (key + ("\"" + (">" + (ElementText(tag, text) + "</a>")))));
    assert ElementText(tag, text) == "<" + (tag + (">" + (text + (("</" + tag) + ">"))));
    LinePieces(key, tag, text);
  }

  lemma LinePieces(key: string, tag: string, text: string)
    ensures "\n    " + ("<a" + (" n=\"" + (key + ("\"" + (">" + (("<" + (tag + (">" + (text + (("</" + tag) + ">")))))
                                                                 + "</a>"))))))
            == Line(key, tag, text)
  {
    var v := "<" + (tag + (">" + (text + (("</" + tag) + ">"))));
    var w := "><" + tag + ">" + text + "</" + tag + ">";
    assert ">" + v == w;
    assert "\n    " + ("<a" + " n=\"") == "\n    <a n=\"";
    assert Line(key, tag, text) == "\n    <a n=\"" + (key + ("\"" + (w + "</a>"))) by {
      assert "\"><" == "\"" + "><" && "></a>" == ">" + "</a>";
    }
  }

  lemma PrintMore(f: Field, more: seq<Field>)
    ensures PrintFields([f] + more) == (f.pad + PrintField(f)) + PrintFields(more)
  {
    assert ([f] + more)[1..] == more;
  }

  // ----- A job that has ended -----

  /** The attributes of the entry that count, and one that does not. */
  function Terminated(cluster: string, time: string, code: string): seq<Field> {
    [FieldOf("EventTypeNumber", "i", "5")]
    + ([FieldOf("EventTime", "s", time)]
       + ([FieldOf("Cluster", "i", cluster)]
          + ([FieldOf("TerminatedNormally", "b", "t")] + ([FieldOf("ReturnValue", "i", code)] + []))))
  }

  /** The text of such an entry. */
  function TerminatedText(cluster: string, time: string, code: string): string {
    "<c>"
    + (Line("EventTypeNumber", "i", "5")
       + (Line("EventTime", "s", time)
          + (Line("Cluster", "i", cluster)
             + (BoolLine("TerminatedNormally", "t") + (Line("ReturnValue", "i", code) + "\n</c>")))))
  }

  function BoolLine(key: string, text: string): string {
    "\n    <a n=\"" + key + "\"><b v=\"" + text + "\"/></a>"
  }

  lemma BoolFieldIsLine(key: string, text: string)
    requires Unmarked(key) && Unmarked(text)
    ensures var f := FieldOf(key, "b", text); f.pad + PrintField(f) == BoolLine(key, text)
  {
    UnmarkedStays(key);
    UnmarkedStays(text);
    hide Escape;
    hide Unmarked;
    var f := FieldOf(key, "b", text);
    assert PrintField(f) == "<a" + (" n=\"" + (key + ("\"" + (">" + (BoolText(text) + "</a>")))));
    assert BoolText(text) == "<b" + (" v=\"" + (text + ("\"" + "/>")));
    hide BoolText;
    hide PrintField;
    BoolPiecesJoin(key, text);
  }

  lemma BoolPiecesJoin(key: string, text: string)
    ensures "\n    " + ("<a" + (" n=\"" + (key + ("\"" + (">" + (("<b" + (" v=\"" + (text + ("\"" + "/>"))))
                                                                 + "</a>"))))))
            == BoolLine(key, text)
  {
    assert "\n    " + ("<a" + " n=\"") == "\n    <a n=\"";
    assert "\"" + (">" + ("<b" + " v=\"")) == "\"><b v=\"";
    assert ("\"" + "/>") + "</a>" == "\"/></a>";
  }

  lemma TerminatedIsText(cluster: string, time: string, code: string)
    requires Unmarked(cluster) && Unmarked(time) && Unmarked(code)
    ensures PrintRecord(Terminated(cluster, time, code), "\n") == TerminatedText(cluster, time, code)
  {
    hide *;
    NamesUnmarked();
    FieldIsLine("EventTypeNumber", "i", "5");
    FieldIsLine("EventTime", "s", time);
    FieldIsLine("Cluster", "i", cluster);
    BoolFieldIsLine("TerminatedNormally", "t");
    FieldIsLine("ReturnValue", "i", code);
    TerminatedIs(cluster, time, code);
    FiveFields(FieldOf("EventTypeNumber", "i", "5"), FieldOf("EventTime", "s", time), FieldOf("Cluster", "i", cluster),
               FieldOf("TerminatedNormally", "b", "t"), FieldOf("ReturnValue", "i", code));
  }

  lemma TerminatedIs(cluster: string, time: string, code: string)
    ensures Terminated(cluster, time, code)
            == [FieldOf("EventTypeNumber", "i", "5")]
               + ([FieldOf("EventTime", "s", time)]
                  + ([FieldOf("Cluster", "i", cluster)]
                     + ([FieldOf("TerminatedNormally", "b", "t")] + ([FieldOf("ReturnValue", "i", code)] + []))))
    ensures TerminatedText(cluster, time, code)
            == "<c>"
               + (Line("EventTypeNumber", "i", "5")
                  + (Line("EventTime", "s", time)
                     + (Line("Cluster", "i", cluster)
                        + (BoolLine("TerminatedNormally", "t") + (Line("ReturnValue", "i", code) + "\n</c>")))))
  {
    hide FieldOf;
    hide Line;
    hide BoolLine;
  }

  /** A record with five attributes, written with its end on a line of its own. */
  lemma FiveFields(a: Field, b: Field, c: Field, d: Field, e: Field)
    ensures PrintRecord([a] + ([b] + ([c] + ([d] + ([e] + [])))), "\n")
            == "<c>" + ((a.pad + PrintField(a)) + ((b.pad + PrintField(b)) + ((c.pad + PrintField(c))
               + ((d.pad + PrintField(d)) + ((e.pad + PrintField(e)) + "\n</c>")))))
  {
    hide PrintField;
    PrintMore(a, [b] + ([c] + ([d] + ([e] + []))));
    PrintMore(b, [c] + ([d] + ([e] + [])));
    PrintMore(c, [d] + ([e] + []));
    PrintMore(d, [e] + []);
    PrintMore(e, []);
    PrintNoFields();
    hide PrintFields;
    PiecesJoin(a.pad + PrintField(a), b.pad + PrintField(b), c.pad + PrintField(c), d.pad + PrintField(d),
               e.pad + PrintField(e), "\n" + "</c>");
    assert "\n" + "</c>" == "\n</c>";
  }

  lemma NamesUnmarked()
    ensures Unmarked("EventTypeNumber") && Unmarked("EventTime") && Unmarked("Cluster") && Unmarked("ReturnValue")
    ensures Unmarked("TerminatedNormally") && Unmarked("5") && Unmarked("t")
    ensures "i" != "b" && "s" != "b"
  {
  }

  lemma PiecesJoin(b: string, c: string, d: string, e: string, f: string, end: string)
    ensures (b + (c + (d + (e + (f + ""))))) + end == b + (c + (d + (e + (f + end))))
  {
  }

  // ----- What it means -----

  lemma FiveMean(a: Field, b: Field, c: Field, d: Field, e: Field)
    ensures AdOf([a] + ([b] + ([c] + ([d] + ([e] + [])))))
            == map[][Lower(a.key) := AdValue(a.tag, a.text)][Lower(b.key) := AdValue(b.tag, b.text)]
               [Lower(c.key) := AdValue(c.tag, c.text)][Lower(d.key) := AdValue(d.tag, d.text)]
               [Lower(e.key) := AdValue(e.tag, e.text)]
  {
    assert AdOf([]) == map[];
    AdMore([], a);
    AdMore([a], b);
    AdMore([a, b], c);
    AdMore([a, b, c], d);
    AdMore([a, b, c, d], e);
    hide AdOf;
    hide Lower;
    assert [] + [a] == [a] && [a] + [b] == [a, b] && [a, b] + [c] == [a, b, c];
    assert [a, b, c] + [d] == [a, b, c, d] && [a, b, c, d] + [e] == [a, b, c, d, e];
    assert [a] + ([b] + ([c] + ([d] + ([e] + [])))) == [a, b, c, d, e];
  }

  lemma AdMore(fields: seq<Field>, f: Field)
    ensures AdOf(fields + [f]) == AdOf(fields)[Lower(f.key) := AdValue(f.tag, f.text)]
  {
    assert (fields + [f])[..|fields|] == fields;
  }

  /** The names of the attributes are told apart by their lengths. */
  lemma NamesAreApart()
    ensures var number, time, cluster := Lower("EventTypeNumber"), Lower("EventTime"), Lower("Cluster");
            var normally, signal := Lower("TerminatedNormally"), Lower("TerminatedBySignal");
            var code := Lower("ReturnValue");
            && |number| == 15 && |time| == 9 && |cluster| == 7 && |normally| == 18 && |code| == 11 && |signal| == 18
            && normally[10] == 'n' && signal[10] == 'b'
  {
    hide *;
    LowerAt("TerminatedNormally", 10, 'N', 'n');
    LowerAt("TerminatedBySignal", 10, 'B', 'b');
    LowerAt("EventTypeNumber", 0, 'E', 'e');
    LowerAt("EventTime", 0, 'E', 'e');
    LowerAt("Cluster", 0, 'C', 'c');
    LowerAt("ReturnValue", 0, 'R', 'r');
  }

  lemma LowerAt(w: string, i: nat, c: char, d: char)
    requires i < |w| && w[i] == c && 'A' <= c <= 'Z' && d == c - 'A' + 'a'
    ensures |Lower(w)| == |w| && Lower(w)[i] == d
  {
    LowerIs(w, i);
    hide Lower;
  }

  lemma TerminatedMeans(cluster: string, time: string, code: string)
    ensures var ad := AdOf(Terminated(cluster, time, code));
            && Get(ad, "EventTypeNumber") == Some(AdValue("i", "5"))
            && Get(ad, "EventTime") == Some(AdValue("s", time))
            && Get(ad, "Cluster") == Some(AdValue("i", cluster))
            && Get(ad, "ReturnValue") == Some(AdValue("i", code))
            && Get(ad, "TerminatedBySignal") == None
  {
    NamesAreApart();
    hide Lower;
    hide AdOf;
    FiveMean(FieldOf("EventTypeNumber", "i", "5"), FieldOf("EventTime", "s", time), FieldOf("Cluster", "i", cluster),
             FieldOf("TerminatedNormally", "b", "t"), FieldOf("ReturnValue", "i", code));
  }

  // ----- It is read -----

  /** Text that comes through the entities and the white space as it is. */
  predicate Ordinary(t: string) {
    Unmarked(t) && (t != "" ==> !IsSpace(t[0]) && !IsSpace(t[|t| - 1]))
  }

  lemma UnmarkedIsDecodable(t: string)
    requires Unmarked(t)
    ensures Decodable(t) && Decodable(Lower(t))
  {
    forall i: nat | i < |t| ensures Lower(t)[i] !in {'"', '&', '\'', '<', '>'} {
      assert t[i] in t;
      LowerIs(t, i);
    }
    forall i: nat, w | IsAt(t, i, w) || IsAt(Lower(t), i, w) ensures w == "" || w[0] != '&' {
      if w != "" {
        if IsAt(t, i, w) {
          IsAtChar(t, i, w, 0);
          assert t[i] in t;
        } else {
          IsAtChar(Lower(t), i, w, 0);
        }
      }
    }
    hide Lower;
  }

  lemma OrdinaryIsPrintable(key: string, tag: string, text: string)
    requires Ordinary(key) && Ordinary(text) && tag in TAGS
    ensures Printable(FieldOf(key, tag, text))
  {
    UnmarkedIsDecodable(key);
    UnmarkedIsDecodable(text);
    hide Decodable;
    hide Lower;
    hide Unmarked;
  }

  lemma NamesOrdinary()
    ensures Ordinary("EventTypeNumber") && Ordinary("EventTime") && Ordinary("Cluster") && Ordinary("ReturnValue")
    ensures Ordinary("TerminatedNormally") && Ordinary("5") && Ordinary("t")
    ensures "i" in TAGS && "s" in TAGS && "b" in TAGS
  {
    NamesUnmarked();
    hide Unmarked;
  }

  lemma TerminatedIsPrintable(cluster: string, time: string, code: string)
    requires Ordinary(cluster) && Ordinary(time) && Ordinary(code)
    ensures AllPrintable(Terminated(cluster, time, code))
  {
    NamesOrdinary();
    hide Ordinary;
    hide Printable;
    hide FieldOf;
    OrdinaryIsPrintable("EventTypeNumber", "i", "5");
    OrdinaryIsPrintable("EventTime", "s", time);
    OrdinaryIsPrintable("Cluster", "i", cluster);
    OrdinaryIsPrintable("TerminatedNormally", "b", "t");
    OrdinaryIsPrintable("ReturnValue", "i", code);
  }

  /** From the text of the entry, in its frame and in any reads of which none ends one byte behind the opening of a
      record, to its job: the job is done, with the exit code and the time. */
  lemma JobIsDone<J>(registry: map<string, J>, jobs: map<J, Job>, cluster: string, time: string, code: string,
                     chunks: seq<string>)
    requires cluster in registry && registry[cluster] in jobs
    requires Ordinary(cluster) && Ordinary(time) && Ordinary(code)
    requires Flatten(chunks) == "<classads>\n" + (TerminatedText(cluster, time, code) + "\n</classads>")
    requires !Loses(chunks)
    ensures var after, j := Replay(registry, jobs, Handed(Run("", 0, chunks).records)), registry[cluster];
            && j in after && after[j].state == Done
            && Entry(after[j].attributes, "ExitCode") == Some(code)
            && Entry(after[j].attributes, "Finished") == Some(time)
  {
    hide *;
    var fields, j := Terminated(cluster, time, code), registry[cluster];
    var ad, r := AdOf(fields), LogRecord(fields, "\n", "\n</classads>");
    OrdinaryIsUnmarked(cluster);
    OrdinaryIsUnmarked(time);
    OrdinaryIsUnmarked(code);
    TerminatedIsText(cluster, time, code);
    TerminatedIsPrintable(cluster, time, code);
    OneRecord(r);
    FrameIsPassed();
    LogRoundTrip("<classads>\n", [r], chunks);
    TerminatedMeans(cluster, time, code);
    EventCodes.TargetMeans(registry, ad);
    EventCodes.CodesAreRead();
    EventCodes.LastEntryDecides(registry, jobs, [], ad, 5, j);
    EventCodes.LastEntrySets(registry, jobs, [], ad, 5, j, "ExitCode");
    EventCodes.LastEntrySets(registry, jobs, [], ad, 5, j, "Finished");
    EventCodes.NamesDiffer();
    assert [] + [ad] == [ad];
  }

  lemma OrdinaryIsUnmarked(t: string)
    requires Ordinary(t)
    ensures Unmarked(t)
  {
  }

  lemma OneRecord(r: LogRecord)
    ensures PrintLog([r]) == PrintRecord(r.fields, r.end) + r.gap
    ensures AdsOf([r]) == [AdOf(r.fields)]
  {
    assert [r][1..] == [] && PrintLog([]) == "" && AdsOf([]) == [];
    assert r.gap + "" == r.gap;
  }

  lemma FrameIsPassed()
    ensures var front := "<classads>\n";
            forall k: nat | k + 1 < |front| && front[k] == '<' && front[k + 1] == 'c' ::
              k + 2 < |front| && var c := front[k + 2]; '0' <= c <= '9' || 'a' <= c <= 'z' || 'A' <= c <= 'Z'
    ensures var gap := "\n</classads>";
            forall k: nat | k + 1 < |gap| && gap[k] == '<' && gap[k + 1] == 'c' ::
              k + 2 < |gap| && var c := gap[k + 2]; '0' <= c <= '9' || 'a' <= c <= 'z' || 'A' <= c <= 'Z'
    ensures forall c | c in "\n" :: c in {' ', '\t', '\n', '\U{000B}', '\U{000C}', '\r'}
  {
  }
}
