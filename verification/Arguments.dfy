/** Command-line arguments and environment variables in a submit description:
    map_attribute_vector of condor_job/description.hpp against the new-style syntax in which
    Condor reads them. */
module Arguments {
  import opened Text

  // ----- Writing -----

  function FormatOne(arg: string): string {
    var attr := ReplaceAll(arg, "\"", "\"\"");
    if '\'' in attr || ' ' in attr then "'" + ReplaceAll(attr, "'", "''") + "'" else attr
  }

  function FormatAll(args: seq<string>): string {
    if args == [] then "" else FormatOne(args[0]) + (" " + FormatAll(args[1..]))
  }

  /** The value set in the description, if one is set at all. */
  function Format(args: seq<string>): Option<string> {
    var result := FormatAll(args);
    if result == "" then None else Some("\"" + result + "\"")
  }

  method MapAttributeVector(args: seq<string>) returns (value: Option<string>)
    ensures value == Format(args)
  {
    hide FormatOne;
    hide FormatAll;
    hide ReplaceAll;
    var result := "";
    assert result + FormatAll(args) == FormatAll(args) && args[0..] == args;
    for i := 0 to |args|
      invariant FormatAll(args) == result + FormatAll(args[i..])
    {
      var attr := ReplaceAll(args[i], "\"", "\"\"");
      if '\'' in attr || ' ' in attr {
        attr := ReplaceAll(attr, "'", "''");
        attr := "'" + attr + "'";
      }
      FormatOneIs(args[i], attr);
      FormatStep(args, i, result);
      result := result + (attr + " ");
    }
    FormatEnd(result);
    assert args[|args|..] == [];
    value := if result != "" then Some("\"" + result + "\"") else None;
  }

  lemma FormatStep(args: seq<string>, i: nat, result: string)
    requires i < |args| && FormatAll(args) == result + FormatAll(args[i..])
    ensures FormatAll(args) == (result + (FormatOne(args[i]) + " ")) + FormatAll(args[i + 1..])
  {
    hide FormatOne;
    var one, later := FormatOne(args[i]), FormatAll(args[i + 1..]);
    assert args[i..][1..] == args[i + 1..];
    assert result + (one + (" " + later)) == (result + (one + " ")) + later;
  }

  lemma FormatEnd(result: string)
    ensures result + FormatAll([]) == result
  {
  }

  lemma FormatOneIs(arg: string, attr: string)
    requires var a := ReplaceAll(arg, "\"", "\"\"");
             attr == if '\'' in a || ' ' in a then "'" + ReplaceAll(a, "'", "''") + "'" else a
    ensures attr == FormatOne(arg)
  {
  }

  // ----- Reading -----

  predicate Blank(c: char) {
    c == ' ' || c == '\t' || c == '\n' || c == '\r'
  }

  /** Inside the outer double quotes, a double quote is written twice. */
  function Undouble(s: string): Option<string> {
    if s == "" then Some("")
    else if s[0] == '"' then
      if |s| < 2 || s[1] != '"' then None
      else
        var rest := Undouble(s[2..]);
        if rest.None? then None else Some("\"" + rest.value)
    else
      var rest := Undouble(s[1..]);
      if rest.None? then None else Some([s[0]] + rest.value)
  }

  function Unwrap(value: string): Option<string> {
    if |value| < 2 || value[0] != '"' || value[|value| - 1] != '"' then None
    else Undouble(value[1..|value| - 1])
  }

  function Push(word: string, words: Option<seq<string>>): Option<seq<string>> {
    if words.None? then None else Some([word] + words.value)
  }

  /** Splits at blanks outside single quotes. Inside them, a single quote is written twice.
      The word read so far is cur; started tells whether there is a word at all. */
  function Split(s: string, cur: string, started: bool, quoted: bool): Option<seq<string>>
    decreases |s|
  {
    if s == "" then
      if quoted then None else Some(if started then [cur] else [])
    else if quoted then
      if s[0] == '\'' && |s| > 1 && s[1] == '\'' then Split(s[2..], cur + "'", true, true)
      else if s[0] == '\'' then Split(s[1..], cur, true, false)
      else Split(s[1..], cur + [s[0]], true, true)
    else if s[0] == '\'' then Split(s[1..], cur, true, true)
    else if Blank(s[0]) then
      if started then Push(cur, Split(s[1..], "", false, false)) else Split(s[1..], "", false, false)
    else Split(s[1..], cur + [s[0]], true, false)
  }

  /** Condor's reading of a new-style value. */
  function Read(value: string): Option<seq<string>> {
    var inner := Unwrap(value);
    if inner.None? then None else Split(inner.value, "", false, false)
  }

  // ----- What is written is read back -----

  function Twice(s: string, c: char): string {
    if s == "" then "" else (if s[0] == c then [c, c] else [s[0]]) + Twice(s[1..], c)
  }

  lemma {:induction false} ReplaceAllIsTwice(s: string, c: char)
    ensures ReplaceAll(s, [c], [c, c]) == Twice(s, c)
  {
    if s != "" {
      ReplaceAllIsTwice(s[1..], c);
      assert s == [s[0]] + s[1..];
      if s[0] != c {
        ReplaceAllPassesOne(s[0], s[1..], [c], [c, c]);
      }
    }
  }

  lemma {:induction false} TwiceConcat(s: string, t: string, c: char)
    ensures Twice(s + t, c) == Twice(s, c) + Twice(t, c)
  {
    if s == "" {
      assert s + t == t;
    } else {
      assert (s + t)[1..] == s[1..] + t;
      TwiceConcat(s[1..], t, c);
    }
  }

  lemma {:induction false} TwiceCommutes(s: string, c: char, d: char)
    requires c != d
    ensures Twice(Twice(s, c), d) == Twice(Twice(s, d), c)
  {
    if s != "" {
      TwiceCommutes(s[1..], c, d);
      var head := [s[0]];
      TwiceConcat(Twice(head, c), Twice(s[1..], c), d);
      TwiceConcat(Twice(head, d), Twice(s[1..], d), c);
      assert head[1..] == "";
    }
  }

  lemma {:induction false} TwiceKeeps(s: string, c: char, d: char)
    ensures d in Twice(s, c) <==> d in s
  {
    if s != "" {
      TwiceKeeps(s[1..], c, d);
      assert s == [s[0]] + s[1..];
    }
  }

  lemma {:induction false} UndoubleTwice(s: string)
    ensures Undouble(Twice(s, '"')) == Some(s)
  {
    if s != "" {
      UndoubleTwice(s[1..]);
      assert s == [s[0]] + s[1..];
      var rest := Twice(s[1..], '"');
      if s[0] == '"' {
        assert Twice(s, '"')[2..] == rest;
      } else {
        assert Twice(s, '"')[1..] == rest;
      }
    }
  }

  predicate NeedsQuotes(arg: string) {
    '\'' in arg || ' ' in arg
  }

  /** One argument as Condor sees it once the outer quotes are gone. */
  function Inner(arg: string): string {
    if NeedsQuotes(arg) then "'" + (Twice(arg, '\'') + "'") else arg
  }

  function InnerAll(args: seq<string>): string {
    if args == [] then "" else Inner(args[0]) + (" " + InnerAll(args[1..]))
  }

  lemma FormatOneInner(arg: string)
    ensures FormatOne(arg) == Twice(Inner(arg), '"')
  {
    hide Twice;
    ReplaceAllIsTwice(arg, '"');
    TwiceKeeps(arg, '"', '\'');
    TwiceKeeps(arg, '"', ' ');
    ReplaceAllIsTwice(Twice(arg, '"'), '\'');
    TwiceCommutes(arg, '"', '\'');
    var t := Twice(arg, '\'');
    TwiceConcat("'", t + "'", '"');
    TwiceConcat(t, "'", '"');
    QuoteAlone();
    assert "'" + (Twice(t, '"') + "'") == "'" + Twice(t, '"') + "'";
  }

  lemma QuoteAlone()
    ensures Twice("'", '"') == "'" && Twice(" ", '"') == " "
  {
  }

  lemma {:induction false} FormatAllInner(args: seq<string>)
    ensures FormatAll(args) == Twice(InnerAll(args), '"')
  {
    hide FormatOne;
    hide Inner;
    if args != [] {
      FormatOneInner(args[0]);
      FormatAllInner(args[1..]);
      TwiceConcat(Inner(args[0]), " " + InnerAll(args[1..]), '"');
      TwiceConcat(" ", InnerAll(args[1..]), '"');
      QuoteAlone();
    }
  }

  /** The words of an argument that is written without quotes. */
  function Words(s: string, cur: string, started: bool): seq<string> {
    if s == "" then if started then [cur] else []
    else if Blank(s[0]) then (if started then [cur] else []) + Words(s[1..], "", false)
    else Words(s[1..], cur + [s[0]], true)
  }

  /** What the reader makes of one argument. */
  function Pieces(arg: string): seq<string> {
    if NeedsQuotes(arg) then [arg] else Words(arg, "", false)
  }

  function AllPieces(args: seq<string>): seq<string> {
    if args == [] then [] else Pieces(args[0]) + AllPieces(args[1..])
  }

  function PushAll(words: seq<string>, rest: Option<seq<string>>): Option<seq<string>> {
    if rest.None? then None else Some(words + rest.value)
  }

  lemma PushAllTwice(u: seq<string>, v: seq<string>, rest: Option<seq<string>>)
    ensures PushAll(u, PushAll(v, rest)) == PushAll(u + v, rest)
    ensures PushAll([], rest) == rest
  {
    if rest.Some? {
      assert u + (v + rest.value) == (u + v) + rest.value;
      assert [] + rest.value == rest.value;
    }
  }

  lemma {:induction false} SplitPlain(s: string, cur: string, started: bool, rest: string)
    requires '\'' !in s && (started || cur == "")
    ensures Split(s + (" " + rest), cur, started, false)
            == PushAll(Words(s, cur, started), Split(rest, "", false, false))
    decreases |s|
  {
    var all, later := s + (" " + rest), Split(rest, "", false, false);
    if s == "" {
      assert all == " " + rest;
      assert all[1..] == rest;
      PushAllTwice([], [], later);
    } else {
      assert all[1..] == s[1..] + (" " + rest);
      if Blank(s[0]) {
        SplitPlain(s[1..], "", false, rest);
        PushAllTwice(if started then [cur] else [], Words(s[1..], "", false), later);
        assert [] + Words(s[1..], "", false) == Words(s[1..], "", false);
      } else {
        SplitPlain(s[1..], cur + [s[0]], true, rest);
      }
    }
  }

  lemma {:induction false} SplitQuoted(s: string, cur: string, rest: string)
    ensures Split(Twice(s, '\'') + ("'" + (" " + rest)), cur, true, true)
            == PushAll([cur + s], Split(rest, "", false, false))
    decreases |s|
  {
    var tail := "'" + (" " + rest);
    var all := Twice(s, '\'') + tail;
    if s == "" {
      assert all == tail;
      assert tail[1..] == " " + rest && (" " + rest)[1..] == rest;
      assert cur + s == cur;
      assert Split(tail, cur, true, true) == Split(" " + rest, cur, true, false);
    } else {
      var more := Twice(s[1..], '\'') + tail;
      SplitQuoted(s[1..], cur + [s[0]], rest);
      assert cur + [s[0]] + s[1..] == cur + s;
      if s[0] == '\'' {
        assert all == "''" + more;
        assert all[2..] == more;
      } else {
        assert all == [s[0]] + more;
        assert all[1..] == more;
      }
    }
  }

  lemma SplitOpening(body: string)
    ensures Split("'" + body, "", false, false) == Split(body, "", true, true)
  {
    assert ("'" + body)[1..] == body;
  }

  lemma SplitOne(arg: string, rest: string)
    ensures Split(Inner(arg) + (" " + rest), "", false, false)
            == PushAll(Pieces(arg), Split(rest, "", false, false))
  {
    if NeedsQuotes(arg) {
      hide Split;
      hide Twice;
      SplitQuoted(arg, "", rest);
      var body := Twice(arg, '\'') + ("'" + (" " + rest));
      assert Inner(arg) + (" " + rest) == "'" + body;
      SplitOpening(body);
      assert "" + arg == arg;
    } else {
      hide Split;
      hide Twice;
      hide Words;
      SplitPlain(arg, "", false, rest);
    }
  }

  lemma {:induction false} SplitAll(args: seq<string>)
    ensures Split(InnerAll(args), "", false, false) == Some(AllPieces(args))
  {
    hide Inner;
    hide Pieces;
    if args != [] {
      SplitOne(args[0], InnerAll(args[1..]));
      SplitAll(args[1..]);
    }
  }

  /** Whatever the arguments are, what Condor reads are their pieces. */
  lemma ReadFormat(args: seq<string>)
    requires args != []
    ensures Format(args).Some? && Read(Format(args).value) == Some(AllPieces(args))
  {
    hide Split;
    hide AllPieces;
    FormatAllInner(args);
    var inner := FormatAll(args);
    assert inner != "";
    var value := "\"" + inner + "\"";
    assert value[1..|value| - 1] == inner;
    UndoubleTwice(InnerAll(args));
    SplitAll(args);
  }

  /** The arguments that come through as they are: one that is quoted because it holds a single
      quote or a space, or one that is not empty and holds no white space at all. */
  predicate Survives(arg: string) {
    NeedsQuotes(arg) || (arg != "" && forall c | c in arg :: !Blank(c))
  }

  predicate Word(s: string) {
    s != "" && forall c | c in s :: !Blank(c)
  }

  lemma {:induction false} WordsAreWords(s: string, cur: string, started: bool)
    requires if started then Word(cur) else cur == ""
    ensures forall w | w in Words(s, cur, started) :: Word(w)
  {
    if s != "" {
      if Blank(s[0]) {
        WordsAreWords(s[1..], "", false);
      } else {
        WordsAreWords(s[1..], cur + [s[0]], true);
      }
    }
  }

  lemma {:induction false} WordIsOneWord(s: string, cur: string, started: bool)
    requires (forall c | c in s :: !Blank(c)) && (started || (s != "" && cur == ""))
    ensures Words(s, cur, started) == [cur + s]
  {
    if s == "" {
      assert cur + s == cur;
    } else {
      WordIsOneWord(s[1..], cur + [s[0]], true);
      assert cur + [s[0]] + s[1..] == cur + s;
    }
  }

  lemma {:induction false} PiecesSurvive(args: seq<string>)
    ensures forall w | w in AllPieces(args) :: Survives(w)
  {
    if args != [] {
      PiecesSurvive(args[1..]);
      if !NeedsQuotes(args[0]) {
        WordsAreWords(args[0], "", false);
      }
    }
  }

  lemma {:induction false} SurvivorsArePieces(args: seq<string>)
    requires forall a | a in args :: Survives(a)
    ensures AllPieces(args) == args
  {
    if args != [] {
      assert args[0] in args;
      SurvivorsArePieces(args[1..]);
      if !NeedsQuotes(args[0]) {
        WordIsOneWord(args[0], "", false);
        assert "" + args[0] == args[0];
      }
    }
  }

  /** The round trip: Condor reads back exactly the list that was given - exactly if no argument
      is empty or holds a tab or line break without also holding a space or a single quote. */
  lemma ArgumentsRoundTrip(args: seq<string>)
    requires args != []
    ensures Format(args).Some?
    ensures Read(Format(args).value) == Some(args)
            <==> forall a | a in args ::
                   '\'' in a || ' ' in a || (a != "" && '\t' !in a && '\n' !in a && '\r' !in a)
  {
    hide Format;
    hide Read;
    ReadFormat(args);
    PiecesSurvive(args);
    hide Survives;
    if forall a | a in args :: Survives(a) {
      SurvivorsArePieces(args);
    }
    forall a | a in args
      ensures Survives(a) <==> '\'' in a || ' ' in a || (a != "" && '\t' !in a && '\n' !in a && '\r' !in a)
    {
      SurvivesIs(a);
    }
  }

  lemma SurvivesIs(a: string)
    ensures Survives(a) <==> '\'' in a || ' ' in a || (a != "" && '\t' !in a && '\n' !in a && '\r' !in a)
  {
  }

  /** The same, by the predicate. */
  lemma SurvivorsAreRead(args: seq<string>)
    requires args != []
    ensures Format(args).Some?
    ensures Read(Format(args).value) == Some(args) <==> forall a | a in args :: Survives(a)
  {
    hide Format;
    hide Read;
    ArgumentsRoundTrip(args);
    hide Survives;
    forall a | a in args
      ensures Survives(a) <==> '\'' in a || ' ' in a || (a != "" && '\t' !in a && '\n' !in a && '\r' !in a)
    {
      SurvivesIs(a);
    }
  }

  /** Nothing is set only for an empty list. */
  lemma NothingToFormat(args: seq<string>)
    ensures Format(args).None? <==> args == []
  {
  }
}
