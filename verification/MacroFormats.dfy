/** What the formats of a submit description and their readers do to parentheses and to line breaks: but for
    the parentheses around conjuncts, they put none in and take none away. */
module MacroFormats {
  import opened Text
  import opened SubmitFile
  import opened Macros
  import Arguments
  import Transfers
  import Requirements

  // ----- Lists of arguments -----

  lemma {:induction false} TwiceParens(s: string, c: char)
    requires c != '('
    ensures Parens(Arguments.Twice(s, c)) == Parens(s)
  {
    if s != "" {
      TwiceParens(s[1..], c);
      var rest := Arguments.Twice(s[1..], c);
      if s[0] == c {
        assert Arguments.Twice(s, c)[1..] == [c] + rest && ([c] + rest)[1..] == rest;
      } else {
        assert Arguments.Twice(s, c)[1..] == rest;
      }
    }
  }

  lemma Quoted(q: char, s: string)
    requires q != '('
    ensures Parens([q] + s + [q]) == Parens(s)
  {
    NoParens([q]);
    ParensConcat([q] + s, [q]);
    ParensConcat([q], s);
  }

  lemma FormatOneKeeps(arg: string)
    ensures Parens(Arguments.FormatOne(arg)) == Parens(arg)
    ensures OneLine(arg) ==> OneLine(Arguments.FormatOne(arg))
  {
    hide Parens;
    var attr := ReplaceAll(arg, "\"", "\"\"");
    Arguments.ReplaceAllIsTwice(arg, '"');
    TwiceParens(arg, '"');
    Arguments.TwiceKeeps(arg, '"', '\n');
    Arguments.ReplaceAllIsTwice(attr, '\'');
    TwiceParens(attr, '\'');
    Arguments.TwiceKeeps(attr, '\'', '\n');
    Quoted('\'', ReplaceAll(attr, "'", "''"));
    hide ReplaceAll;
  }

  lemma {:induction false} FormatAllKeeps(args: seq<string>)
    ensures Parens(Arguments.FormatAll(args)) == AllParens(args)
    ensures AllOneLine(args) ==> OneLine(Arguments.FormatAll(args))
  {
    hide Arguments.FormatOne;
    if args != [] {
      var one, rest := Arguments.FormatOne(args[0]), Arguments.FormatAll(args[1..]);
      FormatAllKeeps(args[1..]);
      FormatOneKeeps(args[0]);
      ParensConcat(one, " " + rest);
      assert (" " + rest)[1..] == rest;
      assert AllOneLine(args) ==> OneLine(args[0]);
    }
  }

  lemma FormatKeeps(args: seq<string>)
    requires args != []
    ensures Arguments.Format(args).Some?
    ensures var v := Arguments.Format(args).value;
            v != "" && Trim(v) == v && !Open(v) && Parens(v) == AllParens(args) && (AllOneLine(args) ==> OneLine(v))
  {
    Arguments.NothingToFormat(args);
    FormatAllKeeps(args);
    Quoted('"', Arguments.FormatAll(args));
    hide Arguments.FormatAll;
    hide Parens;
    TrimStays(Arguments.Format(args).value);
    hide Trim;
  }

  lemma {:induction false} NothingTwice(s: string, c: char)
    requires c !in s
    ensures Arguments.Twice(s, c) == s
  {
    if s != "" {
      NothingTwice(s[1..], c);
      assert s[0] in s && s == [s[0]] + s[1..];
    }
  }

  lemma TwiceAround(u: string, ref: string, w: string, c: char)
    requires c !in ref
    ensures Arguments.Twice(u + (ref + w), c) == Arguments.Twice(u, c) + (ref + Arguments.Twice(w, c))
  {
    Arguments.TwiceConcat(u, ref + w, c);
    Arguments.TwiceConcat(ref, w, c);
    NothingTwice(ref, c);
    hide Arguments.Twice;
  }

  lemma FormatOneText(arg: string)
    ensures var attr := Arguments.Twice(arg, '"');
            Arguments.FormatOne(arg) == if '\'' in attr || ' ' in attr
                                        then "'" + Arguments.Twice(attr, '\'') + "'" else attr
  {
    Arguments.ReplaceAllIsTwice(arg, '"');
    Arguments.ReplaceAllIsTwice(ReplaceAll(arg, "\"", "\"\""), '\'');
    hide ReplaceAll;
    hide Arguments.Twice;
  }

  lemma Enclosed(x: string, ref: string, y: string)
    ensures "'" + (x + (ref + y)) + "'" == ("'" + x) + (ref + (y + "'"))
  {
  }

  /** What has no quotes is not changed by the quoting around it. */
  lemma FormatOneAround(u: string, ref: string, w: string) returns (x: string, y: string)
    requires '"' !in ref && '\'' !in ref
    ensures Arguments.FormatOne(u + (ref + w)) == x + (ref + y)
  {
    hide *;
    var attr := Arguments.Twice(u + (ref + w), '"');
    FormatOneText(u + (ref + w));
    TwiceAround(u, ref, w, '"');
    x, y := Arguments.Twice(u, '"'), Arguments.Twice(w, '"');
    if '\'' in attr || ' ' in attr {
      TwiceAround(x, ref, y, '\'');
      x, y := Arguments.Twice(x, '\''), Arguments.Twice(y, '\'');
      Enclosed(x, ref, y);
      x, y := "'" + x, y + "'";
    }
  }

  lemma {:induction false} FormatAllAround(args: seq<string>, u: string, ref: string, w: string)
      returns (x: string, y: string)
    requires '"' !in ref && '\'' !in ref && u + (ref + w) in args
    ensures Arguments.FormatAll(args) == x + (ref + y)
  {
    hide Arguments.FormatOne;
    var one, rest := Arguments.FormatOne(args[0]), Arguments.FormatAll(args[1..]);
    if args[0] == u + (ref + w) {
      x, y := FormatOneAround(u, ref, w);
      assert x + (ref + y) + (" " + rest) == x + (ref + (y + (" " + rest)));
      y := y + (" " + rest);
    } else {
      x, y := FormatAllAround(args[1..], u, ref, w);
      assert one + (" " + (x + (ref + y))) == (one + (" " + x)) + (ref + y);
      x := one + (" " + x);
    }
  }

  lemma {:induction false} UndoubledKeeps(s: string)
    ensures var r := Arguments.Undouble(s);
            r.Some? ==> Parens(r.value) == Parens(s) && (OneLine(s) ==> OneLine(r.value))
    decreases |s|
  {
    if s != "" {
      if s[0] != '"' {
        UndoubledKeeps(s[1..]);
        var rest := Arguments.Undouble(s[1..]);
        if rest.Some? {
          ParensConcat([s[0]], rest.value);
        }
      } else if |s| > 1 {
        UndoubledKeeps(s[2..]);
        var rest := Arguments.Undouble(s[2..]);
        assert s[1..][1..] == s[2..];
        if rest.Some? {
          ParensConcat("\"", rest.value);
        }
      }
    }
  }

  lemma {:induction false} SplitKeeps(s: string, cur: string, started: bool, quoted: bool)
    requires started || cur == ""
    ensures var r := Arguments.Split(s, cur, started, quoted);
            r.Some? ==>
              && AllParens(r.value) == Parens(cur) + Parens(s)
              && (OneLine(s) && OneLine(cur) ==> AllOneLine(r.value))
    decreases |s|
  {
    if s == "" {
      assert AllParens([]) == 0 && [cur][1..] == [];
    } else {
      ParensConcat(cur, [s[0]]);
      if quoted && s[0] == '\'' && |s| > 1 && s[1] == '\'' {
        SplitKeeps(s[2..], cur + "'", true, true);
        assert s[1..][1..] == s[2..];
        ParensConcat(cur, "'");
      } else if quoted && s[0] == '\'' {
        SplitKeeps(s[1..], cur, true, false);
      } else if quoted {
        SplitKeeps(s[1..], cur + [s[0]], true, true);
      } else if s[0] == '\'' {
        SplitKeeps(s[1..], cur, true, true);
      } else if Arguments.Blank(s[0]) {
        SplitKeeps(s[1..], "", false, false);
      } else {
        SplitKeeps(s[1..], cur + [s[0]], true, false);
      }
    }
  }

  lemma UnwrappedKeeps(value: string)
    ensures var r := Arguments.Unwrap(value);
            r.Some? ==> Parens(r.value) == Parens(value) && (OneLine(value) ==> OneLine(r.value))
  {
    hide Arguments.Undouble;
    if |value| >= 2 && value[0] == '"' && value[|value| - 1] == '"' {
      var inner := value[1..|value| - 1];
      assert value == ['"'] + inner + ['"'];
      hide Parens;
      UndoubledKeeps(inner);
      Quoted('"', inner);
    }
  }

  lemma ListReadKeeps(value: string)
    ensures var r := Arguments.Read(value);
            r.Some? ==> AllParens(r.value) == Parens(value) && (OneLine(value) ==> AllOneLine(r.value))
  {
    hide Arguments.Unwrap;
    hide Arguments.Split;
    hide Parens;
    hide AllOneLine;
    UnwrappedKeeps(value);
    if Arguments.Unwrap(value).Some? {
      SplitKeeps(Arguments.Unwrap(value).value, "", false, false);
      NothingHasNoParens();
    }
  }

  lemma NothingHasNoParens()
    ensures Parens("") == 0 && OneLine("")
  {
  }

  // ----- Remaps -----

  predicate PairsOneLine(pairs: seq<(string, string)>) {
    forall p | p in pairs :: OneLine(p.0) && OneLine(p.1)
  }

  function PairParens(pairs: seq<(string, string)>): nat {
    if pairs == [] then 0 else Parens(pairs[0].0) + Parens(pairs[0].1) + PairParens(pairs[1..])
  }

  lemma {:induction false} EscapedCharsKeep(s: string)
    ensures Parens(Transfers.EscapeChars(s)) == Parens(s)
    ensures OneLine(s) ==> OneLine(Transfers.EscapeChars(s))
  {
    if s != "" {
      EscapedCharsKeep(s[1..]);
      var rest := Transfers.EscapeChars(s[1..]);
      if Transfers.Marked(s[0]) {
        assert Transfers.EscapeChars(s)[1..] == [s[0]] + rest && ([s[0]] + rest)[1..] == rest;
      } else {
        assert Transfers.EscapeChars(s)[1..] == rest;
      }
    }
  }

  lemma EscapedNameKeeps(s: string)
    ensures Parens(Transfers.EscapeName(s)) == Parens(s)
    ensures OneLine(s) ==> OneLine(Transfers.EscapeName(s))
  {
    Transfers.EscapeNameByChars(s);
    EscapedCharsKeep(s);
    hide Transfers.EscapeName;
  }

  lemma {:induction false} RemapTextKeeps(pairs: seq<(string, string)>)
    ensures Parens(Transfers.RemapText(pairs)) == PairParens(pairs)
    ensures PairsOneLine(pairs) ==> OneLine(Transfers.RemapText(pairs))
  {
    hide Transfers.EscapeName;
    if pairs != [] {
      RemapTextKeeps(pairs[1..]);
      EscapedNameKeeps(pairs[0].0);
      EscapedNameKeeps(pairs[0].1);
      PairTextParens(Transfers.EscapeName(pairs[0].0), Transfers.EscapeName(pairs[0].1),
                     Transfers.RemapText(pairs[1..]));
      assert pairs[0] in pairs;
    }
  }

  lemma PairTextParens(l: string, r: string, rest: string)
    ensures Parens(l + ("=" + (r + (";" + rest)))) == Parens(l) + Parens(r) + Parens(rest)
  {
    NoParens("=");
    NoParens(";");
    ParensConcat(l, "=" + (r + (";" + rest)));
    ParensConcat("=", r + (";" + rest));
    ParensConcat(r, ";" + rest);
    ParensConcat(";", rest);
    hide Parens;
  }

  lemma {:induction false} RemapsReadKeeps(t: string, left: Option<string>, cur: string)
    ensures var r := Transfers.ReadRemaps(t, left, cur);
            r.Some? ==>
              && PairParens(r.value) == (if left.Some? then Parens(left.value) else 0) + Parens(cur) + Parens(t)
              && (OneLine(t) && OneLine(cur) && (left.Some? ==> OneLine(left.value)) ==> PairsOneLine(r.value))
    decreases |t|
  {
    if t != "" {
      ParensConcat(cur, [t[0]]);
      if t[0] == '\\' {
        if |t| > 1 {
          RemapsReadKeeps(t[2..], left, cur + [t[1]]);
          ParensConcat(cur, [t[1]]);
          assert t[1..][1..] == t[2..];
        }
      } else if t[0] == '=' {
        RemapsReadKeeps(t[1..], Some(cur), "");
      } else if t[0] == ';' {
        RemapsReadKeeps(t[1..], None, "");
        if left.Some? && Transfers.ReadRemaps(t[1..], None, "").Some? {
          var rest := Transfers.ReadRemaps(t[1..], None, "").value;
          assert ([(left.value, cur)] + rest)[1..] == rest;
        }
      } else {
        RemapsReadKeeps(t[1..], left, cur + [t[0]]);
      }
    }
  }

  // ----- Requirements -----

  lemma {:induction false} JoinParens(reqs: seq<string>)
    ensures Parens(Requirements.Join(reqs)) == AllParens(reqs) + |reqs|
    ensures AllOneLine(reqs) ==> OneLine(Requirements.Join(reqs))
  {
    if reqs != [] {
      var r, tail := reqs[0], if |reqs| == 1 then "" else " && " + Requirements.Join(reqs[1..]);
      JoinParens(reqs[1..]);
      assert AllOneLine(reqs) ==> OneLine(r);
      ParensConcat("(", r + (")" + tail));
      ParensConcat(r, ")" + tail);
      ParensConcat(")", tail);
      ParensConcat(" && ", Requirements.Join(reqs[1..]));
      NoParens(" && ");
      NoParens(")");
      assert "("[1..] == "" && Parens("(") == 1;
    }
  }

  lemma {:induction false} ClosedByParen(t: string, p: Requirements.Place)
    requires Requirements.CloseAt(t, p).Some?
    ensures Requirements.CloseAt(t, p).value < |t| && t[Requirements.CloseAt(t, p).value] == ')'
    decreases |t|
  {
    if !Requirements.Step(p, t[0]).Closed? {
      ClosedByParen(t[1..], Requirements.Step(p, t[0]));
    }
  }

  lemma ConjunctParens(first: string, rest: string)
    ensures Parens("(" + (first + (")" + rest))) == 1 + Parens(first) + Parens(rest)
    ensures Parens(" && " + rest) == Parens(rest)
  {
    ParensConcat("(", first + (")" + rest));
    ParensConcat(first, ")" + rest);
    ParensConcat(")", rest);
    ParensConcat(" && ", rest);
    NoParens(")");
    NoParens(" && ");
    assert "("[1..] == "" && Parens("(") == 1;
  }

  lemma ClosedText(t: string, k: nat)
    requires k + 1 < |t| && t[0] == '(' && t[k + 1] == ')'
    ensures t == "(" + (t[1..][..k] + (")" + t[1..][k + 1..]))
  {
  }

  lemma {:induction false} ConjunctsKeep(t: string)
    ensures var r := Requirements.Conjuncts(t);
            r.Some? ==> AllParens(r.value) + |r.value| == Parens(t) && (OneLine(t) ==> AllOneLine(r.value))
    decreases |t|
  {
    if Requirements.Conjuncts(t).Some? {
      ClosedByParen(t[1..], Requirements.OPENED);
      var r, k := Requirements.Conjuncts(t).value, Requirements.CloseAt(t[1..], Requirements.OPENED).value;
      hide Requirements.CloseAt;
      ClosedText(t, k);
      var first, rest := t[1..][..k], t[1..][k + 1..];
      hide Parens;
      ConjunctParens(first, rest);
      if rest == "" {
        assert r == [first] && r[1..] == [];
        NothingHasNoParens();
      } else {
        var more := Requirements.Conjuncts(rest[4..]).value;
        ConjunctsKeep(rest[4..]);
        hide Requirements.Conjuncts;
        ConjunctParens(first, rest[4..]);
        assert rest == " && " + rest[4..] && r == [first] + more && r[1..] == more;
      }
    }
  }
}
