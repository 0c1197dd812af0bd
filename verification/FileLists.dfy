/** The lists of files to transfer that process_file_transfer of condor_job/description.hpp writes,
    against the syntax in which Condor reads them. */
module FileLists {
  import opened Text
  import opened SubmitFile
  import opened OneSetting
  import opened Macros

  // ----- Writing -----

  /** Each name is put behind the glue. */
  function Listed(glue: string, names: seq<string>): string {
    if names == [] then "" else glue + (names[0] + Listed(glue, names[1..]))
  }

  lemma {:induction false} ListedAppend(glue: string, names: seq<string>, n: string)
    ensures Listed(glue, names + [n]) == Listed(glue, names) + (glue + n)
  {
    if names == [] {
      assert names + [n] == [n] && [n][1..] == [] && Listed(glue, []) == "";
      assert n + "" == n && "" + (glue + n) == glue + n;
    } else {
      assert (names + [n])[1..] == names[1..] + [n];
      ListedAppend(glue, names[1..], n);
      var rest := Listed(glue, names[1..]);
      assert glue + (names[0] + (rest + (glue + n))) == (glue + (names[0] + rest)) + (glue + n);
    }
  }

  // ----- Reading -----

  /** What separates names: commas, and in some versions of Condor spaces, too. */
  predicate Separators(seps: set<char>) {
    ',' in seps && seps <= {',', ' '}
  }

  function Name(cur: string): seq<string> {
    if Trim(cur) == "" then [] else [Trim(cur)]
  }

  /** The names in a text, without white space around them; the first one continues the one read so far. */
  function NamesFrom(t: string, cur: string, seps: set<char>): seq<string>
    decreases |t|
  {
    if t == "" then Name(cur)
    else if t[0] in seps then Name(cur) + NamesFrom(t[1..], "", seps)
    else NamesFrom(t[1..], cur + [t[0]], seps)
  }

  function Names(t: string, seps: set<char>): seq<string> {
    NamesFrom(t, "", seps)
  }

  /** A name that can be told from its neighbours. */
  predicate FileName(n: string, seps: set<char>) {
    n != "" && Trim(n) == n && forall c | c in n :: c !in seps
  }

  lemma NameIsFileName(cur: string, seps: set<char>)
    requires forall c | c in cur :: c !in seps
    ensures forall n | n in Name(cur) :: FileName(n, seps)
  {
    Trimmed(cur);
    hide Trim;
    if Trim(cur) != "" {
      TrimStays(Trim(cur));
    }
  }

  /** Whatever is read are such names. */
  lemma {:induction false} NamesAreFileNames(t: string, cur: string, seps: set<char>)
    requires forall c | c in cur :: c !in seps
    ensures forall n | n in NamesFrom(t, cur, seps) :: FileName(n, seps)
    decreases |t|
  {
    hide FileName;
    NameIsFileName(cur, seps);
    hide Name;
    if t != "" {
      if t[0] in seps {
        NamesAreFileNames(t[1..], "", seps);
      } else {
        NamesAreFileNames(t[1..], cur + [t[0]], seps);
      }
    }
  }

  lemma {:induction false} NamesPass(u: string, t: string, cur: string, seps: set<char>)
    requires forall c | c in u :: c !in seps
    ensures NamesFrom(u + t, cur, seps) == NamesFrom(t, cur + u, seps)
    decreases |u|
  {
    hide Name;
    if u == "" {
      assert u + t == t && cur + u == cur;
    } else {
      assert u[0] in u && (u + t)[0] == u[0] && (u + t)[1..] == u[1..] + t;
      NamesPass(u[1..], t, cur + [u[0]], seps);
      assert cur + [u[0]] + u[1..] == cur + u;
    }
  }

  lemma PaddedName(n: string, seps: set<char>)
    requires FileName(n, seps)
    ensures Name(n) == [n] && Name(" " + n) == [n] && Name("") == []
  {
    TrimValue(n);
    assert Trim("") == "";
    hide Trim;
  }

  /** Behind a separator, the glue may have a space. */
  lemma GluePassed(pad: string, n: string, t: string, seps: set<char>) returns (cur: string)
    requires pad in {"", " "} && FileName(n, seps)
    ensures NamesFrom(pad + (n + t), "", seps) == NamesFrom(t, cur, seps) && Name(cur) == [n]
  {
    PaddedName(n, seps);
    hide Name;
    if pad == "" {
      assert pad + (n + t) == n + t && "" + n == n;
      NamesPass(n, t, "", seps);
      cur := n;
    } else {
      assert (pad + (n + t))[0] == ' ' && (pad + (n + t))[1..] == n + t;
      if ' ' in seps {
        NamesPass(n, t, "", seps);
        assert [] + NamesFrom(n + t, "", seps) == NamesFrom(n + t, "", seps) && "" + n == n;
        cur := n;
      } else {
        NamesPass(n, t, " ", seps);
        assert "" + [' '] == " ";
        cur := " " + n;
      }
    }
  }

  predicate Glue(glue: string) {
    glue == ", " || glue == " "
  }

  /** The glue separates. */
  predicate Separates(glue: string, seps: set<char>) {
    glue != "" && glue[0] in seps
  }

  lemma {:induction false} ListedIsRead(glue: string, names: seq<string>, cur: string, seps: set<char>)
    requires Glue(glue) && Separates(glue, seps) && forall n | n in names :: FileName(n, seps)
    ensures NamesFrom(Listed(glue, names), cur, seps) == Name(cur) + names
    decreases |names|
  {
    if names == [] {
      assert Name(cur) + names == Name(cur);
    } else {
      var n, t := names[0], Listed(glue, names[1..]);
      var all := glue + (n + t);
      assert n in names && all[0] == glue[0] && all[1..] == glue[1..] + (n + t);
      assert glue[1..] in {"", " "} by { assert ", "[1..] == " " && " "[1..] == ""; }
      var now := GluePassed(glue[1..], n, t, seps);
      hide Name;
      hide FileName;
      ListedIsRead(glue, names[1..], now, seps);
      assert [n] + names[1..] == names;
    }
  }

  lemma {:induction false} ListedEnds(glue: string, names: seq<string>, seps: set<char>)
    requires Glue(glue) && names != [] && forall n | n in names :: FileName(n, seps)
    ensures var t := Listed(glue, names); |t| > |glue| && t[..|glue|] == glue && !IsSpace(t[|t| - 1])
  {
    var n := names[0];
    assert n in names;
    Trimmed(n);
    hide Trim;
    assert Listed(glue, []) == "";
    if |names| > 1 {
      ListedEnds(glue, names[1..], seps);
    } else {
      assert n + "" == n;
    }
  }

  /** Of the white space around the list, only that of the glue is there. */
  lemma ListedTrimmed(glue: string, names: seq<string>, seps: set<char>)
    requires Glue(glue) && names != [] && forall n | n in names :: FileName(n, seps)
    ensures Trim(Listed(glue, names))
            == if glue == " " then names[0] + Listed(glue, names[1..]) else Listed(glue, names)
  {
    var t := Listed(glue, names);
    ListedEnds(glue, names, seps);
    if glue == " " {
      var u := names[0] + Listed(glue, names[1..]);
      assert t == " " + u && names[0] in names;
      TrimValue(u);
      Trimmed(names[0]);
      assert u[0] == names[0][0] && u[|u| - 1] == t[|t| - 1];
      hide Trim;
      TrimStays(u);
    } else {
      assert t[0] == t[..2][0];
      TrimStays(t);
    }
  }

  /** Without separators there is one name at most. */
  lemma OneNameAtMost(t: string, seps: set<char>)
    requires forall c | c in t :: c !in seps
    ensures |Names(t, seps)| <= 1
  {
    NamesPass(t, "", "", seps);
    assert t + "" == t && "" + t == t;
  }

  lemma {:induction false} ListedIsPlain(names: seq<string>, seps: set<char>)
    requires ' ' !in seps && forall n | n in names :: FileName(n, seps)
    ensures forall c | c in Listed(" ", names) :: c !in seps
  {
    if names != [] {
      assert names[0] in names;
      ListedIsPlain(names[1..], seps);
    }
  }

  /** The condition: names that can be told apart, and a glue that does so. */
  predicate Readable(glue: string, names: seq<string>, seps: set<char>) {
    (forall n | n in names :: FileName(n, seps)) && (Separates(glue, seps) || |names| <= 1)
  }

  /** The list is read back, whether or not white space around it has been taken away, if and only if
      its names can be told apart. */
  lemma ListedRoundTrip(glue: string, names: seq<string>, seps: set<char>)
    requires Glue(glue) && Separators(seps) && names != []
    ensures Names(Trim(Listed(glue, names)), seps) == names <==> Readable(glue, names, seps)
    ensures Names(Trim(Listed(glue, names)), seps) == names
            <==> && (forall n | n in names :: n != "" && Trim(n) == n && forall c | c in n :: c !in seps)
                 && (glue[0] in seps || |names| <= 1)
  {
    hide Trim;
    NamesAreFileNames(Trim(Listed(glue, names)), "", seps);
    if forall n | n in names :: FileName(n, seps) {
      ListedTrimmed(glue, names, seps);
      var n, rest := names[0], names[1..];
      assert n in names && [n] + rest == names;
      PaddedName(n, seps);
      if Separates(glue, seps) {
        if glue == " " {
          NamesPass(n, Listed(glue, rest), "", seps);
          assert "" + n == n;
          ListedIsRead(glue, rest, n, seps);
        } else {
          ListedIsRead(glue, names, "", seps);
          assert [] + names == names;
        }
      } else {
        hide Name;
        ListedIsPlain(rest, seps);
        OneNameAtMost(n + Listed(glue, rest), seps);
        if |names| == 1 {
          assert rest == [] && n + "" == n && "" + n == n;
          NamesPass(n, "", "", seps);
        }
      }
    }
  }

  // ----- What neither the list nor its reader changes -----

  /** The number of characters of a kind. */
  function Count(t: string, kind: char -> bool): nat {
    if t == "" then 0 else (if kind(t[0]) then 1 else 0) + Count(t[1..], kind)
  }

  function CountAll(ts: seq<string>, kind: char -> bool): nat {
    if ts == [] then 0 else Count(ts[0], kind) + CountAll(ts[1..], kind)
  }

  lemma {:induction false} CountConcat(u: string, v: string, kind: char -> bool)
    ensures Count(u + v, kind) == Count(u, kind) + Count(v, kind)
  {
    if u == "" {
      assert u + v == v;
    } else {
      assert (u + v)[1..] == u[1..] + v;
      CountConcat(u[1..], v, kind);
    }
  }

  lemma {:induction false} CountAllAppend(ts: seq<string>, us: seq<string>, kind: char -> bool)
    ensures CountAll(ts + us, kind) == CountAll(ts, kind) + CountAll(us, kind)
  {
    if ts == [] {
      assert ts + us == us;
    } else {
      assert (ts + us)[1..] == ts[1..] + us;
      CountAllAppend(ts[1..], us, kind);
    }
  }

  /** A kind of characters that are part of names. */
  ghost predicate InNames(kind: char -> bool) {
    !kind(',') && forall c | IsSpace(c) :: !kind(c)
  }

  lemma {:induction false} TrimmedLeftCount(t: string, kind: char -> bool)
    requires InNames(kind)
    ensures Count(TrimLeft(t), kind) == Count(t, kind)
  {
    if t != "" && IsSpace(t[0]) {
      TrimmedLeftCount(t[1..], kind);
    }
  }

  lemma {:induction false} TrimmedRightCount(t: string, kind: char -> bool)
    requires InNames(kind)
    ensures Count(TrimRight(t), kind) == Count(t, kind)
  {
    if t != "" && IsSpace(t[|t| - 1]) {
      TrimmedRightCount(t[..|t| - 1], kind);
      CountConcat(t[..|t| - 1], [t[|t| - 1]], kind);
      assert t == t[..|t| - 1] + [t[|t| - 1]];
    }
  }

  lemma TrimmedCount(t: string, kind: char -> bool)
    requires InNames(kind)
    ensures Count(Trim(t), kind) == Count(t, kind)
  {
    TrimmedLeftCount(t, kind);
    TrimmedRightCount(TrimLeft(t), kind);
  }

  lemma NameCount(cur: string, kind: char -> bool)
    requires InNames(kind)
    ensures CountAll(Name(cur), kind) == Count(cur, kind)
  {
    TrimmedCount(cur, kind);
    hide Trim;
    assert CountAll([], kind) == 0;
  }

  lemma {:induction false} NamesCount(t: string, cur: string, seps: set<char>, kind: char -> bool)
    requires Separators(seps) && InNames(kind)
    ensures CountAll(NamesFrom(t, cur, seps), kind) == Count(cur, kind) + Count(t, kind)
    decreases |t|
  {
    NameCount(cur, kind);
    hide Name;
    if t != "" {
      if t[0] in seps {
        NamesCount(t[1..], "", seps, kind);
        CountAllAppend(Name(cur), NamesFrom(t[1..], "", seps), kind);
      } else {
        NamesCount(t[1..], cur + [t[0]], seps, kind);
        CountConcat(cur, [t[0]], kind);
      }
    }
  }

  lemma {:induction false} ListedCount(glue: string, names: seq<string>, kind: char -> bool)
    requires Glue(glue) && InNames(kind)
    ensures Count(Listed(glue, names), kind) == CountAll(names, kind)
  {
    if names != [] {
      ListedCount(glue, names[1..], kind);
      var t := Listed(glue, names[1..]);
      assert Count(glue, kind) == 0 by { assert ", "[1..] == " " && " "[1..] == ""; }
      CountConcat(glue, names[0] + t, kind);
      CountConcat(names[0], t, kind);
    }
  }

  predicate IsParen(c: char) {
    c == '('
  }

  lemma {:induction false} ParensAreCounted(t: string)
    ensures Parens(t) == Count(t, IsParen)
  {
    if t != "" {
      ParensAreCounted(t[1..]);
    }
  }

  lemma TrimmedParens(t: string)
    ensures Parens(Trim(t)) == Parens(t)
  {
    TrimmedCount(t, IsParen);
    ParensAreCounted(t);
    ParensAreCounted(Trim(t));
  }

  lemma ListParens(glue: string, names: seq<string>, t: string, seps: set<char>)
    requires Glue(glue) && Separators(seps) && Names(t, seps) == names
    ensures Parens(t) == Parens(Listed(glue, names))
  {
    var v := Listed(glue, names);
    NamesCount(t, "", seps, IsParen);
    ListedCount(glue, names, IsParen);
    ParensAreCounted(t);
    ParensAreCounted(v);
  }

  /** Neither punctuation of a list nor a backslash. */
  predicate IsMark(c: char) {
    c != ',' && c != '\\' && !IsSpace(c)
  }

  lemma {:induction false} MarkIsCounted(t: string, c: char)
    requires c in t && IsMark(c)
    ensures Count(t, IsMark) > 0
  {
    if t[0] != c {
      MarkIsCounted(t[1..], c);
    }
  }

  lemma JoinedMarks(v: string, next: string)
    requires Open(v) && Says(next)
    ensures Count(Trim(Joined(v, Some(next))), IsMark) > Count(v, IsMark)
  {
    var u := v[..|v| - 1];
    MarkIsCounted(next, if '=' in next then '=' else 'q');
    CountConcat(u, next, IsMark);
    assert v == u + "\\" && "\\"[1..] == "";
    CountConcat(u, "\\", IsMark);
    TrimmedCount(u + next, IsMark);
  }

  /** A list that takes in a line is not read back. */
  lemma JoinedIsNotTheList(glue: string, names: seq<string>, next: string, seps: set<char>)
    requires Glue(glue) && Separators(seps) && Open(Listed(glue, names)) && Says(next)
    ensures Names(Trim(Joined(Listed(glue, names), Some(next))), seps) != names
  {
    var v := Listed(glue, names);
    JoinedMarks(v, next);
    NamesCount(Trim(Joined(v, Some(next))), "", seps, IsMark);
    ListedCount(glue, names, IsMark);
  }

  lemma {:induction false} NamesOneLine(t: string, cur: string, seps: set<char>)
    requires OneLine(t) && OneLine(cur)
    ensures AllOneLine(NamesFrom(t, cur, seps))
    decreases |t|
  {
    Trimmed(cur);
    hide Trim;
    if t != "" {
      if t[0] in seps {
        NamesOneLine(t[1..], "", seps);
      } else {
        NamesOneLine(t[1..], cur + [t[0]], seps);
      }
    }
  }

  lemma {:induction false} ListedOneLine(glue: string, names: seq<string>)
    requires Glue(glue) && AllOneLine(names)
    ensures OneLine(Listed(glue, names))
  {
    if names != [] {
      assert OneLine(names[0]);
      ListedOneLine(glue, names[1..]);
    }
  }
}
