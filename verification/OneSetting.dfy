/** One setting among any others: what Condor reads for it from the rendering of a submit description, whatever
    the names and the values of the others are. */
module OneSetting {
  import opened Text
  import opened SubmitFile

  // ----- The text around a setting -----

  /** The keys in front of one, and those behind it. */
  function Before(ks: seq<string>, k: string): (r: seq<string>)
    ensures forall x | x in r :: x in ks
  {
    if ks == [] || ks[0] == k then [] else [ks[0]] + Before(ks[1..], k)
  }

  function Behind(ks: seq<string>, k: string): (r: seq<string>)
    ensures forall x | x in r :: x in ks
  {
    if ks == [] then [] else if ks[0] == k then ks[1..] else Behind(ks[1..], k)
  }

  lemma {:induction false} Around(ks: seq<string>, k: string)
    requires Sorted(ks) && k in ks
    ensures ks == Before(ks, k) + ([k] + Behind(ks, k)) && k !in Before(ks, k) && k !in Behind(ks, k)
    ensures Sorted(Behind(ks, k)) && forall x | x in Behind(ks, k) :: Below(k, x)
  {
    SortedTail(ks);
    hide Below;
    if ks[0] == k {
      KeysBehind(ks, 0);
    } else {
      hide Sorted;
      Around(ks[1..], k);
    }
  }

  lemma KeysBehind(ks: seq<string>, i: nat)
    requires Sorted(ks) && i < |ks|
    ensures Sorted(ks[i + 1..]) && forall x | x in ks[i + 1..] :: Below(ks[i], x)
  {
    hide Below;
    var q := ks[i + 1..];
    assert forall j | 0 <= j < |q| :: q[j] == ks[i + 1 + j];
  }


  ghost function LinesBefore(m: Settings, k: string): seq<string> {
    SortedKeysAreSorted(m.Keys);
    Assignments(Before(SortedKeys(m.Keys), k), m)
  }

  ghost function LinesBehind(m: Settings, k: string): seq<string> {
    SortedKeysAreSorted(m.Keys);
    Assignments(Behind(SortedKeys(m.Keys), k), m) + QueueLines(m)
  }

  /** The lines of the file in front of a setting, which are more than the settings there if a name or a value has
      line breaks, and those behind it. */
  ghost function Front(m: Settings, k: string): seq<string> {
    SplitLines(Unlines(LinesBefore(m, k)))
  }

  ghost function Rest(m: Settings, k: string): seq<string> {
    SplitLines(Unlines(LinesBehind(m, k)))
  }

  lemma {:induction false} AssignmentsConcat(u: seq<string>, v: seq<string>, m: Settings)
    requires (forall k | k in u :: k in m) && (forall k | k in v :: k in m)
    ensures forall k | k in u + v :: k in m
    ensures Assignments(u + v, m) == Assignments(u, m) + Assignments(v, m)
  {
    if u == [] {
      assert u + v == v;
    } else {
      assert (u + v)[1..] == u[1..] + v && (u + v)[0] == u[0];
      hide AssignmentLine;
      AssignmentsConcat(u[1..], v, m);
    }
  }


  lemma {:induction false} AssignmentsAgree(ks: seq<string>, m: Settings, n: Settings)
    requires forall x | x in ks :: x in m && x in n && m[x] == n[x]
    ensures Assignments(ks, m) == Assignments(ks, n)
  {
    if ks != [] {
      assert ks[0] in ks;
      hide AssignmentLine;
      AssignmentsAgree(ks[1..], m, n);
    }
  }

  lemma LinesSplit(m: Settings, k: string)
    requires k in m && m[k] != "" && k != "queue"
    ensures Lines(m) == LinesBefore(m, k) + ([AssignmentLine(k, m[k])] + LinesBehind(m, k))
  {
    SortedKeysAreSorted(m.Keys);
    var ks := SortedKeys(m.Keys);
    hide Sorted;
    Around(ks, k);
    var p, q := Before(ks, k), Behind(ks, k);
    OneAssignment(k, q, m);
    hide Before;
    hide Behind;
    hide Assignments;
    hide QueueLines;
    hide AssignmentLine;
    AssignmentsConcat(p, [k] + q, m);
    LinesRegroup(Assignments(p, m), AssignmentLine(k, m[k]), Assignments(q, m), QueueLines(m));
  }

  lemma OneAssignment(k: string, q: seq<string>, m: Settings)
    requires k in m && m[k] != "" && k != "queue" && forall x | x in q :: x in m
    ensures Assignments([k] + q, m) == [AssignmentLine(k, m[k])] + Assignments(q, m)
  {
    assert ([k] + q)[1..] == q;
  }

  lemma LinesRegroup(a: seq<string>, line: string, b: seq<string>, c: seq<string>)
    ensures (a + ([line] + b)) + c == a + ([line] + (b + c))
  {
  }


  lemma {:induction false} SplitEnded(u: string, t: string, cur: string)
    ensures SplitFrom(u + ("\n" + t), cur) == SplitFrom(u + "\n", cur) + SplitLines(t)
    decreases |u|
  {
    if u == "" {
      assert u + ("\n" + t) == "\n" + t && ("\n" + t)[1..] == t;
      assert u + "\n" == "\n" && "\n"[1..] == "" && SplitFrom("", "") == [];
    } else {
      assert (u + ("\n" + t))[1..] == u[1..] + ("\n" + t) && (u + "\n")[1..] == u[1..] + "\n";
      if u[0] == '\n' {
        SplitEnded(u[1..], t, "");
      } else {
        SplitEnded(u[1..], t, cur + [u[0]]);
      }
    }
  }

  /** What comes behind whole lines is split on its own. */
  lemma {:induction false} SplitBehind(lines: seq<string>, t: string)
    ensures SplitLines(Unlines(lines) + t) == SplitLines(Unlines(lines)) + SplitLines(t)
  {
    hide SplitFrom;
    if lines == [] {
      assert Unlines([]) + t == t;
      assert SplitLines("") == [] by { NothingSplit(); }
    } else {
      var l, more := lines[0], Unlines(lines[1..]);
      assert Unlines(lines) + t == l + ("\n" + (more + t));
      SplitEnded(l, more + t, "");
      SplitEnded(l, more, "");
      SplitBehind(lines[1..], t);
    }
  }

  lemma NothingSplit()
    ensures SplitLines("") == []
  {
  }

  /** The setting stands on a line of its own. */
  lemma TextAround(m: Settings, k: string)
    requires k in m && m[k] != "" && k != "queue" && OneLine(k) && OneLine(m[k])
    ensures SplitLines(Render(m)) == Front(m, k) + ([AssignmentLine(k, m[k])] + Rest(m, k))
  {
    var a, line, b := LinesBefore(m, k), AssignmentLine(k, m[k]), LinesBehind(m, k);
    LinesSplit(m, k);
    LineHasNoBreak(k, m[k]);
    hide Lines;
    hide LinesBefore;
    hide LinesBehind;
    hide AssignmentLine;
    UnlinesConcat(a, [line] + b);
    LineFirst(line, b);
    hide Unlines;
    SplitBehind(a, line + ("\n" + Unlines(b)));
    SplitLine(line, "", Unlines(b));
    hide SplitFrom;
    assert "" + line == line;
  }

  lemma LineHasNoBreak(k: string, v: string)
    requires OneLine(k) && OneLine(v)
    ensures OneLine(AssignmentLine(k, v))
  {
  }

  lemma LineFirst(line: string, b: seq<string>)
    ensures Unlines([line] + b) == line + ("\n" + Unlines(b))
  {
    assert ([line] + b)[1..] == b;
  }

  // ----- Lines that go on -----

  /** The lines that are complete, and what a line that is not brings into the one behind it. */
  function Whole(lines: seq<string>): seq<string>
    decreases |lines|
  {
    if lines == [] then []
    else if !Open(lines[0]) then [lines[0]] + Whole(lines[1..])
    else if |lines| == 1 then []
    else Whole([lines[0][..|lines[0]| - 1] + lines[1]] + lines[2..])
  }

  function Pending(lines: seq<string>): string
    decreases |lines|
  {
    if lines == [] then ""
    else if !Open(lines[0]) then Pending(lines[1..])
    else if |lines| == 1 then lines[0][..|lines[0]| - 1]
    else Pending([lines[0][..|lines[0]| - 1] + lines[1]] + lines[2..])
  }

  lemma {:induction false} ContinuedBehind(a: seq<string>, line: string, b: seq<string>)
    ensures Continued(a + ([line] + b)) == Whole(a) + Continued([Pending(a) + line] + b)
    decreases |a|
  {
    var all := a + ([line] + b);
    if a == [] {
      assert all == [line] + b && "" + line == line;
    } else if !Open(a[0]) {
      assert all[1..] == a[1..] + ([line] + b);
      ContinuedBehind(a[1..], line, b);
    } else if |a| == 1 {
      assert all[1] == line && all[2..] == b;
    } else {
      var joined := a[0][..|a[0]| - 1] + a[1];
      assert all[1] == a[1] && [joined] + all[2..] == ([joined] + a[2..]) + ([line] + b);
      ContinuedBehind([joined] + a[2..], line, b);
    }
  }

  /** Every line of a setting with a plain name, and the queue command, have one of these characters. */
  predicate Says(line: string) {
    '=' in line || 'q' in line
  }

  /** The line that a setting takes in. */
  ghost function Next(m: Settings, k: string): Option<string>
    requires k in m
  {
    if Open(m[k]) && Rest(m, k) != [] then Some(Rest(m, k)[0]) else None
  }

  /** The value with what it takes in. */
  function Joined(v: string, next: Option<string>): string {
    if next.None? || v == "" then v else v[..|v| - 1] + next.value
  }


  lemma ContinuedHere(p: string, k: string, v: string, b: seq<string>)
    requires Open(v) && b != [] ==> Says(b[0]) && !Open(b[0])
    ensures var next := if Open(v) && b != [] then Some(b[0]) else None;
            Continued([p + AssignmentLine(k, v)] + b)
            == [p + AssignmentLine(k, Joined(v, next))] + Continued(if next.Some? then b[1..] else b)
  {
    hide *;
    var line := p + AssignmentLine(k, v);
    JoinedIs(v, None);
    if Open(v) && b != [] {
      JoinedLine(p, k, v, b[0]);
      OneContinued(line, b);
    } else {
      ClosedLine(p, k, v);
      NotContinued(line, b);
    }
  }

  lemma JoinedIs(v: string, next: Option<string>)
    ensures next.None? ==> Joined(v, next) == v
  {
  }

  lemma ClosedLine(p: string, k: string, v: string)
    ensures Open(p + AssignmentLine(k, v)) ==> Open(v)
  {
  }

  lemma JoinedLine(p: string, k: string, v: string, next: string)
    requires Open(v) && Says(next) && !Open(next)
    ensures var line, joined := p + AssignmentLine(k, v), p + AssignmentLine(k, Joined(v, Some(next)));
            Open(line) && line[..|line| - 1] + next == joined && !Open(joined)
  {
    var line, joined := p + AssignmentLine(k, v), p + AssignmentLine(k, Joined(v, Some(next)));
    assert line[..|line| - 1] + next == joined;
    assert joined[|joined| - 1] == next[|next| - 1];
  }

  lemma OneContinued(line: string, b: seq<string>)
    requires b != [] && Open(line) && !Open(line[..|line| - 1] + b[0])
    ensures Continued([line] + b) == [line[..|line| - 1] + b[0]] + Continued(b[1..])
  {
    var joined := line[..|line| - 1] + b[0];
    assert [line] + b == [line, b[0]] + b[1..] && ([joined] + b[1..])[1..] == b[1..];
    assert ([line] + b)[2..] == b[1..];
  }

  lemma NotContinued(line: string, b: seq<string>)
    requires Open(line) ==> b == []
    ensures Continued([line] + b) == [line] + Continued(b)
  {
    assert ([line] + b)[1..] == b;
  }

  // ----- What the others must leave alone -----

  predicate Blank(s: string) {
    forall c | c in s :: IsSpace(c)
  }

  /** Nothing but white space comes into the line of the setting, the line that it takes in, if any, is an ordinary
      one, and no line behind it says anything about the name. */
  ghost predicate Undisturbed(m: Settings, k: string) {
    && k in m && Blank(Pending(Front(m, k)))
    && (var rest := Rest(m, k);
        if Open(m[k]) && rest != []
        then Says(rest[0]) && !Open(rest[0]) && Lookup(Continued(rest[1..]), k) == None
        else Lookup(Continued(rest), k) == None)
  }

  lemma {:induction false} BlankInFront(p: string, s: string)
    requires Blank(p)
    ensures TrimLeft(p + s) == TrimLeft(s)
  {
    if p == "" {
      assert p + s == s;
    } else {
      assert p[0] in p && (p + s)[1..] == p[1..] + s;
      BlankInFront(p[1..], s);
    }
  }

  lemma BlankHasNoEquals(p: string, k: string)
    requires Blank(p) && PlainName(k)
    ensures '=' !in p + (k + " ")
  {
  }

  /** An assignment is read with white space in front of it, too. */
  lemma ReadBehindBlank(p: string, k: string, v: string)
    requires Blank(p) && PlainName(k) && k[0] != '#' && k != "queue" && Lower(k) == k
    ensures ReadAssignment(p + AssignmentLine(k, v)) == Some((k, Trim(v)))
  {
    hide *;
    var line := p + AssignmentLine(k, v);
    PiecesBehindBlank(p, k, v);
    BlankHasNoEquals(p, k);
    EqualsAtIs(p + (k + " "), " " + v);
    BlankInFront(p, k + " ");
    TrimIs(p + (k + " "));
    TrimIs(k + " ");
    TrimName(k);
    TrimValue(v);
    NoQueueBehindBlank(p, k, v);
    NoCommentBehindBlank(p, k, v);
    ReadAssignmentAt(line, |p + (k + " ")|);
  }

  lemma TrimIs(s: string)
    ensures Trim(s) == TrimRight(TrimLeft(s))
  {
  }

  lemma PiecesBehindBlank(p: string, k: string, v: string)
    ensures var line, name := p + AssignmentLine(k, v), p + (k + " ");
            && line == name + ("=" + (" " + v)) && |name| < |line|
            && line[..|name|] == name && line[|name| + 1..] == " " + v
  {
  }

  lemma NoQueueBehindBlank(p: string, k: string, v: string)
    requires Blank(p) && PlainName(k) && k != "queue"
    ensures !("queue " <= p + AssignmentLine(k, v))
  {
    if p == "" {
      LineParts(k, v);
      hide AssignmentLine;
      assert "" + AssignmentLine(k, v) == AssignmentLine(k, v);
      NotQueue(k, AssignmentLine(k, v));
    } else {
      assert p[0] in p && (p + AssignmentLine(k, v))[0] == p[0];
    }
  }

  lemma NoCommentBehindBlank(p: string, k: string, v: string)
    requires Blank(p) && PlainName(k) && k[0] != '#'
    ensures !Comment(p + AssignmentLine(k, v))
  {
    var line := AssignmentLine(k, v);
    assert k[0] in k && line[0] == k[0];
    hide AssignmentLine;
    hide Blank;
    BlankInFront(p, line);
  }

  /** What the lines say about a name, line by line. */
  lemma {:induction false} LookupElse(a: seq<string>, line: string, b: seq<string>, name: string)
    ensures var later, here := Lookup(b, name), ReadAssignment(line);
            Lookup(a + ([line] + b), name)
            == if later.Some? then later
               else if here.Some? && here.value.0 == name then Some(here.value.1)
               else Lookup(a, name)
  {
    hide ReadAssignment;
    if a == [] {
      assert a + ([line] + b) == [line] + b && ([line] + b)[1..] == b;
    } else {
      assert (a + ([line] + b))[1..] == a[1..] + ([line] + b);
      LookupElse(a[1..], line, b, name);
    }
  }

  /** How the file is read around the setting. */
  lemma ReadAround(m: Settings, k: string)
    requires k in m && m[k] != "" && k != "queue" && OneLine(k) && OneLine(m[k])
    requires Open(m[k]) && Rest(m, k) != [] ==> Says(Rest(m, k)[0]) && !Open(Rest(m, k)[0])
    ensures var rest := Rest(m, k);
            ReadSetting(m, k)
            == Lookup(Whole(Front(m, k))
                      + ([Pending(Front(m, k)) + AssignmentLine(k, Joined(m[k], Next(m, k)))]
                         + Continued(if Next(m, k).Some? then rest[1..] else rest)), k)
  {
    hide *;
    TextAround(m, k);
    ReadSettingIs(m, k);
    ContinuedBehind(Front(m, k), AssignmentLine(k, m[k]), Rest(m, k));
    ContinuedHere(Pending(Front(m, k)), k, m[k], Rest(m, k));
    NextIs(m, k);
  }

  lemma ReadSettingIs(m: Settings, name: string)
    ensures ReadSetting(m, name) == Lookup(Continued(SplitLines(Render(m))), name)
  {
  }


  lemma NextIs(m: Settings, k: string)
    requires k in m
    ensures Next(m, k) == if Open(m[k]) && Rest(m, k) != [] then Some(Rest(m, k)[0]) else None
  {
    hide Open;
    hide Rest;
  }

  lemma UndisturbedGives(m: Settings, k: string)
    requires Undisturbed(m, k)
    ensures k in m && Blank(Pending(Front(m, k)))
    ensures Next(m, k).Some? ==> Says(Next(m, k).value)
    ensures Open(m[k]) && Rest(m, k) != [] ==> Says(Rest(m, k)[0]) && !Open(Rest(m, k)[0])
    ensures Lookup(Continued(if Next(m, k).Some? then Rest(m, k)[1..] else Rest(m, k)), k) == None
  {
    hide Blank;
    hide Pending;
    hide Front;
    hide Rest;
    hide Open;
    hide Says;
    hide Lookup;
    hide Continued;
  }

  /** What is read for an undisturbed setting in lower case that stays on its line: its value with the line that it
      takes in. */
  lemma SettingIsRead(m: Settings, k: string)
    requires k in m && m[k] != "" && k != "queue" && Lower(k) == k && PlainName(k) && k[0] != '#'
    requires OneLine(m[k]) && Undisturbed(m, k)
    ensures ReadSetting(m, k) == Some(Trim(Joined(m[k], Next(m, k))))
    ensures Next(m, k).Some? ==> Says(Next(m, k).value)
  {
    hide *;
    NameIsOneLine(k);
    UndisturbedGives(m, k);
    NextIs(m, k);
    ReadAround(m, k);
    var value := Joined(m[k], Next(m, k));
    var line := Pending(Front(m, k)) + AssignmentLine(k, value);
    var later := Continued(if Next(m, k).Some? then Rest(m, k)[1..] else Rest(m, k));
    ReadBehindBlank(Pending(Front(m, k)), k, value);
    LookupElse(Whole(Front(m, k)), line, later, k);
  }

  lemma NameIsOneLine(k: string)
    requires PlainName(k)
    ensures OneLine(k)
  {
  }

  // ----- Regular settings leave the others alone -----

  lemma LaterIsNoSpelling(x: string, k: string)
    requires Below(k, x) && x != k
    ensures Lower(x) != k
  {
    LowerCaseIsLast(x);
    BelowIsTotal(k, x);
    hide Below;
    hide Lower;
  }

  lemma {:induction false} AssignmentsSay(ks: seq<string>, m: Settings)
    requires forall k | k in ks :: k in m
    ensures forall l | l in Assignments(ks, m) :: Says(l)
  {
    if ks != [] {
      assert ks[0] in ks;
      AssignmentsSay(ks[1..], m);
      var k := ks[0];
      assert AssignmentLine(k, m[k])[|k| + 1] == '=';
    }
  }


  lemma QueueIsOrdinary(m: Settings)
    requires Regular(m)
    ensures forall l | l in QueueLines(m) :: !Open(l) && Says(l) && OneLine(l)
  {
    if "queue" in m {
      assert RegularEntry("queue", m["queue"]) && PlainName("queue");
      assert QueueLine(m["queue"])[0] == 'q';
    }
  }

  lemma LaterLines(q: seq<string>, m: Settings, k: string)
    requires Regular(m) && Sorted(q) && forall x | x in q :: x in m && x != k && Below(k, x)
    ensures var b := Assignments(q, m) + QueueLines(m);
            (forall l | l in b :: !Open(l) && Says(l) && OneLine(l)) && Lookup(b, k) == None
  {
    AssignmentsAreClosed(q, m);
    AssignmentsSay(q, m);
    AssignmentsHaveNoBreaks(q, m);
    QueueIsOrdinary(m);
    hide Below;
    hide Lower;
    hide Lookup;
    hide Open;
    hide Says;
    hide Assignments;
    hide QueueLines;
    forall x | x in q ensures !Candidate(m, k, x) {
      LaterIsNoSpelling(x, k);
    }
    hide Candidate;
    LookupAssignments(q, m, k);
    LookupWithQueue(Assignments(q, m), m, k);
  }

  lemma {:induction false} NothingPending(lines: seq<string>)
    requires forall l | l in lines :: !Open(l)
    ensures Pending(lines) == ""
  {
    if lines != [] {
      assert !Open(lines[0]);
      NothingPending(lines[1..]);
    }
  }

  /** The keys in front and behind, and their lines. */
  lemma KeysAround(m: Settings, k: string) returns (p: seq<string>, q: seq<string>)
    requires k in m
    ensures (forall x | x in p :: x in m && x != k) && (forall x | x in q :: x in m && x != k && Below(k, x))
    ensures p == Before(SortedKeys(m.Keys), k) && q == Behind(SortedKeys(m.Keys), k) && Sorted(q)
    ensures LinesBefore(m, k) == Assignments(p, m) && LinesBehind(m, k) == Assignments(q, m) + QueueLines(m)
  {
    SortedKeysAreSorted(m.Keys);
    var ks := SortedKeys(m.Keys);
    p, q := Before(ks, k), Behind(ks, k);
    Around(ks, k);
    hide Sorted;
    hide Below;
    hide Before;
    hide Behind;
    hide Assignments;
    hide QueueLines;
  }

  lemma QueueStays(m: Settings, n: Settings)
    requires ("queue" in m <==> "queue" in n) && ("queue" in m ==> m["queue"] == n["queue"])
    ensures QueueLines(m) == QueueLines(n)
  {
  }

  lemma FrontIsClosed(m: Settings, k: string)
    requires k in m && Regular(m - {k})
    ensures forall l | l in Front(m, k) :: !Open(l)
  {
    hide *;
    var p, q := KeysAround(m, k);
    AssignmentsAgree(p, m, m - {k});
    AssignmentsAreClosed(p, m - {k});
    RegularIsPlain(m - {k});
    AssignmentsHaveNoBreaks(p, m - {k});
    SplitUnlines(LinesBefore(m, k));
    FrontIs(m, k);
  }

  lemma RegularIsPlain(m: Settings)
    requires Regular(m)
    ensures Plain(m)
  {
  }

  lemma FrontIs(m: Settings, k: string)
    ensures Front(m, k) == SplitLines(Unlines(LinesBefore(m, k)))
    ensures Rest(m, k) == SplitLines(Unlines(LinesBehind(m, k)))
  {
  }

  lemma RestIsOrdinary(m: Settings, k: string)
    requires k in m && k != "queue" && Regular(m - {k})
    ensures (forall l | l in Rest(m, k) :: !Open(l) && Says(l)) && Lookup(Rest(m, k), k) == None
  {
    hide *;
    var p, q := KeysAround(m, k);
    AssignmentsAgree(q, m, m - {k});
    QueueStays(m, m - {k});
    LaterLines(q, m - {k}, k);
    AllBreakFree(LinesBehind(m, k));
    SplitUnlines(LinesBehind(m, k));
    FrontIs(m, k);
  }

  lemma AllBreakFree(lines: seq<string>)
    requires forall l | l in lines :: OneLine(l)
    ensures forall l | l in lines :: '\n' !in l
  {
  }

  lemma LookupTail(b: seq<string>, name: string)
    requires b != [] && Lookup(b, name) == None
    ensures Lookup(b[1..], name) == None
  {
    hide ReadAssignment;
  }

  /** Presets and settings that are regular, but for the setting itself, leave it undisturbed. */
  lemma RegularIsUndisturbed(m: Settings, k: string)
    requires k in m && k != "queue" && Regular(m - {k})
    ensures Undisturbed(m, k)
  {
    hide Regular;
    FrontIsClosed(m, k);
    RestIsOrdinary(m, k);
    hide Front;
    hide Rest;
    hide Open;
    hide Says;
    NothingPending(Front(m, k));
    var rest := Rest(m, k);
    NothingContinued(rest);
    if rest != [] {
      assert rest[0] in rest;
      NothingContinued(rest[1..]);
      LookupTail(rest, k);
    }
    hide Lookup;
    hide Continued;
    hide Pending;
  }

  /** The queue command stands behind every setting. */
  lemma QueueFollows(m: Settings, k: string)
    requires "queue" in m && m["queue"] != ""
    ensures Rest(m, k) != []
  {
    var lines := LinesBehind(m, k);
    assert lines != [] && lines == lines[..|lines| - 1] + [lines[|lines| - 1]];
    hide LinesBehind;
    UnlinesAppend(lines[..|lines| - 1], lines[|lines| - 1]);
    assert Unlines(lines) != "";
    hide Unlines;
    SplitIsThere(Unlines(lines), "");
  }

  lemma {:induction false} SplitIsThere(text: string, cur: string)
    requires text != "" || cur != ""
    ensures SplitFrom(text, cur) != []
    decreases |text|
  {
    if text != "" && text[0] != '\n' {
      SplitIsThere(text[1..], cur + [text[0]]);
    }
  }

  // ----- Exactly then does it arrive -----

  /** A value that stays on its line and does not go on. */
  predicate Tidy(w: string) {
    w != "" && OneLine(w) && !Open(w)
  }

  lemma OtherValue(m: Settings, k: string, w: string)
    requires k in m && k != "queue"
    ensures Front(m[k := w], k) == Front(m, k) && Rest(m[k := w], k) == Rest(m, k)
  {
    hide *;
    var n := m[k := w];
    assert n.Keys == m.Keys;
    var p, q := KeysAround(m, k);
    var p', q' := KeysAround(n, k);
    AssignmentsAgree(p, m, n);
    AssignmentsAgree(q, m, n);
    QueueStays(m, n);
    FrontIs(m, k);
    FrontIs(n, k);
  }

  /** In a line that goes on from one with text, the setting is not read as it is meant. */
  lemma NotBehindText(p: string, k: string, w: string)
    requires !Blank(p) && PlainName(k) && |w| == 1 && !IsSpace(w[0])
    ensures ReadAssignment(p + AssignmentLine(k, w)) != Some((k, w))
  {
    var line := p + AssignmentLine(k, w);
    var here := ReadAssignment(line);
    EqualsAtBound(line);
    if here.Some? {
      if '=' in p {
        ValueIsLonger(p, k, w);
      } else {
        NameIsLonger(p, k, w);
      }
    }
    hide Trim;
    hide Lower;
    hide EqualsAt;
    hide Comment;
  }

  lemma {:induction false} EqualsInFront(p: string, t: string)
    requires '=' in p
    ensures EqualsAt(p + t).Some? && EqualsAt(p + t).value < |p|
  {
    if p[0] != '=' {
      assert (p + t)[1..] == p[1..] + t;
      EqualsInFront(p[1..], t);
    } else {
      assert (p + t)[0] == '=';
    }
  }

  /** Text in front of a word that ends in no white space stays in front of it. */
  lemma {:induction false} TrimLeftKeeps(t: string, s: string)
    requires s != "" && !IsSpace(s[0])
    ensures |TrimLeft(t + s)| >= |s|
    ensures !Blank(t) ==> |TrimLeft(t + s)| > |s|
    ensures TrimLeft(t + s)[|TrimLeft(t + s)| - |s|..] == s
  {
    if t == "" {
      assert t + s == s;
    } else {
      assert (t + s)[0] == t[0] && (t + s)[1..] == t[1..] + s;
      if IsSpace(t[0]) {
        TrimLeftKeeps(t[1..], s);
        assert Blank(t[1..]) ==> Blank(t);
      } else {
        assert (t + s)[|t|..] == s;
      }
    }
  }

  lemma ValueIsLonger(p: string, k: string, w: string)
    requires '=' in p && PlainName(k) && |w| == 1 && !IsSpace(w[0])
    ensures var line := p + AssignmentLine(k, w);
            EqualsAt(line).Some? && EqualsAt(line).value < |line| && Trim(line[EqualsAt(line).value + 1..]) != w
  {
    var line, s := p + AssignmentLine(k, w), AssignmentLine(k, w);
    EqualsInFront(p, s);
    var i := EqualsAt(line).value;
    hide EqualsAt;
    var t := p[i + 1..];
    assert line[i + 1..] == t + s;
    assert k[0] in k && s[0] == k[0] && s[|s| - 1] == w[0];
    TrimLeftKeeps(t, s);
    var u := TrimLeft(t + s);
    assert u[|u| - 1] == s[|s| - 1];
    assert TrimRight(u) == u;
  }

  lemma NameIsLonger(p: string, k: string, w: string)
    requires !Blank(p) && '=' !in p && PlainName(k)
    ensures var line := p + AssignmentLine(k, w);
            EqualsAt(line).Some? && EqualsAt(line).value < |line| && Lower(Trim(line[..EqualsAt(line).value])) != k
  {
    var line, name := p + AssignmentLine(k, w), p + (k + " ");
    assert line == name + ("=" + (" " + w));
    EqualsAtIs(name, " " + w);
    hide EqualsAt;
    assert line[..|name|] == name;
    assert k[0] in k && k[|k| - 1] in k;
    TrimLeftKeeps(p, k + " ");
    var u := TrimLeft(name);
    assert u[|u| - 1] == (k + " ")[|k|] && u[|u| - 2] == (k + " ")[|k| - 1];
    assert TrimRight(u) == TrimRight(u[..|u| - 1]) == u[..|u| - 1];
    hide Lower;
  }

  /** What is read for such a value. */
  lemma TidyIsRead(m: Settings, k: string, w: string)
    requires k in m && k != "queue" && OneLine(k) && Tidy(w)
    ensures ReadSetting(m[k := w], k)
            == Lookup(Whole(Front(m, k)) + ([Pending(Front(m, k)) + AssignmentLine(k, w)] + Continued(Rest(m, k))), k)
  {
    hide *;
    var n := m[k := w];
    TidyIs(w);
    OtherValue(m, k, w);
    NextIs(n, k);
    JoinedIs(w, None);
    ReadAround(n, k);
  }

  lemma TidyIs(w: string)
    ensures Tidy(w) <==> w != "" && OneLine(w) && !Open(w)
  {
  }

  /** Every tidy value of a setting is what is read, whatever it is, if and only if the setting is undisturbed:
      for any names and any values of the others. */
  lemma ArrivesExactly(m: Settings, k: string)
    requires k in m && Tidy(m[k]) && k != "queue" && Lower(k) == k && PlainName(k) && k[0] != '#'
    ensures (forall w | Tidy(w) :: ReadSetting(m[k := w], k) == Some(Trim(w))) <==> Undisturbed(m, k)
  {
    hide *;
    if Undisturbed(m, k) {
      forall w | Tidy(w) ensures ReadSetting(m[k := w], k) == Some(Trim(w)) {
        TidyArrives(m, k, w);
      }
    }
    if forall w | Tidy(w) :: ReadSetting(m[k := w], k) == Some(Trim(w)) {
      TwoValues();
      TidyIs(m[k]);
      MustBeUndisturbed(m, k);
    }
  }

  lemma TwoValues()
    ensures Tidy("a") && Tidy("b") && Trim("a") == "a" && Trim("b") == "b"
  {
  }

  lemma TidyArrives(m: Settings, k: string, w: string)
    requires k in m && Undisturbed(m, k) && Tidy(m[k]) && Tidy(w)
    requires k != "queue" && Lower(k) == k && PlainName(k) && k[0] != '#'
    ensures ReadSetting(m[k := w], k) == Some(Trim(w))
  {
    hide *;
    TidyIs(w);
    TidyIs(m[k]);
    OtherValue(m, k, w);
    UndisturbedIs(m, k);
    UndisturbedIs(m[k := w], k);
    NextIs(m[k := w], k);
    JoinedIs(w, None);
    SettingIsRead(m[k := w], k);
  }

  lemma UndisturbedIs(m: Settings, k: string)
    requires k in m && !Open(m[k])
    ensures Undisturbed(m, k) <==> Blank(Pending(Front(m, k))) && Lookup(Continued(Rest(m, k)), k) == None
  {
    hide Blank;
    hide Pending;
    hide Front;
    hide Rest;
    hide Lookup;
    hide Continued;
  }

  lemma MustBeUndisturbed(m: Settings, k: string)
    requires k in m && !Open(m[k]) && k != "queue" && PlainName(k) && Tidy("a") && Tidy("b")
    requires ReadSetting(m[k := "a"], k) == Some("a") && ReadSetting(m[k := "b"], k) == Some("b")
    ensures Undisturbed(m, k)
  {
    hide *;
    NameIsOneLine(k);
    UndisturbedIs(m, k);
    TidyIsRead(m, k, "a");
    TidyIsRead(m, k, "b");
    var p := Pending(Front(m, k));
    LookupElse(Whole(Front(m, k)), p + AssignmentLine(k, "a"), Continued(Rest(m, k)), k);
    LookupElse(Whole(Front(m, k)), p + AssignmentLine(k, "b"), Continued(Rest(m, k)), k);
    if !Blank(p) {
      Letters();
      NotBehindText(p, k, "a");
      NotBehindText(p, k, "b");
    }
  }

  lemma Letters()
    ensures !IsSpace('a') && !IsSpace('b')
  {
  }
}
