/** The rendering of a submit description (operator<< in condor_job/description.hpp) against
    Condor's reading of it: attribute names do not depend on case, and of several assignments
    to one name the last one counts. */
module SubmitFile {
  import opened Text

  // ----- The order of the attribute map -----

  /** The order of std::string: byte by byte. */
  predicate Below(s: string, t: string) {
    t != "" && (s == "" || s[0] < t[0] || (s[0] == t[0] && Below(s[1..], t[1..])))
  }

  lemma {:induction false} BelowIsTotal(s: string, t: string)
    ensures s == t || Below(s, t) || Below(t, s)
    ensures !(Below(s, t) && Below(t, s)) && (Below(s, t) ==> s != t)
  {
    if s != "" && t != "" {
      BelowIsTotal(s[1..], t[1..]);
      assert s == [s[0]] + s[1..] && t == [t[0]] + t[1..];
    }
  }

  lemma {:induction false} BelowIsTransitive(s: string, t: string, u: string)
    requires Below(s, t) && Below(t, u)
    ensures Below(s, u)
  {
    if s != "" && s[0] == t[0] && t[0] == u[0] {
      BelowIsTransitive(s[1..], t[1..], u[1..]);
    }
  }

  /** Of all the ways to write a name, the one in lower case comes last. */
  lemma {:induction false} LowerCaseIsLast(k: string)
    ensures k == Lower(k) || Below(k, Lower(k))
  {
    if k != "" {
      LowerCaseIsLast(k[1..]);
      assert Lower(k)[1..] == Lower(k[1..]);
      assert k == [k[0]] + k[1..];
    }
  }

  ghost predicate IsLeast(keys: set<string>, k: string) {
    k in keys && forall x | x in keys :: x == k || Below(k, x)
  }

  lemma {:induction false} LeastExists(keys: set<string>)
    requires keys != {}
    ensures exists k :: IsLeast(keys, k)
    decreases |keys|
  {
    var x :| x in keys;
    var rest := keys - {x};
    if rest == {} {
      assert keys == {x};
      assert IsLeast(keys, x);
    } else {
      LeastExists(rest);
      var y :| IsLeast(rest, y);
      BelowIsTotal(x, y);
      if Below(x, y) {
        forall z | z in keys ensures z == x || Below(x, z) {
          if z != x && z != y {
            BelowIsTransitive(x, y, z);
          }
        }
        assert IsLeast(keys, x);
      } else {
        assert IsLeast(keys, y);
      }
    }
  }

  lemma LeastIsUnique(keys: set<string>, k: string, l: string)
    requires IsLeast(keys, k) && IsLeast(keys, l)
    ensures k == l
  {
    BelowIsTotal(k, l);
  }

  /** The keys in the order in which std::map is traversed. */
  ghost function SortedKeys(keys: set<string>): seq<string>
    decreases |keys|
  {
    if keys == {} then []
    else
      LeastExists(keys);
      var k :| IsLeast(keys, k);
      [k] + SortedKeys(keys - {k})
  }

  lemma SortedKeysStep(keys: set<string>, k: string)
    requires IsLeast(keys, k)
    ensures SortedKeys(keys) == [k] + SortedKeys(keys - {k})
  {
    var l :| IsLeast(keys, l) && SortedKeys(keys) == [l] + SortedKeys(keys - {l});
    LeastIsUnique(keys, k, l);
  }

  ghost predicate Sorted(ks: seq<string>) {
    forall i, j | 0 <= i < j < |ks| :: Below(ks[i], ks[j])
  }

  lemma {:induction false} SortedKeysAreSorted(keys: set<string>)
    ensures Sorted(SortedKeys(keys))
    ensures forall k :: k in SortedKeys(keys) <==> k in keys
    decreases |keys|
  {
    if keys != {} {
      LeastExists(keys);
      var k :| IsLeast(keys, k);
      SortedKeysStep(keys, k);
      SortedKeysAreSorted(keys - {k});
      var ks, rest := SortedKeys(keys), SortedKeys(keys - {k});
      forall i, j | 0 <= i < j < |ks| ensures Below(ks[i], ks[j]) {
        assert ks[j] == rest[j - 1];
        assert ks[j] in rest;
      }
    }
  }

  // ----- Writing -----

  type Settings = map<string, string>

  function AssignmentLine(key: string, value: string): string {
    key + (" = " + value)
  }

  function QueueLine(value: string): string {
    "queue " + value
  }

  /** The assignments, in the order of the given keys. */
  function Assignments(ks: seq<string>, m: Settings): seq<string>
    requires forall k | k in ks :: k in m
  {
    if ks == [] then []
    else
      assert ks[0] in ks;
      (if m[ks[0]] != "" && ks[0] != "queue" then [AssignmentLine(ks[0], m[ks[0]])] else [])
      + Assignments(ks[1..], m)
  }

  function QueueLines(m: Settings): seq<string> {
    if "queue" in m && m["queue"] != "" then [QueueLine(m["queue"])] else []
  }

  /** The lines of the submit file: the assignments and then the queue command. */
  ghost function Lines(m: Settings): seq<string> {
    SortedKeysAreSorted(m.Keys);
    Assignments(SortedKeys(m.Keys), m) + QueueLines(m)
  }

  function Unlines(lines: seq<string>): string {
    if lines == [] then "" else lines[0] + ("\n" + Unlines(lines[1..]))
  }

  ghost function Render(m: Settings): string {
    Unlines(Lines(m))
  }

  lemma {:induction false} UnlinesAppend(lines: seq<string>, line: string)
    ensures Unlines(lines + [line]) == Unlines(lines) + (line + "\n")
  {
    if lines == [] {
      assert lines + [line] == [line];
    } else {
      assert (lines + [line])[1..] == lines[1..] + [line];
      UnlinesAppend(lines[1..], line);
      assert lines[0] + ("\n" + (Unlines(lines[1..]) + (line + "\n")))
          == (lines[0] + ("\n" + Unlines(lines[1..]))) + (line + "\n");
    }
  }

  lemma {:induction false} AssignmentsAppend(ks: seq<string>, k: string, m: Settings)
    requires (forall x | x in ks :: x in m) && k in m
    ensures forall x | x in ks + [k] :: x in m
    ensures Assignments(ks + [k], m)
            == Assignments(ks, m) + (if m[k] != "" && k != "queue" then [AssignmentLine(k, m[k])] else [])
  {
    if ks == [] {
      assert ks + [k] == [k];
    } else {
      assert ks[0] in ks;
      assert (ks + [k])[1..] == ks[1..] + [k];
      AssignmentsAppend(ks[1..], k, m);
    }
  }

  class Description {
    var attributes: Settings

    constructor (presets: Settings)
      ensures attributes == presets
    {
      attributes := presets;
    }

    /** The output operator: one pass over the map, in the order of its keys. */
    method Print() returns (text: string)
      ensures text == Render(attributes)
    {
      hide Assignments;
      hide QueueLines;
      hide Unlines;
      var content, postlog := "", "";
      var keys := Traverse(attributes.Keys);
      SortedKeysAreSorted(attributes.Keys);
      NothingPrinted(attributes);
      for i := 0 to |keys|
        invariant forall k | k in keys :: k in attributes
        invariant content == Unlines(Assignments(keys[..i], attributes))
        invariant postlog == Unlines(if "queue" in keys[..i] then QueueLines(attributes) else [])
      {
        var key := keys[i];
        PrintTurn(keys, i, attributes);
        if attributes[key] != "" {
          if key == "queue" {
            postlog := postlog + (key + " " + attributes[key] + "\n");
          } else {
            content := content + (key + " = " + attributes[key] + "\n");
          }
        }
      }
      assert keys[..|keys|] == keys;
      PrintEnd(keys, attributes);
      text := content + postlog;
    }
  }

  /** The keys of the map, in order. */
  method Traverse(keys: set<string>) returns (ks: seq<string>)
    ensures ks == SortedKeys(keys)
  {
    hide Below;
    ks := [];
    var rest := keys;
    while rest != {}
      invariant SortedKeys(keys) == ks + SortedKeys(rest)
      decreases |rest|
    {
      LeastExists(rest);
      var key :| key in rest && forall x | x in rest :: x == key || Below(key, x);
      SortedKeysStep(rest, key);
      assert ks + ([key] + SortedKeys(rest - {key})) == (ks + [key]) + SortedKeys(rest - {key});
      ks, rest := ks + [key], rest - {key};
    }
    assert ks + [] == ks;
  }

  lemma NothingPrinted(m: Settings)
    ensures Unlines([]) == "" && Assignments([], m) == []
  {
  }

  lemma EarlierKeysDiffer(keys: seq<string>, i: nat)
    requires Sorted(keys) && i < |keys|
    ensures keys[i] !in keys[..i]
  {
    forall j | 0 <= j < i ensures keys[j] != keys[i] {
      BelowIsTotal(keys[j], keys[i]);
    }
  }

  /** What one key adds to the two parts of the text. */
  lemma PrintTurn(keys: seq<string>, i: nat, m: Settings)
    requires i < |keys| && Sorted(keys) && (forall k | k in keys :: k in m)
    ensures keys[i] in keys
    ensures var key, value := keys[i], m[keys[i]];
            Unlines(Assignments(keys[..i + 1], m))
            == Unlines(Assignments(keys[..i], m))
               + (if value != "" && key != "queue" then key + " = " + value + "\n" else "")
    ensures var key, value := keys[i], m[keys[i]];
            Unlines(if "queue" in keys[..i + 1] then QueueLines(m) else [])
            == Unlines(if "queue" in keys[..i] then QueueLines(m) else [])
               + (if value != "" && key == "queue" then key + " " + value + "\n" else "")
  {
    var key, value := keys[i], m[keys[i]];
    assert keys[..i + 1] == keys[..i] + [key];
    hide Unlines;
    hide Assignments;
    hide Below;
    UnlinesNothing();
    AssignmentsAppend(keys[..i], key, m);
    if value != "" && key != "queue" {
      UnlinesAppend(Assignments(keys[..i], m), AssignmentLine(key, value));
      AssignmentLineIs(key, value);
    } else {
      assert Assignments(keys[..i], m) + [] == Assignments(keys[..i], m);
    }
    if key == "queue" {
      EarlierKeysDiffer(keys, i);
      if value != "" {
        UnlinesAppend([], QueueLine(value));
        assert [] + [QueueLine(value)] == [QueueLine(value)];
        QueueLineIs(value);
      }
    }
  }

  lemma PrintEnd(keys: seq<string>, m: Settings)
    requires keys == SortedKeys(m.Keys) && (forall k | k in keys :: k in m)
    ensures Unlines(Assignments(keys, m)) + Unlines(if "queue" in keys then QueueLines(m) else []) == Render(m)
  {
    SortedKeysAreSorted(m.Keys);
    UnlinesConcat(Assignments(keys, m), QueueLines(m));
  }

  lemma UnlinesNothing()
    ensures Unlines([]) == ""
  {
  }

  lemma QueueLineIs(value: string)
    ensures "" + (QueueLine(value) + "\n") == "" + ("queue" + " " + value + "\n")
  {
  }

  lemma AssignmentLineIs(key: string, value: string)
    ensures AssignmentLine(key, value) + "\n" == key + " = " + value + "\n"
  {
  }

  lemma {:induction false} UnlinesConcat(u: seq<string>, v: seq<string>)
    ensures Unlines(u + v) == Unlines(u) + Unlines(v)
  {
    if u == [] {
      assert u + v == v;
    } else {
      assert (u + v)[1..] == u[1..] + v;
      UnlinesConcat(u[1..], v);
      assert u[0] + ("\n" + (Unlines(u[1..]) + Unlines(v))) == (u[0] + ("\n" + Unlines(u[1..]))) + Unlines(v);
    }
  }

  // ----- Every entry once -----

  lemma AssignmentLinesDiffer(k: string, v: string, l: string, w: string)
    requires PlainName(k) && PlainName(l) && AssignmentLine(k, v) == AssignmentLine(l, w)
    ensures k == l
  {
    hide EqualsAt;
    var line := AssignmentLine(k, v);
    assert line == (k + " ") + ("=" + (" " + v)) && line == (l + " ") + ("=" + (" " + w));
    EqualsAtIs(k + " ", " " + v);
    EqualsAtIs(l + " ", " " + w);
    assert line[..|k|] == k && line[..|l|] == l;
  }

  lemma SortedTail(ks: seq<string>)
    requires Sorted(ks) && ks != []
    ensures Sorted(ks[1..]) && ks[0] !in ks[1..] && ks[0] in ks
    ensures forall x :: x in ks <==> x == ks[0] || x in ks[1..]
  {
    hide Below;
    var x, rest := ks[0], ks[1..];
    forall i, j | 0 <= i < j < |rest| ensures Below(rest[i], rest[j]) {
      assert rest[i] == ks[i + 1] && rest[j] == ks[j + 1];
    }
    if x in rest {
      var j :| 0 <= j < |rest| && rest[j] == x;
      assert Below(ks[0], ks[j + 1]);
      BelowIsTotal(x, x);
    }
  }

  lemma {:induction false} AssignedOnce(ks: seq<string>, m: Settings, k: string)
    requires Plain(m) && Sorted(ks) && (forall x | x in ks :: x in m)
    requires k in m && m[k] != "" && k != "queue"
    ensures multiset(Assignments(ks, m))[AssignmentLine(k, m[k])] == if k in ks then 1 else 0
  {
    hide AssignmentLine;
    hide Sorted;
    if ks != [] {
      var x, rest := ks[0], ks[1..];
      SortedTail(ks);
      assert PlainName(x) && PlainName(k);
      AssignedOnce(rest, m, k);
      var head := if m[x] != "" && x != "queue" then [AssignmentLine(x, m[x])] else [];
      assert Assignments(ks, m) == head + Assignments(rest, m);
      if x != k && head != [] && AssignmentLine(x, m[x]) == AssignmentLine(k, m[k]) {
        AssignmentLinesDiffer(x, m[x], k, m[k]);
      }
    }
  }

  lemma {:induction false} CountAssignments(ks: seq<string>, m: Settings)
    requires Sorted(ks) && (forall x | x in ks :: x in m)
    ensures |Assignments(ks, m)| == |set k | k in ks && m[k] != "" && k != "queue"|
  {
    hide AssignmentLine;
    hide Sorted;
    var named := set k | k in ks && m[k] != "" && k != "queue";
    if ks == [] {
      assert named == {};
    } else {
      var x, rest := ks[0], ks[1..];
      SortedTail(ks);
      CountAssignments(rest, m);
      var later := set k | k in rest && m[k] != "" && k != "queue";
      if m[x] != "" && x != "queue" {
        assert named == {x} + later;
      } else {
        assert named == later;
      }
    }
  }

  lemma CountLines(m: Settings)
    ensures |Lines(m)| == |set k | k in m && m[k] != ""|
  {
    hide Assignments;
    hide Sorted;
    var ks := SortedKeys(m.Keys);
    SortedKeysAreSorted(m.Keys);
    CountAssignments(ks, m);
    var named := set k | k in ks && m[k] != "" && k != "queue";
    var all := set k | k in m && m[k] != "";
    if "queue" in m && m["queue"] != "" {
      assert all == named + {"queue"};
    } else {
      assert all == named;
    }
  }

  lemma LineOnce(m: Settings, k: string)
    requires Plain(m) && k in m && m[k] != "" && k != "queue"
    ensures multiset(Lines(m))[AssignmentLine(k, m[k])] == 1
  {
    hide Assignments;
    hide QueueLines;
    hide AssignmentLine;
    hide Sorted;
    var ks := SortedKeys(m.Keys);
    SortedKeysAreSorted(m.Keys);
    AssignedOnce(ks, m, k);
    QueueIsNoAssignment(m, k);
    assert multiset(Lines(m)) == multiset(Assignments(ks, m)) + multiset(QueueLines(m));
  }

  /** Every setting with a value appears exactly once, there is nothing else in the text,
      and the queue command is its last line. */
  lemma EveryEntryOnce(m: Settings)
    requires Plain(m)
    ensures SplitLines(Render(m)) == Lines(m)
    ensures |Lines(m)| == |set k | k in m && m[k] != ""|
    ensures forall k | k in m && m[k] != "" && k != "queue" :: multiset(Lines(m))[k + " = " + m[k]] == 1
    ensures "queue" in m && m["queue"] != "" ==> Lines(m)[|Lines(m)| - 1] == "queue " + m["queue"]
  {
    RenderedLines(m);
    CountLines(m);
    forall k | k in m && m[k] != "" && k != "queue"
      ensures multiset(Lines(m))[k + " = " + m[k]] == 1
    {
      LineOnce(m, k);
      assert AssignmentLine(k, m[k]) == k + " = " + m[k];
    }
    hide Assignments;
    hide Render;
    hide SplitLines;
  }

  lemma QueueIsNoAssignment(m: Settings, k: string)
    requires Plain(m) && k in m && k != "queue"
    ensures AssignmentLine(k, m[k]) !in QueueLines(m)
  {
    if AssignmentLine(k, m[k]) in QueueLines(m) {
      assert AssignmentLine(k, m[k])[..6] == "queue ";
      NotQueue(k, AssignmentLine(k, m[k]));
    }
  }

  // ----- Reading -----

  function SplitLines(text: string): seq<string> {
    SplitFrom(text, "")
  }

  /** The lines of a text, of which the first continues the one read so far. */
  function SplitFrom(text: string, cur: string): seq<string>
    decreases |text|
  {
    if text == "" then if cur == "" then [] else [cur]
    else if text[0] == '\n' then [cur] + SplitFrom(text[1..], "")
    else SplitFrom(text[1..], cur + [text[0]])
  }

  /** A line that ends in a backslash goes on in the next one. */
  predicate Open(line: string) {
    line != "" && line[|line| - 1] == '\\'
  }

  function Continued(lines: seq<string>): seq<string>
    decreases |lines|
  {
    if lines == [] then []
    else if Open(lines[0]) && |lines| > 1
    then Continued([lines[0][..|lines[0]| - 1] + lines[1]] + lines[2..])
    else [lines[0]] + Continued(lines[1..])
  }

  function TrimLeft(s: string): string {
    if s != "" && IsSpace(s[0]) then TrimLeft(s[1..]) else s
  }

  function TrimRight(s: string): string {
    if s != "" && IsSpace(s[|s| - 1]) then TrimRight(s[..|s| - 1]) else s
  }

  function Trim(s: string): string {
    TrimRight(TrimLeft(s))
  }

  function EqualsAt(s: string): Option<nat> {
    if s == "" then None
    else if s[0] == '=' then Some(0)
    else
      var k := EqualsAt(s[1..]);
      if k.None? then None else Some(k.value + 1)
  }

  lemma {:induction false} EqualsAtBound(s: string)
    ensures EqualsAt(s).Some? ==> EqualsAt(s).value < |s|
  {
    if s != "" && s[0] != '=' {
      EqualsAtBound(s[1..]);
    }
  }

  predicate OneLine(s: string) {
    '\n' !in s
  }

  predicate AllOneLine(ss: seq<string>) {
    forall s | s in ss :: OneLine(s)
  }

  lemma {:induction false} TrimmedLeft(s: string)
    ensures forall c | c in TrimLeft(s) :: c in s
    ensures TrimLeft(s) != "" ==> !IsSpace(TrimLeft(s)[0])
    ensures s != "" && !IsSpace(s[|s| - 1]) ==> TrimLeft(s) != "" && TrimLeft(s)[|TrimLeft(s)| - 1] == s[|s| - 1]
  {
    if s != "" && IsSpace(s[0]) {
      TrimmedLeft(s[1..]);
    }
  }

  lemma {:induction false} TrimmedRight(s: string)
    ensures TrimRight(s) <= s && (TrimRight(s) != "" ==> !IsSpace(TrimRight(s)[|TrimRight(s)| - 1]))
    ensures s != "" && !IsSpace(s[0]) ==> TrimRight(s) != ""
  {
    if s != "" && IsSpace(s[|s| - 1]) {
      TrimmedRight(s[..|s| - 1]);
    }
  }

  /** What is left is a part of the text with no white space at its ends. */
  lemma Trimmed(s: string)
    ensures forall c | c in Trim(s) :: c in s
    ensures Trim(s) != "" ==> !IsSpace(Trim(s)[0]) && !IsSpace(Trim(s)[|Trim(s)| - 1])
  {
    TrimmedLeft(s);
    TrimmedRight(TrimLeft(s));
    hide TrimLeft;
    hide TrimRight;
    var t := TrimLeft(s);
    if TrimRight(t) != "" {
      assert TrimRight(t)[0] == t[0];
    }
  }

  lemma TrimStays(v: string)
    requires v != "" && !IsSpace(v[0]) && !IsSpace(v[|v| - 1])
    ensures Trim(v) == v
  {
  }

  predicate Comment(line: string) {
    "#" <= TrimLeft(line)
  }

  /** An assignment: the name without regard to case, and the value. */
  function ReadAssignment(line: string): Option<(string, string)> {
    if "queue " <= line || Comment(line) then None
    else
      EqualsAtBound(line);
      var k := EqualsAt(line);
      if k.None? then None
      else Some((Lower(Trim(line[..k.value])), Trim(line[k.value + 1..])))
  }

  /** What the lines assign to a name in the end. */
  function Lookup(lines: seq<string>, name: string): Option<string> {
    if lines == [] then None
    else
      var later, here := Lookup(lines[1..], name), ReadAssignment(lines[0]);
      if later.Some? then later
      else if here.Some? && here.value.0 == name then Some(here.value.1)
      else None
  }

  /** What Condor reads for a name from the text that is made of the settings. */
  ghost function ReadSetting(m: Settings, name: string): Option<string> {
    Lookup(Continued(SplitLines(Render(m))), name)
  }

  // ----- What is read -----

  /** Names are words; values stay on their line. */
  predicate Plain(m: Settings) {
    forall k | k in m :: PlainName(k) && '\n' !in m[k]
  }

  predicate PlainName(k: string) {
    k != "" && forall c | c in k :: !IsSpace(c) && c != '='
  }

  /** Besides, names open no comment, and no value has its line continued. */
  predicate Regular(m: Settings) {
    Plain(m) && forall k | k in m :: RegularEntry(k, m[k])
  }

  predicate RegularEntry(k: string, v: string) {
    k != "" && k[0] != '#' && !Open(v)
  }

  lemma {:induction false} NothingContinued(lines: seq<string>)
    requires forall l | l in lines :: !Open(l)
    ensures Continued(lines) == lines
  {
    if lines != [] {
      assert !Open(lines[0]);
      NothingContinued(lines[1..]);
    }
  }

  lemma {:induction false} AssignmentsAreClosed(ks: seq<string>, m: Settings)
    requires Regular(m) && forall k | k in ks :: k in m
    ensures forall l | l in Assignments(ks, m) :: !Open(l)
  {
    if ks != [] {
      assert ks[0] in ks && RegularEntry(ks[0], m[ks[0]]);
      AssignmentsAreClosed(ks[1..], m);
    }
  }

  /** The lines are read as they stand. */
  lemma ReadLines(m: Settings)
    requires Regular(m)
    ensures Continued(SplitLines(Render(m))) == Lines(m)
  {
    RenderedLines(m);
    SortedKeysAreSorted(m.Keys);
    AssignmentsAreClosed(SortedKeys(m.Keys), m);
    forall l | l in Lines(m) ensures !Open(l) {
      if l in QueueLines(m) {
        assert l == "queue " + m["queue"] && RegularEntry("queue", m["queue"]);
      }
    }
    hide Render;
    hide SplitLines;
    NothingContinued(Lines(m));
  }

  lemma {:induction false} SplitLine(line: string, cur: string, rest: string)
    requires '\n' !in line
    ensures SplitFrom(line + ("\n" + rest), cur) == [cur + line] + SplitFrom(rest, "")
    decreases |line|
  {
    var all := line + ("\n" + rest);
    if line == "" {
      assert all == "\n" + rest && all[1..] == rest;
      assert cur + line == cur;
    } else {
      assert all[1..] == line[1..] + ("\n" + rest);
      SplitLine(line[1..], cur + [line[0]], rest);
      assert cur + [line[0]] + line[1..] == cur + line;
    }
  }

  lemma {:induction false} SplitUnlines(lines: seq<string>)
    requires forall l | l in lines :: '\n' !in l
    ensures SplitLines(Unlines(lines)) == lines
  {
    if lines != [] {
      assert lines[0] in lines;
      SplitLine(lines[0], "", Unlines(lines[1..]));
      SplitUnlines(lines[1..]);
      assert "" + lines[0] == lines[0];
      assert [lines[0]] + lines[1..] == lines;
    }
  }

  lemma {:induction false} AssignmentsHaveNoBreaks(ks: seq<string>, m: Settings)
    requires Plain(m) && (forall k | k in ks :: k in m)
    ensures forall l | l in Assignments(ks, m) :: '\n' !in l
  {
    if ks != [] {
      assert ks[0] in ks;
      assert PlainName(ks[0]);
      AssignmentsHaveNoBreaks(ks[1..], m);
    }
  }

  /** The text falls into exactly its lines: one assignment for every setting that is not empty, and
      the queue command at the end. */
  lemma RenderedLines(m: Settings)
    requires Plain(m)
    ensures SplitLines(Render(m)) == Lines(m)
  {
    SortedKeysAreSorted(m.Keys);
    AssignmentsHaveNoBreaks(SortedKeys(m.Keys), m);
    forall l | l in Lines(m) ensures '\n' !in l {
      if l in QueueLines(m) {
        assert l == "queue " + m["queue"];
      }
    }
    SplitUnlines(Lines(m));
  }

  lemma {:induction false} EqualsAtIs(u: string, v: string)
    requires '=' !in u
    ensures EqualsAt(u + ("=" + v)) == Some(|u|)
  {
    var all := u + ("=" + v);
    if u == "" {
      assert all == "=" + v;
    } else {
      EqualsAtIs(u[1..], v);
      assert all[1..] == u[1..] + ("=" + v);
    }
  }

  lemma TrimName(k: string)
    requires PlainName(k)
    ensures Trim(k + " ") == k
  {
    assert (k + " ")[0] == k[0] && k[0] in k && k[|k| - 1] in k;
    assert TrimLeft(k + " ") == k + " ";
    assert (k + " ")[..|k|] == k;
    assert TrimRight(k) == k;
  }

  lemma ReadAssignmentLine(k: string, v: string)
    requires PlainName(k) && k[0] != '#' && k != "queue"
    ensures ReadAssignment(AssignmentLine(k, v)) == Some((Lower(k), Trim(v)))
  {
    hide *;
    var line := AssignmentLine(k, v);
    LineParts(k, v);
    NotQueue(k, line);
    NotComment(k, line);
    EqualsInLine(k, v);
    ReadAssignmentAt(line, |k| + 1);
    TrimName(k);
    TrimValue(v);
  }

  lemma LineParts(k: string, v: string)
    ensures var line := AssignmentLine(k, v);
            && k <= line && |line| >= |k| + 3 && line[..|k|] == k && line[|k|] == ' '
            && line[..|k| + 1] == k + " " && line[|k| + 2..] == " " + v
  {
  }

  lemma ReadAssignmentAt(line: string, i: nat)
    requires !("queue " <= line) && !Comment(line) && EqualsAt(line) == Some(i) && i < |line|
    ensures ReadAssignment(line) == Some((Lower(Trim(line[..i])), Trim(line[i + 1..])))
  {
    hide Comment;
    hide EqualsAt;
    hide Lower;
    hide Trim;
  }

  lemma NotComment(k: string, line: string)
    requires PlainName(k) && k[0] != '#' && k <= line
    ensures !Comment(line)
  {
    assert k[0] in k && line[0] == k[0];
  }

  lemma EqualsInLine(k: string, v: string)
    requires PlainName(k)
    ensures EqualsAt(AssignmentLine(k, v)) == Some(|k| + 1)
  {
    hide EqualsAt;
    assert AssignmentLine(k, v) == (k + " ") + ("=" + (" " + v));
    EqualsAtIs(k + " ", " " + v);
  }

  lemma TrimValue(v: string)
    ensures Trim(" " + v) == Trim(v)
  {
    assert (" " + v)[1..] == v;
    assert TrimLeft(" " + v) == TrimLeft(v);
  }

  /** A setting whose value ends in a backslash swallows the setting in the next line. */
  lemma OpenValueSwallows(k: string, v: string, l: string, w: string)
    requires PlainName(k) && k[0] != '#' && k != "queue" && Open(v) && Lower(l) != Lower(k)
    ensures var read := Continued([AssignmentLine(k, v), AssignmentLine(l, w)]);
            && Lookup(read, Lower(k)) == Some(Trim(v[..|v| - 1] + AssignmentLine(l, w)))
            && Lookup(read, Lower(l)) == None
  {
    hide Trim;
    hide Lower;
    hide ReadAssignment;
    var a, b := AssignmentLine(k, v), AssignmentLine(l, w);
    var joined := AssignmentLine(k, v[..|v| - 1] + b);
    assert a[..|a| - 1] + b == joined && Open(a);
    hide AssignmentLine;
    TwoLines(a, b);
    hide Open;
    hide Continued;
    ReadAssignmentLine(k, v[..|v| - 1] + b);
    LookupOne(joined, Lower(k));
    LookupOne(joined, Lower(l));
  }

  lemma TwoLines(a: string, b: string)
    requires Open(a)
    ensures Continued([a, b]) == [a[..|a| - 1] + b]
  {
    var joined := [a[..|a| - 1] + b];
    assert [a, b][2..] == [] && joined + [] == joined && joined[1..] == [];
    assert Continued(joined) == joined + Continued([]);
  }

  lemma LookupOne(line: string, name: string)
    ensures var here := ReadAssignment(line);
            Lookup([line], name) == if here.Some? && here.value.0 == name then Some(here.value.1) else None
  {
    hide ReadAssignment;
    assert [line][1..] == [];
  }

  lemma NotQueue(k: string, line: string)
    requires PlainName(k) && k != "queue" && |line| >= |k| + 3 && line[..|k|] == k && line[|k|] == ' '
    ensures !("queue " <= line)
  {
    if |k| > 5 {
      assert line[5] == k[5] && k[5] in k;
    } else if |k| < 5 {
      assert "queue "[|k|] != ' ';
    } else {
      assert line[..6][..5] == k;
      assert "queue "[..5] == "queue";
    }
  }

  /** A key whose setting is an assignment to the name. */
  predicate Candidate(m: Settings, name: string, k: string) {
    k in m && m[k] != "" && k != "queue" && Lower(k) == name
  }

  /** The spelling that decides about the name: the last one in the order of the keys. */
  ghost predicate Decides(m: Settings, name: string, k: string) {
    Candidate(m, name, k) && forall x | Candidate(m, name, x) :: x == k || Below(x, k)
  }

  lemma {:induction false} LookupAssignments(ks: seq<string>, m: Settings, name: string)
    requires Regular(m) && Sorted(ks) && (forall k | k in ks :: k in m)
    ensures (forall k | k in ks :: !Candidate(m, name, k)) ==> Lookup(Assignments(ks, m), name) == None
    ensures forall g | g in ks && Candidate(m, name, g)
                       && (forall k | k in ks && Candidate(m, name, k) :: k == g || Below(k, g)) ::
              Lookup(Assignments(ks, m), name) == Some(Trim(m[g]))
  {
    hide Trim;
    hide Below;
    hide Lower;
    hide ReadAssignment;
    hide AssignmentLine;
    if ks != [] {
      var k, rest := ks[0], ks[1..];
      SortedTail(ks);
      LookupAssignments(rest, m, name);
      LookupStep(ks, m, name);
      hide Lookup;
      hide Assignments;
      hide Candidate;
      forall g | g in ks && Candidate(m, name, g)
                 && (forall x | x in ks && Candidate(m, name, x) :: x == g || Below(x, g))
        ensures Lookup(Assignments(ks, m), name) == Some(Trim(m[g]))
      {
        if g !in rest {
          assert g == k;
          NoneBehind(ks, m, name);
        }
      }
    }
  }

  lemma NoneBehind(ks: seq<string>, m: Settings, name: string)
    requires Sorted(ks) && ks != []
    requires forall x | x in ks && Candidate(m, name, x) :: x == ks[0] || Below(x, ks[0])
    ensures forall x | x in ks[1..] :: !Candidate(m, name, x)
  {
    hide Below;
    hide Candidate;
    forall x | x in ks[1..] ensures !Candidate(m, name, x) {
      var j :| 0 <= j < |ks[1..]| && ks[1..][j] == x;
      assert x == ks[j + 1] && x in ks;
      BelowIsTotal(ks[0], x);
    }
  }

  lemma LookupStep(ks: seq<string>, m: Settings, name: string)
    requires Regular(m) && ks != [] && (forall k | k in ks :: k in m)
    ensures ks[0] in ks
    ensures var later := Lookup(Assignments(ks[1..], m), name);
            Lookup(Assignments(ks, m), name)
            == if later.Some? then later
               else if Candidate(m, name, ks[0]) then Some(Trim(m[ks[0]])) else None
  {
    hide Trim;
    hide ReadAssignment;
    hide AssignmentLine;
    var k, rest := ks[0], Assignments(ks[1..], m);
    assert k in ks && PlainName(k);
    if m[k] != "" && k != "queue" {
      ReadAssignmentLine(k, m[k]);
      assert Assignments(ks, m)[1..] == rest;
    } else {
      assert Assignments(ks, m) == rest;
    }
  }

  lemma {:induction false} LookupWithQueue(lines: seq<string>, m: Settings, name: string)
    ensures Lookup(lines + QueueLines(m), name) == Lookup(lines, name)
  {
    if lines == [] {
      var q := QueueLines(m);
      assert lines + q == q;
      if q != [] {
        assert q[0][..6] == "queue ";
        assert q[1..] == [];
      }
    } else {
      assert (lines + QueueLines(m))[1..] == lines[1..] + QueueLines(m);
      LookupWithQueue(lines[1..], m, name);
    }
  }

  /** What a name is read as: nothing if no spelling of it has a value, and otherwise the
      value of the spelling that comes last. */
  lemma ReadRendered(m: Settings, name: string)
    requires Regular(m)
    ensures (forall k :: !Candidate(m, name, k)) ==> ReadSetting(m, name) == None
    ensures forall g | Decides(m, name, g) :: ReadSetting(m, name) == Some(Trim(m[g]))
  {
    hide Render;
    hide SplitLines;
    hide Continued;
    hide Assignments;
    hide Lookup;
    var ks := SortedKeys(m.Keys);
    ReadLines(m);
    SortedKeysAreSorted(m.Keys);
    LookupAssignments(ks, m, name);
    LookupWithQueue(Assignments(ks, m), m, name);
    forall g | Decides(m, name, g)
      ensures ReadSetting(m, name) == Some(Trim(m[g]))
    {
      assert g in ks;
    }
  }

  // ----- Presets and adaptor settings -----

  /** A preset that takes a setting of the adaptor back: it spells the same name in a way that
      comes later, it is the last such preset with a value, and its value is another one. */
  ghost predicate Overrides(presets: Settings, k: string, v: string, g: string) {
    && Candidate(presets, Lower(k), g) && Below(k, g)
    && (forall x | Candidate(presets, Lower(k), x) :: x == g || Below(x, g))
    && Trim(presets[g]) != Trim(v)
  }

  /** The adaptor's value is what Condor reads - exactly if no preset takes it back. */
  lemma SettingWins(presets: Settings, settings: Settings, k: string)
    requires Regular(presets + settings)
    requires k in settings && settings[k] != "" && k != "queue"
    requires forall x | x in settings && Lower(x) == Lower(k) :: x == k
    ensures ReadSetting(presets + settings, Lower(k)) == Some(Trim(settings[k]))
            <==> !exists g :: Overrides(presets, k, settings[k], g)
  {
    hide ReadSetting;
    hide Below;
    hide Trim;
    hide Lower;
    hide Regular;
    var m, name := presets + settings, Lower(k);
    assert Candidate(m, name, k);
    var g := LastCandidate(m, name, k);
    ReadRendered(m, name);
    BelowIsTotal(k, g);
    if g == k {
      forall x | Overrides(presets, k, settings[k], x) ensures false {
        assert Candidate(m, name, x);
        BelowIsTotal(k, x);
      }
    } else {
      assert g !in settings && g in presets && Candidate(presets, name, g);
      forall x | Candidate(presets, name, x) ensures x == g || Below(x, g) {
        if x != k {
          assert Candidate(m, name, x);
        }
      }
      assert Below(k, g);
      if Trim(presets[g]) == Trim(settings[k]) {
        forall x | Overrides(presets, k, settings[k], x) ensures false {
          BelowIsTotal(x, g);
        }
      } else {
        assert Overrides(presets, k, settings[k], g);
      }
    }
  }

  lemma LastCandidate(m: Settings, name: string, k: string) returns (g: string)
    requires Candidate(m, name, k)
    ensures Decides(m, name, g)
  {
    hide Below;
    hide Lower;
    g := k;
    var rest := m.Keys;
    var seen: set<string> := {};
    while rest != {}
      invariant rest + seen == m.Keys
      invariant Candidate(m, name, g)
      invariant forall x | x in seen && Candidate(m, name, x) :: x == g || Below(x, g)
      decreases |rest|
    {
      var x :| x in rest;
      BelowIsTotal(x, g);
      if Candidate(m, name, x) && Below(g, x) {
        forall y | y in seen && Candidate(m, name, y) ensures y == x || Below(y, x) {
          if y != g {
            BelowIsTransitive(y, g, x);
          }
        }
        g := x;
      }
      rest, seen := rest - {x}, seen + {x};
    }
  }

  /** A setting under a name in lower case is never taken back, whatever the presets are. */
  lemma LowerCaseSettingWins(presets: Settings, settings: Settings, k: string)
    requires Regular(presets + settings)
    requires k in settings && settings[k] != "" && k != "queue" && Lower(k) == k
    ensures ReadSetting(presets + settings, k) == Some(Trim(settings[k]))
  {
    hide ReadSetting;
    hide Below;
    hide Trim;
    hide Lower;
    hide Regular;
    var m := presets + settings;
    ReadRendered(m, k);
    forall x | Candidate(m, k, x) ensures x == k || Below(x, k) {
      LowerCaseIsLast(x);
    }
    assert Decides(m, k, k);
  }

  /** The one name that the adaptor does not write in lower case can be taken back by a preset. */
  lemma UniverseCanBeTakenBack()
    ensures var m: Settings := map["universe" := "standard"] + map["Universe" := "vanilla"];
            ReadSetting(m, "universe") == Some("standard")
  {
    hide ReadSetting;
    hide Trim;
    hide Lower;
    var preset: Settings, setting: Settings := map["universe" := "standard"], map["Universe" := "vanilla"];
    assert preset + setting == setting + preset;
    LowerUniverse();
    TrimStandard();
    LowerCaseSettingWins(setting, preset, "universe");
  }

  lemma LowerUniverse()
    ensures Lower("universe") == "universe"
  {
    forall i | 0 <= i < 8 ensures Lower("universe")[i] == "universe"[i] {
    }
  }

  lemma TrimStandard()
    ensures Trim("standard") == "standard"
  {
  }
}
