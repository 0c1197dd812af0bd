/** The remaps of output files that process_file_transfer of condor_job/description.hpp writes,
    against the syntax in which Condor reads them. */
module Transfers {
  import opened Text

  // ----- Output remaps -----

  function EscapeName(name: string): string {
    ReplaceAll(ReplaceAll(name, "=", "\\="), ";", "\\;")
  }

  function RemapText(pairs: seq<(string, string)>): string {
    if pairs == [] then ""
    else EscapeName(pairs[0].0) + ("=" + (EscapeName(pairs[0].1) + (";" + RemapText(pairs[1..]))))
  }

  /** Condor's reading of remaps: a backslash takes the next character as it is, "=" ends
      the first name of a pair and ";" the second. */
  function ReadRemaps(t: string, left: Option<string>, cur: string): Option<seq<(string, string)>>
    decreases |t|
  {
    if t == "" then if left == None && cur == "" then Some([]) else None
    else if t[0] == '\\' then if |t| == 1 then None else ReadRemaps(t[2..], left, cur + [t[1]])
    else if t[0] == '=' then if left.Some? then None else ReadRemaps(t[1..], Some(cur), "")
    else if t[0] == ';' then
      if left.None? then None
      else
        var rest := ReadRemaps(t[1..], None, "");
        if rest.None? then None else Some([(left.value, cur)] + rest.value)
    else ReadRemaps(t[1..], left, cur + [t[0]])
  }

  predicate Marked(c: char) {
    c == '=' || c == ';'
  }

  /** Escaping character by character. */
  function EscapeChars(s: string): string {
    if s == "" then "" else (if Marked(s[0]) then ['\\', s[0]] else [s[0]]) + EscapeChars(s[1..])
  }

  lemma {:induction false} EscapeNameByChars(s: string)
    ensures EscapeName(s) == EscapeChars(s)
  {
    if s != "" {
      var c, u := s[0], s[1..];
      var once := ReplaceAll(u, "=", "\\=");
      EscapeNameByChars(u);
      assert s == [c] + u;
      if c == '=' {
        assert ReplaceAll(s, "=", "\\=") == "\\=" + once;
        ReplaceAllPasses("\\=", once, ";", "\\;");
      } else {
        ReplaceAllPassesOne(c, u, "=", "\\=");
        assert ReplaceAll(s, "=", "\\=") == [c] + once;
        assert ([c] + once)[1..] == once;
        if c != ';' {
          ReplaceAllPassesOne(c, once, ";", "\\;");
        }
      }
    }
  }

  lemma {:induction false} ReadEscaped(s: string, rest: string, left: Option<string>, cur: string)
    requires '\\' !in s
    ensures ReadRemaps(EscapeChars(s) + rest, left, cur) == ReadRemaps(rest, left, cur + s)
    decreases |s|
  {
    if s == "" {
      assert EscapeChars(s) + rest == rest && cur + s == cur;
    } else {
      var more := EscapeChars(s[1..]) + rest;
      ReadEscaped(s[1..], rest, left, cur + [s[0]]);
      assert cur + [s[0]] + s[1..] == cur + s;
      if Marked(s[0]) {
        assert EscapeChars(s) + rest == ['\\', s[0]] + more;
        assert (['\\', s[0]] + more)[2..] == more;
      } else {
        assert EscapeChars(s) + rest == [s[0]] + more;
        assert ([s[0]] + more)[1..] == more;
      }
    }
  }

  predicate Plain(pairs: seq<(string, string)>) {
    forall p | p in pairs :: '\\' !in p.0 && '\\' !in p.1
  }

  lemma {:induction false} ReadRemapText(pairs: seq<(string, string)>)
    requires Plain(pairs)
    ensures ReadRemaps(RemapText(pairs), None, "") == Some(pairs)
  {
    if pairs != [] {
      var p := pairs[0];
      assert p in pairs;
      ReadRemapText(pairs[1..]);
      EscapeNameByChars(p.0);
      EscapeNameByChars(p.1);
      hide EscapeName;
      hide EscapeChars;
      var later := RemapText(pairs[1..]);
      var second := EscapeName(p.1) + (";" + later);
      ReadEscaped(p.0, "=" + second, None, "");
      assert ("=" + second)[1..] == second;
      ReadEscaped(p.1, ";" + later, Some(p.0), "");
      assert (";" + later)[1..] == later;
      assert "" + p.0 == p.0 && "" + p.1 == p.1;
      assert pairs == [p] + pairs[1..];
    }
  }

  /** The number of characters that have to be escaped to be read as they are. */
  function Specials(s: string): nat {
    if s == "" then 0 else (if Marked(s[0]) || s[0] == '\\' then 1 else 0) + Specials(s[1..])
  }

  lemma {:induction false} SpecialsConcat(s: string, t: string)
    ensures Specials(s + t) == Specials(s) + Specials(t)
  {
    if s == "" {
      assert s + t == t;
    } else {
      assert (s + t)[1..] == s[1..] + t;
      SpecialsConcat(s[1..], t);
    }
  }

  function Weight(s: string): nat {
    |s| + Specials(s)
  }

  /** The least number of characters from which a list of pairs can be read. */
  function Cost(pairs: seq<(string, string)>): nat {
    if pairs == [] then 0 else Weight(pairs[0].0) + Weight(pairs[0].1) + 2 + Cost(pairs[1..])
  }

  lemma {:induction false} ReadingCosts(t: string, left: Option<string>, cur: string)
    requires ReadRemaps(t, left, cur).Some?
    ensures |t| + Weight(cur) + (if left.Some? then Weight(left.value) + 1 else 0)
            >= Cost(ReadRemaps(t, left, cur).value)
    decreases |t|
  {
    if t == "" {
    } else if t[0] == '\\' {
      SpecialsConcat(cur, [t[1]]);
      assert [t[1]][1..] == "";
      ReadingCosts(t[2..], left, cur + [t[1]]);
    } else if t[0] == '=' {
      ReadingCosts(t[1..], Some(cur), "");
    } else if t[0] == ';' {
      ReadingCosts(t[1..], None, "");
      var rest := ReadRemaps(t[1..], None, "").value;
      assert ([(left.value, cur)] + rest)[1..] == rest;
    } else {
      SpecialsConcat(cur, [t[0]]);
      assert [t[0]][1..] == "";
      ReadingCosts(t[1..], left, cur + [t[0]]);
    }
  }

  lemma {:induction false} EscapedLength(s: string)
    ensures |EscapeName(s)| <= Weight(s)
    ensures '\\' in s ==> |EscapeName(s)| < Weight(s)
  {
    EscapeNameByChars(s);
    if s != "" {
      EscapedLength(s[1..]);
      EscapeNameByChars(s[1..]);
      assert s == [s[0]] + s[1..];
    }
  }

  lemma {:induction false} RemapLength(pairs: seq<(string, string)>)
    ensures |RemapText(pairs)| <= Cost(pairs)
    ensures !Plain(pairs) ==> |RemapText(pairs)| < Cost(pairs)
  {
    if pairs != [] {
      hide EscapeName;
      RemapLength(pairs[1..]);
      EscapedLength(pairs[0].0);
      EscapedLength(pairs[0].1);
    }
  }

  /** The remaps read back as the pairs they were made from - exactly if no name contains
      a backslash. */
  lemma RemapsRoundTrip(pairs: seq<(string, string)>)
    ensures ReadRemaps(RemapText(pairs), None, "") == Some(pairs)
            <==> forall p | p in pairs :: '\\' !in p.0 && '\\' !in p.1
    ensures ReadRemaps(RemapText(pairs), None, "") == Some(pairs) <==> Plain(pairs)
  {
    if Plain(pairs) {
      ReadRemapText(pairs);
    } else if ReadRemaps(RemapText(pairs), None, "") == Some(pairs) {
      ReadingCosts(RemapText(pairs), None, "");
      RemapLength(pairs);
      assert false;
    }
  }

  // ----- What the remaps do -----

  /** The name that a file of the job has when it is back: the first pair that begins with the file's name
      gives it the other one. */
  function NameOnArrival(pairs: seq<(string, string)>, file: string): string {
    if pairs == [] then file
    else if pairs[0].0 == file then pairs[0].1
    else NameOnArrival(pairs[1..], file)
  }

  predicate Begins(pairs: seq<(string, string)>, file: string) {
    exists p | p in pairs :: p.0 == file
  }

  lemma {:induction false} NameOfBoth(u: seq<(string, string)>, v: seq<(string, string)>, file: string)
    ensures NameOnArrival(u + v, file) == NameOnArrival(if Begins(u, file) then u else v, file)
  {
    if u == [] {
      assert u + v == v;
    } else {
      assert (u + v)[1..] == u[1..] + v;
      NameOfBoth(u[1..], v, file);
      assert forall p :: p in u <==> p == u[0] || p in u[1..];
    }
  }
}
