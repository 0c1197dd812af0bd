/** The requirements expression of a submit description: the joins in the constructor of
    saga_to_condor in condor_job/description.hpp. */
module Requirements {
  import opened Text

  // ----- Writing -----

  /** The list of requirements, each in parentheses, joined by " && ". */
  function Join(reqs: seq<string>): string {
    if reqs == [] then ""
    else "(" + (reqs[0] + (")" + (if |reqs| == 1 then "" else " && " + Join(reqs[1..]))))
  }

  function NonEmpty(hosts: seq<string>): seq<string> {
    if hosts == [] then []
    else if hosts[0] == "" then NonEmpty(hosts[1..])
    else [hosts[0]] + NonEmpty(hosts[1..])
  }

  function OneHost(host: string): string {
    "( Machine == \"" + (host + "\" )")
  }

  /** The candidate hosts that are not empty, joined by " || ". */
  function HostsText(hosts: seq<string>): string {
    if hosts == [] then ""
    else OneHost(hosts[0]) + (if |hosts| == 1 then "" else " || " + HostsText(hosts[1..]))
  }

  /** The hosts, one at a time. */
  lemma HostsAre(host: string, more: seq<string>)
    requires more != []
    ensures HostsText([]) == "" && HostsText([host]) == "( Machine == \"" + host + "\" )"
    ensures HostsText([host] + more) == "( Machine == \"" + host + "\" ) || " + HostsText(more)
  {
    assert ([host] + more)[1..] == more && [host][1..] == [];
    assert OneHost(host) == "( Machine == \"" + host + "\" )";
    assert OneHost(host) + (" || " + HostsText(more)) == "( Machine == \"" + host + "\" ) || " + HostsText(more) by {
      OneHostThen(host, HostsText(more));
    }
    hide OneHost;
  }

  lemma OneHostThen(host: string, more: string)
    ensures OneHost(host) + (" || " + more) == "( Machine == \"" + host + "\" ) || " + more
  {
  }

  lemma NonEmptyAre(host: string, more: seq<string>)
    ensures NonEmpty([]) == []
    ensures NonEmpty([host] + more) == (if host == "" then [] else [host]) + NonEmpty(more)
  {
    assert ([host] + more)[1..] == more;
  }

  /** The requirements, one at a time. */
  lemma ConjunctsAre(req: string, more: seq<string>)
    requires more != []
    ensures Join([]) == "" && Join([req]) == "(" + req + ")"
    ensures Join([req] + more) == "(" + req + ") && " + Join(more)
  {
    assert ([req] + more)[1..] == more && [req][1..] == [];
    ConjunctThen(req, Join(more));
    assert Join([req]) == "(" + (req + (")" + ""));
  }

  lemma ConjunctThen(req: string, more: string)
    ensures "(" + (req + (")" + (" && " + more))) == "(" + req + ") && " + more
  {
  }

  lemma {:induction false} JoinAppend(reqs: seq<string>, r: string)
    ensures Join(reqs + [r]) == Join(reqs) + ((if reqs == [] then "" else " && ") + ("(" + (r + ")")))
    decreases |reqs|
  {
    if reqs == [] {
      assert reqs + [r] == [r];
    } else {
      var all := reqs + [r];
      assert all[1..] == reqs[1..] + [r];
      JoinAppend(reqs[1..], r);
      var last := "(" + (r + ")");
      if |reqs| == 1 {
        assert reqs[1..] == [];
        assert "(" + (reqs[0] + (")" + (" && " + last))) == "(" + (reqs[0] + (")" + "")) + (" && " + last);
      } else {
        var j := Join(reqs[1..]);
        assert "(" + (reqs[0] + (")" + (" && " + (j + (" && " + last)))))
            == "(" + (reqs[0] + (")" + (" && " + j))) + (" && " + last);
      }
    }
  }

  lemma {:induction false} HostsAppend(hosts: seq<string>, h: string)
    ensures HostsText(hosts + [h]) == HostsText(hosts) + ((if hosts == [] then "" else " || ") + OneHost(h))
    decreases |hosts|
  {
    hide OneHost;
    if hosts == [] {
      assert hosts + [h] == [h];
    } else {
      var all := hosts + [h];
      assert all[1..] == hosts[1..] + [h];
      HostsAppend(hosts[1..], h);
      var first, last := OneHost(hosts[0]), OneHost(h);
      if |hosts| == 1 {
        assert hosts[1..] == [];
        assert first + (" || " + last) == (first + "") + (" || " + last);
      } else {
        var j := HostsText(hosts[1..]);
        assert first + (" || " + (j + (" || " + last))) == (first + (" || " + j)) + (" || " + last);
      }
    }
  }

  /** The loop over the candidate hosts. */
  method JoinHosts(hosts: seq<string>) returns (req: string)
    ensures req == HostsText(NonEmpty(hosts))
  {
    hide HostsText;
    req := "";
    ghost var done: seq<string> := [];
    NoHosts();
    for i := 0 to |hosts|
      invariant NonEmpty(hosts) == done + NonEmpty(hosts[i..])
      invariant req == HostsText(done) && (req == "" <==> done == [])
    {
      assert hosts[i..][1..] == hosts[i + 1..];
      if hosts[i] == "" {
        continue;
      }
      HostsAppend(done, hosts[i]);
      assert (done + [hosts[i]]) + NonEmpty(hosts[i + 1..]) == done + ([hosts[i]] + NonEmpty(hosts[i + 1..]));
      if req != "" {
        req := req + " || ";
      }
      req := req + OneHost(hosts[i]);
      assert req == HostsText(done + [hosts[i]]);
      done := done + [hosts[i]];
    }
    assert done + [] == done;
  }

  lemma NoHosts()
    ensures HostsText([]) == ""
  {
  }

  /** The loop over the collected requirements. */
  method JoinRequirements(reqs: seq<string>) returns (text: string)
    ensures text == Join(reqs)
  {
    hide Join;
    text := "";
    NoRequirements();
    for i := 0 to |reqs|
      invariant text == Join(reqs[..i]) && (text == "" <==> i == 0)
    {
      JoinAppend(reqs[..i], reqs[i]);
      assert reqs[..i + 1] == reqs[..i] + [reqs[i]];
      if text != "" {
        text := text + " && ";
      }
      text := text + ("(" + (reqs[i] + ")"));
    }
    assert reqs[..|reqs|] == reqs;
  }

  lemma NoRequirements()
    ensures Join([]) == ""
  {
  }

  // ----- Reading -----

  /** Where a reader that has passed an opening parenthesis stands: how many more have been
      opened, and whether it is inside a string; or that parenthesis has been closed. */
  datatype Place = Place(nested: nat, inString: bool) | Closed

  const OPENED := Place(0, false)

  function Step(p: Place, c: char): Place {
    if p.Closed? then Closed
    else if c == '"' then Place(p.nested, !p.inString)
    else if p.inString then p
    else if c == '(' then Place(p.nested + 1, false)
    else if c == ')' then if p.nested == 0 then Closed else Place(p.nested - 1, false)
    else p
  }

  /** The length of the text up to the parenthesis that closes the one passed. */
  function CloseAt(t: string, p: Place): Option<nat>
    decreases |t|
  {
    if t == "" || p.Closed? then None
    else if Step(p, t[0]).Closed? then Some(0)
    else
      var k := CloseAt(t[1..], Step(p, t[0]));
      if k.None? then None else Some(k.value + 1)
  }

  lemma {:induction false} CloseAtBound(t: string, p: Place)
    ensures CloseAt(t, p).Some? ==> CloseAt(t, p).value < |t|
    decreases |t|
  {
    if t != "" && !p.Closed? && !Step(p, t[0]).Closed? {
      CloseAtBound(t[1..], Step(p, t[0]));
    }
  }

  /** Splits a conjunction at top level: strings and nested parentheses are respected. */
  function Conjuncts(t: string): Option<seq<string>>
    decreases |t|
  {
    if t == "" || t[0] != '(' then None
    else
      CloseAtBound(t[1..], OPENED);
      var k := CloseAt(t[1..], OPENED);
      if k.None? then None
      else
        var first, rest := t[1..][..k.value], t[1..][k.value + 1..];
        if rest == "" then Some([first])
        else if |rest| < 4 || rest[..4] != " && " then None
        else
          var more := Conjuncts(rest[4..]);
          if more.None? then None else Some([first] + more.value)
  }

  /** A requirement in which every parenthesis and every string is closed, and none is
      closed that it has not opened. */
  function After(s: string, p: Place): Place {
    if s == "" then p else After(s[1..], Step(p, s[0]))
  }

  predicate SelfContained(req: string) {
    After(req, OPENED) == OPENED
  }

  lemma {:induction false} ClosedStays(s: string)
    ensures After(s, Closed) == Closed
  {
    if s != "" {
      ClosedStays(s[1..]);
    }
  }

  lemma {:induction false} AfterConcat(s: string, t: string, p: Place)
    ensures After(s + t, p) == After(t, After(s, p))
    decreases |s|
  {
    if s == "" {
      assert s + t == t;
    } else {
      assert (s + t)[1..] == s[1..] + t;
      AfterConcat(s[1..], t, Step(p, s[0]));
    }
  }

  /** The closing parenthesis that a reader finds is the one behind a text after which it
      stands where it started. */
  lemma {:induction false} CloseAtIs(s: string, rest: string, p: Place)
    requires After(s, p) == OPENED
    ensures CloseAt(s + (")" + rest), p) == Some(|s|)
    decreases |s|
  {
    var all := s + (")" + rest);
    if s == "" {
      assert all == ")" + rest;
    } else {
      assert all[1..] == s[1..] + (")" + rest);
      if Step(p, s[0]).Closed? {
        ClosedStays(s[1..]);
      } else {
        CloseAtIs(s[1..], rest, Step(p, s[0]));
      }
    }
  }

  lemma {:induction false} CloseAtFinds(t: string, p: Place)
    requires CloseAt(t, p).Some?
    ensures CloseAt(t, p).value < |t| && After(t[..CloseAt(t, p).value], p) == OPENED
    decreases |t|
  {
    var k := CloseAt(t, p).value;
    if Step(p, t[0]).Closed? {
      assert t[..k] == "";
    } else {
      CloseAtFinds(t[1..], Step(p, t[0]));
      assert t[..k][1..] == t[1..][..k - 1];
    }
  }

  lemma ReadOneConjunct(r: string, tail: string)
    requires SelfContained(r)
    ensures var t := "(" + (r + (")" + tail));
            CloseAt(t[1..], OPENED) == Some(|r|) && t[1..][..|r|] == r && t[1..][|r| + 1..] == tail
  {
    var body := r + (")" + tail);
    assert ("(" + body)[1..] == body;
    CloseAtIs(r, tail, OPENED);
  }

  lemma {:induction false} ReadJoin(reqs: seq<string>)
    requires reqs != [] && (forall r | r in reqs :: SelfContained(r))
    ensures Conjuncts(Join(reqs)) == Some(reqs)
    decreases |reqs|
  {
    hide CloseAt;
    hide SelfContained;
    var r := reqs[0];
    assert r in reqs;
    var tail := if |reqs| == 1 then "" else " && " + Join(reqs[1..]);
    ReadOneConjunct(r, tail);
    assert Join(reqs) == "(" + (r + (")" + tail));
    if |reqs| == 1 {
      assert reqs == [r];
    } else {
      ReadJoin(reqs[1..]);
      assert tail[..4] == " && " && tail[4..] == Join(reqs[1..]);
      assert reqs == [r] + reqs[1..];
    }
  }

  lemma {:induction false} ConjunctsAreSelfContained(t: string)
    requires Conjuncts(t).Some?
    ensures forall r | r in Conjuncts(t).value :: SelfContained(r)
    decreases |t|
  {
    CloseAtFinds(t[1..], OPENED);
    var k := CloseAt(t[1..], OPENED).value;
    var rest := t[1..][k + 1..];
    if rest != "" {
      ConjunctsAreSelfContained(rest[4..]);
    }
  }

  /** The expression splits back into the requirements it was joined from - exactly if each of them
      closes its own parentheses and strings. */
  lemma JoinRoundTrip(reqs: seq<string>)
    requires reqs != []
    ensures Conjuncts(Join(reqs)) == Some(reqs) <==> forall r | r in reqs :: SelfContained(r)
  {
    if forall r | r in reqs :: SelfContained(r) {
      ReadJoin(reqs);
    }
    if Conjuncts(Join(reqs)) == Some(reqs) {
      ConjunctsAreSelfContained(Join(reqs));
    }
  }

  /** Text without quotes and parentheses is self-contained. */
  lemma {:induction false} PlainIsSelfContained(s: string, p: Place)
    requires '"' !in s && '(' !in s && ')' !in s
    ensures After(s, p) == p
  {
    if s != "" {
      PlainIsSelfContained(s[1..], p);
    }
  }

  /** Inside a string everything but a quote is text. */
  lemma {:induction false} StringIsText(s: string, n: nat)
    requires '"' !in s
    ensures After(s, Place(n, true)) == Place(n, true)
  {
    if s != "" {
      StringIsText(s[1..], n);
    }
  }

  const HOST_HEAD := "( Machine == \""

  const HOST_TAIL := "\" )"

  lemma AfterOne(c: char, p: Place)
    ensures After([c], p) == Step(p, c)
  {
    assert [c][1..] == "";
    assert After("", Step(p, c)) == Step(p, c);
  }

  /** A parenthesis opened, plain text, and a string opened. */
  lemma HeadPlace(text: string)
    requires '"' !in text && '(' !in text && ')' !in text
    ensures After("(" + (text + "\""), OPENED) == Place(1, true)
  {
    hide After;
    AfterConcat("(", text + "\"", OPENED);
    AfterConcat(text, "\"", Place(1, false));
    AfterOne('(', OPENED);
    AfterOne('"', Place(1, false));
    PlainIsSelfContained(text, Place(1, false));
  }

  lemma TailPlace(text: string)
    requires '"' !in text && '(' !in text && ')' !in text
    ensures After("\"" + (text + ")"), Place(1, true)) == OPENED
  {
    hide After;
    AfterConcat("\"", text + ")", Place(1, true));
    AfterConcat(text, ")", Place(1, false));
    AfterOne('"', Place(1, true));
    AfterOne(')', Place(1, false));
    PlainIsSelfContained(text, Place(1, false));
  }

  lemma HostHeadPlaces()
    ensures After(HOST_HEAD, OPENED) == Place(1, true)
    ensures After(HOST_TAIL, Place(1, true)) == OPENED
    ensures After(" || ", OPENED) == OPENED
  {
    hide After;
    HeadPlace(" Machine == ");
    assert HOST_HEAD == "(" + (" Machine == " + "\"");
    TailPlace(" ");
    assert HOST_TAIL == "\"" + (" " + ")");
    PlainIsSelfContained(" || ", OPENED);
  }

  lemma {:induction false} HostsAreSelfContained(hosts: seq<string>)
    requires forall h | h in hosts :: '"' !in h
    ensures SelfContained(HostsText(hosts))
    decreases |hosts|
  {
    if hosts != [] {
      var h := hosts[0];
      assert h in hosts;
      HostHeadPlaces();
      StringIsText(h, 1);
      AfterConcat(HOST_HEAD, h + HOST_TAIL, OPENED);
      AfterConcat(h, HOST_TAIL, Place(1, true));
      HostsAreSelfContained(hosts[1..]);
      if |hosts| > 1 {
        AfterConcat(OneHost(h), " || " + HostsText(hosts[1..]), OPENED);
        AfterConcat(" || ", HostsText(hosts[1..]), OPENED);
      } else {
        assert HostsText(hosts) == OneHost(h);
      }
    }
  }

  function QuoteAt(t: string): Option<nat> {
    if t == "" then None
    else if t[0] == '"' then Some(0)
    else
      var k := QuoteAt(t[1..]);
      if k.None? then None else Some(k.value + 1)
  }

  lemma {:induction false} QuoteAtFinds(t: string)
    ensures QuoteAt(t).Some? ==> QuoteAt(t).value < |t| && '"' !in t[..QuoteAt(t).value]
  {
    if t != "" && t[0] != '"' {
      QuoteAtFinds(t[1..]);
      if QuoteAt(t).Some? {
        var k := QuoteAt(t).value;
        assert t[..k] == [t[0]] + t[1..][..k - 1];
      }
    }
  }

  lemma {:induction false} QuoteAtIs(h: string, rest: string)
    requires '"' !in h
    ensures QuoteAt(h + ("\"" + rest)) == Some(|h|)
  {
    var all := h + ("\"" + rest);
    if h == "" {
      assert all == "\"" + rest;
    } else {
      QuoteAtIs(h[1..], rest);
      assert all[1..] == h[1..] + ("\"" + rest);
    }
  }

  /** Reads a disjunction of machine names. */
  function ReadHosts(t: string): Option<seq<string>>
    decreases |t|
  {
    if !(HOST_HEAD <= t) then None
    else
      var u := t[|HOST_HEAD|..];
      var k := QuoteAt(u);
      QuoteAtFinds(u);
      if k.None? || !(HOST_TAIL <= u[k.value..]) then None
      else
        var rest := u[k.value + |HOST_TAIL|..];
        if rest == "" then Some([u[..k.value]])
        else if !(" || " <= rest) then None
        else
          var more := ReadHosts(rest[4..]);
          if more.None? then None else Some([u[..k.value]] + more.value)
  }

  lemma ReadOneHost(h: string, tail: string)
    requires '"' !in h
    ensures var t := OneHost(h) + tail;
            HOST_HEAD <= t && t[|HOST_HEAD|..] == h + (HOST_TAIL + tail) &&
            QuoteAt(t[|HOST_HEAD|..]) == Some(|h|) && HOST_TAIL <= t[|HOST_HEAD|..][|h|..] &&
            t[|HOST_HEAD|..][..|h|] == h && t[|HOST_HEAD|..][|h| + |HOST_TAIL|..] == tail
  {
    var u := h + (HOST_TAIL + tail);
    var t := OneHost(h) + tail;
    assert t == HOST_HEAD + u;
    assert t[|HOST_HEAD|..] == u;
    assert u == h + ("\"" + (" )" + tail));
    QuoteAtIs(h, " )" + tail);
    assert u[|h|..] == HOST_TAIL + tail;
  }

  /** The reader takes the first host and goes on behind it. */
  lemma ReadStep(h: string, tail: string)
    requires '"' !in h && (tail == "" || " || " <= tail)
    ensures ReadHosts(OneHost(h) + tail)
            == if tail == "" then Some([h])
               else if ReadHosts(tail[4..]).None? then None else Some([h] + ReadHosts(tail[4..]).value)
  {
    ReadOneHost(h, tail);
    hide OneHost;
    hide QuoteAt;
  }

  lemma {:induction false} ReadHostsText(hosts: seq<string>)
    requires hosts != [] && (forall h | h in hosts :: '"' !in h)
    ensures ReadHosts(HostsText(hosts)) == Some(hosts)
    decreases |hosts|
  {
    hide OneHost;
    hide ReadHosts;
    var h := hosts[0];
    assert h in hosts;
    var tail := if |hosts| == 1 then "" else " || " + HostsText(hosts[1..]);
    assert HostsText(hosts) == OneHost(h) + tail;
    ReadStep(h, tail);
    if |hosts| == 1 {
      assert hosts == [h];
    } else {
      ReadHostsText(hosts[1..]);
      hide HostsText;
      assert tail[4..] == HostsText(hosts[1..]);
      assert hosts == [h] + hosts[1..];
    }
  }

  lemma {:induction false} HostsReadHaveNoQuotes(t: string)
    requires ReadHosts(t).Some?
    ensures forall h | h in ReadHosts(t).value :: '"' !in h
    decreases |t|
  {
    var u := t[|HOST_HEAD|..];
    QuoteAtFinds(u);
    var rest := u[QuoteAt(u).value + |HOST_TAIL|..];
    if rest != "" {
      HostsReadHaveNoQuotes(rest[4..]);
    }
  }

  lemma {:induction false} NonEmptyKeeps(hosts: seq<string>)
    ensures forall h :: h in NonEmpty(hosts) <==> h in hosts && h != ""
  {
    if hosts != [] {
      NonEmptyKeeps(hosts[1..]);
      assert hosts == [hosts[0]] + hosts[1..];
    }
  }

  /** The candidate hosts read back, without the empty ones - exactly if no name contains a double
      quote; and then they form one self-contained requirement. */
  lemma HostsRoundTrip(hosts: seq<string>)
    requires NonEmpty(hosts) != []
    ensures ReadHosts(HostsText(NonEmpty(hosts))) == Some(NonEmpty(hosts)) <==> forall h | h in hosts :: '"' !in h
    ensures (forall h | h in hosts :: '"' !in h) ==> SelfContained(HostsText(NonEmpty(hosts)))
  {
    var named := NonEmpty(hosts);
    NonEmptyKeeps(hosts);
    if forall h | h in hosts :: '"' !in h {
      ReadHostsText(named);
      HostsAreSelfContained(named);
    }
    if ReadHosts(HostsText(named)) == Some(named) {
      HostsReadHaveNoQuotes(HostsText(named));
      forall h | h in hosts ensures '"' !in h {
        if h != "" {
          assert h in named;
        }
      }
    }
  }
}
