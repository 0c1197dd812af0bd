/** Job identifiers: how they are written (sync_run in condor_job/condor_job.cpp and sync_list in
    condor_job/condor_job_service.cpp) and how they are taken apart (parse_jobid in
    condor_job/helper.hpp). */
module JobIds {
  import opened Text

  const SEPARATOR := "]-["

  /** "[url]-[id]". */
  function JobId(url: string, id: string): string {
    "[" + (url + (SEPARATOR + (id + "]")))
  }

  // ----- Taking an identifier apart -----

  /** The regular expression \[(.+)\]-\[(.+)\] matches the whole text, and its first group
      ends at k. */
  predicate MatchesAt(s: string, k: nat) {
    && 2 <= k && k + 4 < |s|
    && s[0] == '[' && IsAt(s, k, SEPARATOR) && s[|s| - 1] == ']'
  }

  /** The two groups, if the first one ends at k. */
  function Groups(s: string, k: nat): (string, string) {
    if 2 <= k && k + 4 < |s| then (s[1..k], s[k + 3..|s| - 1]) else ("", "")
  }

  /** The first group takes all it can and then gives back one character at a time. */
  function MatchBack(s: string, k: nat): Option<(string, string)> {
    if MatchesAt(s, k) then Some(Groups(s, k))
    else if k == 0 then None
    else MatchBack(s, k - 1)
  }

  function Split(s: string): Option<(string, string)> {
    MatchBack(s, |s|)
  }

  /** A URL as the engine parses it. */
  datatype Url = Url(text: string, scheme: string, host: string)

  datatype Parsed = Parsed(url: Url, id: string) | NotAJobId | BadUrl | NoScheme | NoHost

  /** parse_jobid. What the engine makes of a URL is a parameter. */
  function ParseJobId(s: string, urlOf: string -> Option<Url>): Parsed {
    match Split(s)
    case None => NotAJobId
    case Some(parts) =>
      match urlOf(parts.0)
      case None => BadUrl
      case Some(url) =>
        if url.scheme == "" then NoScheme
        else if url.host == "" then NoHost
        else Parsed(url, parts.1)
  }

  ghost predicate LastMatch(s: string, k: nat) {
    MatchesAt(s, k) && forall j: nat :: MatchesAt(s, j) ==> j <= k
  }

  lemma {:induction false} MatchBackIsLast(s: string, k: nat) returns (j: nat)
    ensures MatchBack(s, k).None? ==> forall i: nat | i <= k :: !MatchesAt(s, i)
    ensures MatchBack(s, k).Some? ==>
              && j <= k && MatchesAt(s, j) && MatchBack(s, k) == Some(Groups(s, j))
              && forall i: nat | j < i <= k :: !MatchesAt(s, i)
  {
    hide Groups;
    hide MatchesAt;
    j := k;
    if !MatchesAt(s, k) && k != 0 {
      j := MatchBackIsLast(s, k - 1);
    }
  }

  /** Greedy matching finds the last place at which the text can be divided. */
  lemma SplitIsLastMatch(s: string) returns (k: nat)
    ensures Split(s).Some? <==> exists j: nat :: MatchesAt(s, j)
    ensures Split(s).Some? ==> LastMatch(s, k) && Split(s) == Some(Groups(s, k))
  {
    hide MatchBack;
    hide Groups;
    k := MatchBackIsLast(s, |s|);
    assert forall j: nat :: MatchesAt(s, j) ==> j <= |s|;
    hide MatchesAt;
  }

  lemma MatchIsJobId(s: string, k: nat)
    requires MatchesAt(s, k)
    ensures 2 <= k && k + 4 < |s| && Groups(s, k) == (s[1..k], s[k + 3..|s| - 1])
    ensures s == JobId(Groups(s, k).0, Groups(s, k).1)
  {
    assert s[k..k + 3] == SEPARATOR;
    assert s == [s[0]] + (s[1..k] + (s[k..k + 3] + (s[k + 3..|s| - 1] + [s[|s| - 1]])));
  }

  lemma JobIdMatches(url: string, id: string)
    requires url != "" && id != ""
    ensures |JobId(url, id)| == 5 + |url| + |id| && MatchesAt(JobId(url, id), 1 + |url|)
    ensures Groups(JobId(url, id), 1 + |url|) == (url, id)
  {
    var s := JobId(url, id);
    assert s[1 + |url|..4 + |url|] == SEPARATOR;
    assert s[|s| - 1] == ']';
    assert s[1..1 + |url|] == url && s[4 + |url|..|s| - 1] == id;
  }

  /** The text is the identifier of url and id, and no other way of reading it has a longer
      first part. */
  ghost predicate LongestReading(s: string, url: string, id: string) {
    && url != "" && id != "" && s == JobId(url, id)
    && forall u, i | u != "" && i != "" && s == JobId(u, i) :: |u| <= |url|
  }

  lemma SplitIsReading(s: string, url: string, id: string)
    requires Split(s) == Some((url, id))
    ensures LongestReading(s, url, id)
  {
    hide Split;
    hide MatchesAt;
    hide JobId;
    var k := SplitIsLastMatch(s);
    MatchIsJobId(s, k);
    forall u, i | u != "" && i != "" && s == JobId(u, i) ensures |u| <= |url| {
      JobIdMatches(u, i);
      assert MatchesAt(s, 1 + |u|);
    }
  }

  lemma ReadingIsSplit(s: string, url: string, id: string)
    requires LongestReading(s, url, id)
    ensures Split(s) == Some((url, id))
  {
    hide Split;
    hide MatchesAt;
    hide JobId;
    JobIdMatches(url, id);
    var k := SplitIsLastMatch(s);
    assert MatchesAt(s, 1 + |url|);
    MatchIsJobId(s, k);
    assert |s[1..k]| <= |url|;
  }

  lemma IdentifierIs(url: string, id: string)
    ensures JobId(url, id) == "[" + url + "]-[" + id + "]"
  {
  }

  /** The text splits into url and id exactly if that is a reading of it, and no reading has a longer first part. */
  lemma SplitIsLongest(s: string, url: string, id: string)
    ensures Split(s) == Some((url, id))
            <==> && url != "" && id != "" && s == "[" + url + "]-[" + id + "]"
                 && forall u, i | u != "" && i != "" && s == "[" + u + "]-[" + i + "]" :: |u| <= |url|
  {
    hide Split;
    hide JobId;
    IdentifierIs(url, id);
    forall u: string, i: string ensures JobId(u, i) == "[" + u + "]-[" + i + "]" {
      IdentifierIs(u, i);
    }
    if Split(s) == Some((url, id)) {
      SplitIsReading(s, url, id);
    } else if LongestReading(s, url, id) {
      ReadingIsSplit(s, url, id);
    }
  }

  /** The separator stands in the ID with something after it. */
  ghost predicate Ambiguous(id: string) {
    exists q: nat :: IsAt(id, q, SEPARATOR) && q + 3 < |id|
  }

  lemma InnerMatch(url: string, id: string, q: nat)
    requires url != "" && IsAt(id, q, SEPARATOR) && q + 3 < |id|
    ensures MatchesAt(JobId(url, id), 4 + |url| + q)
  {
    var s := JobId(url, id);
    JobIdMatches(url, id);
    assert s[4 + |url| + q..7 + |url| + q] == s[4 + |url|..|s| - 1][q..q + 3];
  }

  lemma LaterMatchIsInner(url: string, id: string, j: nat)
    requires url != "" && id != "" && j > 1 + |url| && MatchesAt(JobId(url, id), j)
    ensures j >= 4 + |url| && IsAt(id, j - 4 - |url|, SEPARATOR) && j - 1 - |url| < |id|
  {
    var s := JobId(url, id);
    JobIdMatches(url, id);
    IsAtChar(s, 1 + |url|, SEPARATOR, 1);
    IsAtChar(s, 1 + |url|, SEPARATOR, 2);
    IsAtChar(s, j, SEPARATOR, 0);
    var q := j - 4 - |url|;
    assert s[4 + |url|..|s| - 1][q..q + 3] == s[j..j + 3];
  }

  lemma IdentifierSplits(url: string, id: string)
    requires url != "" && id != ""
    ensures Split(JobId(url, id)) == Some((url, id)) <==> !Ambiguous(id)
  {
    hide Split;
    hide MatchesAt;
    hide JobId;
    var s := JobId(url, id);
    JobIdMatches(url, id);
    var k := SplitIsLastMatch(s);
    assert MatchesAt(s, 1 + |url|);
    if Ambiguous(id) {
      var q: nat :| IsAt(id, q, SEPARATOR) && q + 3 < |id|;
      InnerMatch(url, id, q);
      MatchIsJobId(s, k);
      assert |s[1..k]| > |url|;
    } else if k > 1 + |url| {
      LaterMatchIsInner(url, id, k);
    }
  }

  lemma AmbiguousIs(id: string)
    ensures Ambiguous(id) <==> exists q: nat :: q + 3 < |id| && id[q] == ']' && id[q + 1] == '-' && id[q + 2] == '['
  {
    if Ambiguous(id) {
      var q: nat :| IsAt(id, q, SEPARATOR) && q + 3 < |id|;
      IsAtChar(id, q, SEPARATOR, 0);
      IsAtChar(id, q, SEPARATOR, 1);
      IsAtChar(id, q, SEPARATOR, 2);
    }
    if q: nat :| q + 3 < |id| && id[q] == ']' && id[q + 1] == '-' && id[q + 2] == '[' {
      assert id[q..q + 3] == SEPARATOR;
      assert IsAt(id, q, SEPARATOR);
    }
  }

  /** The job identifier round trip: because the match is greedy, an identifier is read back exactly if what
      divides it does not occur inside its ID with something behind it. */
  lemma JobIdRoundTrip(url: string, id: string)
    requires url != "" && id != ""
    ensures Split("[" + url + "]-[" + id + "]") == Some((url, id))
            <==> !exists q: nat :: q + 3 < |id| && id[q] == ']' && id[q + 1] == '-' && id[q + 2] == '['
  {
    hide Split;
    IdentifierIs(url, id);
    hide JobId;
    AmbiguousIs(id);
    IdentifierSplits(url, id);
    hide Ambiguous;
  }

  /** In particular with the number of a cluster. */
  lemma NumberedIsReadBack(url: string, cluster: string)
    requires url != "" && cluster != "" && forall c | c in cluster :: '0' <= c <= '9'
    ensures Split("[" + url + "]-[" + cluster + "]") == Some((url, cluster))
  {
    hide Split;
    IdentifierIs(url, cluster);
    hide JobId;
    IdentifierSplits(url, cluster);
    if Ambiguous(cluster) {
      AmbiguousHasBracket(cluster);
    }
  }

  /** With a URL that the engine accepts and that names a scheme and a host, parse_jobid gives back that URL and
      the ID; and otherwise it says what is missing. */
  lemma ParseJobIdRoundTrip(url: string, id: string, urlOf: string -> Option<Url>)
    requires url != "" && id != ""
    requires !exists q: nat :: q + 3 < |id| && id[q] == ']' && id[q + 1] == '-' && id[q + 2] == '['
    ensures ParseJobId("[" + url + "]-[" + id + "]", urlOf)
            == match urlOf(url)
               case None => BadUrl
               case Some(u) => if u.scheme == "" then NoScheme else if u.host == "" then NoHost else Parsed(u, id)
  {
    JobIdRoundTrip(url, id);
    hide Split;
  }

  /** What is not of that form is no identifier. */
  lemma NothingElseIsParsed(s: string, urlOf: string -> Option<Url>)
    ensures ParseJobId(s, urlOf) == NotAJobId
            <==> !exists url: string, id: string :: url != "" && id != "" && s == "[" + url + "]-[" + id + "]"
  {
    hide MatchesAt;
    hide Groups;
    var k := SplitIsLastMatch(s);
    hide Split;
    if Split(s).Some? {
      var parts := Split(s).value;
      SplitIsLongest(s, parts.0, parts.1);
    }
    if url: string, id: string :| url != "" && id != "" && s == "[" + url + "]-[" + id + "]" {
      IdentifierIs(url, id);
      hide JobId;
      JobIdMatches(url, id);
      assert MatchesAt(s, 1 + |url|);
    }
  }

  // ----- Listing the jobs of a resource manager -----

  /** The number of digits that the text starts with. */
  function Digits(s: string): (n: nat)
    ensures n <= |s| && (forall i | 0 <= i < n :: IsDigit(s[i])) && (n < |s| ==> !IsDigit(s[n]))
  {
    if s == "" || !IsDigit(s[0]) then 0 else 1 + Digits(s[1..])
  }

  /** The regular expression (\d+)\.\d+ and its group: the cluster of a process. */
  function ClusterOf(line: string): Option<string> {
    var n := Digits(line);
    if 0 < n && n + 1 < |line| && line[n] == '.' && Digits(line[n + 1..]) == |line| - n - 1
    then Some(line[..n])
    else None
  }

  predicate Number(s: string) {
    s != "" && forall c | c in s :: IsDigit(c)
  }

  lemma ClusterOfIs(line: string, c: string)
    ensures ClusterOf(line) == Some(c) <==> Number(c) && exists p :: Number(p) && line == c + "." + p
    ensures Number(c) <==> c != "" && forall x | x in c :: '0' <= x <= '9'
  {
    if ClusterOf(line) == Some(c) {
      var n := Digits(line);
      var p := line[n + 1..];
      assert line[n..n + 1] == ".";
      assert line == line[..n] + line[n..n + 1] + p;
      assert Number(p);
    }
    if Number(c) && exists p :: Number(p) && line == c + "." + p {
      var p :| Number(p) && line == c + "." + p;
      assert forall i | 0 <= i < |c| :: line[i] == c[i] && c[i] in c;
      assert line[|c|] == '.';
      assert Digits(line) == |c|;
      assert line[..|c|] == c && line[|c| + 1..] == p;
      assert forall i | 0 <= i < |p| :: p[i] in p;
      assert Digits(p) == |p|;
    }
  }

  /** A process of the cluster is among the lines. */
  predicate Listed(lines: seq<string>, c: string) {
    exists i :: 0 <= i < |lines| && ClusterOf(lines[i]) == Some(c)
  }

  /** The IDs that are listed: each process, and before the first of a cluster, the cluster. */
  function Listing(lines: seq<string>): seq<string> {
    if lines == [] then []
    else
      var before, line := lines[..|lines| - 1], lines[|lines| - 1];
      var cluster := ClusterOf(line);
      Listing(before)
      + (if cluster.None? then [] else if Listed(before, cluster.value) then [line] else [cluster.value, line])
  }

  function Wrap(url: string, ids: seq<string>): (r: seq<string>)
    ensures |r| == |ids| && forall i | 0 <= i < |ids| :: r[i] == JobId(url, ids[i])
  {
    seq(|ids|, i requires 0 <= i < |ids| => JobId(url, ids[i]))
  }

  lemma ListingTurn(lines: seq<string>, i: nat)
    requires i < |lines|
    ensures Listing(lines[..i + 1])
            == Listing(lines[..i])
               + (if ClusterOf(lines[i]).None? then []
                  else if Listed(lines[..i], ClusterOf(lines[i]).value) then [lines[i]]
                  else [ClusterOf(lines[i]).value, lines[i]])
    ensures forall c :: Listed(lines[..i + 1], c) <==> Listed(lines[..i], c) || ClusterOf(lines[i]) == Some(c)
  {
    assert lines[..i + 1][..i] == lines[..i];
    forall c ensures Listed(lines[..i + 1], c) <==> Listed(lines[..i], c) || ClusterOf(lines[i]) == Some(c) {
      if Listed(lines[..i + 1], c) {
        var j :| 0 <= j < |lines[..i + 1]| && ClusterOf(lines[..i + 1][j]) == Some(c);
        assert j < i ==> lines[..i][j] == lines[j];
      }
      if Listed(lines[..i], c) {
        var j :| 0 <= j < |lines[..i]| && ClusterOf(lines[..i][j]) == Some(c);
        assert lines[..i + 1][j] == lines[j];
      }
      assert lines[..i + 1][i] == lines[i];
    }
  }

  lemma WrapAppend(url: string, ids: seq<string>, more: seq<string>)
    ensures Wrap(url, ids + more) == Wrap(url, ids) + Wrap(url, more)
  {
  }

  /** sync_list, on the lines that condor_q prints. */
  method List(url: string, lines: seq<string>) returns (ids: seq<string>)
    ensures ids == Wrap(url, Listing(lines))
    ensures |ids| == |Listing(lines)|
    ensures forall i | 0 <= i < |ids| :: ids[i] == "[" + url + "]-[" + Listing(lines)[i] + "]"
  {
    hide Listing;
    hide JobId;
    ids := [];
    var clusters: set<string> := {};
    NothingListed();
    for i := 0 to |lines|
      invariant forall c :: c in clusters <==> Listed(lines[..i], c)
      invariant ids == Wrap(url, Listing(lines[..i]))
    {
      var process := lines[i];
      ListingTurn(lines, i);
      var m := ClusterOf(process);
      hide ClusterOf;
      if m.Some? {
        var cluster := m.value;
        ghost var before := Listing(lines[..i]);
        if cluster !in clusters {
          clusters := clusters + {cluster};
          ids := ids + [JobId(url, cluster)];
          WrapAppend(url, before, [cluster, process]);
        } else {
          WrapAppend(url, before, [process]);
        }
        ids := ids + [JobId(url, process)];
      }
    }
    assert lines[..|lines|] == lines;
    forall i | 0 <= i < |ids| ensures ids[i] == "[" + url + "]-[" + Listing(lines)[i] + "]" {
      IdentifierIs(url, Listing(lines)[i]);
    }
  }

  lemma NothingListed()
    ensures Listing([]) == [] && forall c :: !Listed([], c)
  {
  }

  // ----- What the listing is -----

  function Processes(ids: seq<string>): seq<string> {
    if ids == [] then []
    else
      var last := ids[|ids| - 1];
      Processes(ids[..|ids| - 1]) + (if ClusterOf(last).Some? then [last] else [])
  }

  lemma {:induction false} ProcessesConcat(a: seq<string>, b: seq<string>)
    ensures Processes(a + b) == Processes(a) + Processes(b)
  {
    if b == [] {
      assert a + b == a;
    } else {
      assert (a + b)[..|a + b| - 1] == a + b[..|b| - 1];
      ProcessesConcat(a, b[..|b| - 1]);
    }
  }

  lemma ClusterIsNoProcess(line: string)
    requires ClusterOf(line).Some?
    ensures ClusterOf(ClusterOf(line).value).None?
  {
  }

  /** The processes are listed in the order of the input, each line as often as it came. */
  lemma {:induction false} ProcessesInOrder(lines: seq<string>)
    ensures Processes(Listing(lines)) == Processes(lines)
  {
    if lines != [] {
      var i := |lines| - 1;
      var line := lines[i];
      ProcessesInOrder(lines[..i]);
      ListingTurn(lines, i);
      assert lines[..i + 1] == lines;
      var added := Listing(lines)[|Listing(lines[..i])|..];
      assert Listing(lines) == Listing(lines[..i]) + added;
      ProcessesConcat(Listing(lines[..i]), added);
      if ClusterOf(line).Some? {
        ClusterIsNoProcess(line);
        ProcessesOf(line, ClusterOf(line).value);
      } else {
        assert added == [];
      }
    }
  }

  lemma ProcessesOf(line: string, c: string)
    requires ClusterOf(line).Some? && ClusterOf(c).None?
    ensures Processes([line]) == [line] && Processes([c, line]) == [line]
  {
    assert [line][..0] == [];
    assert [c, line][..1] == [c];
    assert [c][..0] == [];
  }

  /** The ID at i is a cluster's; it stands right before the first of the cluster's processes. */
  predicate HeadsItsProcesses(ids: seq<string>, i: nat)
    requires i < |ids|
  {
    && i + 1 < |ids| && ClusterOf(ids[i + 1]) == Some(ids[i])
    && (forall j | 0 <= j < i :: ClusterOf(ids[j]) != Some(ids[i]) && ids[j] != ids[i])
  }

  ghost predicate ClustersInPlace(ids: seq<string>) {
    && (forall i | 0 <= i < |ids| && ClusterOf(ids[i]).None? :: HeadsItsProcesses(ids, i))
    && (forall i | 0 <= i < |ids| && ClusterOf(ids[i]).Some? :: ClusterOf(ids[i]).value in ids[..i])
  }

  /** The listed clusters are those that have a process. */
  lemma {:induction false} ListedClusters(lines: seq<string>, c: string)
    ensures Listed(lines, c) <==> c in Listing(lines) && ClusterOf(c).None?
  {
    if lines != [] {
      var i := |lines| - 1;
      ListedClusters(lines[..i], c);
      ListingTurn(lines, i);
      assert lines[..i + 1] == lines;
      hide Listing;
      hide Listed;
      if ClusterOf(lines[i]).Some? {
        ClusterIsNoProcess(lines[i]);
      }
    }
  }

  /** Every cluster that has a process is listed exactly once, immediately before its first process. */
  lemma {:induction false} EachClusterOnce(lines: seq<string>)
    ensures ClustersInPlace(Listing(lines))
  {
    if lines != [] {
      var i := |lines| - 1;
      EachClusterOnce(lines[..i]);
      ListingTurn(lines, i);
      assert lines[..i + 1] == lines;
      hide Listing;
      hide Listed;
      hide ClustersInPlace;
      var m := ClusterOf(lines[i]);
      if m.None? {
        assert Listing(lines) == Listing(lines[..i]);
      } else {
        ClusterIsNoProcess(lines[i]);
        ListedClusters(lines[..i], m.value);
        hide ClusterOf;
        if Listed(lines[..i], m.value) {
          AddProcess(Listing(lines[..i]), lines[i]);
        } else {
          AddCluster(Listing(lines[..i]), lines[i]);
        }
      }
    }
  }

  lemma AddProcess(ids: seq<string>, line: string)
    requires ClustersInPlace(ids) && ClusterOf(line).Some? && ClusterOf(line).value in ids
    ensures ClustersInPlace(ids + [line])
  {
    hide ClusterOf;
    var all := ids + [line];
    forall i | 0 <= i < |all| && ClusterOf(all[i]).None? ensures HeadsItsProcesses(all, i) {
      assert HeadsItsProcesses(ids, i);
    }
    forall i | 0 <= i < |all| && ClusterOf(all[i]).Some? ensures ClusterOf(all[i]).value in all[..i] {
      assert all[..i] == ids[..i];
      assert i < |ids| ==> ClusterOf(ids[i]).value in ids[..i];
      assert ids[..|ids|] == ids;
    }
  }

  lemma AddCluster(ids: seq<string>, line: string)
    requires ClustersInPlace(ids) && ClusterOf(line).Some? && ClusterOf(line).value !in ids
    requires ClusterOf(ClusterOf(line).value).None?
    ensures ClustersInPlace(ids + [ClusterOf(line).value, line])
  {
    hide ClusterOf;
    var c := ClusterOf(line).value;
    var all := ids + [c, line];
    forall i | 0 <= i < |all| && ClusterOf(all[i]).None? ensures HeadsItsProcesses(all, i) {
      if i < |ids| {
        assert HeadsItsProcesses(ids, i);
      } else {
        forall j | 0 <= j < i ensures ClusterOf(all[j]) != Some(c) && all[j] != c {
          assert all[j] == ids[j] && ids[j] in ids;
          assert ClusterOf(ids[j]).Some? ==> ClusterOf(ids[j]).value in ids[..j];
        }
      }
    }
    forall i | 0 <= i < |all| && ClusterOf(all[i]).Some? ensures ClusterOf(all[i]).value in all[..i] {
      if i < |ids| {
        assert ClusterOf(ids[i]).value in ids[..i];
        assert all[..i] == ids[..i];
      } else {
        assert all[..i][|ids|] == c;
      }
    }
  }

  /** Every listed identifier is read back. */
  lemma ListedIsReadBack(url: string, lines: seq<string>, id: string)
    requires url != "" && id in Listing(lines)
    ensures Split("[" + url + "]-[" + id + "]") == Some((url, id))
  {
    ListedIsPlain(lines, id);
    hide Listing;
    hide Split;
    IdentifierIs(url, id);
    hide JobId;
    IdentifierSplits(url, id);
    if Ambiguous(id) {
      AmbiguousHasBracket(id);
    }
  }

  lemma AmbiguousHasBracket(id: string)
    requires Ambiguous(id)
    ensures ']' in id
  {
    var q: nat :| IsAt(id, q, SEPARATOR) && q + 3 < |id|;
    IsAtChar(id, q, SEPARATOR, 0);
  }

  lemma {:induction false} ListedIsPlain(lines: seq<string>, id: string)
    requires id in Listing(lines)
    ensures id != "" && ']' !in id
  {
    var i := |lines| - 1;
    ListingTurn(lines, i);
    assert lines[..i + 1] == lines;
    if id in Listing(lines[..i]) {
      ListedIsPlain(lines[..i], id);
    } else {
      var line := lines[i];
      var n := Digits(line);
      assert forall j | 0 <= j < |line| && j != n :: IsDigit(line[j]) by {
        forall j | n < j < |line| ensures IsDigit(line[j]) {
          assert line[j] == line[n + 1..][j - n - 1];
        }
      }
    }
  }
}
