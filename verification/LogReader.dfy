/** The reading loop of condor_job/log_processor.hpp: bytes arrive in arbitrary reads, are
    buffered, searched for records, and erased as records are handed on. */
module LogReader {
  import opened Text
  import opened Grammar
  import opened ClassAds
  import opened RecordPrinter

  /** A record handed to process_log_entry, with its span in the stream. */
  datatype Delivery = Delivery(start: nat, stop: nat, ad: Ad)

  /** What a stretch of reading has delivered and what it has left in the buffer. */
  datatype Reading = Reading(records: seq<Delivery>, rest: string)

  function Prepend(ds: seq<Delivery>, r: Reading): Reading {
    Reading(ds + r.records, r.rest)
  }

  /** The inner loop on a buffer that starts at byte off of the stream. */
  function Drain(b: string, off: nat): (r: Reading)
    ensures |r.rest| <= |b|
    decreases |b|
  {
    if b == "" then Reading([], "")
    else
      match NextRecord(b, 0, map[])
      case Hit(start, stop, ad) =>
        Prepend([Delivery(off + start, off + stop, ad)], Drain(b[stop..], off + stop))
      case Miss(start) => Reading([], b[start..])
  }

  /** The outer loop: each read is appended to the buffer, which is then drained. */
  function Run(buffer: string, off: nat, chunks: seq<string>): Reading
    decreases |chunks|
  {
    if chunks == [] then Reading([], buffer)
    else
      var b := buffer + chunks[0];
      var r := Drain(b, off);
      Prepend(r.records, Run(r.rest, off + |b| - |r.rest|, chunks[1..]))
  }

  /** Byte x of the stream opens a record: a delivered one, or the one the buffer is kept for.
      The stream ends at byte end. */
  predicate OpensRecord(r: Reading, end: nat, x: int) {
    || (exists i :: 0 <= i < |r.records| && r.records[i].start == x)
    || (r.rest != "" && x == end - |r.rest|)
  }

  /** The reads, of a stream continued at byte p, are cut one byte behind the opening of a
      record of r. */
  predicate CutsOpening(r: Reading, end: nat, p: nat, chunks: seq<string>)
    decreases |chunks|
  {
    chunks != [] &&
    (OpensRecord(r, end, p + |chunks[0]| - 1) || CutsOpening(r, end, p + |chunks[0]|, chunks[1..]))
  }

  // ----- Skipping and searching on extended buffers -----

  /** The last byte of the buffer is a '<' that the bytes to come make an opener. */
  predicate SplitOpener(b: string, more: string) {
    b != "" && b[|b| - 1] == '<' && Opener("<" + more, 0)
  }

  lemma OpenerInTail(s: string, i: nat, j: nat)
    requires i <= j <= |s|
    ensures Opener(s[i..], j - i) <==> Opener(s, j)
  {
    if j + 2 <= |s| {
      assert s[i..][j - i..j - i + 2] == s[j..j + 2];
    }
  }

  /** Past the last byte of the old buffer, an opener is already decided by it, except that
      "<c" at its very end may turn out to be a longer word. */
  lemma OpenerExtended(b: string, more: string, k: nat)
    requires k + 2 <= |b|
    ensures Opener(b + more, k) ==> Opener(b, k)
    ensures Opener(b, k) && !Opener(b + more, k) ==> k + 2 == |b|
  {
    assert (b + more)[k..k + 2] == b[k..k + 2];
  }

  lemma {:induction false} SkipTo(s: string, i: nat, j: nat)
    requires i <= j <= |s| && (forall k: nat | i <= k < j :: !Opener(s, k))
    ensures SkipToClassad(s, i) == SkipToClassad(s, j)
    decreases j - i
  {
    if i < j {
      SkipTo(s, i + 1, j);
    }
  }

  lemma {:induction false} SkipInTail(s: string, i: nat, j: nat)
    requires i <= j <= |s|
    ensures SkipToClassad(s, j) == i + SkipToClassad(s[i..], j - i)
    decreases |s| - j
  {
    OpenerInTail(s, i, j);
    if j < |s| && !Opener(s, j) {
      SkipInTail(s, i, j + 1);
    }
  }

  /** Where the skipping of an extended buffer goes on: at the place that was kept, or at the
      '<' that was dropped. */
  lemma SkipExtended(b: string, more: string)
    ensures var k := SkipToClassad(b, 0);
            var j := if k == |b| && SplitOpener(b, more) then |b| - 1 else k;
            SkipToClassad(b + more, 0) == SkipToClassad(b + more, j)
  {
    var k := SkipToClassad(b, 0);
    var j := if k == |b| && SplitOpener(b, more) then |b| - 1 else k;
    forall i: nat | i < j
      ensures !Opener(b + more, i)
    {
      if i + 2 <= |b| {
        OpenerExtended(b, more, i);
      } else {
        assert (b + more)[i..] == "<" + more || (b + more)[i] != '<' by {
          assert (b + more)[i..] == [b[i]] + more;
        }
        OpenerInTail(b + more, i, i);
        if Opener(b + more, i) {
          IsAtChar(b + more, i, "<c", 0);
        }
      }
    }
    SkipTo(b + more, 0, j);
  }

  lemma HitExtended(b: string, more: string)
    requires NextRecord(b, 0, map[]).Hit?
    ensures NextRecord(b + more, 0, map[]) == NextRecord(b, 0, map[])
  {
    var k := SkipToClassad(b, 0);
    SkipExtended(b, more);
    OpenerExtended(b, more, k);
    assert (b + more)[k..] == b[k..] + more;
    RecordExtension(b[k..], more, 0);
  }

  /** Bytes in front of the next opener do not matter to the search. */
  lemma NextFrom(s: string, j: nat)
    requires j <= |s| && SkipToClassad(s, 0) == SkipToClassad(s, j)
    ensures NextRecord(s, 0, map[]).start == j + NextRecord(s[j..], 0, map[]).start
    ensures var f, g := NextRecord(s, 0, map[]), NextRecord(s[j..], 0, map[]);
            if g.Hit? then f == Hit(f.start, j + g.stop, g.ad) else f.Miss?
  {
    hide *;
    SkipInTail(s, j, j);
    var k := SkipToClassad(s, j);
    NextIsFound(s, k);
    NextIsFound(s[j..], k - j);
    assert s[j..][k - j..] == s[k..];
    FoundShifted(k, k - j, Record(s[k..], 0));
  }

  lemma NextIsFound(s: string, k: nat)
    requires SkipToClassad(s, 0) == k
    ensures NextRecord(s, 0, map[]) == Found(k, Record(s[k..], 0), map[])
  {
  }

  lemma FoundShifted(k: nat, i: nat, m: Match<seq<RawAttribute>>)
    ensures var f, g := Found(k, m, map[]), Found(i, m, map[]);
            f.start == k && g.start == i && f.Hit? == g.Hit? &&
            (g.Hit? ==> f.stop == k - i + g.stop && f.ad == g.ad)
  {
  }

  lemma EmptyBuffer()
    ensures NextRecord("", 0, map[]) == Miss(0)
  {
  }

  /** Nor do they matter to the draining. */
  lemma DrainFrom(s: string, j: nat, off: nat)
    requires j <= |s| && SkipToClassad(s, 0) == SkipToClassad(s, j)
    ensures Drain(s, off) == Drain(s[j..], off + j)
  {
    hide NextRecord;
    hide SkipToClassad;
    NextFrom(s, j);
    var f, g := NextRecord(s, 0, map[]), NextRecord(s[j..], 0, map[]);
    if s == "" {
      assert s[j..] == s;
    } else if s[j..] == "" {
      EmptyBuffer();
      assert s[f.start..] == "";
    } else if f.Hit? {
      assert s[f.stop..] == s[j..][g.stop..];
    } else {
      assert s[f.start..] == s[j..][g.start..];
    }
  }

  /** What reading goes on from, when more bytes follow a drained buffer: what was kept, or
      the split '<' that was dropped. */
  function Kept(b: string, rest: string, more: string): string {
    if rest == "" && SplitOpener(b, more) then "<" else rest
  }

  /** A buffer without a complete record, extended. */
  lemma MissExtended(b: string, more: string, off: nat)
    requires b != "" && NextRecord(b, 0, map[]).Miss?
    ensures var r := Drain(b, off);
            var kept := Kept(b, r.rest, more);
            |kept| <= |b| && r.records == [] &&
            Drain(b + more, off) == Drain(kept + more, off + |b| - |kept|)
  {
    hide *;
    var k := SkipToClassad(b, 0);
    var j := if k == |b| && SplitOpener(b, more) then |b| - 1 else k;
    DrainMiss(b, k, off);
    SkipExtended(b, more);
    assert (b + more)[j..] == b[j..] + more;
    DrainFrom(b + more, j, off);
    KeptIs(b, k, more);
  }

  lemma DrainMiss(b: string, k: nat, off: nat)
    requires b != "" && k == SkipToClassad(b, 0) && NextRecord(b, 0, map[]).Miss?
    ensures Drain(b, off) == Reading([], b[k..])
  {
    hide Record;
  }

  lemma KeptIs(b: string, k: nat, more: string)
    requires k <= |b| && b != ""
    ensures Kept(b, b[k..], more) == b[if k == |b| && SplitOpener(b, more) then |b| - 1 else k..]
  {
    hide Opener;
  }

  /** The inner loop on an extended buffer. The bytes to come change nothing about what is
      delivered from the old buffer, and reading goes on with what was kept - unless the
      buffer ended in the '<' of an opener that was dropped. */
  lemma {:induction false} DrainExtended(b: string, more: string, off: nat)
    ensures var r := Drain(b, off);
            var kept := Kept(b, r.rest, more);
            |kept| <= |b| &&
            Drain(b + more, off) == Prepend(r.records, Drain(kept + more, off + |b| - |kept|))
    decreases |b|
  {
    hide *;
    var r := Drain(b, off);
    if b == "" {
      NoSplitInNothing(more);
      KeptCases(b, "", more);
      DrainNothing(off);
      assert b + more == more;
      PrependNothing(Drain(more, off));
    } else if NextRecord(b, 0, map[]).Hit? {
      var f := NextRecord(b, 0, map[]);
      var tail, d := b[f.stop..], Delivery(off + f.start, off + f.stop, f.ad);
      var r' := Drain(tail, off + f.stop);
      var kept := Kept(tail, r'.rest, more);
      DrainExtended(tail, more, off + f.stop);
      HitTail(b, more);
      KeptSame(tail, b, r'.rest, more);
      HitExtended(b, more);
      assert (b + more)[f.stop..] == tail + more;
      DrainTurn(b, off);
      DrainTurn(b + more, off);
      PrependFirst(d, r');
      assert r.records == [d] + r'.records;
      PrependTwice([d], r'.records, Drain(kept + more, off + |b| - |kept|));
    } else {
      MissExtended(b, more, off);
      var kept := Kept(b, r.rest, more);
      PrependNothing(Drain(kept + more, off + |b| - |kept|));
    }
  }

  lemma KeptSame(b: string, b': string, rest: string, more: string)
    requires SplitOpener(b, more) == SplitOpener(b', more)
    ensures Kept(b, rest, more) == Kept(b', rest, more)
  {
    hide SplitOpener;
  }

  lemma NoSplitInNothing(more: string)
    ensures !SplitOpener("", more)
  {
  }

  lemma PrependNothing(r: Reading)
    ensures Prepend([], r) == r
  {
  }

  lemma PrependTwice(ds: seq<Delivery>, es: seq<Delivery>, r: Reading)
    ensures Prepend(ds, Prepend(es, r)) == Prepend(ds + es, r)
  {
    assert ds + (es + r.records) == (ds + es) + r.records;
  }

  /** Behind a record, the last byte of the buffer is a split '<' exactly if it was one before. */
  lemma HitTail(b: string, more: string)
    requires NextRecord(b, 0, map[]).Hit?
    ensures SplitOpener(b[NextRecord(b, 0, map[]).stop..], more) <==> SplitOpener(b, more)
  {
    HitEndsInMark(b);
    TailOpener(b, NextRecord(b, 0, map[]).stop, more);
    hide *;
  }

  lemma TailOpener(b: string, stop: nat, more: string)
    requires 0 < stop <= |b| && b[stop - 1] == '>'
    ensures SplitOpener(b[stop..], more) <==> SplitOpener(b, more)
  {
    hide Opener;
  }

  lemma HitEndsInMark(b: string)
    requires NextRecord(b, 0, map[]).Hit?
    ensures var stop := NextRecord(b, 0, map[]).stop; 0 < stop <= |b| && b[stop - 1] == '>'
  {
    hide *;
    var f := NextRecord(b, 0, map[]);
    HitIsThere(b);
    RecordEnd(b[f.start..], 0);
  }

  lemma HitIsThere(b: string)
    requires NextRecord(b, 0, map[]).Hit?
    ensures var f := NextRecord(b, 0, map[]);
            && f.start <= |b| && Record(b[f.start..], 0).Match? && f.stop == f.start + Record(b[f.start..], 0).stop
            && f.start + 7 <= f.stop <= |b|
  {
    hide Record;
    hide SkipToClassad;
    hide CommitAll;
  }

  // ----- Where records open -----

  /** A buffer that the inner loop leaves as it is: nothing, or an opener that no complete
      record starts. */
  predicate Drained(b: string) {
    b == "" || NextRecord(b, 0, map[]) == Miss(0)
  }

  lemma {:induction false} DrainLeavesDrained(b: string, off: nat)
    ensures Drained(Drain(b, off).rest)
    decreases |b|
  {
    hide *;
    if b == "" {
      DrainNothing(off);
      EmptyIsDrained();
    } else {
      var f := NextRecord(b, 0, map[]);
      DrainTurn(b, off);
      if f.Hit? {
        PrependFirst(Delivery(off + f.start, off + f.stop, f.ad), Drain(b[f.stop..], off + f.stop));
        DrainLeavesDrained(b[f.stop..], off + f.stop);
      } else {
        MissIsDrained(b);
      }
    }
  }

  lemma EmptyIsDrained()
    ensures Drained("")
  {
  }

  lemma MissIsDrained(b: string)
    requires NextRecord(b, 0, map[]).Miss?
    ensures Drained(b[NextRecord(b, 0, map[]).start..])
  {
    hide Record;
    var k := NextRecord(b, 0, map[]).start;
    assert SkipToClassad(b, 0) == k;
    SkipTo(b, 0, k);
    NextFrom(b, k);
  }

  /** One turn of the inner loop. */
  lemma DrainTurn(b: string, off: nat)
    requires b != ""
    ensures var f := NextRecord(b, 0, map[]);
            if f.Hit? then Drain(b, off) == Prepend([Delivery(off + f.start, off + f.stop, f.ad)],
                                                    Drain(b[f.stop..], off + f.stop))
            else Drain(b, off) == Reading([], b[f.start..])
  {
    hide NextRecord;
  }

  lemma NextOpens(b: string)
    ensures var k := NextRecord(b, 0, map[]).start;
            (k < |b| ==> k + 2 <= |b| && IsAt(b, k, "<c")) && (b == "" ==> NextRecord(b, 0, map[]).Miss?)
  {
    hide Record;
  }

  lemma IsAtInTail(s: string, i: nat, j: nat, w: string)
    requires i <= j <= |s| && IsAt(s[i..], j - i, w)
    ensures IsAt(s, j, w)
  {
    assert s[i..][j - i..j - i + |w|] == s[j..j + |w|];
  }

  /** The first place where a drained buffer opens a record; the other places lie behind it. */
  lemma OpensFirst(b: string, off: nat, x: int)
    requires OpensRecord(Drain(b, off), off + |b|, x)
    ensures b != ""
    ensures var f := NextRecord(b, 0, map[]);
            (x == off + f.start && f.start < |b|) ||
            (f.Hit? && OpensRecord(Drain(b[f.stop..], off + f.stop), off + |b|, x))
  {
    hide *;
    if b == "" {
      DrainNothing(off);
      OpensRest("", off, off + |b|, x);
    } else {
      DrainTurn(b, off);
      var f := NextRecord(b, 0, map[]);
      if f.Miss? {
        OpensRest(b[f.start..], off + f.start, off + |b|, x);
      } else if x != off + f.start {
        OpensTail([Delivery(off + f.start, off + f.stop, f.ad)], Drain(b[f.stop..], off + f.stop), off + |b|, x);
      }
    }
  }

  lemma DrainNothing(off: nat)
    ensures Drain("", off) == Reading([], "")
  {
  }

  lemma OpensRest(rest: string, at: nat, end: nat, x: int)
    requires OpensRecord(Reading([], rest), end, x) && end == at + |rest|
    ensures x == at && rest != ""
  {
  }

  /** The records of a drained buffer lie inside it, and each opens with "<c". */
  lemma {:induction false} DrainOpens(b: string, off: nat, x: int)
    requires OpensRecord(Drain(b, off), off + |b|, x)
    ensures off <= x && x + 2 <= off + |b| && IsAt(b, x - off, "<c")
    decreases |b|
  {
    hide *;
    OpensFirst(b, off, x);
    var f := NextRecord(b, 0, map[]);
    NextOpens(b);
    if x != off + f.start {
      DrainOpens(b[f.stop..], off + f.stop, x);
      IsAtInTail(b, f.stop, x - off, "<c");
    }
  }

  /** A record that is not among the first ones is among the later ones. */
  lemma OpensTail(ds: seq<Delivery>, r: Reading, end: nat, x: int)
    requires forall i | 0 <= i < |ds| :: ds[i].start != x
    ensures OpensRecord(Prepend(ds, r), end, x) <==> OpensRecord(r, end, x)
  {
    var all := ds + r.records;
    if i :| 0 <= i < |all| && all[i].start == x {
      assert r.records[i - |ds|].start == x;
    }
    if i :| 0 <= i < |r.records| && r.records[i].start == x {
      assert all[i + |ds|].start == x;
    }
  }

  /** The records lie between lo and hi, and each is at least seven bytes long. */
  predicate Within(ds: seq<Delivery>, lo: nat, hi: nat) {
    forall i | 0 <= i < |ds| :: lo <= ds[i].start && ds[i].start + 7 <= ds[i].stop <= hi
  }

  lemma {:induction false} DrainSpans(b: string, off: nat)
    ensures Within(Drain(b, off).records, off, off + |b|)
    decreases |b|
  {
    hide *;
    if b == "" {
      DrainNothing(off);
      WithinOneMore([], off, off + |b|);
    } else {
      var f := NextRecord(b, 0, map[]);
      DrainTurn(b, off);
      if f.Hit? {
        var d, r := Delivery(off + f.start, off + f.stop, f.ad), Drain(b[f.stop..], off + f.stop);
        DrainSpans(b[f.stop..], off + f.stop);
        PrependFirst(d, r);
        WithinPrepended(d, r.records, Drain(b, off).records, off, off + f.stop, off + |b|);
      } else {
        WithinOneMore([], off, off + |b|);
      }
    }
  }

  lemma WithinOneMore(ds: seq<Delivery>, lo: nat, hi: nat)
    requires ds == []
    ensures Within(ds, lo, hi)
  {
  }

  lemma WithinPrepended(d: Delivery, ds: seq<Delivery>, all: seq<Delivery>, lo: nat, mid: nat, hi: nat)
    requires Within(ds, mid, hi) && lo <= d.start && d.start + 7 <= d.stop <= mid <= hi
    requires |all| == 1 + |ds| && all[0] == d && (forall i | 0 <= i < |ds| :: all[i + 1] == ds[i])
    ensures Within(all, lo, hi)
  {
    forall i | 0 <= i < |all|
      ensures lo <= all[i].start && all[i].start + 7 <= all[i].stop <= hi
    {
      if i > 0 {
        assert all[i] == ds[i - 1];
      }
    }
  }

  /** Records that lie before x do not open at x. */
  lemma OpensBehind(ds: seq<Delivery>, lo: nat, hi: nat, r: Reading, end: nat, x: int)
    requires Within(ds, lo, hi) && hi < x + 7
    ensures OpensRecord(Prepend(ds, r), end, x) <==> OpensRecord(r, end, x)
  {
    hide OpensRecord;
    hide Prepend;
    OpensTail(ds, r, end, x);
  }

  /** Extending a drained buffer opens records at its very start or behind its end only. */
  lemma DrainedExtended(rest: string, more: string, off: nat, x: int)
    requires Drained(rest)
    requires OpensRecord(Drain(rest + more, off), off + |rest| + |more|, x)
    ensures (rest != "" && x == off) || x >= off + |rest|
  {
    hide *;
    var b := rest + more;
    DrainOpens(b, off, x);
    if rest != "" && x != off {
      OpensFirst(b, off, x);
      DrainedStart(rest, more);
      var f := NextRecord(b, 0, map[]);
      if x != off + f.start {
        DrainOpens(b[f.stop..], off + f.stop, x);
      }
    }
  }

  /** A record that a drained buffer starts can only end in the bytes to come. */
  lemma DrainedStop(rest: string, more: string)
    requires rest != "" && Drained(rest)
    ensures var f := NextRecord(rest + more, 0, map[]); f.Hit? && f.start == 0 ==> f.stop > |rest|
  {
    assert rest[0..] == rest && (rest + more)[0..] == rest + more;
    RecordExtension(rest, more, 0);
  }

  lemma DrainedStart(rest: string, more: string)
    requires rest != "" && Drained(rest)
    ensures var f := NextRecord(rest + more, 0, map[]);
            (f.start == 0 || f.start >= |rest|) && (f.Hit? ==> f.stop > |rest|)
  {
    DrainedStop(rest, more);
    hide Record;
    var b := rest + more;
    var k := SkipToClassad(b, 0);
    assert Opener(rest, 0);
    if k != 0 {
      assert !Opener(b, 0);
      OpenerExtended(rest, more, 0);
      assert rest == "<c" && b[1] == 'c';
      if k == 1 {
        IsAtChar(b, 1, "<c", 0);
      }
    }
  }

  /** A dropped '<' is seen by whoever reads the whole stream at once. */
  lemma SplitOpens(more: string, off: nat)
    requires Opener("<" + more, 0)
    ensures OpensRecord(Drain("<" + more, off), off + 1 + |more|, off)
  {
    hide Record;
    hide CommitAll;
    var b := "<" + more;
    var f := NextRecord(b, 0, map[]);
    assert SkipToClassad(b, 0) == 0;
    if f.Hit? {
      assert Drain(b, off).records[0] == Delivery(off, off + f.stop, f.ad);
    } else {
      assert b[0..] == b;
    }
  }

  /** Reading byte for byte the same stream, whole or in chunks, opens nothing before it. */
  lemma {:induction false} RunOpens(buffer: string, off: nat, chunks: seq<string>, x: int)
    requires OpensRecord(Run(buffer, off, chunks), off + |buffer| + |Flatten(chunks)|, x)
    ensures off <= x
    ensures |Run(buffer, off, chunks).rest| <= |buffer| + |Flatten(chunks)|
    decreases |chunks|
  {
    hide Drain;
    if chunks != [] {
      var b := buffer + chunks[0];
      var r := Drain(b, off);
      var off' := off + |b| - |r.rest|;
      var end := off + |buffer| + |Flatten(chunks)|;
      var r' := Run(r.rest, off', chunks[1..]);
      DrainSpans(b, off);
      RunRest(r.rest, off', chunks[1..]);
      if x < off {
        OpensBefore(r.records, off, off + |b|, r', end, x);
        RunOpens(r.rest, off', chunks[1..], x);
      }
    }
  }

  lemma OpensBefore(ds: seq<Delivery>, lo: nat, hi: nat, r: Reading, end: nat, x: int)
    requires Within(ds, lo, hi) && x < lo && OpensRecord(Prepend(ds, r), end, x)
    ensures OpensRecord(r, end, x)
  {
    hide OpensRecord;
    hide Prepend;
    OpensTail(ds, r, end, x);
  }

  lemma {:induction false} RunRest(buffer: string, off: nat, chunks: seq<string>)
    ensures |Run(buffer, off, chunks).rest| <= |buffer| + |Flatten(chunks)|
    decreases |chunks|
  {
    hide Drain;
    if chunks != [] {
      var b := buffer + chunks[0];
      var r := Drain(b, off);
      RunRest(r.rest, off + |b| - |r.rest|, chunks[1..]);
    }
  }

  // ----- Chunk independence -----

  /** One read: the whole stream opens a record at the last byte of the old buffer exactly if
      that byte was a split '<'. */
  lemma OpensAtCut(b: string, more: string, off: nat)
    ensures OpensRecord(Drain(b + more, off), off + |b + more|, off + |b| - 1)
            <==> Drain(b, off).rest == "" && SplitOpener(b, more)
  {
    hide *;
    var x := off + |b| - 1;
    if b == "" {
      NoSplitInNothing(more);
      if OpensRecord(Drain(b + more, off), off + |b + more|, x) {
        DrainOpens(b + more, off, x);
      }
    } else if Drain(b, off).rest == "" && SplitOpener(b, more) {
      OpensAtSplit(b, more, off);
    } else if OpensRecord(Drain(b + more, off), off + |b + more|, x) {
      OpensNotAtCut(b, more, off);
    }
  }

  lemma OpensAtSplit(b: string, more: string, off: nat)
    requires b != "" && Drain(b, off).rest == "" && SplitOpener(b, more)
    ensures OpensRecord(Drain(b + more, off), off + |b + more|, off + |b| - 1)
  {
    hide *;
    var r, x, end := Drain(b, off), off + |b| - 1, off + |b + more|;
    DrainExtended(b, more, off);
    KeptCases(b, r.rest, more);
    DrainSpans(b, off);
    SplitOpens(more, x);
    OpensBehind(r.records, off, off + |b|, Drain("<" + more, x), end, x);
  }

  lemma OpensNotAtCut(b: string, more: string, off: nat)
    requires b != "" && !(Drain(b, off).rest == "" && SplitOpener(b, more))
    ensures !OpensRecord(Drain(b + more, off), off + |b + more|, off + |b| - 1)
  {
    hide *;
    var r, x, end := Drain(b, off), off + |b| - 1, off + |b + more|;
    var off' := off + |b| - |r.rest|;
    var w := Drain(r.rest + more, off');
    DrainExtended(b, more, off);
    KeptCases(b, r.rest, more);
    DrainSpans(b, off);
    OpensBehind(r.records, off, off + |b|, w, end, x);
    DrainLeavesDrained(b, off);
    NotOneByte(b, off);
    if OpensRecord(w, end, x) {
      DrainedExtended(r.rest, more, off', x);
    }
  }

  lemma KeptCases(b: string, rest: string, more: string)
    ensures Kept(b, rest, more) == if rest == "" && SplitOpener(b, more) then "<" else rest
    ensures SplitOpener(b, more) ==> Opener("<" + more, 0)
  {
  }

  lemma NotOneByte(b: string, off: nat)
    ensures |Drain(b, off).rest| != 1
  {
    DrainLeavesDrained(b, off);
    NextOpens(Drain(b, off).rest);
  }

  /** Cutting the stream at later places is about the later records only. */
  lemma {:induction false} CutsTail(ds: seq<Delivery>, r: Reading, end: nat, p: nat, chunks: seq<string>)
    requires exists lo: nat, hi: nat :: Within(ds, lo, hi) && hi <= p
    ensures CutsOpening(Prepend(ds, r), end, p, chunks) <==> CutsOpening(r, end, p, chunks)
    decreases |chunks|
  {
    hide OpensRecord;
    hide Prepend;
    hide Within;
    if chunks != [] {
      var lo: nat, hi: nat :| Within(ds, lo, hi) && hi <= p;
      OpensBehind(ds, lo, hi, r, end, p + |chunks[0]| - 1);
      CutsTail(ds, r, end, p + |chunks[0]|, chunks[1..]);
    }
  }

  lemma PrependCancels(ds: seq<Delivery>, r: Reading, w: Reading)
    ensures Prepend(ds, r) == Prepend(ds, w) <==> r == w
  {
    if Prepend(ds, r) == Prepend(ds, w) {
      assert (ds + r.records)[|ds|..] == r.records;
      assert (ds + w.records)[|ds|..] == w.records;
    }
  }

  lemma DrainedStays(b: string, off: nat)
    requires Drained(b)
    ensures Drain(b, off) == Reading([], b)
  {
    hide NextRecord;
  }

  /** After a read that loses a split '<', the loop never opens that record. */
  lemma LossIsFinal(b: string, off: nat, chunks: seq<string>)
    requires var r := Drain(b, off); r.rest == "" && SplitOpener(b, Flatten(chunks))
    ensures var more := Flatten(chunks);
            Prepend(Drain(b, off).records, Run("", off + |b|, chunks)) != Drain(b + more, off)
  {
    hide *;
    var r, more := Drain(b, off), Flatten(chunks);
    var x, end := off + |b| - 1, off + |b| + |more|;
    var later := Run("", off + |b|, chunks);
    OpensAtCut(b, more, off);
    DrainSpans(b, off);
    OpensBehind(r.records, off, off + |b|, later, end, x);
    if OpensRecord(later, end, x) {
      RunOpens("", off + |b|, chunks, x);
    }
  }

  /** The loop over the chunks agrees with one pass over everything that is still to come
      exactly if no chunk ends one byte behind the opening of a record. */
  lemma {:induction false} RunAgrees(buffer: string, off: nat, chunks: seq<string>)
    requires Drained(buffer)
    ensures var stream := buffer + Flatten(chunks);
            Run(buffer, off, chunks) == Drain(stream, off)
            <==> !CutsOpening(Drain(stream, off), off + |stream|, off + |buffer|, chunks)
    decreases |chunks|
  {
    hide Drain;
    hide OpensRecord;
    hide Prepend;
    hide Drained;
    if chunks == [] {
      assert buffer + Flatten(chunks) == buffer;
      DrainedStays(buffer, off);
    } else {
      var b, more, later := buffer + chunks[0], Flatten(chunks[1..]), chunks[1..];
      assert buffer + Flatten(chunks) == b + more;
      var r, whole, end := Drain(b, off), Drain(b + more, off), off + |b| + |more|;
      var off' := off + |b| - |r.rest|;
      OpensAtCut(b, more, off);
      if r.rest == "" && SplitOpener(b, more) {
        LossIsFinal(b, off, later);
      } else {
        DrainLeavesDrained(b, off);
        RunAgrees(r.rest, off', later);
        DrainExtended(b, more, off);
        KeptCases(b, r.rest, more);
        DrainSpans(b, off);
        PrependCancels(r.records, Run(r.rest, off', later), Drain(r.rest + more, off'));
        CutsTail(r.records, Drain(r.rest + more, off'), end, off + |b|, later);
      }
    }
  }

  /** Some read ends one byte behind the opening of a record of the stream. */
  predicate Loses(chunks: seq<string>) {
    CutsOpening(Drain(Flatten(chunks), 0), |Flatten(chunks)|, 0, chunks)
  }

  /** Chunk independence: whatever way a stream is cut into reads, the records handed on, their
      spans and the bytes left in the buffer are those of one pass over the whole stream -
      exactly if no read ends one byte behind the opening of a record. */
  lemma ChunkIndependence(chunks: seq<string>)
    ensures Run("", 0, chunks) == Drain(Flatten(chunks), 0) <==> !Loses(chunks)
  {
    hide Run;
    hide Drain;
    hide CutsOpening;
    assert "" + Flatten(chunks) == Flatten(chunks);
    RunAgrees("", 0, chunks);
  }

  /** Some read ends in '<' and the next byte of the stream is 'c'. */
  predicate CutsMark(stream: string, p: nat, chunks: seq<string>)
    decreases |chunks|
  {
    chunks != [] &&
    ((0 < p + |chunks[0]| && IsAt(stream, p + |chunks[0]| - 1, "<c")) || CutsMark(stream, p + |chunks[0]|, chunks[1..]))
  }

  lemma {:induction false} CutsOpeningCutsMark(stream: string, p: nat, chunks: seq<string>)
    requires CutsOpening(Drain(stream, 0), |stream|, p, chunks)
    ensures CutsMark(stream, p, chunks)
    decreases |chunks|
  {
    hide Drain;
    hide OpensRecord;
    var x := p + |chunks[0]| - 1;
    if OpensRecord(Drain(stream, 0), |stream|, x) {
      DrainOpens(stream, 0, x);
    } else {
      CutsOpeningCutsMark(stream, p + |chunks[0]|, chunks[1..]);
    }
  }

  /** A condition that can be read off the bytes: no read ends in '<' before a 'c'. */
  lemma ChunkIndependenceByBytes(chunks: seq<string>)
    requires !CutsMark(Flatten(chunks), 0, chunks)
    ensures !Loses(chunks) && Run("", 0, chunks) == Drain(Flatten(chunks), 0)
  {
    hide Run;
    hide Drain;
    hide CutsOpening;
    ChunkIndependence(chunks);
    if Loses(chunks) {
      CutsOpeningCutsMark(Flatten(chunks), 0, chunks);
    }
  }

  /** Cut behind its first byte, a record is lost. */
  lemma SplitRecordIsLost()
    ensures Flatten(["<", "c></c>"]) == "<c></c>"
    ensures Drain("<c></c>", 0).records == [Delivery(0, 7, map[])]
    ensures Run("", 0, ["<", "c></c>"]) == Reading([], "")
  {
    hide *;
    FlattenTwo("<", "c></c>");
    assert "<" + "c></c>" == "<c></c>";
    WholeRecordIsRead("<c></c>");
    RunTwo("<", "c></c>");
  }

  lemma FlattenTwo(b: string, c: string)
    ensures Flatten([b, c]) == b + c
  {
    assert [b, c][1..] == [c] && [c][1..] == [];
    assert Flatten([c]) == c + Flatten([]);
  }

  lemma WholeRecordIsRead(whole: string)
    requires whole == "<c></c>"
    ensures Drain(whole, 0).records == [Delivery(0, 7, map[])]
  {
    EmptyRecordHere(whole);
    assert Opener(whole, 0);
    hide Record;
    hide Opener;
    assert whole[0..] == whole && whole[7..] == "";
    assert NextRecord(whole, 0, map[]) == Hit(0, 7, map[]);
    DrainTurn(whole, 0);
  }

  lemma RunTwo(b: string, c: string)
    requires b == "<" && c == "c></c>"
    ensures Run("", 0, [b, c]) == Reading([], "")
  {
    hide *;
    ReadNothing(b, 0);
    ReadNothing(c, 1);
    assert "" + b == b && "" + c == c;
    assert [b, c][1..] == [c] && [c][1..] == [];
    assert Run("", 1, [c]) == Reading([], "") by { RunOne(c, 1); }
    RunOneMore(b, c);
  }

  lemma ReadNothing(s: string, off: nat)
    requires s in {"<", "c></c>"}
    ensures Drain(s, off) == Reading([], "")
  {
    NothingFound(s);
    hide NextRecord;
    assert s[|s|..] == "";
  }

  lemma RunOne(c: string, off: nat)
    requires Drain(c, off) == Reading([], "")
    ensures Run("", off, [c]) == Reading([], "")
  {
    hide Drain;
    assert "" + c == c && [c][1..] == [];
  }

  lemma RunOneMore(b: string, c: string)
    requires Drain(b, 0) == Reading([], "") && Run("", |b|, [c]) == Reading([], "")
    ensures Run("", 0, [b, c]) == Reading([], "")
  {
    hide Drain;
    RunTurn("", 0, [b, c]);
    assert "" + b == b && [b, c][1..] == [c];
  }

  lemma EmptyRecordHere(s: string)
    requires s == "<c></c>"
    ensures Record(s, 0) == Match(7, [])
  {
    assert s[0..3] == "<c>" && s[3..7] == "</c>";
    assert Token(s, 0, "<c>") == Match(3, ());
    assert Token(s, 3, "</c>") == Match(7, ());
    AttributeNeedsOpening(s, 3, "</c>");
    assert Attributes(s, 3) == Match(3, []);
  }

  lemma NothingFound(s: string)
    requires s in {"<", "c></c>"}
    ensures NextRecord(s, 0, map[]) == Miss(|s|)
  {
    forall i: nat | i < |s| ensures !Opener(s, i) {
      if Opener(s, i) {
        IsAtChar(s, i, "<c", 0);
        IsAtChar(s, i, "<c", 1);
      }
    }
    NoOpenerIn(s);
  }

  // ----- Accounting for the bytes of the stream -----

  /** The deliveries are records of the stream, one behind the other between lo and hi: the
      bytes of each span parse on their own to exactly what was delivered. */
  ghost predicate SpansOf(stream: string, lo: nat, hi: nat, ds: seq<Delivery>)
    decreases |ds|
  {
    if ds == [] then lo <= hi
    else
      var d := ds[0];
      && lo <= d.start <= d.stop <= |stream|
      && IsRecordOf(stream[d.start..d.stop], d.ad)
      && SpansOf(stream, d.stop, hi, ds[1..])
  }

  /** The text is one whole record with the given meaning. */
  predicate IsRecordOf(s: string, ad: Ad) {
    var m := Record(s, 0);
    m.Match? && m.stop == |s| && ad == CommitAll(map[], m.value)
  }

  lemma HitIsRecord(b: string)
    requires NextRecord(b, 0, map[]).Hit?
    ensures var f := NextRecord(b, 0, map[]); IsRecordOf(b[f.start..f.stop], f.ad)
  {
    var f := NextRecord(b, 0, map[]);
    var s, n := b[f.start..], f.stop - f.start;
    assert Record(s, 0).Match? && Record(s, 0).stop == n && f.ad == CommitAll(map[], Record(s, 0).value);
    hide Record;
    hide CommitAll;
    assert s[..n] == b[f.start..f.stop];
    assert s[..n][..n] == s[..n];
    RecordLocal(s, s[..n], 0);
  }

  lemma {:induction false} SpansAppend(stream: string, lo: nat, mid: nat, hi: nat,
                                       ds: seq<Delivery>, es: seq<Delivery>)
    requires SpansOf(stream, lo, mid, ds) && SpansOf(stream, mid, hi, es)
    ensures SpansOf(stream, lo, hi, ds + es)
    decreases |ds|
  {
    hide IsRecordOf;
    if ds == [] {
      assert ds + es == es;
      SpansEarlier(stream, lo, mid, hi, es);
    } else {
      assert (ds + es)[1..] == ds[1..] + es;
      SpansAppend(stream, ds[0].stop, mid, hi, ds[1..], es);
    }
  }

  lemma SpansEarlier(stream: string, lo: nat, mid: nat, hi: nat, ds: seq<Delivery>)
    requires lo <= mid && SpansOf(stream, mid, hi, ds)
    ensures SpansOf(stream, lo, hi, ds)
  {
    hide IsRecordOf;
  }

  lemma {:induction false} DrainAccounts(stream: string, b: string, off: nat)
    requires off + |b| <= |stream| && stream[off..off + |b|] == b
    ensures var r := Drain(b, off);
            var hi := off + |b| - |r.rest|;
            SpansOf(stream, off, hi, r.records) && stream[hi..off + |b|] == r.rest
    decreases |b|
  {
    hide *;
    if b == "" {
      DrainNothing(off);
      NoSpans(stream, off, off);
    } else {
      var f := NextRecord(b, 0, map[]);
      DrainTurn(b, off);
      if f.Hit? {
        var tail := b[f.stop..];
        SliceOfSlice(stream, off, b, f.stop, |b|);
        SliceOfSlice(stream, off, b, f.start, f.stop);
        DrainAccounts(stream, tail, off + f.stop);
        HitIsRecord(b);
        var r, d := Drain(tail, off + f.stop), Delivery(off + f.start, off + f.stop, f.ad);
        PrependFirst(d, r);
        assert Drain(b, off).records == [d] + r.records;
        OneMoreSpan(stream, off, d, off + |b| - |r.rest|, r.records);
      } else {
        SliceOfSlice(stream, off, b, f.start, |b|);
        NoSpans(stream, off, off + f.start);
      }
    }
  }

  lemma SliceOfSlice(stream: string, off: nat, b: string, i: nat, j: nat)
    requires off + |b| <= |stream| && stream[off..off + |b|] == b && i <= j <= |b|
    ensures stream[off + i..off + j] == b[i..j]
  {
    forall k | 0 <= k < j - i ensures stream[off + i..off + j][k] == b[i..j][k] {
      assert stream[off..off + |b|][i + k] == b[i + k];
    }
  }

  lemma NoSpans(stream: string, lo: nat, hi: nat)
    requires lo <= hi
    ensures SpansOf(stream, lo, hi, [])
  {
  }

  lemma OneMoreSpan(stream: string, lo: nat, d: Delivery, hi: nat, ds: seq<Delivery>)
    requires lo <= d.start <= d.stop <= |stream| && IsRecordOf(stream[d.start..d.stop], d.ad)
    requires SpansOf(stream, d.stop, hi, ds)
    ensures SpansOf(stream, lo, hi, [d] + ds)
  {
    hide IsRecordOf;
    assert ([d] + ds)[1..] == ds;
  }

  /** However the stream is cut: what is delivered are whole records of the stream, in order and
      without overlap, and the buffer holds the end of the stream, with no complete record in
      front of it. */
  lemma {:induction false} RunAccounts(stream: string, buffer: string, off: nat, chunks: seq<string>)
    requires Drained(buffer)
    requires off <= |stream| && stream[off..] == buffer + Flatten(chunks)
    ensures var r := Run(buffer, off, chunks);
            |r.rest| <= |stream| && SpansOf(stream, off, |stream| - |r.rest|, r.records) &&
            stream[|stream| - |r.rest|..] == r.rest && Drained(r.rest)
    decreases |chunks|
  {
    hide Drain;
    hide Drained;
    hide SpansOf;
    if chunks == [] {
      assert stream[off..] == buffer;
      NoSpans(stream, off, off);
    } else {
      var b, more := buffer + chunks[0], Flatten(chunks[1..]);
      assert stream[off..] == b + more;
      assert stream[off..off + |b|] == b;
      var r := Drain(b, off);
      var off' := off + |b| - |r.rest|;
      DrainAccounts(stream, b, off);
      DrainLeavesDrained(b, off);
      assert stream[off'..] == r.rest + more;
      RunAccounts(stream, r.rest, off', chunks[1..]);
      var r' := Run(r.rest, off', chunks[1..]);
      SpansAppend(stream, off, off', |stream| - |r'.rest|, r.records, r'.records);
    }
  }

  /** A whole pass overlooks nothing: every opener in front of the rest belongs to a span. */
  lemma {:induction false} DrainComplete(b: string, off: nat, x: nat)
    requires x + |Drain(b, off).rest| < |b| && Opener(b, x)
    ensures exists i :: 0 <= i < |Drain(b, off).records| &&
              var d := Drain(b, off).records[i]; d.start <= off + x < d.stop
    decreases |b|
  {
    hide *;
    var f := NextRecord(b, 0, map[]);
    var r := Drain(b, off);
    OpenerInside(b, x);
    DrainTurn(b, off);
    if f.Miss? {
      assert false;
    } else if x < f.stop {
      assert r.records[0] == Delivery(off + f.start, off + f.stop, f.ad) by {
        PrependFirst(Delivery(off + f.start, off + f.stop, f.ad), Drain(b[f.stop..], off + f.stop));
      }
    } else {
      var r' := Drain(b[f.stop..], off + f.stop);
      PrependFirst(Delivery(off + f.start, off + f.stop, f.ad), r');
      OpenerInTail(b, f.stop, x);
      DrainComplete(b[f.stop..], off + f.stop, x - f.stop);
      var i :| 0 <= i < |r'.records| && r'.records[i].start <= off + x < r'.records[i].stop;
      assert r.records[i + 1] == r'.records[i];
    }
  }

  lemma OpenerInside(b: string, x: nat)
    requires Opener(b, x)
    ensures x < |b| && NextRecord(b, 0, map[]).start <= x
  {
    hide Record;
    hide CommitAll;
  }

  lemma PrependFirst(d: Delivery, r: Reading)
    ensures Prepend([d], r).rest == r.rest
    ensures |Prepend([d], r).records| == 1 + |r.records| && Prepend([d], r).records[0] == d
    ensures forall i | 0 <= i < |r.records| :: Prepend([d], r).records[i + 1] == r.records[i]
  {
  }

  // ----- Reading what Condor writes -----

  /** A record in a log: its attributes, the white space in front of its end, and some text behind it that opens no
      record. */
  datatype LogRecord = LogRecord(fields: seq<Field>, end: string, gap: string)

  function PrintLog(records: seq<LogRecord>): string {
    if records == [] then ""
    else PrintRecord(records[0].fields, records[0].end) + (records[0].gap + PrintLog(records[1..]))
  }

  ghost predicate RecordPrintable(r: LogRecord) {
    AllPrintable(r.fields) && (forall c | c in r.end :: IsSpace(c)) && NoOpener(r.gap)
  }

  ghost predicate LogPrintable(records: seq<LogRecord>) {
    forall r | r in records :: RecordPrintable(r)
  }

  function AdsOf(records: seq<LogRecord>): seq<Ad> {
    if records == [] then [] else [AdOf(records[0].fields)] + AdsOf(records[1..])
  }

  /** What process_log_entry is called with. */
  function Handed(ds: seq<Delivery>): seq<Ad> {
    if ds == [] then [] else [ds[0].ad] + Handed(ds[1..])
  }

  lemma {:induction false} HandedConcat(ds: seq<Delivery>, es: seq<Delivery>)
    ensures Handed(ds + es) == Handed(ds) + Handed(es)
  {
    if ds == [] {
      assert ds + es == es;
    } else {
      assert (ds + es)[1..] == ds[1..] + es;
      HandedConcat(ds[1..], es);
    }
  }

  /** Text without an opener in front of the log is skipped and changes nothing else. */
  lemma {:induction false} LogIsRead(front: string, records: seq<LogRecord>, off: nat)
    requires NoOpener(front) && LogPrintable(records)
    ensures var r := Drain(front + PrintLog(records), off);
            Handed(r.records) == AdsOf(records) && r.rest == ""
    decreases |records|
  {
    hide NextRecord;
    hide PrintRecord;
    hide AllPrintable;
    hide NoOpener;
    var s := front + PrintLog(records);
    if records == [] {
      assert s == front;
      NoOpenerIn(front);
      if s != "" {
        DrainTurn(s, off);
      }
    } else {
      var r := records[0];
      assert RecordPrintable(r);
      var text, more := PrintRecord(r.fields, r.end), r.gap + PrintLog(records[1..]);
      assert s == front + text + more;
      RecordIsFound(front, r.fields, r.end, more);
      var f := NextRecord(s, 0, map[]);
      NotNothing(s);
      DrainTurn(s, off);
      assert s[f.stop..] == more;
      LogIsRead(r.gap, records[1..], off + f.stop);
      HandedConcat([Delivery(off + f.start, off + f.stop, f.ad)], Drain(more, off + f.stop).records);
    }
  }

  lemma NotNothing(s: string)
    requires NextRecord(s, 0, map[]).Hit?
    ensures s != ""
  {
    NextOpens(s);
  }

  lemma NoOpenerIn(s: string)
    requires NoOpener(s)
    ensures NextRecord(s, 0, map[]) == Miss(|s|)
  {
    SkipTo(s, 0, |s|);
    assert s[|s|..] == "";
    EmptyBuffer();
  }

  /** The whole way from the printed log through any reads to the records handed on: in front of the records and
      between them may be any text in which every "<c" has a letter or digit behind it. */
  lemma LogRoundTrip(front: string, records: seq<LogRecord>, chunks: seq<string>)
    requires forall k: nat | k + 1 < |front| && front[k] == '<' && front[k + 1] == 'c' ::
               k + 2 < |front| && var c := front[k + 2]; '0' <= c <= '9' || 'a' <= c <= 'z' || 'A' <= c <= 'Z'
    requires forall r | r in records ::
               && AllPrintable(r.fields)
               && (forall c | c in r.end :: c in {' ', '\t', '\n', '\U{000B}', '\U{000C}', '\r'})
               && (forall k: nat | k + 1 < |r.gap| && r.gap[k] == '<' && r.gap[k + 1] == 'c' ::
                     k + 2 < |r.gap| && var c := r.gap[k + 2]; '0' <= c <= '9' || 'a' <= c <= 'z' || 'A' <= c <= 'Z')
    requires Flatten(chunks) == front + PrintLog(records)
    requires !Loses(chunks)
    ensures var r := Run("", 0, chunks);
            Handed(r.records) == AdsOf(records) && r.rest == ""
  {
    PassedOver(front);
    hide *;
    forall r | r in records ensures RecordPrintable(r) {
      PrintableIf(r);
    }
    LogPrintableIf(records);
    ChunkIndependence(chunks);
    LogIsRead(front, records, 0);
  }

  lemma PrintableIf(r: LogRecord)
    requires AllPrintable(r.fields)
    requires forall c | c in r.end :: c in {' ', '\t', '\n', '\U{000B}', '\U{000C}', '\r'}
    requires forall k: nat | k + 1 < |r.gap| && r.gap[k] == '<' && r.gap[k + 1] == 'c' ::
               k + 2 < |r.gap| && var c := r.gap[k + 2]; '0' <= c <= '9' || 'a' <= c <= 'z' || 'A' <= c <= 'Z'
    ensures RecordPrintable(r)
  {
    PassedOver(r.gap);
    hide NoOpener;
    hide AllPrintable;
    forall c | c in r.end ensures IsSpace(c) {
      SpaceIs(c);
    }
  }

  lemma LogPrintableIf(records: seq<LogRecord>)
    requires forall r | r in records :: RecordPrintable(r)
    ensures LogPrintable(records)
  {
    hide RecordPrintable;
  }

  /** The frame that condor_q -xml puts around jobs is passed over. */
  lemma FrameIsPassedOver(fields: seq<Field>, space: string)
    requires AllPrintable(fields) && (forall c | c in space :: c in {' ', '\t', '\n', '\U{000B}', '\U{000C}', '\r'})
    ensures NextRecord("<classads>" + PrintRecord(fields, space) + "</classads>", 0, map[])
            == Hit(10, 10 + |PrintRecord(fields, space)|, AdOf(fields))
  {
    hide PrintRecord;
    hide NextRecord;
    hide AdOf;
    hide AllPrintable;
    RecordRoundTrip("<classads>", fields, space, "</classads>");
  }

  lemma EmptyJobIsFound()
    ensures NextRecord("<classads>" + "<c></c>" + "</classads>", 0, map[]) == Hit(10, 17, map[])
  {
    EmptyRecordIs();
    hide *;
    NothingMeant();
    FrameIsPassedOver([], "");
  }

  lemma NothingMeant()
    ensures AllPrintable([]) && AdOf([]) == map[]
  {
  }

  lemma EmptyRecordIs()
    ensures PrintRecord([], "") == "<c></c>"
  {
    assert PrintFields([]) == "";
    hide PrintFields;
    assert "<c>" + ("" + ("" + "</c>")) == "<c></c>";
  }

  /** One relative time or error value stops the log for good: whatever follows, nothing behind
      the opening of its record is ever handed on, and the bytes are kept. */
  lemma UnreadableRecordBlocks(gap: string, fields: seq<Field>, space: string, key: string, tag: string,
                               rest: string, off: nat)
    requires AllPrintable(fields) && (forall c | c in space :: IsSpace(c)) && NoOpener(gap)
    requires Trimmed(key) && tag in {"rt", "er"}
    ensures var r := "<c>" + (PrintFields(fields) + (space + (UnreadableField(key, tag) + rest)));
            Drain(gap + r, off) == Reading([], r)
  {
    hide PrintFields;
    hide UnreadableField;
    hide Drain;
    var r := "<c>" + (PrintFields(fields) + (space + (UnreadableField(key, tag) + rest)));
    var s := gap + r;
    UnreadableRecord(fields, space, key, tag, rest);
    assert s[|gap|..] == r;
    assert "<c>" <= r;
    SkipJunk(gap, r);
    hide Record;
    NextIsFound(s, |gap|);
    DrainTurn(s, off);
  }

  // ----- The loop -----

  const MAX_WAIT_FOR_RETRY := 5

  class LogProcessor {
    /** The thread function, on the reads that the log file yields one after the other until the
        thread is interrupted; an empty read means that nothing was there yet. It hands on the
        records in order, and data holds the bytes it keeps. The counter that is to force an
        incomplete record out of the way never leaves zero. */
    method ReadLog(chunks: seq<string>) returns (handed: seq<Ad>, data: string, waitedForRetry: int)
      ensures handed == Handed(Run("", 0, chunks).records)
      ensures data == Run("", 0, chunks).rest
      ensures waitedForRetry == 0
    {
      hide Drain;
      hide Run;
      hide Handed;
      hide Drained;
      EmptyIsDrained();
      NothingHanded();
      handed, data, waitedForRetry := [], "", 0;
      var next := 0;
      ghost var off: nat := 0;
      while next < |chunks|
        invariant 0 <= next <= |chunks| && waitedForRetry == 0
        invariant Drained(data)
        invariant Handed(Run("", 0, chunks).records) == handed + Handed(Run(data, off, chunks[next..]).records)
        invariant Run("", 0, chunks).rest == Run(data, off, chunks[next..]).rest
      {
        assert chunks[next..][0] == chunks[next];
        if |chunks[next]| == 0 {
          // Nothing to read yet: sleep.
          if waitedForRetry != 0 {
            // Where the wait was to be counted, up to MAX_WAIT_FOR_RETRY.
            assert false;
          }
          EmptyReadChangesNothing(data, off, chunks[next..]);
          next := next + 1;
        } else {
          ghost var buffer, later := data + chunks[next], chunks[next + 1..];
          var records, rest, waited := DrainBuffer(data + chunks[next], waitedForRetry, off);
          ReadTurn(data, off, chunks[next..], handed);
          assert chunks[next..][1..] == later;
          DrainLeavesDrained(buffer, off);
          off := off + |buffer| - |rest|;
          handed, data, waitedForRetry := handed + records, rest, waited;
          next := next + 1;
        }
      }
      assert chunks[next..] == [];
      RunNothing(data, off);
    }

    /** The inner loop. */
    method DrainBuffer(buffer: string, waitedIn: int, ghost off: nat)
      returns (handed: seq<Ad>, data: string, waitedForRetry: int)
      requires waitedIn == 0
      ensures handed == Handed(Drain(buffer, off).records)
      ensures data == Drain(buffer, off).rest && |data| <= |buffer|
      ensures waitedForRetry == 0
    {
      hide NextRecord;
      hide Drain;
      hide Handed;
      handed, data, waitedForRetry := [], buffer, waitedIn;
      NothingHanded();
      ghost var at: nat := off;
      ghost var goal := Drain(buffer, off);
      while data != ""
        invariant waitedForRetry == 0 && |data| <= |buffer|
        invariant Handed(goal.records) == handed + Handed(Drain(data, at).records)
        invariant goal.rest == Drain(data, at).rest
        decreases |data|
      {
        if waitedForRetry > MAX_WAIT_FOR_RETRY {
          // Where an incomplete record was to be skipped by its first byte.
          assert false;
        }
        var c := new ClassAd();
        var hit, iter := c.FindAndParse(data, 0);
        ghost var before := data;
        data := data[iter..];
        if hit {
          waitedForRetry := 0;
          BufferTurn(before, at, handed);
          handed := handed + [c.attributes];
          at := at + iter;
        } else if data == "" {
          waitedForRetry := 0;
          BufferEnds(before, at);
          DrainNothing(at);
        } else {
          // An incomplete record: get more input.
          BufferEnds(before, at);
          return;
        }
      }
      DrainNothing(at);
    }
  }

  /** What one turn of the inner loop adds to what has been handed on. */
  lemma BufferTurn(b: string, at: nat, handed: seq<Ad>)
    requires NextRecord(b, 0, map[]).Hit?
    ensures var f := NextRecord(b, 0, map[]);
            var r := Drain(b[f.stop..], at + f.stop);
            Drain(b, at).rest == r.rest && 0 < f.stop &&
            handed + Handed(Drain(b, at).records) == (handed + [f.ad]) + Handed(r.records)
  {
    hide *;
    var f := NextRecord(b, 0, map[]);
    var d, r := Delivery(at + f.start, at + f.stop, f.ad), Drain(b[f.stop..], at + f.stop);
    NotNothing(b);
    NextAdvances(b);
    DrainTurn(b, at);
    PrependFirst(d, r);
    assert Drain(b, at).records == [d] + r.records;
    HandedConcat([d], r.records);
    HandedOne(d);
    assert handed + ([f.ad] + Handed(r.records)) == (handed + [f.ad]) + Handed(r.records);
  }

  lemma HandedOne(d: Delivery)
    ensures Handed([d]) == [d.ad]
  {
  }

  lemma BufferEnds(b: string, at: nat)
    requires b != "" && NextRecord(b, 0, map[]).Miss?
    ensures Drain(b, at) == Reading([], b[NextRecord(b, 0, map[]).start..]) && Handed([]) == []
  {
    hide NextRecord;
  }

  lemma NothingHanded()
    ensures Handed([]) == []
  {
  }

  lemma RunNothing(buffer: string, off: nat)
    ensures Run(buffer, off, []) == Reading([], buffer)
    ensures Handed([]) == []
  {
  }

  /** What one turn of the outer loop adds to what has been handed on. */
  lemma ReadTurn(buffer: string, off: nat, chunks: seq<string>, handed: seq<Ad>)
    requires chunks != []
    ensures var b := buffer + chunks[0];
            var r := Drain(b, off);
            var r' := Run(r.rest, off + |b| - |r.rest|, chunks[1..]);
            Run(buffer, off, chunks).rest == r'.rest &&
            handed + Handed(Run(buffer, off, chunks).records) == (handed + Handed(r.records)) + Handed(r'.records)
  {
    hide Drain;
    hide Handed;
    var b := buffer + chunks[0];
    var r := Drain(b, off);
    var r' := Run(r.rest, off + |b| - |r.rest|, chunks[1..]);
    RunTurn(buffer, off, chunks);
    HandedConcat(r.records, r'.records);
    assert handed + (Handed(r.records) + Handed(r'.records)) == (handed + Handed(r.records)) + Handed(r'.records);
  }

  lemma NextAdvances(b: string)
    requires NextRecord(b, 0, map[]).Hit?
    ensures 0 < NextRecord(b, 0, map[]).stop
  {
    hide Record;
  }

  lemma RunTurn(buffer: string, off: nat, chunks: seq<string>)
    requires chunks != []
    ensures var b := buffer + chunks[0];
            var r := Drain(b, off);
            Run(buffer, off, chunks) == Prepend(r.records, Run(r.rest, off + |b| - |r.rest|, chunks[1..]))
  {
    hide Drain;
  }

  lemma EmptyReadChangesNothing(buffer: string, off: nat, chunks: seq<string>)
    requires Drained(buffer) && chunks != [] && chunks[0] == ""
    ensures Run(buffer, off, chunks) == Run(buffer, off, chunks[1..])
  {
    hide Drain;
    hide Drained;
    assert buffer + chunks[0] == buffer;
    DrainedStays(buffer, off);
    PrependNothing(Run(buffer, off, chunks[1..]));
  }
}
