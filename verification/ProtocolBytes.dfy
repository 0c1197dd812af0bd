/** The protocol down to the bytes of the log file: Condor prints records to it, the log thread reads the
    file in pieces, and the entries that it takes are the records that its reader has handed on. */
module ProtocolBytes {
  import opened Text
  import opened Grammar
  import opened ClassAds
  import opened RecordPrinter
  import opened LogReader
  import opened Events
  import opened Protocol
  import opened ProtocolLocks
  import opened ProtocolPlaces
  import opened ProtocolRegistry
  import opened ProtocolLog
  import opened ProtocolRuns

  /** The protocol, the records that stand in the file behind the place at which reading begins, and the
      reads so far. */
  datatype World = World(s: State, printed: seq<LogRecord>, chunks: seq<string>)

  /** A step of the protocol, a record that Condor prints, or a read. */
  datatype Deed = Takes(a: Act) | Prints(r: LogRecord) | Reads(bytes: string)

  function HandedOn(chunks: seq<string>): seq<Ad> {
    Handed(Run("", 0, chunks).records)
  }

  /** The bytes that a read yields stand in the file; no read ends one byte behind the opening of a record. */
  ghost predicate ReadsFile(printed: seq<LogRecord>, chunks: seq<string>) {
    Flatten(chunks) <= PrintLog(printed) && !Loses(chunks)
  }

  /** The log thread takes an entry when its reader has handed it on. */
  ghost predicate May(w: World, d: Deed) {
    match d
    case Takes(a) =>
      Enabled(w.s, a) && !a.Append? && (a.LogTake? ==> w.s.pos - w.s.start < |HandedOn(w.chunks)|)
    case Prints(r) => RecordPrintable(r) && Enabled(w.s, Append(AdOf(r.fields)))
    case Reads(bytes) => Begun(w.s) && ReadsFile(w.printed, w.chunks + [bytes])
  }

  ghost function Done(w: World, d: Deed): World
    requires May(w, d)
  {
    match d
    case Takes(a) => World(Do(w.s, a), if a.LogInit? then [] else w.printed, w.chunks)
    case Prints(r) => World(Do(w.s, Append(AdOf(r.fields))), w.printed + [r], w.chunks)
    case Reads(bytes) => w.(chunks := w.chunks + [bytes])
  }

  /** The world after a run; what may not be done when its turn comes is left out. */
  ghost function WorldAfter(users: set<ThreadId>, deeds: seq<Deed>): World {
    if deeds == [] then World(Start(users), [], [])
    else
      var w, d := WorldAfter(users, deeds[..|deeds| - 1]), deeds[|deeds| - 1];
      if May(w, d) then Done(w, d) else w
  }

  // ----- Runs with bytes are runs of the protocol -----

  lemma {:induction false} RunsProject(users: set<ThreadId>, deeds: seq<Deed>)
    returns (acts: seq<Act>)
    ensures WorldAfter(users, deeds).s == After(users, acts)
  {
    hide Enabled;
    hide Do;
    hide ReadsFile;
    hide RecordPrintable;
    hide After;
    if deeds == [] {
      acts := [];
      NoSteps(users);
    } else {
      var w, d := WorldAfter(users, deeds[..|deeds| - 1]), deeds[|deeds| - 1];
      acts := RunsProject(users, deeds[..|deeds| - 1]);
      if May(w, d) && !d.Reads? {
        var a := if d.Takes? then d.a else Append(AdOf(d.r.fields));
        AfterOneMore(users, acts, a);
        acts := acts + [a];
      }
    }
  }

  // ----- What the log thread takes has been handed on -----

  /** How many of the entries that it has read the log thread has taken. */
  function Reached(s: State): int {
    s.pos - s.start + Ahead(StageOf(s, LOG))
  }

  function Ahead(g: Stage): nat {
    if g.Next? then 0 else 1
  }

  ghost predicate Faithful(w: World) {
    && (forall r | r in w.printed :: RecordPrintable(r))
    && ReadsFile(w.printed, w.chunks)
    && (if Begun(w.s)
        then && w.s.start <= |w.s.log| && w.s.log[w.s.start..] == AdsOf(w.printed)
             && Reached(w.s) <= |HandedOn(w.chunks)|
        else w.chunks == [])
  }

  lemma ReachMoves(s: State, a: Act)
    requires Mover(a) == Some(LOG) && From(a, StageOf(s, LOG)) && LogStage(StageOf(s, LOG))
    requires !a.LogInit? && !a.LogTake?
    ensures NewPos(s, a) + Ahead(To(s, a)) <= s.pos + Ahead(StageOf(s, LOG))
    ensures !StageOf(s, LOG).Absent? && !StageOf(s, LOG).Init?
  {
    hide StageOf;
    hide EntryTarget;
    hide CurrentEffect;
    hide CanRead;
    hide Answered;
    hide Looked;
  }

  lemma TakeMoves(s: State, a: Act)
    requires a.LogTake? && From(a, StageOf(s, LOG))
    ensures NewPos(s, a) == s.pos && StageOf(s, LOG).Next? && Ahead(To(s, a)) == 1
  {
    hide StageOf;
    hide CanRead;
  }

  lemma OthersReadNothing(s: State, a: Act)
    requires Mover(a) != Some(LOG)
    ensures NewPos(s, a) == s.pos && !a.LogInit? && !a.LogTake?
  {
  }

  lemma SameAhead(g: Stage, g': Stage)
    requires Same(g, g')
    ensures Ahead(g') == Ahead(g)
    ensures (g'.Absent? || g'.Init?) == (g.Absent? || g.Init?)
  {
  }

  lemma StartStays(s: State, a: Act)
    requires Enabled(s, a) && !a.LogInit? && !a.Append?
    ensures Do(s, a).start == s.start && Do(s, a).log == s.log
  {
    hide NewThreads;
    hide NewJobs;
    hide NewInst;
    hide NewRegistry;
    hide NewPos;
    hide Enabled;
  }

  /** Apart from beginning and from taking an entry, no step goes further in the log. */
  lemma ReachStays(s: State, a: Act)
    requires Enabled(s, a) && Orderly(s) && !a.LogInit? && !a.Append?
    ensures Begun(Do(s, a)) <==> Begun(s)
    ensures Begun(s) ==> Reached(Do(s, a)) <= if a.LogTake? then s.pos - s.start + 1 else Reached(s)
  {
    hide *;
    var u := Do(s, a);
    EnabledGives(s, a);
    OrderlyGives(s);
    ThreadsChange(s, a);
    StagesChange(s, a, NewThreads(s, a));
    NewState(s, a);
    StartStays(s, a);
    LogIsThere(s);
    StageOfIs(s, LOG);
    StageOfIs(u, LOG);
    BegunIs(s);
    BegunIs(u);
    ReachedIs(s);
    ReachedIs(u);
    if Mover(a) == Some(LOG) {
      LogIsLog(s.threads);
      BegunMove(s, a);
      if a.LogTake? {
        TakeMoves(s, a);
      } else {
        ReachMoves(s, a);
      }
    } else {
      OthersReadNothing(s, a);
      SameAhead(s.threads[LOG].stage, u.threads[LOG].stage);
    }
  }

  lemma ReachedIs(s: State)
    ensures Reached(s) == s.pos - s.start + Ahead(StageOf(s, LOG))
  {
  }

  lemma LogIsLog(h: Threads)
    requires Kinds(h)
    ensures LOG in h && LogStage(h[LOG].stage)
  {
    hide LogStage;
  }

  // ----- What the reader hands on -----

  lemma {:induction false} RunMore(buffer: string, off: nat, chunks: seq<string>, bytes: string)
    ensures |Run(buffer, off, chunks).records| <= |Run(buffer, off, chunks + [bytes]).records|
    decreases |chunks|
  {
    hide Drain;
    if chunks != [] {
      var b := buffer + chunks[0];
      var r := Drain(b, off);
      assert (chunks + [bytes])[1..] == chunks[1..] + [bytes];
      RunMore(r.rest, off + |b| - |r.rest|, chunks[1..], bytes);
    }
  }

  lemma {:induction false} HandedCount(ds: seq<Delivery>)
    ensures |Handed(ds)| == |ds|
  {
    if ds != [] {
      HandedCount(ds[1..]);
    }
  }

  /** Another read takes nothing back. */
  lemma ReadsGrow(chunks: seq<string>, bytes: string)
    ensures |HandedOn(chunks)| <= |HandedOn(chunks + [bytes])|
  {
    hide Run;
    hide Handed;
    RunMore("", 0, chunks, bytes);
    HandedCount(Run("", 0, chunks).records);
    HandedCount(Run("", 0, chunks + [bytes]).records);
  }

  /** Before the file has been read to its end, what has been handed on are its first records. */
  lemma HandedAreFirst(printed: seq<LogRecord>, chunks: seq<string>)
    requires LogPrintable(printed) && ReadsFile(printed, chunks)
    ensures HandedOn(chunks) <= AdsOf(printed)
    ensures Flatten(chunks) == PrintLog(printed) ==> HandedOn(chunks) == AdsOf(printed)
  {
    hide LogPrintable;
    hide Loses;
    hide Run;
    hide Handed;
    hide Drain;
    hide PrintLog;
    hide AdsOf;
    hide Kept;
    var file, b := PrintLog(printed), Flatten(chunks);
    var more := file[|b|..];
    assert file == b + more && "" + file == file;
    ChunkIndependence(chunks);
    LogIsRead("", printed, 0);
    DrainExtended(b, more, 0);
    var r := Drain(b, 0);
    var kept := Kept(b, r.rest, more);
    HandedConcat(r.records, Drain(kept + more, |b| - |kept|).records);
    if b == file {
      LogIsRead("", printed, 0);
    }
  }

  lemma {:induction false} AdsOfOneMore(printed: seq<LogRecord>, r: LogRecord)
    ensures AdsOf(printed + [r]) == AdsOf(printed) + [AdOf(r.fields)]
  {
    hide AdOf;
    if printed == [] {
      assert [r][1..] == [];
    } else {
      assert (printed + [r])[1..] == printed[1..] + [r];
      AdsOfOneMore(printed[1..], r);
    }
  }

  lemma {:induction false} PrintLogGrows(printed: seq<LogRecord>, r: LogRecord)
    ensures PrintLog(printed) <= PrintLog(printed + [r])
  {
    hide PrintRecord;
    if printed != [] {
      assert (printed + [r])[1..] == printed[1..] + [r];
      PrintLogGrows(printed[1..], r);
    }
  }

  // ----- Every run keeps them together -----

  lemma StartIsFaithful(users: set<ThreadId>)
    ensures Faithful(World(Start(users), [], []))
  {
  }

  lemma PrintsFaithfully(w: World, r: LogRecord)
    requires Faithful(w) && RecordPrintable(r) && Enabled(w.s, Append(AdOf(r.fields)))
    ensures Faithful(World(Do(w.s, Append(AdOf(r.fields))), w.printed + [r], w.chunks))
  {
    hide *;
    var u, printed := Do(w.s, Append(AdOf(r.fields))), w.printed + [r];
    FaithfulGives(w);
    AppendStep(w.s, Append(AdOf(r.fields)));
    AdsOfOneMore(w.printed, r);
    PrintLogGrows(w.printed, r);
    FileGrows(w.printed, printed, w.chunks);
    SameBegun(w.s, u);
    if Begun(u) {
      assert u.log[u.start..] == w.s.log[w.s.start..] + [AdOf(r.fields)];
    }
    FaithfulIf(World(u, printed, w.chunks));
  }

  lemma SameBegun(s: State, u: State)
    requires u.threads == s.threads && u.pos == s.pos && u.start == s.start
    ensures Begun(u) == Begun(s) && Reached(u) == Reached(s)
  {
  }

  lemma FileGrows(printed: seq<LogRecord>, more: seq<LogRecord>, chunks: seq<string>)
    requires ReadsFile(printed, chunks) && PrintLog(printed) <= PrintLog(more)
    ensures ReadsFile(more, chunks)
  {
    hide PrintLog;
    hide Loses;
  }

  lemma FaithfulGives(w: World)
    requires Faithful(w)
    ensures forall r | r in w.printed :: RecordPrintable(r)
    ensures ReadsFile(w.printed, w.chunks)
    ensures Begun(w.s) ==> w.s.start <= |w.s.log| && w.s.log[w.s.start..] == AdsOf(w.printed)
    ensures Begun(w.s) ==> Reached(w.s) <= |HandedOn(w.chunks)|
    ensures !Begun(w.s) ==> w.chunks == []
  {
    hide RecordPrintable;
    hide ReadsFile;
    hide Begun;
    hide Reached;
    hide HandedOn;
    hide AdsOf;
  }

  lemma FaithfulIf(w: World)
    requires forall r | r in w.printed :: RecordPrintable(r)
    requires ReadsFile(w.printed, w.chunks)
    requires Begun(w.s) ==> w.s.start <= |w.s.log| && w.s.log[w.s.start..] == AdsOf(w.printed)
    requires Begun(w.s) ==> Reached(w.s) <= |HandedOn(w.chunks)|
    requires !Begun(w.s) ==> w.chunks == []
    ensures Faithful(w)
  {
    hide RecordPrintable;
    hide ReadsFile;
    hide Begun;
    hide Reached;
    hide HandedOn;
    hide AdsOf;
  }

  lemma ReadsFaithfully(w: World, bytes: string)
    requires Faithful(w) && Begun(w.s) && ReadsFile(w.printed, w.chunks + [bytes])
    ensures Faithful(w.(chunks := w.chunks + [bytes]))
  {
    hide *;
    FaithfulGives(w);
    ReadsGrow(w.chunks, bytes);
    FaithfulIf(w.(chunks := w.chunks + [bytes]));
  }

  lemma InitFaithfully(w: World)
    requires Faithful(w) && Enabled(w.s, LogInit) && Orderly(w.s)
    ensures Faithful(World(Do(w.s, LogInit), [], w.chunks))
  {
    hide *;
    var u := Do(w.s, LogInit);
    FaithfulGives(w);
    OrderlyGives(w.s);
    LogStep(w.s, LogInit);
    InitIsNotBegun(w.s, LogInit);
    InitLeads(w.s);
    ReachedIs(u);
    NothingPrinted();
    FaithfulIf(World(u, [], w.chunks));
  }

  lemma InitLeads(s: State)
    requires From(LogInit, StageOf(s, LOG)) && Mover(LogInit) == Some(LOG)
    ensures To(s, LogInit).Next? && NewPos(s, LogInit) == |s.log| && Ahead(To(s, LogInit)) == 0
  {
    hide StageOf;
  }

  lemma NothingPrinted()
    ensures AdsOf([]) == [] && ReadsFile([], [])
  {
  }

  lemma TakesFaithfully(w: World, a: Act)
    requires Faithful(w) && Enabled(w.s, a) && Orderly(w.s) && !a.Append? && !a.LogInit?
    requires a.LogTake? ==> w.s.pos - w.s.start < |HandedOn(w.chunks)|
    ensures Faithful(World(Do(w.s, a), w.printed, w.chunks))
  {
    hide *;
    FaithfulGives(w);
    StartStays(w.s, a);
    ReachStays(w.s, a);
    FaithfulIf(World(Do(w.s, a), w.printed, w.chunks));
  }

  lemma {:induction false} RunIsFaithful(users: set<ThreadId>, deeds: seq<Deed>)
    ensures Faithful(WorldAfter(users, deeds))
  {
    hide Faithful;
    hide Enabled;
    hide Do;
    hide Start;
    hide ReadsFile;
    hide RecordPrintable;
    hide HandedOn;
    hide Begun;
    if deeds == [] {
      StartIsFaithful(users);
    } else {
      var w, d := WorldAfter(users, deeds[..|deeds| - 1]), deeds[|deeds| - 1];
      RunIsFaithful(users, deeds[..|deeds| - 1]);
      if May(w, d) {
        match d
        case Prints(r) => PrintsFaithfully(w, r);
        case Reads(bytes) => ReadsFaithfully(w, bytes);
        case Takes(a) =>
          var acts := RunsProject(users, deeds[..|deeds| - 1]);
          RunIsGood(users, acts);
          GoodGives(w.s);
          if a.LogInit? {
            InitFaithfully(w);
          } else {
            TakesFaithfully(w, a);
          }
      }
    }
  }

  // ----- No record is lost -----

  lemma Handled(s: State, chunks: seq<string>)
    requires Positions(s) && Begun(s) && Reached(s) <= |HandedOn(chunks)|
    ensures 0 <= Applied(s) - s.start <= |HandedOn(chunks)|
  {
    hide HandedOn;
    hide StageOf;
  }

  lemma SubmittedIsBegun(s: State, j: JobId)
    requires BegunInTime(s) && j in s.jobs && s.jobs[j].submitted
    ensures Begun(s)
  {
    hide Begun;
  }

  /** In every world that can be reached, for every job that sync_run has submitted: what the reader has
      handed on are the first records in the file, the log thread has handled the first of those, none of
      them unreadable, and the job is what they make of a running job. */
  lemma NoRecordIsLost(users: set<ThreadId>, deeds: seq<Deed>, j: JobId)
    requires var w := WorldAfter(users, deeds); j in w.s.jobs && w.s.jobs[j].submitted
    ensures var w := WorldAfter(users, deeds);
            && w.s.jobs[j].cluster.Some? && w.s.start <= |w.s.log|
            && var n, handed := Applied(w.s) - w.s.start, HandedOn(w.chunks);
               && 0 <= n <= |handed| && handed <= AdsOf(w.printed) && handed[..n] <= Readable(handed)
               && w.s.log[w.s.start..] == AdsOf(w.printed)
               && w.s.jobs[j].job
                  == Outcome(Job(Running, map[]), ClusterEffects(handed[..n], w.s.jobs[j].cluster.value))
  {
    hide *;
    var w := WorldAfter(users, deeds);
    RunIsFaithful(users, deeds);
    FaithfulGives(w);
    var acts := RunsProject(users, deeds);
    RunIsGood(users, acts);
    GoodGives(w.s);
    NothingLostGives(w.s);
    LogOkGives(w.s);
    NoEventIsLost(users, acts, j);
    SubmittedIsBegun(w.s, j);
    LogPrintableIf(w.printed);
    HandedAreFirst(w.printed, w.chunks);
    Handled(w.s, w.chunks);
    var n, handed := Applied(w.s) - w.s.start, HandedOn(w.chunks);
    assert handed[..n] == w.s.log[w.s.start..][..n];
    assert w.s.log[w.s.start..Applied(w.s)] == w.s.log[w.s.start..][..n];
    ReadableOfFirst(handed, w.s.log[w.s.start..], n);
  }

  lemma {:induction false} ReadableOfFirst(u: seq<Ad>, v: seq<Ad>, n: nat)
    requires u <= v && n <= |u| && u[..n] <= Readable(v)
    ensures u[..n] <= Readable(u)
  {
    hide EventType;
    if n > 0 {
      assert u[..n][0] == Readable(v)[0];
      assert u[1..] <= v[1..] && u[1..][..n - 1] == u[..n][1..] && Readable(v)[1..] == Readable(v[1..]);
      ReadableOfFirst(u[1..], v[1..], n - 1);
      assert u[..n] == [u[0]] + u[1..][..n - 1];
    }
  }

  /** When everything that Condor has printed has been read and handled, or the log thread has died of a
      record that cannot be read, each submitted job is what the readable records about it make. */
  lemma RecordsReachJobs(users: set<ThreadId>, deeds: seq<Deed>, j: JobId)
    requires var w := WorldAfter(users, deeds);
             && j in w.s.jobs && w.s.jobs[j].submitted
             && (|| StageOf(w.s, LOG).Dead?
                 || (&& StageOf(w.s, LOG).Next? && w.s.pos - w.s.start == |HandedOn(w.chunks)|
                     && Flatten(w.chunks) == PrintLog(w.printed)))
    ensures var w := WorldAfter(users, deeds);
            && w.s.jobs[j].cluster.Some?
            && w.s.jobs[j].job
               == Outcome(Job(Running, map[]), ClusterEffects(Readable(AdsOf(w.printed)), w.s.jobs[j].cluster.value))
  {
    hide *;
    var w := WorldAfter(users, deeds);
    NoRecordIsLost(users, deeds, j);
    RunIsFaithful(users, deeds);
    FaithfulGives(w);
    LogPrintableIf(w.printed);
    HandedAreFirst(w.printed, w.chunks);
    var acts := RunsProject(users, deeds);
    CaughtUp(users, acts, j);
  }
}
