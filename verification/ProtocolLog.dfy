/** No event is lost: what the log thread of the protocol has made of the entries about a submitted job. */
module ProtocolLog {
  import opened Text
  import opened ClassAds
  import opened Events
  import opened Protocol
  import opened ProtocolLocks
  import opened ProtocolPlaces
  import opened ProtocolRegistry

  /** The effects that the entries about a cluster have, in their order. */
  function ClusterEffects(log: seq<Ad>, c: string): seq<Effect> {
    if log == [] then []
    else
      var ad := log[|log| - 1];
      ClusterEffects(log[..|log| - 1], c)
      + (if ClusterName(ad) == Some(c) && EntryEffect(ad).Some? then [EntryEffect(ad).value] else [])
  }

  /** The job that the log thread has found for the entry that it is at. */
  function Subject(s: State): Option<JobId> {
    SubjectAt(StageOf(s, LOG))
  }

  function SubjectAt(g: Stage): Option<JobId> {
    match g
    case Deliver(j) => Some(j)
    case Tell(j, _) => Some(j)
    case _ => None
  }

  /** The number of entries that have been looked up. */
  function Taken(s: State): nat {
    s.pos + (if Subject(s).Some? then 1 else 0)
  }

  /** The number of entries that have had their effect. */
  function Applied(s: State): nat {
    s.pos + (if StageOf(s, LOG).Tell? then 1 else 0)
  }

  /** The log thread has found the end of the log. */
  predicate Begun(s: State) {
    !StageOf(s, LOG).Absent? && !StageOf(s, LOG).Init?
  }

  predicate LogOk(s: State) {
    Positions(s) && EntriesKnown(s) && ReadSoFar(s)
  }

  predicate Positions(s: State) {
    && s.start <= s.pos <= |s.log|
    && (Subject(s).Some? || StageOf(s, LOG).Lookup? || StageOf(s, LOG).Dead? ==> s.pos < |s.log|)
  }

  /** The event type of every entry that the log thread has taken can be read; one that cannot be read
      is where it has died. */
  predicate ReadSoFar(s: State) {
    && (forall k | s.start <= k < s.pos && k < |s.log| :: EventType(s.log[k]).Some?)
    && (Subject(s).Some? || StageOf(s, LOG).Lookup? ==> CanRead(s))
    && (StageOf(s, LOG).Dead? ==> !CanRead(s))
  }

  predicate EntriesKnown(s: State) {
    forall k | 0 <= k < |s.log| && ClusterName(s.log[k]).Some? :: ClusterName(s.log[k]).value in s.known
  }

  /** Nobody submits a job before the log thread has begun. */
  predicate NeedsLog(g: Stage) {
    Submits(g) || g.Submit?
  }

  predicate BegunInTime(s: State) {
    !Begun(s) ==>
      && (forall t | t in s.threads :: !NeedsLog(s.threads[t].stage))
      && (forall j | j in s.jobs :: !s.jobs[j].submitted)
  }

  /** No entry about the cluster is among the first n. */
  predicate Unmentioned(s: State, c: string, n: nat) {
    forall k | 0 <= k < n && k < |s.log| :: ClusterName(s.log[k]) != Some(c)
  }

  /** No entry about a job has been looked up before the job is registered. */
  predicate RunnersUnseen(s: State) {
    forall t | t in s.threads && RunId(s.threads[t].stage).Some? ::
      Unmentioned(s, RunId(s.threads[t].stage).value, Taken(s))
  }

  /** All entries about a submitted job come after the place at which the log thread has begun, the one
      that it is at is recognised, and the others have had their effect, each once and in order, on
      a job that has been set to Running before. */
  predicate Delivered(s: State, j: JobId) {
    j in s.jobs && s.jobs[j].submitted && s.jobs[j].cluster.Some? && s.pos <= |s.log| && Applied(s) <= |s.log|
    && var c := s.jobs[j].cluster.value;
       && Unmentioned(s, c, s.start)
       && (Subject(s).Some? && s.pos < |s.log| ==> (ClusterName(s.log[s.pos]) == Some(c) <==> Subject(s) == Some(j)))
       && s.jobs[j].job == Outcome(Job(Running, map[]), ClusterEffects(s.log[..Applied(s)], c))
  }

  predicate AllDelivered(s: State) {
    forall j | j in s.jobs && s.jobs[j].submitted :: Delivered(s, j)
  }

  predicate NothingLost(s: State) {
    LogOk(s) && BegunInTime(s) && RunnersUnseen(s) && AllDelivered(s)
  }

  // ----- Steps that do not concern the log -----

  /** The log, its reader and the jobs that have been submitted are the same in both states. */
  ghost predicate SameLog(s: State, u: State) {
    && u.log == s.log && u.start == s.start && u.pos == s.pos && s.known <= u.known
    && Subject(u) == Subject(s) && StageOf(u, LOG).Tell? == StageOf(s, LOG).Tell?
    && (StageOf(u, LOG).Lookup? ==> StageOf(s, LOG).Lookup? || (s.pos < |s.log| && CanRead(s)))
    && (StageOf(u, LOG).Dead? ==> StageOf(s, LOG).Dead? || (s.pos < |s.log| && !CanRead(s)))
    && (Begun(s) ==> Begun(u))
    && (forall j | j in u.jobs && u.jobs[j].submitted :: j in s.jobs && s.jobs[j].submitted)
    && (forall j | j in s.jobs && s.jobs[j].submitted ::
          && j in u.jobs && u.jobs[j].submitted
          && u.jobs[j].cluster == s.jobs[j].cluster && u.jobs[j].job == s.jobs[j].job)
  }

  /** Everything else that a step may do. */
  predicate Quiet(a: Act) {
    match a
    case Append(_) => false
    case DoWrite(_) => false
    case LogInit => false
    case LogLookup => false
    case LogApply => false
    case LogNotify => false
    case _ => true
  }

  lemma QuietLog(s: State, a: Act)
    requires Enabled(s, a) && Orderly(s) && Quiet(a)
    ensures SameLog(s, Do(s, a))
  {
    hide *;
    EnabledGives(s, a);
    OrderlyGives(s);
    ThreadsChange(s, a);
    StagesChange(s, a, NewThreads(s, a));
    NewState(s, a);
    QuietJobs(s, a);
    QuietFields(s, a);
    QuietStage(s, a);
    SameLogIf(s, Do(s, a));
  }

  lemma SameLogIf(s: State, u: State)
    requires u.log == s.log && u.start == s.start && u.pos == s.pos && s.known <= u.known
    requires Subject(u) == Subject(s) && StageOf(u, LOG).Tell? == StageOf(s, LOG).Tell?
    requires StageOf(u, LOG).Lookup? ==> StageOf(s, LOG).Lookup? || (s.pos < |s.log| && CanRead(s))
    requires StageOf(u, LOG).Dead? ==> StageOf(s, LOG).Dead? || (s.pos < |s.log| && !CanRead(s))
    requires Begun(s) ==> Begun(u)
    requires forall j | j in u.jobs && u.jobs[j].submitted :: j in s.jobs && s.jobs[j].submitted
    requires forall j | j in s.jobs && s.jobs[j].submitted ::
               && j in u.jobs && u.jobs[j].submitted
               && u.jobs[j].cluster == s.jobs[j].cluster && u.jobs[j].job == s.jobs[j].job
    ensures SameLog(s, u)
  {
    hide Subject;
    hide StageOf;
    hide Begun;
  }

  lemma QuietJobs(s: State, a: Act)
    requires Enabled(s, a) && Quiet(a)
    ensures forall j | j in NewJobs(s, a) && NewJobs(s, a)[j].submitted :: j in s.jobs && s.jobs[j].submitted
    ensures forall j | j in s.jobs && s.jobs[j].submitted ::
              && j in NewJobs(s, a) && NewJobs(s, a)[j].submitted
              && NewJobs(s, a)[j].cluster == s.jobs[j].cluster && NewJobs(s, a)[j].job == s.jobs[j].job
  {
  }

  lemma QuietFields(s: State, a: Act)
    requires Enabled(s, a) && Quiet(a)
    ensures var u := Do(s, a); u.log == s.log && u.start == s.start && u.pos == s.pos && s.known <= u.known
  {
    hide NewThreads;
    hide NewJobs;
    hide NewInst;
    hide NewRegistry;
    hide Enabled;
  }

  lemma QuietStage(s: State, a: Act)
    requires Enabled(s, a) && Quiet(a) && Kinds(s.threads)
    requires var k := NewThreads(s, a);
             && k.Keys == s.threads.Keys
             && (Mover(a).Some? ==> From(a, StageOf(s, Mover(a).value)))
             && (forall t | t in k && Mover(a) != Some(t) :: Same(s.threads[t].stage, k[t].stage))
             && (Mover(a).Some? ==> Mover(a).value in k && k[Mover(a).value].stage == To(s, a))
    ensures var u := Do(s, a);
            && Subject(u) == Subject(s) && StageOf(u, LOG).Tell? == StageOf(s, LOG).Tell?
            && (StageOf(u, LOG).Lookup? ==> StageOf(s, LOG).Lookup? || (s.pos < |s.log| && CanRead(s)))
            && (StageOf(u, LOG).Dead? ==> StageOf(s, LOG).Dead? || (s.pos < |s.log| && !CanRead(s)))
            && (Begun(s) ==> Begun(u))
  {
    NewState(s, a);
    hide Do;
    hide NewThreads;
    hide To;
    hide From;
    hide SubjectAt;
    hide LogStage;
    if Mover(a) == Some(LOG) {
      QuietMove(s, a);
    } else {
      hide Enabled;
      SameSubject(s.threads[LOG].stage, NewThreads(s, a)[LOG].stage);
    }
  }

  lemma QuietMove(s: State, a: Act)
    requires Enabled(s, a) && Quiet(a) && Mover(a) == Some(LOG) && From(a, StageOf(s, LOG)) && Kinds(s.threads)
    ensures var g, to := StageOf(s, LOG), To(s, a);
            && SubjectAt(to) == SubjectAt(g) && to.Tell? == g.Tell? && !to.Absent? && !to.Init?
            && (to.Lookup? ==> s.pos < |s.log| && CanRead(s)) && (to.Dead? ==> s.pos < |s.log| && !CanRead(s))
  {
    assert LogStage(s.threads[LOG].stage);
    hide Kinds;
    hide CanRead;
  }

  lemma SameSubject(g: Stage, g': Stage)
    requires Same(g, g')
    ensures SubjectAt(g') == SubjectAt(g) && g'.Tell? == g.Tell? && g'.Lookup? == g.Lookup? && g'.Dead? == g.Dead?
    ensures !g.Absent? && !g.Init? ==> !g'.Absent? && !g'.Init?
  {
  }

  lemma SameLogDelivers(s: State, u: State, j: JobId)
    requires Delivered(s, j) && SameLog(s, u)
    ensures Delivered(u, j)
  {
    hide Outcome;
    hide ClusterEffects;
    hide ClusterName;
    hide StageOf;
    hide Subject;
  }

  lemma QuietKeepsOrder(s: State, a: Act)
    requires Enabled(s, a) && Orderly(s) && WellRegistered(s) && NothingLost(s) && Quiet(a)
    ensures LogOk(Do(s, a)) && AllDelivered(Do(s, a))
  {
    hide *;
    var u := Do(s, a);
    QuietLog(s, a);
    NothingLostGives(s);
    SameLogOk(s, u);
    SameLogSubmitted(s, u);
    forall j | j in u.jobs && u.jobs[j].submitted ensures Delivered(u, j) {
      AllDeliveredGives(s, j);
      SameLogDelivers(s, u, j);
    }
    AllDeliveredIf(u);
  }

  lemma SameLogOk(s: State, u: State)
    requires LogOk(s) && SameLog(s, u)
    ensures LogOk(u)
  {
    hide Subject;
    hide StageOf;
    hide Begun;
    hide ClusterName;
    hide EventType;
  }

  lemma SameLogSubmitted(s: State, u: State)
    requires SameLog(s, u)
    ensures forall j | j in u.jobs && u.jobs[j].submitted :: j in s.jobs && s.jobs[j].submitted
  {
    hide Subject;
    hide StageOf;
    hide Begun;
  }

  // ----- What other threads do meanwhile -----

  lemma NeedsLogMoves(s: State, a: Act)
    requires Enabled(s, a) && Mover(a).Some? && From(a, StageOf(s, Mover(a).value))
    ensures NeedsLog(To(s, a)) ==> NeedsLog(StageOf(s, Mover(a).value)) || (a.DoAwait? && Begun(s))
  {
    hide Looked;
    hide EntryTarget;
    hide CurrentEffect;
    hide Answered;
    hide CanRead;
    hide InstanceOf;
    hide JobOf;
  }

  lemma SameNeedsLog(g: Stage, g': Stage)
    requires Same(g, g')
    ensures NeedsLog(g') == NeedsLog(g) && RunId(g') == RunId(g)
  {
  }

  lemma BegunStays(s: State, a: Act)
    requires Enabled(s, a) && Orderly(s)
    ensures Begun(s) ==> Begun(Do(s, a))
  {
    hide *;
    EnabledGives(s, a);
    OrderlyGives(s);
    ThreadsChange(s, a);
    StagesChange(s, a, NewThreads(s, a));
    NewState(s, a);
    StaysBegun(s, a);
  }

  lemma StaysBegun(s: State, a: Act)
    requires Enabled(s, a) && Kinds(s.threads) && AllFit(s.threads)
    requires var k := NewThreads(s, a);
             && k.Keys == s.threads.Keys
             && (Mover(a).Some? ==> From(a, StageOf(s, Mover(a).value)))
             && (forall t | t in k && Mover(a) != Some(t) :: Same(s.threads[t].stage, k[t].stage))
             && (Mover(a).Some? ==> Mover(a).value in k && k[Mover(a).value].stage == To(s, a))
    ensures Begun(s) ==> Begun(Do(s, a))
  {
    hide *;
    NewState(s, a);
    LogIsThere(s);
    StageOfIs(s, LOG);
    BegunIs(s);
    BegunIs(Do(s, a));
    if Mover(a) == Some(LOG) {
      BegunMove(s, a);
    } else {
      SameSubject(s.threads[LOG].stage, NewThreads(s, a)[LOG].stage);
    }
  }

  lemma BegunIs(s: State)
    requires LOG in s.threads
    ensures Begun(s) <==> !s.threads[LOG].stage.Absent? && !s.threads[LOG].stage.Init?
  {
  }

  lemma BegunMove(s: State, a: Act)
    requires Enabled(s, a) && Mover(a) == Some(LOG) && From(a, StageOf(s, LOG)) && Kinds(s.threads)
    ensures !To(s, a).Absent? && !To(s, a).Init?
  {
    assert LogStage(s.threads[LOG].stage);
    hide Kinds;
    hide Looked;
    hide EntryTarget;
    hide CurrentEffect;
    hide Answered;
    hide CanRead;
  }

  lemma SubmittedBefore(s: State, a: Act)
    requires Enabled(s, a)
    ensures forall j | j in NewJobs(s, a) && NewJobs(s, a)[j].submitted ::
              (j in s.jobs && s.jobs[j].submitted) || (a.DoWrite? && NeedsLog(s.threads[a.t].stage))
  {
    hide Apply;
    hide CurrentEffect;
  }

  lemma BegunInTimeStays(s: State, a: Act)
    requires Enabled(s, a) && Orderly(s) && BegunInTime(s)
    ensures BegunInTime(Do(s, a))
  {
    hide *;
    var u := Do(s, a);
    EnabledGives(s, a);
    OrderlyGives(s);
    BegunStays(s, a);
    ThreadsChange(s, a);
    StagesChange(s, a, NewThreads(s, a));
    NewState(s, a);
    SubmittedBefore(s, a);
    if Mover(a).Some? {
      NeedsLogMoves(s, a);
    }
    if !Begun(u) {
      InTime(s);
      forall t | t in u.threads ensures !NeedsLog(u.threads[t].stage) {
        if Mover(a) != Some(t) {
          SameNeedsLog(s.threads[t].stage, u.threads[t].stage);
        }
      }
      if a.DoWrite? {
        MoverOfWrite(a);
      }
    }
    InTimeIf(u);
  }

  lemma MoverOfWrite(a: Act)
    requires a.DoWrite?
    ensures Mover(a) == Some(a.t)
  {
  }

  lemma InTime(s: State)
    requires BegunInTime(s) && !Begun(s)
    ensures forall t | t in s.threads :: !NeedsLog(s.threads[t].stage)
    ensures forall j | j in s.jobs :: !s.jobs[j].submitted
  {
  }

  lemma InTimeIf(s: State)
    requires !Begun(s) ==> forall t | t in s.threads :: !NeedsLog(s.threads[t].stage)
    requires !Begun(s) ==> forall j | j in s.jobs :: !s.jobs[j].submitted
    ensures BegunInTime(s)
  {
  }

  // ----- What the log thread has looked up, and what runners are about to register -----

  /** A step that looks something up does so while no runner is between submission and registration. */
  lemma TakenMoves(s: State, a: Act)
    requires Enabled(s, a) && Orderly(s)
    ensures Taken(Do(s, a)) <= Taken(s) || a.LogLookup? || a.LogInit?
    ensures a.Append? || Do(s, a).log == s.log
  {
    if Quiet(a) {
      QuietLog(s, a);
      hide Do;
      hide Enabled;
      hide Orderly;
      hide Subject;
      hide StageOf;
    } else {
      NewState(s, a);
      hide NewJobs;
      hide NewInst;
      hide NewRegistry;
      hide Orderly;
    }
  }

  lemma TakenInLog(s: State)
    requires LogOk(s)
    ensures Applied(s) <= Taken(s) <= |s.log| && s.start <= Taken(s)
  {
    hide ClusterName;
  }

  lemma FewerUnmentioned(s: State, u: State, c: string, n: nat, m: nat)
    requires Unmentioned(s, c, n) && m <= n <= |s.log| && s.log <= u.log
    ensures Unmentioned(u, c, m)
  {
    hide ClusterName;
    forall k | 0 <= k < m ensures ClusterName(u.log[k]) != Some(c) {
      assert u.log[k] == s.log[k];
    }
  }

  lemma FreshIsUnmentioned(s: State, c: string, n: nat)
    requires LogOk(s) && c !in s.known
    ensures Unmentioned(s, c, n)
  {
    hide ClusterName;
  }

  lemma RunnerUnseen(s: State, t: ThreadId)
    requires RunnersUnseen(s) && t in s.threads && RunId(s.threads[t].stage).Some?
    ensures Unmentioned(s, RunId(s.threads[t].stage).value, Taken(s))
  {
    hide ClusterName;
  }

  lemma RunIdNeedsLog(g: Stage)
    ensures RunId(g).Some? ==> NeedsLog(g) && Submits(g)
  {
  }

  lemma InitIsNotBegun(s: State, a: Act)
    requires Enabled(s, a) && a.LogInit?
    ensures !Begun(s)
  {
  }

  lemma LogGrows(s: State, a: Act)
    requires Enabled(s, a)
    ensures s.log <= Do(s, a).log && s.known <= Do(s, a).known
  {
    hide NewThreads;
    hide NewJobs;
    hide NewInst;
    hide NewRegistry;
    hide NewPos;
    hide Enabled;
  }

  lemma RunnersUnseenStay(s: State, a: Act)
    requires Enabled(s, a) && Orderly(s) && WellRegistered(s) && NothingLost(s)
    ensures RunnersUnseen(Do(s, a))
  {
    hide *;
    var u := Do(s, a);
    EnabledGives(s, a);
    OrderlyGives(s);
    NothingLostGives(s);
    ThreadsChange(s, a);
    StagesChange(s, a, NewThreads(s, a));
    NewState(s, a);
    TakenMoves(s, a);
    TakenInLog(s);
    LogGrows(s, a);
    if Mover(a).Some? {
      IdsMove(s, a);
    }
    forall t | t in u.threads && RunId(u.threads[t].stage).Some?
      ensures Unmentioned(u, RunId(u.threads[t].stage).value, Taken(u))
    {
      var c := RunId(u.threads[t].stage).value;
      StageOfIs(s, t);
      if Mover(a) != Some(t) {
        SameNeedsLog(s.threads[t].stage, u.threads[t].stage);
      }
      if RunId(s.threads[t].stage) == Some(c) {
        RunnerUnseen(s, t);
        RunIdNeedsLog(s.threads[t].stage);
        if a.LogLookup? {
          NoRunnerMeanwhile(s, a, t);
        } else if a.LogInit? {
          InitIsNotBegun(s, a);
          InTime(s);
        } else {
          FewerUnmentioned(s, u, c, Taken(s), Taken(u));
        }
      } else {
        SubmitGuard(s, a);
        FreshIsUnmentioned(s, c, Taken(s));
        FewerUnmentioned(s, u, c, Taken(s), Taken(u));
      }
    }
    RunnersUnseenIf(u);
  }

  lemma NothingLostGives(s: State)
    requires NothingLost(s)
    ensures LogOk(s) && BegunInTime(s) && RunnersUnseen(s) && AllDelivered(s)
  {
  }

  lemma RunnersUnseenIf(s: State)
    requires forall t | t in s.threads && RunId(s.threads[t].stage).Some? ::
               Unmentioned(s, RunId(s.threads[t].stage).value, Taken(s))
    ensures RunnersUnseen(s)
  {
    hide Unmentioned;
  }

  // ----- The steps that concern the log -----

  /** What the log thread's own steps come to. */
  lemma LogStep(s: State, a: Act)
    requires Enabled(s, a) && AllFit(s.threads) && (a.LogInit? || a.LogLookup? || a.LogApply? || a.LogNotify?)
    ensures From(a, StageOf(s, LOG)) && Mover(a) == Some(LOG)
    ensures var u := Do(s, a);
            && StageOf(u, LOG) == To(s, a) && u.pos == NewPos(s, a) && u.log == s.log
            && u.start == (if a.LogInit? then |s.log| else s.start) && u.known == s.known && u.jobs == NewJobs(s, a)
  {
    EnabledGives(s, a);
    ThreadsChange(s, a);
    StagesChange(s, a, NewThreads(s, a));
    hide NewThreads;
    hide NewJobs;
    hide NewInst;
    hide NewRegistry;
    hide NewPos;
    hide To;
    hide From;
    hide Enabled;
    hide Changed;
  }

  lemma AppendStep(s: State, a: Act)
    requires Enabled(s, a) && a.Append?
    ensures var u := Do(s, a);
            && u.threads == s.threads && u.pos == s.pos && u.log == s.log + [a.ad] && u.start == s.start
            && u.known == s.known && u.jobs == s.jobs
            && (ClusterName(a.ad).Some? ==> ClusterName(a.ad).value in s.known)
  {
    hide ClusterName;
  }

  lemma WriteStep(s: State, a: Act)
    requires Enabled(s, a) && a.DoWrite? && Kinds(s.threads)
    ensures From(a, StageOf(s, a.t)) && Mover(a) == Some(a.t)
    ensures var u := Do(s, a);
            && StageOf(u, LOG) == StageOf(s, LOG) && u.pos == s.pos && u.log == s.log && u.start == s.start
            && u.known == s.known && u.jobs == NewJobs(s, a)
  {
    assert LogStage(s.threads[a.t].stage) <==> a.t == LOG;
    hide NewJobs;
    hide NewInst;
    hide NewRegistry;
  }

  lemma PositionsStay(s: State, a: Act)
    requires Enabled(s, a) && Positions(s) && !Quiet(a) && Kinds(s.threads) && AllFit(s.threads)
    ensures Positions(Do(s, a))
  {
    hide *;
    OnlyThese(a);
    if a.Append? {
      AppendStep(s, a);
      PositionsAppended(s, Do(s, a));
    } else if a.DoWrite? {
      WriteStep(s, a);
      SamePositions(s, Do(s, a));
    } else {
      LogStep(s, a);
      NextPositions(s, a, Do(s, a));
    }
  }

  lemma PositionsAppended(s: State, u: State)
    requires Positions(s) && u.threads == s.threads && u.pos == s.pos && u.start == s.start && s.log <= u.log
    ensures Positions(u)
  {
  }

  lemma NextPositions(s: State, a: Act, u: State)
    requires Positions(s) && (a.LogInit? || a.LogLookup? || a.LogApply? || a.LogNotify?) && From(a, StageOf(s, LOG))
    requires StageOf(u, LOG) == To(s, a) && u.pos == NewPos(s, a) && u.log == s.log
    requires u.start == if a.LogInit? then |s.log| else s.start
    ensures Positions(u)
  {
    hide EntryTarget;
    hide CurrentEffect;
    hide Answered;
    hide CanRead;
    hide StageOf;
  }

  lemma ReadSoFarStays(s: State, a: Act)
    requires Enabled(s, a) && Positions(s) && ReadSoFar(s) && !Quiet(a) && Kinds(s.threads) && AllFit(s.threads)
    ensures ReadSoFar(Do(s, a))
  {
    hide *;
    OnlyThese(a);
    if a.Append? {
      AppendStep(s, a);
      AppendedIsRead(s, Do(s, a));
    } else if a.DoWrite? {
      WriteStep(s, a);
      SameRead(s, Do(s, a));
    } else {
      LogStep(s, a);
      NextIsRead(s, a, Do(s, a));
    }
  }

  lemma AppendedIsRead(s: State, u: State)
    requires Positions(s) && ReadSoFar(s)
    requires u.threads == s.threads && u.pos == s.pos && u.start == s.start && s.log <= u.log
    ensures ReadSoFar(u)
  {
    hide EventType;
    assert StageOf(u, LOG) == StageOf(s, LOG);
    hide StageOf;
    assert forall k | 0 <= k < |s.log| :: u.log[k] == s.log[k];
  }

  lemma SameRead(s: State, u: State)
    requires ReadSoFar(s)
    requires StageOf(u, LOG) == StageOf(s, LOG) && u.pos == s.pos && u.log == s.log && u.start == s.start
    ensures ReadSoFar(u)
  {
    hide EventType;
    hide StageOf;
  }

  lemma NextIsRead(s: State, a: Act, u: State)
    requires Positions(s) && ReadSoFar(s)
    requires (a.LogInit? || a.LogLookup? || a.LogApply? || a.LogNotify?) && From(a, StageOf(s, LOG))
    requires StageOf(u, LOG) == To(s, a) && u.pos == NewPos(s, a) && u.log == s.log
    requires u.start == if a.LogInit? then |s.log| else s.start
    ensures ReadSoFar(u)
  {
    hide EntryTarget;
    hide CurrentEffect;
    hide StageOf;
    hide EventType;
  }

  lemma EntriesStayKnown(s: State, a: Act)
    requires Enabled(s, a) && EntriesKnown(s)
    ensures EntriesKnown(Do(s, a))
  {
    LogGrows(s, a);
    hide ClusterName;
    if a.Append? {
      AppendStep(s, a);
    } else {
      OnlyAppendGrows(s, a);
    }
    hide Do;
    hide Enabled;
  }

  lemma OnlyAppendGrows(s: State, a: Act)
    requires Enabled(s, a) && !a.Append?
    ensures Do(s, a).log == s.log
  {
    hide NewThreads;
    hide NewJobs;
    hide NewInst;
    hide NewRegistry;
    hide NewPos;
    hide Enabled;
  }

  lemma LogOkStays(s: State, a: Act)
    requires Enabled(s, a) && Orderly(s) && WellRegistered(s) && NothingLost(s)
    ensures LogOk(Do(s, a))
  {
    if Quiet(a) {
      QuietKeepsOrder(s, a);
    } else {
      OrderlyGives(s);
      LogOkGives(s);
      PositionsStay(s, a);
      EntriesStayKnown(s, a);
      ReadSoFarStays(s, a);
    }
    hide ReadSoFar;
    hide Positions;
    hide EntriesKnown;
    hide Do;
    hide Enabled;
  }

  lemma {:induction false} NoEffects(log: seq<Ad>, c: string)
    requires forall k | 0 <= k < |log| :: ClusterName(log[k]) != Some(c)
    ensures ClusterEffects(log, c) == []
  {
    hide ClusterName;
    hide EntryEffect;
    if log != [] {
      NoEffects(log[..|log| - 1], c);
    }
  }

  lemma OneMoreEffect(log: seq<Ad>, n: nat, c: string)
    requires n < |log|
    ensures ClusterEffects(log[..n + 1], c)
            == if ClusterName(log[n]) == Some(c) && EntryEffect(log[n]).Some?
               then ClusterEffects(log[..n], c) + [EntryEffect(log[n]).value]
               else ClusterEffects(log[..n], c)
  {
    hide ClusterName;
    hide EntryEffect;
    assert log[..n + 1][..n] == log[..n];
  }

  /** An entry about a submitted job is recognised, and no other entry is taken for one. */
  lemma LookupRecognises(s: State, a: Act, j: JobId)
    requires Enabled(s, a) && a.LogLookup? && Orderly(s) && WellRegistered(s) && s.pos < |s.log|
    requires j in s.jobs && s.jobs[j].submitted
    ensures s.jobs[j].cluster.Some?
    ensures ClusterName(s.log[s.pos]) == s.jobs[j].cluster <==> EntryTarget(s) == Some(j)
  {
    hide *;
    OrderlyGives(s);
    WellRegisteredGives(s);
    SubmittedIsEntered(s, a, j);
    EnteredGives(s, j);
    EntryIsRecognised(s, j);
  }

  /** While the registry is locked for a look-up, every submitted job is in it. */
  lemma SubmittedIsEntered(s: State, a: Act, j: JobId)
    requires Enabled(s, a) && a.LogLookup? && Orderly(s) && WellRegistered(s) && j in s.jobs && s.jobs[j].submitted
    ensures Entered(s, j) && Digits(s.jobs[j].cluster.value)
  {
    hide *;
    WellRegisteredGives(s);
    BlankGives(s, j);
    EnteredOrPending(s, j);
    if !Entered(s, j) {
      var t := PendingThread(s.threads, j);
      NoRunnerMeanwhile(s, a, t);
      ThreadFacts(s, t);
      PendingFacts(s, s.threads[t].stage, j);
    }
    EnteredGives(s, j);
  }

  lemma BlankGives(s: State, j: JobId)
    requires Blank(s) && j in s.jobs && s.jobs[j].submitted
    ensures s.jobs[j].cluster.Some? && Digits(s.jobs[j].cluster.value)
  {
    assert BlankAt(s, j);
    hide Digits;
  }

  lemma PendingFacts(s: State, g: Stage, j: JobId)
    requires Facts(s, g) && (g.Register? || g.Enter?) && g.j == j && !Submits(g) && j in s.jobs
    ensures !s.jobs[j].submitted
  {
  }

  lemma EnteredGives(s: State, j: JobId)
    requires Entered(s, j)
    ensures j in s.jobs && s.jobs[j].cluster.Some?
  {
  }

  lemma EntryIsRecognised(s: State, j: JobId)
    requires RightKeys(s) && Entered(s, j) && Digits(s.jobs[j].cluster.value) && s.pos < |s.log|
    ensures ClusterName(s.log[s.pos]) == s.jobs[j].cluster <==> EntryTarget(s) == Some(j)
  {
    hide Get;
    var cluster, process := Get(s.log[s.pos], CLUSTER), Get(s.log[s.pos], PROC);
    if cluster.Some? {
      var key := cluster.value.text + ("." + (if process.Some? then process.value.text else ""));
      assert key[|cluster.value.text|] == '.' && '.' in key;
    }
  }

  // ----- Delivery -----

  lemma DeliveredIf(s: State, j: JobId, c: string)
    requires j in s.jobs && s.jobs[j].submitted && s.jobs[j].cluster == Some(c) && Positions(s)
    requires Unmentioned(s, c, s.start)
    requires Subject(s).Some? ==> (ClusterName(s.log[s.pos]) == Some(c) <==> Subject(s) == Some(j))
    requires Applied(s) <= |s.log| ==>
               s.jobs[j].job == Outcome(Job(Running, map[]), ClusterEffects(s.log[..Applied(s)], c))
    ensures Delivered(s, j)
  {
    hide ClusterName;
    hide ClusterEffects;
    hide Outcome;
    hide Unmentioned;
  }

  lemma DeliveredGives(s: State, j: JobId) returns (c: string)
    requires Delivered(s, j) && Positions(s)
    ensures j in s.jobs && s.jobs[j].submitted && s.jobs[j].cluster == Some(c) && Applied(s) <= |s.log|
    ensures Unmentioned(s, c, s.start)
    ensures Subject(s).Some? ==> (ClusterName(s.log[s.pos]) == Some(c) <==> Subject(s) == Some(j))
    ensures s.jobs[j].job == Outcome(Job(Running, map[]), ClusterEffects(s.log[..Applied(s)], c))
  {
    hide ClusterName;
    hide ClusterEffects;
    hide Outcome;
    hide Unmentioned;
    c := s.jobs[j].cluster.value;
  }

  lemma AppendDelivers(s: State, a: Act, j: JobId)
    requires Enabled(s, a) && a.Append? && LogOk(s) && Delivered(s, j)
    ensures Delivered(Do(s, a), j)
  {
    hide *;
    var u := Do(s, a);
    AppendStep(s, a);
    LogOkGives(s);
    TakenInLog(s);
    AppendedReader(s, u);
    PositionsAppended(s, u);
    var c := DeliveredGives(s, j);
    FewerUnmentioned(s, u, c, s.start, s.start);
    DeliveredIf(u, j, c);
  }

  lemma AppendedReader(s: State, u: State)
    requires u.threads == s.threads && u.pos == s.pos && s.log <= u.log && Applied(s) <= |s.log| && Positions(s)
    ensures Subject(u) == Subject(s) && Applied(u) == Applied(s) && u.log[..Applied(u)] == s.log[..Applied(s)]
    ensures Subject(s).Some? ==> u.log[s.pos] == s.log[s.pos]
  {
    assert StageOf(u, LOG) == StageOf(s, LOG);
    hide StageOf;
    assert forall k | 0 <= k < |s.log| :: u.log[k] == s.log[k];
  }

  lemma WriteDelivers(s: State, a: Act, j: JobId)
    requires Enabled(s, a) && a.DoWrite? && Orderly(s) && WellRegistered(s) && NothingLost(s)
    requires j in Do(s, a).jobs && Do(s, a).jobs[j].submitted
    ensures Delivered(Do(s, a), j)
  {
    hide *;
    var u := Do(s, a);
    EnabledGives(s, a);
    OrderlyGives(s);
    NothingLostGives(s);
    WellRegisteredGives(s);
    LogOkGives(s);
    WriteStep(s, a);
    FactsAt(s, a);
    WriteJobs(s, a, j);
    SameReader(s, u);
    TakenInLog(s);
    SamePositions(s, u);
    if j == StageOf(s, a.t).j {
      var c := StageOf(s, a.t).c;
      RunnerUnseen(s, a.t);
      WriterUnseen(s, u, c, j);
    } else {
      AllDeliveredGives(s, j);
      var c := DeliveredGives(s, j);
      FewerUnmentioned(s, u, c, s.start, s.start);
      DeliveredIf(u, j, c);
    }
  }

  lemma LogOkGives(s: State)
    requires LogOk(s)
    ensures Positions(s) && EntriesKnown(s) && ReadSoFar(s)
  {
  }

  lemma AllDeliveredGives(s: State, j: JobId)
    requires AllDelivered(s) && j in s.jobs && s.jobs[j].submitted
    ensures Delivered(s, j)
  {
    hide Delivered;
  }

  /** The same log, read as far. */
  lemma SameReader(s: State, u: State)
    requires StageOf(u, LOG) == StageOf(s, LOG) && u.pos == s.pos && u.log == s.log && u.start == s.start
    ensures Subject(u) == Subject(s) && Applied(u) == Applied(s) && Taken(u) == Taken(s)
  {
    hide StageOf;
  }

  lemma SamePositions(s: State, u: State)
    requires StageOf(u, LOG) == StageOf(s, LOG) && u.pos == s.pos && u.log == s.log && u.start == s.start
    requires Positions(s)
    ensures Positions(u)
  {
    hide StageOf;
  }

  lemma WriteJobs(s: State, a: Act, j: JobId)
    requires Enabled(s, a) && a.DoWrite? && Facts(s, StageOf(s, a.t)) && Blank(s)
    requires j in NewJobs(s, a) && NewJobs(s, a)[j].submitted
    ensures From(a, StageOf(s, a.t)) && StageOf(s, a.t) == s.threads[a.t].stage
    ensures RunId(StageOf(s, a.t)) == Some(StageOf(s, a.t).c)
    ensures var g := StageOf(s, a.t);
            if j == g.j then NewJobs(s, a)[j].job == Job(Running, map[]) && NewJobs(s, a)[j].cluster == Some(g.c)
                             && j in s.jobs && s.jobs[j].cluster == None
            else j in s.jobs && NewJobs(s, a)[j] == s.jobs[j]
  {
    assert StageOf(s, a.t).j in s.jobs ==> BlankAt(s, StageOf(s, a.t).j);
  }

  /** The job that has just been written: nothing about it has been looked up. */
  lemma WriterUnseen(s: State, u: State, c: string, j: JobId)
    requires Positions(s) && Positions(u) && Unmentioned(s, c, Taken(s)) && AllFacts(s)
    requires StageOf(u, LOG) == StageOf(s, LOG) && u.pos == s.pos && u.log == s.log && u.start == s.start
    requires j in s.jobs && s.jobs[j].cluster == None
    requires j in u.jobs && u.jobs[j].submitted && u.jobs[j].cluster == Some(c) && u.jobs[j].job == Job(Running, map[])
    ensures Delivered(u, j)
  {
    SameReader(s, u);
    SubjectIsEntered(s);
    hide AllFacts;
    hide ClusterName;
    hide StageOf;
    forall k | 0 <= k < Applied(u) ensures ClusterName(u.log[..Applied(u)][k]) != Some(c) {
      assert u.log[k] == s.log[k];
    }
    NoEffects(u.log[..Applied(u)], c);
    hide ClusterEffects;
    DeliveredIf(u, j, c);
  }

  lemma SubjectIsEntered(s: State)
    requires AllFacts(s)
    ensures Subject(s).Some? ==> Entered(s, Subject(s).value)
  {
    assert LOG in s.threads ==> Facts(s, s.threads[LOG].stage);
  }

  lemma LookupDelivers(s: State, a: Act, j: JobId)
    requires Enabled(s, a) && a.LogLookup? && Orderly(s) && WellRegistered(s) && NothingLost(s)
    requires j in Do(s, a).jobs && Do(s, a).jobs[j].submitted
    ensures Delivered(Do(s, a), j)
  {
    hide *;
    var u := Do(s, a);
    EnabledGives(s, a);
    OrderlyGives(s);
    NothingLostGives(s);
    LogOkGives(s);
    LogStep(s, a);
    LookupJobs(s, a);
    NewPositions(s, a);
    AllDeliveredGives(s, j);
    var c := DeliveredGives(s, j);
    LookupPosition(s, a);
    LookupRecognises(s, a, j);
    OneMoreEffect(s.log, s.pos, c);
    FewerUnmentioned(s, u, c, s.start, s.start);
    DeliveredIf(u, j, c);
  }

  lemma LookupJobs(s: State, a: Act)
    requires Enabled(s, a) && (a.LogLookup? || a.LogNotify? || a.LogInit?)
    ensures NewJobs(s, a) == s.jobs && !Quiet(a)
  {
  }

  lemma NewPositions(s: State, a: Act)
    requires Enabled(s, a) && LogOk(s) && Orderly(s) && !Quiet(a)
    ensures Positions(Do(s, a))
  {
    PositionsStay(s, a);
  }

  /** Before and after a look-up. */
  lemma LookupPosition(s: State, a: Act)
    requires Enabled(s, a) && a.LogLookup? && AllFit(s.threads) && Positions(s)
    ensures s.pos < |s.log| && Applied(s) == s.pos
    ensures var u := Do(s, a);
            && Subject(u) == EntryTarget(s)
            && (EntryTarget(s).Some? ==> u.pos == s.pos && Applied(u) == s.pos)
            && (EntryTarget(s).None? ==> u.pos == s.pos + 1 && Applied(u) == s.pos + 1)
  {
    hide *;
    LogStep(s, a);
    LookupLeads(s, a);
    AtLookup(s);
    if EntryTarget(s).Some? {
      AtDeliver(Do(s, a));
    } else {
      AtNext(Do(s, a));
    }
  }

  lemma LookupLeads(s: State, a: Act)
    requires a.LogLookup? && From(a, StageOf(s, LOG)) && Positions(s)
    ensures StageOf(s, LOG).Lookup? && s.pos < |s.log|
    ensures To(s, a) == if EntryTarget(s).Some? then Deliver(EntryTarget(s).value) else Next
    ensures NewPos(s, a) == if EntryTarget(s).None? then s.pos + 1 else s.pos
  {
    hide EntryTarget;
    hide StageOf;
  }

  lemma AtLookup(s: State)
    ensures StageOf(s, LOG).Lookup? ==> Applied(s) == s.pos
  {
    hide StageOf;
  }

  lemma ApplyJobs(s: State, a: Act, j: JobId)
    requires Enabled(s, a) && a.LogApply? && Facts(s, StageOf(s, LOG))
    requires j in NewJobs(s, a) && NewJobs(s, a)[j].submitted
    ensures Subject(s).Some? && j in s.jobs && s.jobs[j].submitted && NewJobs(s, a)[j].cluster == s.jobs[j].cluster
    ensures NewJobs(s, a)[j].job
         == if Subject(s) == Some(j) then Apply(s.jobs[j].job, CurrentEffect(s)) else s.jobs[j].job
    ensures !Quiet(a)
  {
    hide CurrentEffect;
    hide Apply;
  }

  lemma ApplyPosition(s: State, a: Act)
    requires Enabled(s, a) && a.LogApply? && AllFit(s.threads) && Positions(s)
    ensures s.pos < |s.log| && Applied(s) == s.pos && CurrentEffect(s) == EntryEffect(s.log[s.pos])
    ensures var u := Do(s, a);
            && Applied(u) == s.pos + 1
            && (CurrentEffect(s).Some? ==> u.pos == s.pos && Subject(u) == Subject(s))
            && (CurrentEffect(s).None? ==> u.pos == s.pos + 1 && Subject(u) == None)
  {
    hide *;
    LogStep(s, a);
    ApplyLeads(s, a);
    ApplyPos(s, a);
    if CurrentEffect(s).Some? {
      AtTell(Do(s, a));
    } else {
      AtNext(Do(s, a));
    }
    AtDeliver(s);
  }

  lemma ApplyPos(s: State, a: Act)
    requires a.LogApply? && From(a, StageOf(s, LOG)) && Positions(s)
    ensures StageOf(s, LOG).Deliver? && s.pos < |s.log| && CurrentEffect(s) == EntryEffect(s.log[s.pos])
    ensures NewPos(s, a) == if CurrentEffect(s).None? then s.pos + 1 else s.pos
  {
    hide EntryEffect;
    hide StageOf;
  }

  lemma AtDeliver(s: State)
    ensures StageOf(s, LOG).Deliver? ==> Applied(s) == s.pos && Subject(s) == Some(StageOf(s, LOG).j)
  {
    hide StageOf;
  }

  lemma AtTell(s: State)
    ensures StageOf(s, LOG).Tell? ==> Applied(s) == s.pos + 1 && Subject(s) == Some(StageOf(s, LOG).j)
  {
    hide StageOf;
  }

  lemma AtNext(s: State)
    ensures StageOf(s, LOG).Next? ==> Applied(s) == s.pos && Subject(s) == None
  {
    hide StageOf;
  }

  lemma ApplyLeads(s: State, a: Act)
    requires a.LogApply? && From(a, StageOf(s, LOG))
    ensures var j := StageOf(s, LOG).j;
            To(s, a) == if CurrentEffect(s).Some? then Tell(j, JobOf(s, j).instances) else Next
  {
    hide CurrentEffect;
    hide StageOf;
    hide JobOf;
  }

  /** One more effect, or none. */
  lemma OutcomeOneMore(job: Job, own: seq<Effect>, effect: Option<Effect>)
    ensures Outcome(job, if effect.Some? then own + [effect.value] else own) == Apply(Outcome(job, own), effect)
  {
    if effect.Some? {
      assert (own + [effect.value])[..|own|] == own;
    }
  }

  lemma ApplyDelivers(s: State, a: Act, j: JobId)
    requires Enabled(s, a) && a.LogApply? && Orderly(s) && WellRegistered(s) && NothingLost(s)
    requires j in Do(s, a).jobs && Do(s, a).jobs[j].submitted
    ensures Delivered(Do(s, a), j)
  {
    hide *;
    var u := Do(s, a);
    EnabledGives(s, a);
    OrderlyGives(s);
    NothingLostGives(s);
    WellRegisteredGives(s);
    LogOkGives(s);
    LogStep(s, a);
    FactsAt(s, a);
    ApplyJobs(s, a, j);
    NewPositions(s, a);
    AllDeliveredGives(s, j);
    var c := DeliveredGives(s, j);
    ApplyPosition(s, a);
    OneMoreEffect(s.log, s.pos, c);
    OutcomeOneMore(Job(Running, map[]), ClusterEffects(s.log[..s.pos], c), CurrentEffect(s));
    FewerUnmentioned(s, u, c, s.start, s.start);
    DeliveredIf(u, j, c);
  }

  lemma NotifyPosition(s: State, a: Act)
    requires Enabled(s, a) && a.LogNotify? && AllFit(s.threads)
    ensures Applied(Do(s, a)) == Applied(s) && Subject(Do(s, a)) == None
  {
    LogStep(s, a);
    hide Do;
    hide NewJobs;
  }

  lemma NotifyDelivers(s: State, a: Act, j: JobId)
    requires Enabled(s, a) && a.LogNotify? && Orderly(s) && WellRegistered(s) && NothingLost(s)
    requires j in Do(s, a).jobs && Do(s, a).jobs[j].submitted
    ensures Delivered(Do(s, a), j)
  {
    hide *;
    var u := Do(s, a);
    EnabledGives(s, a);
    OrderlyGives(s);
    NothingLostGives(s);
    LogOkGives(s);
    LogStep(s, a);
    LookupJobs(s, a);
    NewPositions(s, a);
    AllDeliveredGives(s, j);
    var c := DeliveredGives(s, j);
    NotifyPosition(s, a);
    FewerUnmentioned(s, u, c, s.start, s.start);
    DeliveredIf(u, j, c);
  }

  lemma AllDeliveredStays(s: State, a: Act)
    requires Enabled(s, a) && Orderly(s) && WellRegistered(s) && NothingLost(s)
    ensures AllDelivered(Do(s, a))
  {
    hide *;
    var u := Do(s, a);
    OrderlyGives(s);
    NothingLostGives(s);
    if Quiet(a) {
      QuietKeepsOrder(s, a);
    } else {
      OnlyThese(a);
      forall j | j in u.jobs && u.jobs[j].submitted ensures Delivered(u, j) {
        if a.Append? {
          AppendStep(s, a);
          AllDeliveredGives(s, j);
          AppendDelivers(s, a, j);
        } else if a.DoWrite? {
          WriteDelivers(s, a, j);
        } else if a.LogLookup? {
          LookupDelivers(s, a, j);
        } else if a.LogApply? {
          ApplyDelivers(s, a, j);
        } else if a.LogNotify? {
          NotifyDelivers(s, a, j);
        } else {
          InitIsNotBegun(s, a);
          InTime(s);
          LookupJobs(s, a);
          NewState(s, a);
        }
      }
      AllDeliveredIf(u);
    }
  }

  lemma OnlyThese(a: Act)
    requires !Quiet(a)
    ensures a.Append? || a.DoWrite? || a.LogInit? || a.LogLookup? || a.LogApply? || a.LogNotify?
  {
  }

  lemma AllDeliveredIf(s: State)
    requires forall j | j in s.jobs && s.jobs[j].submitted :: Delivered(s, j)
    ensures AllDelivered(s)
  {
    hide Delivered;
  }

  lemma NothingLostStays(s: State, a: Act)
    requires Enabled(s, a) && Orderly(s) && WellRegistered(s) && NothingLost(s)
    ensures NothingLost(Do(s, a))
  {
    LogOkStays(s, a);
    BegunInTimeStays(s, a);
    RunnersUnseenStay(s, a);
    AllDeliveredStays(s, a);
    hide Do;
    hide LogOk;
    hide BegunInTime;
    hide RunnersUnseen;
    hide AllDelivered;
    hide Enabled;
    hide Orderly;
    hide WellRegistered;
  }
}
