/** The registry of the protocol: which jobs are in it, and when. */
module ProtocolRegistry {
  import opened Text
  import opened Events
  import opened Protocol
  import opened ProtocolLocks
  import opened ProtocolPlaces

  /** The job is registered under its ID. */
  predicate Entered(s: State, j: JobId) {
    j in s.jobs && s.jobs[j].cluster.Some? && s.jobs[j].cluster.value in s.registry
    && s.registry[s.jobs[j].cluster.value] == j
  }

  /** What a thread knows about registration at its stage. */
  predicate Facts(s: State, g: Stage) {
    match g
    case OpenLog(ForRun(_, j)) => j in s.jobs && s.jobs[j].cluster == None
    case OpenLog(ForAttach(_, id, _)) => id in s.known && id !in s.registry
    case AwaitLog(ForRun(_, j)) => j in s.jobs && s.jobs[j].cluster == None
    case AwaitLog(ForAttach(_, id, _)) => id in s.known && id !in s.registry
    case Submit(_, j) => j in s.jobs && s.jobs[j].cluster == None
    case Write(_, j, c) => j in s.jobs && s.jobs[j].cluster == None && c in s.known && c !in s.registry && Digits(c)
    case Register(_, j, c) =>
      && j in s.jobs && s.jobs[j].cluster == Some(c) && s.jobs[j].submitted && s.jobs[j].job == Job(Running, map[])
      && c in s.known && c !in s.registry
    case Update(_, j, c) => Entered(s, j)
    case Find(_, id) => id in s.known
    case Query(_, id) => id in s.known && id !in s.registry
    case Enter(_, j) =>
      && j in s.jobs && s.jobs[j].cluster.Some? && !s.jobs[j].submitted
      && s.jobs[j].cluster.value in s.known && s.jobs[j].cluster.value !in s.registry
    case Test(_, _, timed, expired) => expired ==> timed
    case Deliver(j) => Entered(s, j)
    case Tell(j, _) => Entered(s, j)
    case _ => true
  }

  /** The number that a runner is about to register. */
  function RunId(g: Stage): Option<string> {
    match g
    case Write(_, _, c) => Some(c)
    case Register(_, _, c) => Some(c)
    case _ => None
  }

  /** The ID that a constructor is about to register. */
  function AttachId(s: State, g: Stage): Option<string> {
    match g
    case OpenLog(ForAttach(_, id, _)) => Some(id)
    case AwaitLog(ForAttach(_, id, _)) => Some(id)
    case Query(_, id) => Some(id)
    case Enter(_, j) => JobOf(s, j).cluster
    case _ => None
  }

  predicate AllFacts(s: State) {
    forall t | t in s.threads :: Facts(s, s.threads[t].stage)
  }

  /** Nobody else is about to register the number that a runner has got. */
  predicate Reserved(s: State) {
    forall t, u | t in s.threads && u in s.threads && RunId(s.threads[t].stage).Some? ::
      RunId(s.threads[t].stage) != AttachId(s, s.threads[u].stage)
  }

  /** Every key is the ID of its job. */
  predicate RightKeys(s: State) {
    forall id | id in s.registry ::
      s.registry[id] in s.jobs && s.jobs[s.registry[id]].cluster == Some(id) && id in s.known
  }

  predicate Pending(h: Threads, j: JobId) {
    exists t | t in h :: (h[t].stage.Register? || h[t].stage.Enter?) && h[t].stage.j == j
  }

  /** What has an ID is registered, or about to be. */
  predicate AllEntered(s: State) {
    forall j | j in s.jobs && s.jobs[j].cluster.Some? :: Entered(s, j) || Pending(s.threads, j)
  }

  /** Data that are not registered have one instance, and so have data that a runner has just
      registered. */
  predicate Alone(s: State) {
    forall i, k | i in s.inst && k in s.inst && i != k && s.inst[i].job == s.inst[k].job ::
      Entered(s, s.inst[i].job)
      && forall t | t in s.threads :: s.threads[t].stage.Update? ==> s.threads[t].stage.j != s.inst[i].job
  }

  predicate Blank(s: State) {
    forall j | j in s.jobs :: BlankAt(s, j)
  }

  /** Before a job has an ID nothing has happened to it; the ID of a submitted job is a number. */
  predicate BlankAt(s: State, j: JobId) {
    j in s.jobs
    && (s.jobs[j].cluster == None ==> s.jobs[j].job == Job(New, map[]) && !s.jobs[j].submitted)
    && (s.jobs[j].submitted ==> s.jobs[j].cluster.Some? && Digits(s.jobs[j].cluster.value))
  }

  predicate WellRegistered(s: State) {
    RightKeys(s) && AllEntered(s) && Alone(s) && Blank(s) && AllFacts(s) && Reserved(s)
  }

  // ----- What steps do to jobs and registry -----

  /** Except for the given job and the given key, nothing is lost or renamed. */
  predicate Keeps(s: State, u: State, written: Option<JobId>, added: Option<string>) {
    && s.known <= u.known
    && (forall id | id in s.registry :: id in u.registry && u.registry[id] == s.registry[id])
    && (forall id | id in u.registry && id !in s.registry :: added == Some(id))
    && (forall j | j in s.jobs && written != Some(j) ::
          && j in u.jobs && u.jobs[j].cluster == s.jobs[j].cluster && u.jobs[j].submitted == s.jobs[j].submitted
          && (u.jobs[j].job == s.jobs[j].job || Entered(s, j)))
    && (forall j | written == Some(j) && j in s.jobs :: s.jobs[j].cluster == None && j in u.jobs)
  }

  /** Except for the given job, which had no ID, only registered jobs change. */
  predicate JobsHeld(s: State, jobs: map<JobId, SharedJob>, written: Option<JobId>) {
    && (forall j | j in s.jobs :: j in jobs)
    && (forall j | j in s.jobs && written != Some(j) ::
          && jobs[j].cluster == s.jobs[j].cluster && jobs[j].submitted == s.jobs[j].submitted
          && (jobs[j].job == s.jobs[j].job || Entered(s, j)))
    && (written.Some? ==> written.value in s.jobs && s.jobs[written.value].cluster == None)
  }

  function Written(s: State, a: Act): Option<JobId>
    requires Mover(a).Some? ==> From(a, StageOf(s, Mover(a).value))
  {
    if a.DoWrite? then Some(StageOf(s, a.t).j) else None
  }

  function Added(s: State, a: Act): Option<string>
    requires Mover(a).Some? ==> From(a, StageOf(s, Mover(a).value))
  {
    if a.DoRegister? then Some(StageOf(s, a.t).c)
    else if a.DoEnter? then JobOf(s, StageOf(s, a.t).j).cluster
    else None
  }

  lemma StepKeeps(s: State, a: Act)
    requires Enabled(s, a) && Orderly(s) && AllFacts(s)
    ensures Mover(a).Some? ==> From(a, StageOf(s, Mover(a).value))
    ensures Keeps(s, Do(s, a), Written(s, a), Added(s, a))
  {
    hide *;
    EnabledGives(s, a);
    if Mover(a).Some? {
      FactsAt(s, a);
    }
    JobsKept(s, a);
    RegistryKept(s, a);
    KnownKept(s, a);
    NewState(s, a);
    KeepsIf(s, Do(s, a), Written(s, a), Added(s, a));
  }

  lemma KeepsIf(s: State, u: State, written: Option<JobId>, added: Option<string>)
    requires s.known <= u.known
    requires forall id | id in s.registry :: id in u.registry && u.registry[id] == s.registry[id]
    requires forall id | id in u.registry && id !in s.registry :: added == Some(id)
    requires JobsHeld(s, u.jobs, written)
    ensures Keeps(s, u, written, added)
  {
    hide Entered;
  }

  lemma FactsAt(s: State, a: Act)
    requires Enabled(s, a) && Orderly(s) && AllFacts(s) && Mover(a).Some?
    ensures Facts(s, StageOf(s, Mover(a).value)) && InPlace(s, StageOf(s, Mover(a).value))
  {
    hide Facts;
    hide InPlace;
    hide From;
  }

  lemma KnownKept(s: State, a: Act)
    requires Enabled(s, a)
    ensures s.known <= Do(s, a).known
  {
    hide NewThreads;
    hide NewJobs;
    hide NewInst;
    hide NewRegistry;
    hide NewPos;
    hide Enabled;
  }

  lemma JobsKept(s: State, a: Act)
    requires Enabled(s, a)
    requires Mover(a).Some? ==> Facts(s, StageOf(s, Mover(a).value)) && InPlace(s, StageOf(s, Mover(a).value))
    ensures Mover(a).Some? ==> From(a, StageOf(s, Mover(a).value))
    ensures JobsHeld(s, NewJobs(s, a), Written(s, a))
  {
    EnabledGives(s, a);
    hide Enabled;
    hide Guard;
    hide Facts;
    hide InPlace;
    hide NewJobs;
    hide Written;
    hide JobsHeld;
    hide From;
    if a.DoWrite? {
      WriteKeepsJobs(s, a);
    } else if a.LogApply? {
      ApplyKeepsJobs(s, a);
    } else {
      OthersKeepJobs(s, a);
    }
  }

  lemma WriteKeepsJobs(s: State, a: Act)
    requires Enabled(s, a) && a.DoWrite? && From(a, StageOf(s, a.t)) && Facts(s, StageOf(s, a.t))
    ensures JobsHeld(s, NewJobs(s, a), Written(s, a))
  {
    hide Guard;
    hide Entered;
  }

  lemma ApplyKeepsJobs(s: State, a: Act)
    requires Enabled(s, a) && a.LogApply? && From(a, StageOf(s, LOG)) && Facts(s, StageOf(s, LOG))
    ensures JobsHeld(s, NewJobs(s, a), Written(s, a))
  {
    hide Guard;
    hide Apply;
    hide CurrentEffect;
  }

  lemma OthersKeepJobs(s: State, a: Act)
    requires Enabled(s, a) && !a.DoWrite? && !a.LogApply?
    requires Mover(a).Some? ==> From(a, StageOf(s, Mover(a).value)) && InPlace(s, StageOf(s, Mover(a).value))
    ensures JobsHeld(s, NewJobs(s, a), Written(s, a))
  {
    hide Entered;
    if a.DoJoin? || a.DoErase? {
      hide Guard;
    } else {
      hide InPlace;
    }
  }

  lemma RegistryKept(s: State, a: Act)
    requires Enabled(s, a)
    requires Mover(a).Some? ==> Facts(s, StageOf(s, Mover(a).value))
    ensures Mover(a).Some? ==> From(a, StageOf(s, Mover(a).value))
    ensures forall id | id in s.registry :: id in NewRegistry(s, a) && NewRegistry(s, a)[id] == s.registry[id]
    ensures forall id | id in NewRegistry(s, a) && id !in s.registry :: Added(s, a) == Some(id)
  {
    hide Guard;
    hide Unique;
  }

  // ----- What threads know stays true -----

  lemma FactsKept(s: State, u: State, written: Option<JobId>, added: Option<string>, g: Stage, g': Stage)
    requires Facts(s, g) && Same(g, g') && Keeps(s, u, written, added)
    requires written.Some? ==> Runs(g) != written
    requires added.Some? ==> RunId(g) != added && AttachId(s, g) != added
    ensures Facts(u, g')
  {
  }

  /** A runner between submission and registration, and a constructor that enters a job, are the only
      ones who could register anything at that time. */
  lemma OthersRegisterNothing(s: State, a: Act, o: ThreadId)
    requires Enabled(s, a) && Orderly(s) && Reserved(s) && Mover(a).Some? && o in s.threads && Mover(a) != Some(o)
    requires From(a, StageOf(s, Mover(a).value))
    ensures Written(s, a).Some? ==> Runs(s.threads[o].stage) != Written(s, a)
    ensures Added(s, a).Some? ==>
              RunId(s.threads[o].stage) != Added(s, a) && AttachId(s, s.threads[o].stage) != Added(s, a)
  {
    var m := Mover(a).value;
    EnabledGives(s, a);
    OrderedPair(s.threads, m, o);
    assert LocksFit(s.threads[m]) && LocksFit(s.threads[o]);
    hide Guard;
    hide InPlace;
  }

  lemma OtherFacts(s: State, a: Act, o: ThreadId, g': Stage)
    requires Enabled(s, a) && Orderly(s) && AllFacts(s) && Reserved(s)
    requires o in s.threads && Mover(a) != Some(o) && Same(s.threads[o].stage, g')
    ensures Facts(Do(s, a), g')
  {
    hide *;
    EnabledGives(s, a);
    StepKeeps(s, a);
    ThreadFacts(s, o);
    if Mover(a).Some? {
      OthersRegisterNothing(s, a, o);
    } else {
      MoversRegister(s, a);
    }
    FactsKept(s, Do(s, a), Written(s, a), Added(s, a), s.threads[o].stage, g');
  }

  lemma ThreadFacts(s: State, t: ThreadId)
    requires AllFacts(s) && t in s.threads
    ensures Facts(s, s.threads[t].stage) && StageOf(s, t) == s.threads[t].stage
  {
    hide Facts;
  }

  lemma MoversRegister(s: State, a: Act)
    requires Mover(a).None?
    ensures Written(s, a).None? && Added(s, a).None?
  {
  }

  /** set_job_id always finds that nobody shares the data. */
  lemma NotShared(s: State, i: InstanceId, j: JobId)
    requires RightKeys(s) && Alone(s) && (Joined(s, i, j) || Joining(s, i, j))
    requires s.jobs[j].cluster.Some? && s.jobs[j].cluster.value !in s.registry
    ensures Unique(s, i, j)
  {
    forall id | id in s.registry ensures s.registry[id] != j {
      assert s.jobs[s.registry[id]].cluster == Some(id);
    }
    forall k | k in s.inst && s.inst[k].job == j ensures k == i {
      assert k != i ==> Entered(s, j);
    }
  }

  lemma TargetEntered(s: State)
    requires RightKeys(s) && EntryTarget(s).Some?
    ensures Entered(s, EntryTarget(s).value)
  {
    TargetIsRegistered(s.registry, s.log[s.pos]);
    hide Target;
    var k :| k in s.registry && s.registry[k] == Target(s.registry, s.log[s.pos]).value;
    assert s.jobs[s.registry[k]].cluster == Some(k);
  }

  /** A step leads the thread that it moves to a stage whose facts hold. */
  lemma MoverFacts(s: State, a: Act)
    requires Enabled(s, a) && Orderly(s) && WellRegistered(s) && Mover(a).Some?
    ensures From(a, StageOf(s, Mover(a).value)) && Facts(Do(s, a), To(s, a))
  {
    EnabledGives(s, a);
    FactsAt(s, a);
    hide Enabled;
    hide Orderly;
    hide AllFacts;
    match a
    case DoWrite(_) => WriteFacts(s, a);
    case DoRegister(_) => RegisterFacts(s, a);
    case DoAwait(_, _) => AwaitFacts(s, a);
    case DoSubmit(_, _) => SubmitFacts(s, a);
    case _ => OldFacts(s, a);
  }

  lemma WriteFacts(s: State, a: Act)
    requires Enabled(s, a) && a.DoWrite? && Facts(s, StageOf(s, a.t)) && Blank(s)
    ensures Facts(Do(s, a), To(s, a))
  {
    hide NewThreads;
    hide NewInst;
    hide NewPos;
  }

  lemma RegisterFacts(s: State, a: Act)
    requires Enabled(s, a) && a.DoRegister? && Facts(s, StageOf(s, a.t)) && InPlace(s, StageOf(s, a.t))
    requires RightKeys(s) && Alone(s)
    ensures Facts(Do(s, a), To(s, a))
  {
    var g := StageOf(s, a.t);
    NotShared(s, g.i, g.j);
    hide Unique;
    hide Alone;
    hide NewThreads;
    hide NewInst;
    hide NewPos;
  }

  lemma AwaitFacts(s: State, a: Act)
    requires Enabled(s, a) && a.DoAwait? && Facts(s, StageOf(s, a.t))
    ensures Facts(Do(s, a), To(s, a))
  {
    hide NewThreads;
    hide NewInst;
    hide NewPos;
  }

  lemma SubmitFacts(s: State, a: Act)
    requires Enabled(s, a) && a.DoSubmit? && Facts(s, StageOf(s, a.t)) && RightKeys(s)
    ensures Facts(Do(s, a), To(s, a))
  {
    hide NewThreads;
    hide NewInst;
    hide NewPos;
  }

  /** Elsewhere the facts of the next stage hold already, and they stay true. */
  lemma OldFacts(s: State, a: Act)
    requires Enabled(s, a) && Orderly(s) && WellRegistered(s) && Mover(a).Some?
    requires !a.DoWrite? && !a.DoRegister? && !a.DoAwait? && !a.DoSubmit?
    ensures From(a, StageOf(s, Mover(a).value)) && Facts(Do(s, a), To(s, a))
  {
    hide *;
    EnabledGives(s, a);
    WellRegisteredGives(s);
    FactsAt(s, a);
    if EntryTarget(s).Some? {
      TargetEntered(s);
    }
    FactsBefore(s, a);
    StepKeeps(s, a);
    SameItself(To(s, a));
    FactsKept(s, Do(s, a), Written(s, a), Added(s, a), To(s, a), To(s, a));
  }

  lemma WellRegisteredGives(s: State)
    requires WellRegistered(s)
    ensures RightKeys(s) && AllEntered(s) && Alone(s) && Blank(s) && AllFacts(s) && Reserved(s)
  {
  }

  lemma FactsBefore(s: State, a: Act)
    requires Enabled(s, a) && Mover(a).Some?
    requires Facts(s, StageOf(s, Mover(a).value)) && InPlace(s, StageOf(s, Mover(a).value))
    requires EntryTarget(s).Some? ==> Entered(s, EntryTarget(s).value)
    requires !a.DoWrite? && !a.DoRegister? && !a.DoAwait? && !a.DoSubmit?
    ensures From(a, StageOf(s, Mover(a).value)) && Facts(s, To(s, a))
    ensures Written(s, a).None?
    ensures Added(s, a).Some? ==> RunId(To(s, a)) != Added(s, a) && AttachId(s, To(s, a)) != Added(s, a)
  {
    hide EntryTarget;
    hide CurrentEffect;
    hide Answered;
    hide CanRead;
    hide Looked;
  }

  lemma FactsStay(s: State, a: Act)
    requires Enabled(s, a) && Orderly(s) && WellRegistered(s)
    ensures AllFacts(Do(s, a))
  {
    hide *;
    var u := Do(s, a);
    EnabledGives(s, a);
    WellRegisteredGives(s);
    OrderlyGives(s);
    ThreadsChange(s, a);
    StagesChange(s, a, NewThreads(s, a));
    NewState(s, a);
    forall t | t in u.threads ensures Facts(u, u.threads[t].stage) {
      if Mover(a) == Some(t) {
        MoverFacts(s, a);
      } else {
        OtherFacts(s, a, t, u.threads[t].stage);
      }
    }
    AllFactsIf(u);
  }

  lemma OrderlyGives(s: State)
    requires Orderly(s)
    ensures AllFit(s.threads) && Exclusive(s.threads) && Kinds(s.threads) && Ordered(s.threads)
    ensures Shaped(s) && AllInPlace(s)
  {
  }

  lemma AllFactsIf(s: State)
    requires forall t | t in s.threads :: Facts(s, s.threads[t].stage)
    ensures AllFacts(s)
  {
    hide Facts;
  }

  // ----- The rest stays true -----

  lemma IdsMove(s: State, a: Act)
    requires Enabled(s, a) && Mover(a).Some? && From(a, StageOf(s, Mover(a).value))
    ensures var g, to := StageOf(s, Mover(a).value), To(s, a);
            && (RunId(to).Some? ==> RunId(to) == RunId(g) || (a.DoSubmit? && RunId(to) == a.cluster))
            && (AttachId(Do(s, a), to).Some? ==> AttachId(Do(s, a), to) == AttachId(s, g) || a.DoFind?)
            && (RunId(to).Some? ==> AttachId(Do(s, a), to).None?)
  {
    hide *;
    RunIdMoves(s, a);
    AttachIdMoves(s, a);
    RunnersAttachNothing(Do(s, a), To(s, a));
  }

  lemma RunIdMoves(s: State, a: Act)
    requires Mover(a).Some? && From(a, StageOf(s, Mover(a).value))
    ensures var g, to := StageOf(s, Mover(a).value), To(s, a);
            RunId(to).Some? ==> RunId(to) == RunId(g) || (a.DoSubmit? && RunId(to) == a.cluster)
  {
    hide StageOf;
    hide InstanceOf;
    hide JobOf;
    hide Looked;
    hide EntryTarget;
    hide CurrentEffect;
    hide Answered;
    hide CanRead;
  }

  lemma AttachIdMoves(s: State, a: Act)
    requires Enabled(s, a) && Mover(a).Some? && From(a, StageOf(s, Mover(a).value))
    ensures var g, to := StageOf(s, Mover(a).value), To(s, a);
            AttachId(Do(s, a), to).Some? ==> AttachId(Do(s, a), to) == AttachId(s, g) || a.DoFind?
  {
    hide NewThreads;
    hide NewInst;
    hide NewRegistry;
    hide NewPos;
    hide Looked;
    hide EntryTarget;
    hide CurrentEffect;
    hide Answered;
    hide CanRead;
  }

  lemma RunnersAttachNothing(s: State, g: Stage)
    ensures RunId(g).Some? ==> AttachId(s, g).None?
  {
  }

  lemma AttachIdKnown(s: State, g: Stage)
    requires Facts(s, g) && AttachId(s, g).Some?
    ensures AttachId(s, g).value in s.known
  {
  }

  lemma AttachIdKept(s: State, u: State, written: Option<JobId>, added: Option<string>, g: Stage, g': Stage)
    requires Facts(s, g) && Same(g, g') && Keeps(s, u, written, added)
    ensures AttachId(u, g') == AttachId(s, g) && RunId(g') == RunId(g)
  {
  }

  lemma ReservedPair(s: State, t: ThreadId, o: ThreadId)
    requires Reserved(s) && t in s.threads && o in s.threads && RunId(s.threads[t].stage).Some?
    ensures RunId(s.threads[t].stage) != AttachId(s, s.threads[o].stage)
  {
  }

  /** While somebody looks for a job, nobody is between submission and registration. */
  lemma NoRunnerMeanwhile(s: State, a: Act, t: ThreadId)
    requires Enabled(s, a) && Orderly(s) && (a.DoFind? || a.LogLookup?) && t in s.threads
    ensures !Submits(s.threads[t].stage)
  {
    hide *;
    OrderlyGives(s);
    FinderHolds(s, a);
    SubmitterHolds(s.threads, t);
    if t != Mover(a).value {
      RegistryIsExclusive(s.threads, Mover(a).value, t);
    }
  }

  lemma FinderHolds(s: State, a: Act)
    requires Enabled(s, a) && AllFit(s.threads) && (a.DoFind? || a.LogLookup?)
    ensures Mover(a).Some? && Mover(a).value in s.threads
    ensures s.threads[Mover(a).value].reg > 0 && !Submits(s.threads[Mover(a).value].stage)
  {
    assert LocksFit(s.threads[Mover(a).value]);
    hide Guard;
  }

  lemma SubmitterHolds(h: Threads, t: ThreadId)
    requires AllFit(h) && t in h
    ensures Submits(h[t].stage) ==> h[t].reg > 0
  {
    assert LocksFit(h[t]);
    hide Submits;
    hide RegAt;
    hide JobAt;
  }

  lemma RegistryIsExclusive(h: Threads, t: ThreadId, u: ThreadId)
    requires Exclusive(h) && t in h && u in h && t != u
    ensures h[t].reg == 0 || h[u].reg == 0
  {
  }

  lemma RunIdSubmits(g: Stage)
    ensures RunId(g).Some? ==> Submits(g)
  {
  }

  lemma ReservedStays(s: State, a: Act)
    requires Enabled(s, a) && Orderly(s) && WellRegistered(s)
    ensures Reserved(Do(s, a))
  {
    hide *;
    var u := Do(s, a);
    EnabledGives(s, a);
    WellRegisteredGives(s);
    OrderlyGives(s);
    ThreadsChange(s, a);
    StagesChange(s, a, NewThreads(s, a));
    NewState(s, a);
    StepKeeps(s, a);
    if Mover(a).Some? {
      IdsMove(s, a);
      FactsAt(s, a);
    }
    forall t, o | t in u.threads && o in u.threads && RunId(u.threads[t].stage).Some?
      ensures RunId(u.threads[t].stage) != AttachId(u, u.threads[o].stage)
    {
      ThreadFacts(s, t);
      ThreadFacts(s, o);
      var g, k := s.threads[t].stage, s.threads[o].stage;
      if Mover(a) != Some(t) {
        AttachIdKept(s, u, Written(s, a), Added(s, a), g, u.threads[t].stage);
      }
      if Mover(a) != Some(o) {
        AttachIdKept(s, u, Written(s, a), Added(s, a), k, u.threads[o].stage);
      }
      if AttachId(s, k).Some? {
        AttachIdKnown(s, k);
      }
      if RunId(g).Some? {
        ReservedPair(s, t, o);
      }
      if a.DoFind? {
        NoRunnerMeanwhile(s, a, t);
        RunIdSubmits(g);
      }
      if a.DoSubmit? {
        SubmitGuard(s, a);
      }
    }
    ReservedIf(u);
  }

  lemma SubmitGuard(s: State, a: Act)
    requires Guard(s, a) && a.DoSubmit?
    ensures a.cluster.Some? ==> a.cluster.value !in s.known && Digits(a.cluster.value)
  {
  }

  lemma ReservedIf(s: State)
    requires forall t, o | t in s.threads && o in s.threads && RunId(s.threads[t].stage).Some? ::
               RunId(s.threads[t].stage) != AttachId(s, s.threads[o].stage)
    ensures Reserved(s)
  {
  }

  lemma AddedRight(s: State, a: Act)
    requires Enabled(s, a) && (Mover(a).Some? ==> Facts(s, StageOf(s, Mover(a).value)))
    ensures forall id | id in NewRegistry(s, a) && id !in s.registry ::
              var j := NewRegistry(s, a)[id];
              j in s.jobs && s.jobs[j].cluster == Some(id) && id in s.known && NewJobs(s, a) == s.jobs
  {
    hide Guard;
    hide Unique;
  }

  lemma RightKeysStay(s: State, a: Act)
    requires Enabled(s, a) && Orderly(s) && WellRegistered(s)
    ensures RightKeys(Do(s, a))
  {
    var u := Do(s, a);
    StepKeeps(s, a);
    NewState(s, a);
    if Mover(a).Some? {
      FactsAt(s, a);
    }
    AddedRight(s, a);
    hide Do;
    hide Enabled;
    hide Orderly;
    hide Facts;
    hide NewJobs;
    hide NewRegistry;
    hide AllEntered;
    hide Alone;
    hide Blank;
    hide AllFacts;
    hide Reserved;
    forall id | id in u.registry
      ensures u.registry[id] in u.jobs && u.jobs[u.registry[id]].cluster == Some(id) && id in u.known
    {
      if id in s.registry {
        assert s.jobs[s.registry[id]].cluster == Some(id);
      }
    }
  }

  lemma EnteredKept(s: State, u: State, written: Option<JobId>, added: Option<string>, j: JobId)
    requires Entered(s, j) && Keeps(s, u, written, added)
    ensures Entered(u, j)
  {
  }

  lemma RegistersFrom(a: Act, g: Stage)
    requires From(a, g) && (a.DoRegister? || a.DoEnter?)
    ensures g.Register? || g.Enter?
  {
  }

  lemma PendingIsNew(s: State, g: Stage)
    requires Facts(s, g) && InPlace(s, g) && (g.Register? || g.Enter?)
    ensures g.j in s.jobs && s.jobs[g.j].cluster.Some? && s.jobs[g.j].cluster.value !in s.registry
    ensures Joined(s, g.i, g.j) || Joining(s, g.i, g.j)
  {
  }

  /** Registration is what the pending job was waiting for. */
  lemma PendingIsEntered(s: State, a: Act)
    requires Enabled(s, a) && Orderly(s) && WellRegistered(s) && (a.DoRegister? || a.DoEnter?)
    ensures Mover(a) == Some(a.t) && From(a, StageOf(s, a.t)) && Entered(Do(s, a), StageOf(s, a.t).j)
  {
    hide *;
    EnabledGives(s, a);
    WellRegisteredGives(s);
    MoverRegisters(a);
    FactsAt(s, a);
    var g := StageOf(s, a.t);
    RegistersFrom(a, g);
    PendingIsNew(s, g);
    NotShared(s, g.i, g.j);
    UniqueIsEntered(s, a);
  }

  lemma MoverRegisters(a: Act)
    requires a.DoRegister? || a.DoEnter?
    ensures Mover(a) == Some(a.t)
  {
  }

  lemma UniqueIsEntered(s: State, a: Act)
    requires Enabled(s, a) && (a.DoRegister? || a.DoEnter?) && From(a, StageOf(s, a.t))
    requires Facts(s, StageOf(s, a.t)) && Unique(s, StageOf(s, a.t).i, StageOf(s, a.t).j)
    ensures Entered(Do(s, a), StageOf(s, a.t).j)
  {
    hide Unique;
    hide Guard;
    hide NewThreads;
    hide NewInst;
    hide NewPos;
  }

  lemma NewJobsPending(s: State, a: Act, j: JobId)
    requires Enabled(s, a) && j in NewJobs(s, a) && NewJobs(s, a)[j].cluster.Some?
    requires Mover(a).Some? ==> From(a, StageOf(s, Mover(a).value)) && Facts(s, StageOf(s, Mover(a).value))
    requires j !in s.jobs || Written(s, a) == Some(j)
    ensures Mover(a).Some? && (To(s, a).Register? || To(s, a).Enter?) && To(s, a).j == j
  {
    hide Apply;
    hide CurrentEffect;
  }

  lemma PendingMoves(s: State, a: Act)
    requires Mover(a).Some? && From(a, StageOf(s, Mover(a).value))
    ensures StageOf(s, Mover(a).value).Register? ==> a.DoRegister?
    ensures StageOf(s, Mover(a).value).Enter? ==> a.DoEnter?
  {
    hide StageOf;
  }

  lemma AllEnteredStays(s: State, a: Act)
    requires Enabled(s, a) && Orderly(s) && WellRegistered(s)
    ensures AllEntered(Do(s, a))
  {
    hide *;
    var u := Do(s, a);
    EnabledGives(s, a);
    WellRegisteredGives(s);
    OrderlyGives(s);
    ThreadsChange(s, a);
    StagesChange(s, a, NewThreads(s, a));
    NewState(s, a);
    StepKeeps(s, a);
    if Mover(a).Some? {
      FactsAt(s, a);
      PendingMoves(s, a);
    }
    if a.DoRegister? || a.DoEnter? {
      PendingIsEntered(s, a);
    }
    forall j | j in u.jobs && u.jobs[j].cluster.Some? ensures Entered(u, j) || Pending(u.threads, j) {
      if j !in s.jobs || Written(s, a) == Some(j) {
        NewJobsPending(s, a, j);
        PendingIf(u.threads, Mover(a).value, j);
      } else {
        KeepsCluster(s, u, Written(s, a), Added(s, a), j);
        EnteredOrPending(s, j);
        if Entered(s, j) {
          EnteredKept(s, u, Written(s, a), Added(s, a), j);
        } else {
          var t := PendingThread(s.threads, j);
          StageOfIs(s, t);
          if Mover(a) != Some(t) {
            SamePending(s.threads[t].stage, u.threads[t].stage);
            PendingIf(u.threads, t, j);
          }
        }
      }
    }
    AllEnteredIf(u);
  }

  lemma StageOfIs(s: State, t: ThreadId)
    requires t in s.threads
    ensures StageOf(s, t) == s.threads[t].stage
  {
  }

  lemma KeepsCluster(s: State, u: State, written: Option<JobId>, added: Option<string>, j: JobId)
    requires Keeps(s, u, written, added) && j in s.jobs && written != Some(j)
    ensures j in u.jobs && u.jobs[j].cluster == s.jobs[j].cluster && u.jobs[j].submitted == s.jobs[j].submitted
    ensures u.jobs[j].job == s.jobs[j].job || Entered(s, j)
  {
  }

  lemma EnteredOrPending(s: State, j: JobId)
    requires AllEntered(s) && j in s.jobs && s.jobs[j].cluster.Some?
    ensures Entered(s, j) || Pending(s.threads, j)
  {
    hide Entered;
    hide Pending;
  }

  lemma PendingThread(h: Threads, j: JobId) returns (t: ThreadId)
    requires Pending(h, j)
    ensures t in h && (h[t].stage.Register? || h[t].stage.Enter?) && h[t].stage.j == j
  {
    t :| t in h && (h[t].stage.Register? || h[t].stage.Enter?) && h[t].stage.j == j;
  }

  lemma PendingIf(h: Threads, t: ThreadId, j: JobId)
    requires t in h && (h[t].stage.Register? || h[t].stage.Enter?) && h[t].stage.j == j
    ensures Pending(h, j)
  {
  }

  lemma SamePending(g: Stage, g': Stage)
    requires Same(g, g') && (g.Register? || g.Enter? || g.Update?)
    ensures g' == g
  {
  }

  lemma AllEnteredIf(s: State)
    requires forall j | j in s.jobs && s.jobs[j].cluster.Some? :: Entered(s, j) || Pending(s.threads, j)
    ensures AllEntered(s)
  {
    hide Entered;
    hide Pending;
  }

  lemma BlankStays(s: State, a: Act)
    requires Enabled(s, a) && Orderly(s) && WellRegistered(s)
    ensures Blank(Do(s, a))
  {
    hide *;
    var u := Do(s, a);
    EnabledGives(s, a);
    WellRegisteredGives(s);
    StepKeeps(s, a);
    NewState(s, a);
    if Mover(a).Some? {
      FactsAt(s, a);
    }
    forall j | j in u.jobs ensures BlankAt(u, j) {
      if j !in s.jobs || Written(s, a) == Some(j) {
        NewJobsBlank(s, a, j);
      } else {
        KeepsCluster(s, u, Written(s, a), Added(s, a), j);
        KeepsBlank(s, u, j);
      }
      BlankAtIf(u, j);
    }
    BlankIf(u);
  }

  lemma KeepsBlank(s: State, u: State, j: JobId)
    requires Blank(s) && j in s.jobs && j in u.jobs
    requires u.jobs[j].cluster == s.jobs[j].cluster && u.jobs[j].submitted == s.jobs[j].submitted
    requires u.jobs[j].job == s.jobs[j].job || Entered(s, j)
    ensures u.jobs[j].cluster == None ==> u.jobs[j].job == Job(New, map[]) && !u.jobs[j].submitted
    ensures u.jobs[j].submitted ==> u.jobs[j].cluster.Some? && Digits(u.jobs[j].cluster.value)
  {
    assert BlankAt(s, j);
    hide Digits;
  }

  lemma BlankAtIf(s: State, j: JobId)
    requires j in s.jobs
    requires s.jobs[j].cluster == None ==> s.jobs[j].job == Job(New, map[]) && !s.jobs[j].submitted
    requires s.jobs[j].submitted ==> s.jobs[j].cluster.Some? && Digits(s.jobs[j].cluster.value)
    ensures BlankAt(s, j)
  {
  }

  lemma BlankIf(s: State)
    requires forall j | j in s.jobs :: BlankAt(s, j)
    ensures Blank(s)
  {
    hide BlankAt;
  }

  lemma NewJobsBlank(s: State, a: Act, j: JobId)
    requires Enabled(s, a) && j in NewJobs(s, a)
    requires Mover(a).Some? ==> From(a, StageOf(s, Mover(a).value)) && Facts(s, StageOf(s, Mover(a).value))
    requires j !in s.jobs || Written(s, a) == Some(j)
    ensures var d := NewJobs(s, a)[j];
            && (d.cluster == None ==> d.job == Job(New, map[]) && !d.submitted)
            && (d.submitted ==> d.cluster.Some? && Digits(d.cluster.value))
  {
    hide Apply;
    hide CurrentEffect;
    hide Digits;
  }

  lemma AloneStays(s: State, a: Act)
    requires Enabled(s, a) && Orderly(s) && WellRegistered(s)
    ensures Alone(Do(s, a))
  {
    hide *;
    var u := Do(s, a);
    EnabledGives(s, a);
    WellRegisteredGives(s);
    OrderlyGives(s);
    ThreadsChange(s, a);
    StagesChange(s, a, NewThreads(s, a));
    NewState(s, a);
    StepKeeps(s, a);
    if Mover(a).Some? {
      FactsAt(s, a);
      PendingMoves(s, a);
    }
    StepReshapes(s, a);
    forall i, k | i in u.inst && k in u.inst && i != k && u.inst[i].job == u.inst[k].job
      ensures Entered(u, u.inst[i].job)
      ensures forall t | t in u.threads :: u.threads[t].stage.Update? ==> u.threads[t].stage.j != u.inst[i].job
    {
      var j := u.inst[i].job;
      SharedInBoth(s, a, i, k);
      EnteredKept(s, u, Written(s, a), Added(s, a), j);
      forall t | t in u.threads ensures u.threads[t].stage.Update? ==> u.threads[t].stage.j != j {
        if Mover(a) == Some(t) {
          MovesToUpdate(s, a, j);
        } else {
          SameUpdate(s.threads[t].stage, u.threads[t].stage);
        }
      }
    }
    AloneIf(u);
  }

  lemma SameUpdate(g: Stage, g': Stage)
    requires Same(g, g')
    ensures g'.Update? ==> g == g'
  {
  }

  lemma MovesToUpdate(s: State, a: Act, j: JobId)
    requires Mover(a).Some? && From(a, StageOf(s, Mover(a).value)) && Facts(s, StageOf(s, Mover(a).value))
    requires Entered(s, j)
    ensures To(s, a).Update? ==> To(s, a).j != j
  {
    hide Looked;
    hide EntryTarget;
    hide CurrentEffect;
    hide Answered;
    hide CanRead;
  }

  lemma AloneIf(s: State)
    requires forall i, k | i in s.inst && k in s.inst && i != k && s.inst[i].job == s.inst[k].job ::
               Entered(s, s.inst[i].job)
               && forall t | t in s.threads :: s.threads[t].stage.Update? ==> s.threads[t].stage.j != s.inst[i].job
    ensures Alone(s)
  {
    hide Entered;
  }

  /** Two instances of one job, after a step: the job was registered before it, and no runner was
      about to finish. */
  lemma SharedInBoth(s: State, a: Act, i: InstanceId, k: InstanceId)
    requires Enabled(s, a) && Orderly(s) && WellRegistered(s)
    requires Mover(a).Some? ==> InPlace(s, StageOf(s, Mover(a).value))
    requires var u := Do(s, a); i in u.inst && k in u.inst && i != k && u.inst[i].job == u.inst[k].job
    ensures var j := Do(s, a).inst[i].job;
            Entered(s, j) && forall t | t in s.threads :: s.threads[t].stage.Update? ==> s.threads[t].stage.j != j
  {
    hide *;
    var u := Do(s, a);
    EnabledGives(s, a);
    OrderlyGives(s);
    WellRegisteredGives(s);
    StepReshapes(s, a);
    if Shapes(s, a) != Some(i) {
      Untouched(s, u, Shapes(s, a), i);
    }
    if Shapes(s, a) != Some(k) {
      Untouched(s, u, Shapes(s, a), k);
    }
    if i in s.inst && k in s.inst {
      StillTheSameJob(s, a, i);
      StillTheSameJob(s, a, k);
      AlonePair(s, i, k);
    } else {
      var newcomer := if i in s.inst then k else i;
      var other := if i in s.inst then i else k;
      StillTheSameJob(s, a, other);
      NewcomerJoinsRegistered(s, a, newcomer, other);
    }
  }

  lemma Untouched(s: State, u: State, touched: Option<InstanceId>, i: InstanceId)
    requires Reshaped(s, u, touched) && touched != Some(i)
    ensures (i in s.inst <==> i in u.inst) && (i in s.inst ==> u.inst[i].job == s.inst[i].job)
  {
    assert SameFor(s, u, i);
  }

  lemma AlonePair(s: State, i: InstanceId, k: InstanceId)
    requires Alone(s) && i in s.inst && k in s.inst && i != k && s.inst[i].job == s.inst[k].job
    ensures Entered(s, s.inst[i].job)
    ensures forall t | t in s.threads :: s.threads[t].stage.Update? ==> s.threads[t].stage.j != s.inst[i].job
  {
    hide Entered;
  }

  lemma StillTheSameJob(s: State, a: Act, i: InstanceId)
    requires Enabled(s, a) && Shaped(s) && i in s.inst && i in Do(s, a).inst
    requires Mover(a).Some? ==> InPlace(s, StageOf(s, Mover(a).value))
    ensures Do(s, a).inst[i].job == s.inst[i].job
  {
    hide NewThreads;
    hide NewJobs;
    hide NewRegistry;
    hide NewPos;
    hide Updated;
    hide Read;
  }

  /** An instance that gets the data of another one has found them in the registry. */
  lemma NewcomerJoinsRegistered(s: State, a: Act, i: InstanceId, k: InstanceId)
    requires Enabled(s, a) && Orderly(s) && WellRegistered(s) && i !in s.inst && k in s.inst
    requires i in Do(s, a).inst && Do(s, a).inst[i].job == s.inst[k].job
    ensures var j := s.inst[k].job;
            Entered(s, j) && forall t | t in s.threads :: s.threads[t].stage.Update? ==> s.threads[t].stage.j != j
  {
    hide *;
    OrderlyGives(s);
    WellRegisteredGives(s);
    if Mover(a).Some? {
      FactsAt(s, a);
    }
    NewcomerFinds(s, a, i, k);
    forall t | t in s.threads ensures !s.threads[t].stage.Update? {
      NoRunnerMeanwhile(s, a, t);
      UpdateSubmits(s.threads[t].stage);
    }
  }

  lemma UpdateSubmits(g: Stage)
    ensures g.Update? ==> Submits(g)
  {
  }

  lemma NewcomerFinds(s: State, a: Act, i: InstanceId, k: InstanceId)
    requires Enabled(s, a) && Shaped(s) && RightKeys(s) && i !in s.inst && k in s.inst
    requires i in Do(s, a).inst && Do(s, a).inst[i].job == s.inst[k].job
    requires Mover(a).Some? ==> InPlace(s, StageOf(s, Mover(a).value))
    ensures a.DoFind? && Entered(s, s.inst[k].job)
  {
    hide NewThreads;
    hide NewJobs;
    hide NewRegistry;
    hide NewPos;
    hide Updated;
    hide Read;
  }

  lemma WellRegisteredStays(s: State, a: Act)
    requires Enabled(s, a) && Orderly(s) && WellRegistered(s)
    ensures WellRegistered(Do(s, a))
  {
    RightKeysStay(s, a);
    AllEnteredStays(s, a);
    AloneStays(s, a);
    BlankStays(s, a);
    FactsStay(s, a);
    ReservedStays(s, a);
    hide Do;
    hide RightKeys;
    hide AllEntered;
    hide Alone;
    hide Blank;
    hide AllFacts;
    hide Reserved;
    hide Enabled;
    hide Orderly;
  }
}
