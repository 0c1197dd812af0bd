/** What holds in every state that the protocol can reach, in whatever order the threads, Condor and the
    users take their steps. */
module ProtocolRuns {
  import opened Text
  import opened ClassAds
  import opened Events
  import opened Protocol
  import opened ProtocolLocks
  import opened ProtocolPlaces
  import opened ProtocolRegistry
  import opened ProtocolLog
  import opened ProtocolInstances

  /** Who waits for the log thread has started it. */
  predicate Opened(s: State) {
    StageOf(s, LOG).Absent? ==> forall t | t in s.threads :: !s.threads[t].stage.AwaitLog?
  }

  predicate Good(s: State) {
    Orderly(s) && WellRegistered(s) && NothingLost(s) && AllAgree(s) && AllSleepWell(s) && Opened(s)
  }

  lemma StartIsGood(users: set<ThreadId>)
    ensures Good(Start(users))
  {
    StartIsOrderly(users);
    StartIsRegistered(users);
    StartLosesNothing(users);
    hide Orderly;
    hide WellRegistered;
    hide NothingLost;
  }

  lemma StartIsOrderly(users: set<ThreadId>)
    ensures Orderly(Start(users))
  {
    var s := Start(users);
    assert AllInPlace(s) && Shaped(s);
    assert Ordered(s.threads);
  }

  lemma StartIsRegistered(users: set<ThreadId>)
    ensures WellRegistered(Start(users))
  {
    var s := Start(users);
    assert AllFacts(s) && Reserved(s);
    hide Facts;
    hide Entered;
  }

  lemma StartLosesNothing(users: set<ThreadId>)
    ensures NothingLost(Start(users))
  {
    var s := Start(users);
    hide ClusterName;
    assert RunnersUnseen(s);
  }

  lemma AbsentStays(s: State, a: Act)
    requires Enabled(s, a) && Orderly(s) && StageOf(Do(s, a), LOG).Absent?
    ensures StageOf(s, LOG).Absent? && !a.DoOpen?
  {
    hide *;
    EnabledGives(s, a);
    OrderlyGives(s);
    NewState(s, a);
    ThreadsChange(s, a);
    StagesChange(s, a, NewThreads(s, a));
    LogIsThere(s);
    StageOfIs(s, LOG);
    StageOfIs(Do(s, a), LOG);
    if Mover(a) == Some(LOG) {
      LogMoves(s, a);
    } else {
      SameAbsent(s.threads[LOG].stage, NewThreads(s, a)[LOG].stage);
    }
    OpenStarts(s, a);
  }

  lemma LogMoves(s: State, a: Act)
    requires Enabled(s, a) && Mover(a) == Some(LOG) && From(a, StageOf(s, LOG)) && Kinds(s.threads)
    ensures !To(s, a).Absent?
  {
    BegunMove(s, a);
    hide To;
  }

  lemma SameAbsent(g: Stage, g': Stage)
    requires Same(g, g')
    ensures g'.Absent? ==> g.Absent?
    ensures g'.AwaitLog? == g.AwaitLog?
  {
  }

  lemma OpenStarts(s: State, a: Act)
    requires Enabled(s, a) && LOG in s.threads
    ensures a.DoOpen? ==> !StageOf(Do(s, a), LOG).Absent?
  {
    if a.DoOpen? {
      NewState(s, a);
      hide Do;
    }
  }

  lemma AwaitMoves(s: State, a: Act)
    requires Mover(a).Some? && From(a, StageOf(s, Mover(a).value))
    ensures To(s, a).AwaitLog? ==> a.DoOpen?
  {
    hide StageOf;
    hide Looked;
    hide EntryTarget;
    hide CurrentEffect;
    hide Answered;
    hide CanRead;
    hide InstanceOf;
    hide JobOf;
  }

  lemma OpenedStays(s: State, a: Act)
    requires Enabled(s, a) && Orderly(s) && Opened(s)
    ensures Opened(Do(s, a))
  {
    hide *;
    var u := Do(s, a);
    if StageOf(u, LOG).Absent? {
      AbsentStays(s, a);
      EnabledGives(s, a);
      OrderlyGives(s);
      NewState(s, a);
      ThreadsChange(s, a);
      StagesChange(s, a, NewThreads(s, a));
      OpenedGives(s);
      if Mover(a).Some? {
        AwaitMoves(s, a);
      }
      forall t | t in u.threads ensures !u.threads[t].stage.AwaitLog? {
        if Mover(a) != Some(t) {
          SameAbsent(s.threads[t].stage, u.threads[t].stage);
        }
      }
    }
    OpenedIf(u);
  }

  lemma OpenedGives(s: State)
    requires Opened(s) && StageOf(s, LOG).Absent?
    ensures forall t | t in s.threads :: !s.threads[t].stage.AwaitLog?
  {
  }

  lemma OpenedIf(s: State)
    requires StageOf(s, LOG).Absent? ==> forall t | t in s.threads :: !s.threads[t].stage.AwaitLog?
    ensures Opened(s)
  {
  }

  lemma StepIsGood(s: State, a: Act)
    requires Enabled(s, a) && Good(s)
    ensures Good(Do(s, a))
  {
    hide Do;
    hide Enabled;
    hide Orderly;
    hide WellRegistered;
    hide NothingLost;
    hide AllAgree;
    hide AllSleepWell;
    hide Opened;
    OrderlyStays(s, a);
    WellRegisteredStays(s, a);
    NothingLostStays(s, a);
    AgreementsStay(s, a);
    SleepersStay(s, a);
    OpenedStays(s, a);
  }

  /** The state after a run; a step that is not enabled when its turn comes is not taken. */
  function After(users: set<ThreadId>, acts: seq<Act>): State {
    if acts == [] then Start(users)
    else
      var s, a := After(users, acts[..|acts| - 1]), acts[|acts| - 1];
      if Enabled(s, a) then Do(s, a) else s
  }

  lemma NoSteps(users: set<ThreadId>)
    ensures After(users, []) == Start(users)
  {
  }

  lemma AfterOneMore(users: set<ThreadId>, acts: seq<Act>, a: Act)
    requires Enabled(After(users, acts), a)
    ensures After(users, acts + [a]) == Do(After(users, acts), a)
  {
    hide Enabled;
    hide Do;
    assert (acts + [a])[..|acts|] == acts;
  }

  lemma {:induction false} RunIsGood(users: set<ThreadId>, acts: seq<Act>)
    ensures Good(After(users, acts))
  {
    hide Good;
    hide Do;
    hide Enabled;
    if acts == [] {
      StartIsGood(users);
    } else {
      var s, a := After(users, acts[..|acts| - 1]), acts[|acts| - 1];
      RunIsGood(users, acts[..|acts| - 1]);
      if Enabled(s, a) {
        StepIsGood(s, a);
      }
    }
  }

  lemma GoodGives(s: State)
    requires Good(s)
    ensures Orderly(s) && WellRegistered(s) && NothingLost(s) && AllAgree(s) && AllSleepWell(s) && Opened(s)
  {
  }

  // ----- No event is lost -----

  /** In every reachable state, for every job that sync_run has submitted: Condor's entries about it all
      come after the place at which the log thread has begun to read, the entries that have been handled
      are the first of those that can be read, and the job is what they make, each applied once and in
      order, of a running job. In particular the state is that of the last one, and writing Running in
      sync_run has not overwritten it. */
  lemma NoEventIsLost(users: set<ThreadId>, acts: seq<Act>, j: JobId)
    requires var s := After(users, acts); j in s.jobs && s.jobs[j].submitted
    ensures var s := After(users, acts);
            && s.jobs[j].cluster.Some? && s.start <= Applied(s) <= |s.log|
            && var c := s.jobs[j].cluster.value;
               var own := ClusterEffects(s.log[s.start..Applied(s)], c);
               && (forall k | 0 <= k < s.start :: k < |s.log| ==> ClusterName(s.log[k]) != Some(c))
               && s.log[s.start..Applied(s)] <= Readable(s.log[s.start..])
               && s.jobs[j].job == Outcome(Job(Running, map[]), own)
               && s.jobs[j].job.state == LastState(own, Running)
  {
    hide *;
    var s := After(users, acts);
    RunIsGood(users, acts);
    GoodGives(s);
    NothingLostGives(s);
    LogOkGives(s);
    TakenInLog(s);
    AllDeliveredGives(s, j);
    var c := DeliveredGives(s, j);
    AppliedSinceStart(s);
    OutcomeIsLast(Job(Running, map[]), ClusterEffects(s.log[s.start..Applied(s)], c), "");
    UnmentionedGives(s, c);
    EffectsSinceStart(s.log, s.start, Applied(s), c);
    AppliedIsReadable(s);
  }

  lemma UnmentionedGives(s: State, c: string)
    requires Unmentioned(s, c, s.start)
    ensures forall k | 0 <= k < s.start :: k < |s.log| ==> ClusterName(s.log[k]) != Some(c)
  {
    hide ClusterName;
  }

  lemma AppliedSinceStart(s: State)
    requires Positions(s)
    ensures s.start <= Applied(s) <= |s.log|
  {
    hide StageOf;
  }

  /** What comes before the start has no effect. */
  lemma EffectsSinceStart(log: seq<Ad>, start: nat, n: nat, c: string)
    requires start <= n <= |log| && forall k | 0 <= k < start :: k < |log| ==> ClusterName(log[k]) != Some(c)
    ensures ClusterEffects(log[..n], c) == ClusterEffects(log[start..n], c)
  {
    hide ClusterName;
    hide ClusterEffects;
    NoEffects(log[..start], c);
    EffectsConcat(log[..start], log[start..n], c);
    assert log[..n] == log[..start] + log[start..n];
  }

  lemma {:induction false} EffectsConcat(u: seq<Ad>, v: seq<Ad>, c: string)
    ensures ClusterEffects(u + v, c) == ClusterEffects(u, c) + ClusterEffects(v, c)
  {
    hide ClusterName;
    hide EntryEffect;
    if v == [] {
      assert u + v == u;
    } else {
      assert (u + v)[..|u + v| - 1] == u + v[..|v| - 1];
      EffectsConcat(u, v[..|v| - 1], c);
    }
  }

  lemma AppliedIsReadable(s: State)
    requires Positions(s) && ReadSoFar(s)
    ensures s.start <= Applied(s) <= |s.log| && s.log[s.start..Applied(s)] <= Readable(s.log[s.start..])
    ensures StageOf(s, LOG).Dead? || (StageOf(s, LOG).Next? && s.pos == |s.log|) ==>
              s.log[s.start..Applied(s)] == Readable(s.log[s.start..])
  {
    hide EventType;
    hide StageOf;
    hide Readable;
    AppliedSinceStart(s);
    var log, n := s.log[s.start..], Applied(s) - s.start;
    assert forall k | 0 <= k < n :: log[k] == s.log[s.start + k];
    ReadableFirst(log, n);
    assert log[..n] == s.log[s.start..Applied(s)];
  }

  lemma {:induction false} ReadableFirst(log: seq<Ad>, n: nat)
    requires n <= |log| && forall k | 0 <= k < n :: EventType(log[k]).Some?
    ensures log[..n] <= Readable(log)
    ensures n == |log| || EventType(log[n]).None? ==> log[..n] == Readable(log)
  {
    hide EventType;
    if n > 0 {
      ReadableFirst(log[1..], n - 1);
      assert log[..n] == [log[0]] + log[1..][..n - 1];
    }
  }

  /** Once the log thread has caught up, or has died of an entry that cannot be read, a submitted job is
      what all readable entries about it make of it. */
  lemma CaughtUp(users: set<ThreadId>, acts: seq<Act>, j: JobId)
    requires var s := After(users, acts);
             && j in s.jobs && s.jobs[j].submitted
             && (StageOf(s, LOG).Dead? || (StageOf(s, LOG).Next? && s.pos == |s.log|))
    ensures var s := After(users, acts);
            && s.jobs[j].cluster.Some? && s.start <= |s.log|
            && s.jobs[j].job
               == Outcome(Job(Running, map[]), ClusterEffects(Readable(s.log[s.start..]), s.jobs[j].cluster.value))
  {
    hide *;
    var s := After(users, acts);
    RunIsGood(users, acts);
    GoodGives(s);
    NothingLostGives(s);
    LogOkGives(s);
    NoEventIsLost(users, acts, j);
    AppliedIsReadable(s);
  }

  // ----- Registration -----

  /** The assertions of register_job hold whenever a job is registered: the ID is new, and nobody shares
      the data. */
  lemma RegistrationHolds(users: set<ThreadId>, acts: seq<Act>, a: Act)
    requires Enabled(After(users, acts), a) && (a.DoRegister? || a.DoEnter?)
    ensures var s := After(users, acts);
            From(a, StageOf(s, a.t))
            && var g := StageOf(s, a.t);
               && g.j in s.jobs && s.jobs[g.j].cluster.Some? && s.jobs[g.j].cluster.value !in s.registry
               && Unique(s, g.i, g.j) && Entered(Do(s, a), g.j)
  {
    hide *;
    var s := After(users, acts);
    RunIsGood(users, acts);
    GoodGives(s);
    WellRegisteredGives(s);
    PendingIsEntered(s, a);
    FactsAt(s, a);
    RegistersFrom(a, StageOf(s, a.t));
    PendingIsNew(s, StageOf(s, a.t));
    NotShared(s, StageOf(s, a.t).i, StageOf(s, a.t).j);
  }

  /** Every key is the ID of its job, and no job has two keys. */
  lemma RegistryIsInjective(users: set<ThreadId>, acts: seq<Act>, id: string, id': string)
    requires var s := After(users, acts); id in s.registry && id' in s.registry && s.registry[id] == s.registry[id']
    ensures var s := After(users, acts);
            id == id' && s.registry[id] in s.jobs && s.jobs[s.registry[id]].cluster == Some(id)
  {
    var s := After(users, acts);
    RunIsGood(users, acts);
    hide After;
    GoodGives(s);
    hide Good;
    WellRegisteredGives(s);
    hide WellRegistered;
  }

  // ----- Instances and waiters -----

  /** Whenever nobody has the job locked, the instances that follow it agree with it. */
  lemma CachesAgree(users: set<ThreadId>, acts: seq<Act>, i: InstanceId, j: JobId)
    requires var s := After(users, acts); Joined(s, i, j) && s.inst[i].view.live && Unlocked(s.threads, j)
    ensures var s := After(users, acts);
            && (s.inst[i].view.changed || s.inst[i].view.cached == s.jobs[j].job.state)
            && s.inst[i].view.metric == s.jobs[j].job.state
  {
    var s := After(users, acts);
    RunIsGood(users, acts);
    hide After;
    GoodGives(s);
    CacheAgreement(s, i, j);
    hide Good;
  }

  /** Whenever nobody has a final job locked, everyone who sleeps on it has been notified. */
  lemma WaitersAreWoken(users: set<ThreadId>, acts: seq<Act>, t: ThreadId)
    requires var s := After(users, acts);
             && t in s.threads && s.threads[t].stage.Sleep?
             && var g := s.threads[t].stage;
                && g.i in s.inst && s.inst[g.i].view.live && g.j in s.jobs
                && s.jobs[g.j].job.state in {Done, Canceled, Failed} && Unlocked(s.threads, g.j)
    ensures After(users, acts).threads[t].stage.notified
  {
    var s := After(users, acts);
    RunIsGood(users, acts);
    hide After;
    GoodGives(s);
    NoLostWakeUp(s, t);
    hide Good;
  }

  /** The test that sync_wait makes without the lock ends the wait exactly if the cached state is final.
      At a live instance the cached state is final exactly if the state is, unless the instance has
      been told of a change since, or the thread that has changed the state is about to tell it. */
  lemma UnlockedTest(users: set<ThreadId>, acts: seq<Act>, a: Act)
    requires var s := After(users, acts);
             Enabled(s, a) && a.DoAnswer? && s.threads[a.t].stage.question.IsFinished?
    ensures var s := After(users, acts);
            var g := s.threads[a.t].stage;
            && g.i in s.inst && s.inst[g.i].job == g.j && g.j in s.jobs && From(a, StageOf(s, a.t))
            && var v, limit := s.inst[g.i].view, g.question.limit;
               var ends := v.cached in {Done, Canceled, Failed};
               && To(s, a) == (if ends || limit.AtOnce? then Idle else Test(g.i, g.j, limit.Within?, false))
               && (v.live && ends != (s.jobs[g.j].job.state in {Done, Canceled, Failed}) ==>
                     v.changed || ToBeTold(s, g.i, g.j) || BeingRun(s.threads, g.j))
               && (v.live && Unlocked(s.threads, g.j) && !v.changed ==>
                     (ends <==> s.jobs[g.j].job.state in {Done, Canceled, Failed}))
  {
    FinalStates();
    hide *;
    var s := After(users, acts);
    RunIsGood(users, acts);
    GoodGives(s);
    OrderlyGives(s);
    AnswerEnabled(s, a);
    ThreadInPlace(s, a.t);
    var g := s.threads[a.t].stage;
    AnswerInPlace(s, g);
    AnswerLeads(s, a);
    if s.inst[g.i].view.live {
      AgreesAtGives(s, g.i);
      AgreesGives(s.inst[g.i].view, s.jobs[g.j].job.state);
      if Unlocked(s.threads, g.j) {
        UnlockedIsUntold(s, g.i, g.j);
      }
    }
  }

  lemma AnswerEnabled(s: State, a: Act)
    requires Enabled(s, a) && a.DoAnswer?
    ensures a.t in s.threads && s.threads[a.t].stage.Answer? && Mover(a) == Some(a.t) && From(a, StageOf(s, a.t))
  {
  }

  lemma AnswerInPlace(s: State, g: Stage)
    requires InPlace(s, g) && g.Answer?
    ensures g.i in s.inst && s.inst[g.i].job == g.j && g.j in s.jobs && g.i in s.jobs[g.j].instances
  {
  }

  lemma AnswerLeads(s: State, a: Act)
    requires a.DoAnswer? && From(a, StageOf(s, a.t)) && StageOf(s, a.t).question.IsFinished?
    requires StageOf(s, a.t).i in s.inst
    ensures var g := StageOf(s, a.t);
            var cached, limit := s.inst[g.i].view.cached, g.question.limit;
            To(s, a) == if Final(cached) || limit.AtOnce? then Idle else Test(g.i, g.j, limit.Within?, false)
  {
    hide StageOf;
    hide Final;
  }

  lemma AgreesGives(v: Instance, state: JobState)
    ensures Agrees(v, state) ==> v.changed || v.cached == state
  {
  }

  /** The cached state may be out of date when it ends the wait: if an execution event is applied between
      the look at the state and the test, the wait ends on a final state while the job is running. */
  lemma StaleTest(s: State, a: Act, limit: Limit)
    requires Enabled(s, LogApply) && Enabled(s, a) && a.DoAnswer? && a.t != LOG
    requires var g := s.threads[a.t].stage;
             && g.question == IsFinished(limit) && g.i in s.inst && s.inst[g.i].view.cached in {Done, Canceled, Failed}
             && s.threads[LOG].stage.j == g.j && g.j in s.jobs
    requires s.pos < |s.log| && EventType(s.log[s.pos]) == Some(1)
    ensures var u, g := Do(s, LogApply), s.threads[a.t].stage;
            && Enabled(u, a) && From(a, StageOf(u, a.t)) && To(u, a).Idle?
            && InstanceOf(u, g.i) == InstanceOf(s, g.i) && JobOf(u, g.j).job.state == Running
  {
    hide ClusterName;
    hide Get;
    hide EventType;
    hide Setting;
  }

  /** When the test of a wait ends it, the state is final at that moment, and when the state is final, the
      test ends the wait; a wait without a time limit ends in no other way. */
  lemma WaitsReturnFinal(users: set<ThreadId>, acts: seq<Act>, a: Act)
    requires Enabled(After(users, acts), a) && a.DoTest?
    ensures var s := After(users, acts);
            && s.threads[a.t].stage.Test? && s.threads[a.t].stage.i in s.inst && s.threads[a.t].stage.j in s.jobs
            && From(a, StageOf(s, a.t))
            && var g := s.threads[a.t].stage;
               && (To(s, a).Idle? && !g.timed ==> Looked(s, g.i).view.cached in {Done, Canceled, Failed})
               && (To(s, a).Idle? && !g.expired && s.inst[g.i].view.live ==>
                     s.jobs[g.j].job.state in {Done, Canceled, Failed})
               && (s.jobs[g.j].job.state in {Done, Canceled, Failed} && s.inst[g.i].view.live ==> To(s, a).Idle?)
  {
    FinalStates();
    hide *;
    var s := After(users, acts);
    RunIsGood(users, acts);
    GoodGives(s);
    WaitReturnsFinal(s, a);
  }

  // ----- No deadlock -----

  /** The order of locks: whoever waits for the registry already owns it or has no job locked, and whoever
      waits for a job has no other one locked. */
  lemma RegistryBeforeJob(users: set<ThreadId>, acts: seq<Act>, t: ThreadId)
    requires t in After(users, acts).threads
    ensures var h := After(users, acts).threads[t];
            && (h.wants.Reg? ==> h.reg > 0 || h.job == None)
            && (h.wants.JobLock? ==> h.job == None)
  {
    hide *;
    var s := After(users, acts);
    RunIsGood(users, acts);
    GoodGives(s);
    OrderlyGives(s);
    LocksInOrder(s.threads, t);
  }

  lemma LocksInOrder(h: Threads, t: ThreadId)
    requires AllFit(h) && t in h
    ensures h[t].wants.Reg? ==> h[t].reg > 0 || h[t].job == None
    ensures h[t].wants.JobLock? ==> h[t].job == None
  {
  }

  /** In no reachable state do threads wait for each other in a circle. */
  lemma NoDeadlock(users: set<ThreadId>, acts: seq<Act>, ts: seq<ThreadId>)
    requires var h := After(users, acts).threads;
             |ts| > 1 && (forall t | t in ts :: t in h) && forall k | 0 <= k < |ts| - 1 :: WaitsFor(h, ts[k], ts[k + 1])
    ensures ts[0] != ts[|ts| - 1]
  {
    var s := After(users, acts);
    RunIsGood(users, acts);
    hide After;
    GoodGives(s);
    OrderlyGives(s);
    hide Good;
    hide Orderly;
    hide WaitsFor;
    hide AllFit;
    hide Exclusive;
    NoCycle(s.threads, ts);
  }

  /** The step that a thread takes at its stage, when it has the locks. */
  function Step(s: State, t: ThreadId, made: JobId, told: InstanceId): Act {
    var g := StageOf(s, t);
    match g
    case Look(_, _, _) => DoLook(t)
    case OpenLog(_) => DoOpen(t)
    case AwaitLog(_) => DoAwait(t, made)
    case Submit(_, _) => DoSubmit(t, None)
    case Write(_, _, _) => DoWrite(t)
    case Register(_, _, _) => DoRegister(t)
    case Update(_, _, _) => DoUpdate(t)
    case Unlock => DoUnlock(t)
    case Find(_, _) => DoFind(t)
    case Query(_, _) => DoQuery(t, None)
    case Enter(_, _) => DoEnter(t)
    case Join(_, _) => DoJoin(t)
    case Test(_, _, _, _) => DoTest(t)
    case Erase(_, _) => DoErase(t)
    case Lookup => LogLookup
    case Deliver(_) => LogApply
    case Tell(_, left) => if left == {} then LogNotify else LogTell(told)
    case _ => DoUnlock(t)
  }

  predicate HasLock(h: Thread) {
    h.reg > 0 || h.job.Some?
  }

  /** A thread that holds a lock and waits for nothing can take its step, except that one may have to wait
      for the log thread, which can then take its own. */
  lemma HolderMoves(s: State, t: ThreadId, n: JobId, i: InstanceId)
    requires Orderly(s) && Opened(s) && t in s.threads && s.threads[t].wants == Nothing && HasLock(s.threads[t])
    requires n !in s.jobs
    requires s.threads[t].stage.Tell? && s.threads[t].stage.left != {} ==> i in s.threads[t].stage.left
    ensures if s.threads[t].stage.AwaitLog? && StageOf(s, LOG).Init? then Enabled(s, LogInit)
            else Enabled(s, Step(s, t, n, i)) && Mover(Step(s, t, n, i)) == Some(t)
  {
    hide *;
    OrderlyGives(s);
    LogIsThere(s);
    StageOfIs(s, t);
    StageOfIs(s, LOG);
    HolderStands(s, t);
    if s.threads[t].stage.AwaitLog? {
      AwaitedLog(s, t, n, i);
    } else {
      StepStands(s, t, n, i);
      StepGuard(s, t, n, i);
      EnabledIf(s, Step(s, t, n, i), t);
    }
  }

  /** What a thread with a lock stands at. */
  lemma HolderStands(s: State, t: ThreadId)
    requires AllFit(s.threads) && Kinds(s.threads)
    requires t in s.threads && s.threads[t].wants == Nothing && HasLock(s.threads[t])
    ensures RegAt(s.threads[t].stage) > 0 || JobAt(s.threads[t].stage).Some?
    ensures LogStage(s.threads[t].stage) ==> t == LOG
    ensures s.threads[LOG].stage.Init? ==> s.threads[LOG].wants == Nothing
  {
    assert LocksFit(s.threads[t]) && LocksFit(s.threads[LOG]);
  }

  lemma StepStands(s: State, t: ThreadId, n: JobId, i: InstanceId)
    requires RegAt(StageOf(s, t)) > 0 || JobAt(StageOf(s, t)).Some?
    requires LogStage(StageOf(s, t)) ==> t == LOG
    requires StageOf(s, t).Tell? && StageOf(s, t).left != {} ==> i in StageOf(s, t).left
    ensures Mover(Step(s, t, n, i)) == Some(t) && From(Step(s, t, n, i), StageOf(s, t))
  {
    hide StageOf;
  }

  lemma StepGuard(s: State, t: ThreadId, n: JobId, i: InstanceId)
    requires LOG in s.threads && !StageOf(s, t).AwaitLog?
    ensures Guard(s, Step(s, t, n, i))
  {
    hide StageOf;
    hide ClusterName;
    hide Usable;
  }

  lemma EnabledIf(s: State, a: Act, t: ThreadId)
    requires t in s.threads && s.threads[t].wants == Nothing && Mover(a) == Some(t)
    requires From(a, s.threads[t].stage) && Guard(s, a)
    ensures Enabled(s, a)
  {
    hide Guard;
    hide From;
  }

  lemma AwaitedLog(s: State, t: ThreadId, n: JobId, i: InstanceId)
    requires Opened(s) && t in s.threads && LOG in s.threads && s.threads[t].stage.AwaitLog? && n !in s.jobs
    requires s.threads[t].wants == Nothing && (s.threads[LOG].stage.Init? ==> s.threads[LOG].wants == Nothing)
    ensures if StageOf(s, LOG).Init? then Enabled(s, LogInit)
            else Enabled(s, Step(s, t, n, i)) && Mover(Step(s, t, n, i)) == Some(t)
  {
  }

  /** Of the threads that hold something, one can always go on. */
  lemma LockerMoves(s: State, t: ThreadId, n: JobId) returns (a: Act)
    requires Orderly(s) && Opened(s) && t in s.threads && n !in s.jobs && s.threads[t].wants != Nothing
    ensures Enabled(s, a) && (Locker(a).Some? || (Mover(a).Some? && !StageOf(s, Mover(a).value).Idle?))
    decreases Rank(s.threads[t])
  {
    OrderlyGives(s);
    a := if s.threads[t].wants.Reg? then LockReg(t) else LockJob(t);
    if !Enabled(s, a) {
      var u := Blocker(s, t);
      WaitsDescend(s.threads, t, u);
      if s.threads[u].wants == Nothing {
        var i := if s.threads[u].stage.Tell? && s.threads[u].stage.left != {}
                 then (var i :| i in s.threads[u].stage.left; i) else 0;
        HolderMoves(s, u, n, i);
        MoverAtWork(s, u);
        a := if s.threads[u].stage.AwaitLog? && StageOf(s, LOG).Init? then LogInit else Step(s, u, n, i);
      } else {
        a := LockerMoves(s, u, n);
      }
    }
  }

  lemma MoverAtWork(s: State, t: ThreadId)
    requires AllFit(s.threads) && t in s.threads && s.threads[t].wants == Nothing && HasLock(s.threads[t])
    ensures !StageOf(s, t).Idle?
    ensures StageOf(s, LOG).Init? ==> Mover(LogInit) == Some(LOG)
  {
    assert LocksFit(s.threads[t]);
  }

  lemma Blocker(s: State, t: ThreadId) returns (u: ThreadId)
    requires t in s.threads && s.threads[t].wants != Nothing
    requires !Enabled(s, if s.threads[t].wants.Reg? then LockReg(t) else LockJob(t))
    ensures u in s.threads && WaitsFor(s.threads, t, u) && HasLock(s.threads[u])
  {
    if s.threads[t].wants.Reg? {
      assert !CanLockReg(s, t);
      u :| u in s.threads && u != t && s.threads[u].reg != 0;
    } else {
      assert !CanLockJob(s, t);
      u :| u in s.threads && u != t && s.threads[u].job == Some(s.threads[t].wants.j);
    }
  }

  /** Whenever a thread waits for a lock, some thread can lock something or take a step of an operation
      that is under way. */
  lemma SomeoneMoves(users: set<ThreadId>, acts: seq<Act>, t: ThreadId)
    requires var s := After(users, acts); t in s.threads && s.threads[t].wants != Nothing
    ensures exists a :: Enabled(After(users, acts), a)
                        && (Locker(a).Some? || (Mover(a).Some? && !StageOf(After(users, acts), Mover(a).value).Idle?))
  {
    hide *;
    var s := After(users, acts);
    RunIsGood(users, acts);
    GoodGives(s);
    var n := FreshJob(s.jobs.Keys);
    var a := LockerMoves(s, t, n);
  }

  lemma {:induction false} FreshJob(used: set<JobId>) returns (n: JobId)
    ensures n !in used && forall k | k in used :: k < n
    decreases |used|
  {
    if used == {} {
      n := 0;
    } else {
      var x :| x in used;
      n := FreshJob(used - {x});
      assert forall k | k in used :: k == x || k in used - {x};
      if n <= x {
        n := x + 1;
      }
    }
  }
}
