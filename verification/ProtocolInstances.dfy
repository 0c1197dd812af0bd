/** What instances and waiters see of their job: cached states, metrics and wake-ups. */
module ProtocolInstances {
  import opened Text
  import opened Events
  import opened Protocol
  import opened ProtocolLocks
  import opened ProtocolPlaces
  import opened ProtocolRegistry

  /** The cached state is right or known to be out of date, and the metric shows the state. */
  predicate Agrees(v: Instance, state: JobState) {
    (v.changed || v.cached == state) && v.metric == state
  }

  /** The log thread is about to tell the instance. */
  predicate ToBeTold(s: State, i: InstanceId, j: JobId) {
    var g := StageOf(s, LOG);
    g.Tell? && g.j == j && i in g.left
  }

  /** A runner has written to the job and is about to tell its instance. */
  predicate BeingRun(h: Threads, j: JobId) {
    exists t | t in h :: (h[t].stage.Register? || h[t].stage.Update?) && h[t].stage.j == j
  }

  predicate AgreesAt(s: State, i: InstanceId) {
    i in s.inst && s.inst[i].job in s.jobs && i in s.jobs[s.inst[i].job].instances && s.inst[i].view.live ==>
      var j := s.inst[i].job;
      Agrees(s.inst[i].view, s.jobs[j].job.state) || ToBeTold(s, i, j) || BeingRun(s.threads, j)
  }

  predicate AllAgree(s: State) {
    forall i | i in s.inst :: AgreesAt(s, i)
  }

  // ----- What steps do to views and states -----

  /** The instances that a step tells of the state. */
  function Tells(s: State, a: Act): Option<InstanceId>
    requires Mover(a).Some? ==> From(a, StageOf(s, Mover(a).value))
  {
    match a
    case DoUpdate(t) => Some(StageOf(s, t).i)
    case DoJoin(t) => Some(StageOf(s, t).i)
    case LogTell(i) => Some(i)
    case _ => None
  }

  lemma ViewsChange(s: State, a: Act, i: InstanceId)
    requires Enabled(s, a) && Shaped(s) && i in s.inst && i in NewInst(s, a)
    requires Mover(a).Some? ==> From(a, StageOf(s, Mover(a).value)) && InPlace(s, StageOf(s, Mover(a).value))
    ensures var h, k := s.inst[i], NewInst(s, a)[i];
            && k.job == h.job && (k.view.live ==> h.view.live)
            && (Tells(s, a) == Some(i) ==>
                  k.view == Updated(h.view, JobOf(s, h.job).job.state, JobOf(s, h.job).job.attributes))
            && (Tells(s, a) != Some(i) && k.view.live ==>
                  || k.view == h.view
                  || k.view == Read(h.view, JobOf(s, h.job).job.state)
                  || k.view == Refreshed(h.view, JobOf(s, h.job).job.state))
  {
    hide Updated;
    LiveKept(s.inst[i].view, JobOf(s, s.inst[i].job).job);
    hide Read;
    hide Refreshed;
  }

  lemma LiveKept(v: Instance, job: Job)
    ensures Updated(v, job.state, job.attributes).live == v.live
    ensures Read(v, job.state).live == v.live && Refreshed(v, job.state).live == v.live
  {
  }

  lemma StatesChange(s: State, a: Act, j: JobId)
    requires Enabled(s, a) && j in s.jobs
    requires Mover(a).Some? ==> From(a, StageOf(s, Mover(a).value))
    ensures j in NewJobs(s, a)
    ensures var g := StageOf(s, if a.DoWrite? then a.t else LOG);
            && (a.DoWrite? && g.j == j ==> NewJobs(s, a)[j].job.state == Running)
            && (!(a.DoWrite? && g.j == j) && !(a.LogApply? && g.j == j && CurrentEffect(s).Some?) ==>
                  NewJobs(s, a)[j].job == s.jobs[j].job)
            && (Tells(s, a).Some? ==> NewJobs(s, a)[j].job == s.jobs[j].job)
            && (!a.DoJoin? ==> NewJobs(s, a)[j].instances <= s.jobs[j].instances)
            && (a.DoJoin? ==> NewJobs(s, a)[j].instances <= s.jobs[j].instances + {StageOf(s, a.t).i})
  {
    hide CurrentEffect;
  }

  lemma AgreesAtIf(s: State, i: InstanceId, j: JobId)
    requires i in s.inst && s.inst[i].job == j && j in s.jobs
    requires i in s.jobs[j].instances && s.inst[i].view.live ==>
               Agrees(s.inst[i].view, s.jobs[j].job.state) || ToBeTold(s, i, j) || BeingRun(s.threads, j)
    ensures AgreesAt(s, i)
  {
  }

  lemma AgreesAtGives(s: State, i: InstanceId)
    requires AllAgree(s) && i in s.inst && s.inst[i].job in s.jobs
    requires i in s.jobs[s.inst[i].job].instances && s.inst[i].view.live
    ensures var j := s.inst[i].job;
            Agrees(s.inst[i].view, s.jobs[j].job.state) || ToBeTold(s, i, j) || BeingRun(s.threads, j)
  {
    assert AgreesAt(s, i);
    hide Agrees;
    hide ToBeTold;
    hide BeingRun;
  }

  /** What has been told, or read, agrees. */
  lemma ToldAgrees(v: Instance, job: Job)
    ensures v.live ==> Agrees(Updated(v, job.state, job.attributes), job.state)
    ensures Agrees(v, job.state) ==> Agrees(Read(v, job.state), job.state) && Agrees(Refreshed(v, job.state), job.state)
  {
  }

  lemma StillToBeTold(s: State, a: Act, u: State, i: InstanceId, j: JobId)
    requires ToBeTold(s, i, j) && a != LogTell(i)
    requires Mover(a).Some? ==> From(a, StageOf(s, Mover(a).value))
    requires if Mover(a) == Some(LOG) then StageOf(u, LOG) == To(s, a) else Same(StageOf(s, LOG), StageOf(u, LOG))
    ensures ToBeTold(u, i, j)
  {
    hide StageOf;
    hide Looked;
    hide EntryTarget;
    hide CurrentEffect;
    hide Answered;
    hide CanRead;
  }

  lemma DeliverApplies(a: Act, g: Stage)
    requires From(a, g)
    ensures a.LogApply? ==> g.Deliver?
    ensures a.LogTell? || a.LogNotify? ==> g.Tell?
  {
  }

  /** An entry that has an effect is told to the instances that the job has at that time. */
  lemma ApplyTells(s: State, g: Stage, to: Stage)
    requires g == StageOf(s, LOG) && g.Deliver? && to == To(s, LogApply)
    ensures to == Next || to == Tell(g.j, JobOf(s, g.j).instances)
    ensures to == Next <==> CurrentEffect(s).None?
  {
    hide StageOf;
    hide CurrentEffect;
    hide JobOf;
  }

  lemma NewlyToBeTold(s: State, g: Stage, u: State, i: InstanceId)
    requires g == StageOf(s, LOG) && g.Deliver? && StageOf(u, LOG) == To(s, LogApply) && CurrentEffect(s).Some?
    requires i in JobOf(s, g.j).instances
    ensures ToBeTold(u, i, g.j)
  {
    ApplyTells(s, g, StageOf(u, LOG));
    hide StageOf;
    hide CurrentEffect;
    hide JobOf;
    hide To;
  }

  lemma BeingRunIf(h: Threads, t: ThreadId, j: JobId)
    requires t in h && (h[t].stage.Register? || h[t].stage.Update?) && h[t].stage.j == j
    ensures BeingRun(h, j)
  {
  }

  lemma Runner(h: Threads, j: JobId) returns (t: ThreadId)
    requires BeingRun(h, j)
    ensures t in h && (h[t].stage.Register? || h[t].stage.Update?) && h[t].stage.j == j
  {
    t :| t in h && (h[t].stage.Register? || h[t].stage.Update?) && h[t].stage.j == j;
  }

  lemma RunnerMoves(s: State, a: Act)
    requires Mover(a).Some? && From(a, StageOf(s, Mover(a).value))
    ensures var g, to := StageOf(s, Mover(a).value), To(s, a);
            && (g.Register? ==> to.Update? && to.j == g.j)
            && (g.Write? ==> to.Register? && to.j == g.j)
            && (g.Update? ==> a.DoUpdate? && Tells(s, a) == Some(g.i))
            && (a.DoWrite? ==> g.Write? && Mover(a) == Some(a.t))
  {
    hide StageOf;
    hide Looked;
    hide EntryTarget;
    hide CurrentEffect;
    hide Answered;
    hide CanRead;
    hide InstanceOf;
    hide JobOf;
  }

  lemma StillBeingRun(s: State, a: Act, i: InstanceId, j: JobId)
    requires Enabled(s, a) && Orderly(s) && WellRegistered(s) && BeingRun(s.threads, j)
    requires i in s.inst && s.inst[i].job == j
    ensures Mover(a).Some? ==> From(a, StageOf(s, Mover(a).value))
    ensures BeingRun(NewThreads(s, a), j) || Tells(s, a) == Some(i)
  {
    hide *;
    EnabledGives(s, a);
    OrderlyGives(s);
    WellRegisteredGives(s);
    ThreadsChange(s, a);
    StagesChange(s, a, NewThreads(s, a));
    var t := Runner(s.threads, j);
    StageOfIs(s, t);
    if Mover(a) == Some(t) {
      RunnerMoves(s, a);
      var g := s.threads[t].stage;
      if g.Update? {
        var k := g.i;
        ThreadInPlace(s, t);
        UpdateInPlace(s, g);
        if k != i {
          AlonePair(s, i, k);
        }
      } else {
        BeingRunIf(NewThreads(s, a), t, j);
      }
    } else {
      SamePending(s.threads[t].stage, NewThreads(s, a)[t].stage);
      BeingRunIf(NewThreads(s, a), t, j);
    }
  }

  lemma UpdateInPlace(s: State, g: Stage)
    requires InPlace(s, g) && g.Update?
    ensures g.i in s.inst && s.inst[g.i].job == g.j
  {
  }

  lemma LogTold(s: State, a: Act)
    requires Mover(a).Some? ==> From(a, StageOf(s, Mover(a).value))
    ensures a.LogTell? ==> Tells(s, a) == Some(a.i)
    ensures a.LogApply? ==> Mover(a) == Some(LOG)
    ensures a.DoWrite? ==> Mover(a) == Some(a.t)
    ensures a.LogNotify? ==> Mover(a) == Some(LOG) && StageOf(s, LOG).Tell?
  {
  }

  lemma AgreementStays(s: State, a: Act, i: InstanceId)
    requires Enabled(s, a) && Orderly(s) && WellRegistered(s) && AllAgree(s)
    requires i in Do(s, a).inst
    ensures AgreesAt(Do(s, a), i)
  {
    hide *;
    var u := Do(s, a);
    EnabledGives(s, a);
    OrderlyGives(s);
    NewState(s, a);
    if Mover(a).Some? {
      MoverIsInPlace(s, a);
    }
    ShapeStays(s, a);
    ShapedGives(u, i);
    var j := u.inst[i].job;
    if i in u.jobs[j].instances && u.inst[i].view.live {
      JoinedBefore(s, a, i);
      ShapedGives(s, i);
      ViewsChange(s, a, i);
      StatesChange(s, a, j);
      var v, job := s.inst[i].view, s.jobs[j].job;
      JobOfIs(s, j);
      ToldAgrees(v, job);
      if Tells(s, a) != Some(i) {
        NotTold(s, a, i, j);
      }
    }
    AgreesAtIf(u, i, j);
  }

  lemma MoverIsInPlace(s: State, a: Act)
    requires Enabled(s, a) && Orderly(s) && Mover(a).Some?
    ensures InPlace(s, StageOf(s, Mover(a).value))
  {
    hide InPlace;
    hide From;
  }

  lemma ShapedGives(s: State, i: InstanceId)
    requires Shaped(s) && i in s.inst
    ensures s.inst[i].job in s.jobs
  {
  }

  lemma JobOfIs(s: State, j: JobId)
    requires j in s.jobs
    ensures JobOf(s, j) == s.jobs[j]
  {
  }

  /** Who follows a job after a step has done so before, or joins it just now. */
  lemma JoinedBefore(s: State, a: Act, i: InstanceId)
    requires Enabled(s, a) && Orderly(s)
    requires var u := Do(s, a); i in u.inst && u.inst[i].job in u.jobs && i in u.jobs[u.inst[i].job].instances
    ensures Mover(a).Some? ==> From(a, StageOf(s, Mover(a).value))
    ensures i in s.inst && s.inst[i].job == Do(s, a).inst[i].job && s.inst[i].job in s.jobs
    ensures i in s.jobs[s.inst[i].job].instances || Tells(s, a) == Some(i)
  {
    hide *;
    EnabledGives(s, a);
    OrderlyGives(s);
    if Mover(a).Some? {
      MoverIsInPlace(s, a);
    }
    if Shapes(s, a) == Some(i) {
      TouchedJoins(s, a, i);
    } else {
      StepReshapes(s, a);
      UntouchedJoined(s, Do(s, a), Shapes(s, a), i);
    }
  }

  lemma UntouchedJoined(s: State, u: State, touched: Option<InstanceId>, i: InstanceId)
    requires Reshaped(s, u, touched) && touched != Some(i) && Shaped(s)
    requires i in u.inst && u.inst[i].job in u.jobs && i in u.jobs[u.inst[i].job].instances
    ensures i in s.inst && s.inst[i].job == u.inst[i].job && s.inst[i].job in s.jobs
    ensures i in s.jobs[s.inst[i].job].instances
  {
    assert SameFor(s, u, i);
  }

  lemma TouchedJoins(s: State, a: Act, i: InstanceId)
    requires Enabled(s, a) && Shaped(s)
    requires Mover(a).Some? ==> From(a, StageOf(s, Mover(a).value)) && InPlace(s, StageOf(s, Mover(a).value))
    requires Shapes(s, a) == Some(i)
    requires var u := Do(s, a); i in u.inst && u.inst[i].job in u.jobs && i in u.jobs[u.inst[i].job].instances
    ensures i in s.inst && s.inst[i].job == Do(s, a).inst[i].job && s.inst[i].job in s.jobs && Tells(s, a) == Some(i)
  {
    hide NewThreads;
    hide NewRegistry;
    hide NewPos;
    hide Updated;
  }

  /** An instance that is not told of anything in a step. */
  lemma NotTold(s: State, a: Act, i: InstanceId, j: JobId)
    requires Enabled(s, a) && Orderly(s) && WellRegistered(s) && AllAgree(s)
    requires Mover(a).Some? ==> From(a, StageOf(s, Mover(a).value))
    requires i in s.inst && s.inst[i].job == j && j in s.jobs && i in s.jobs[j].instances
    requires i in Do(s, a).inst && j in Do(s, a).jobs && Do(s, a).inst[i].view.live && s.inst[i].view.live
    requires Tells(s, a) != Some(i)
    requires var v, w, state := Do(s, a).inst[i].view, s.inst[i].view, s.jobs[j].job.state;
             v == w || v == Read(w, state) || v == Refreshed(w, state)
    ensures var u := Do(s, a);
            Agrees(u.inst[i].view, u.jobs[j].job.state) || ToBeTold(u, i, j) || BeingRun(u.threads, j)
  {
    hide *;
    var u := Do(s, a);
    EnabledGives(s, a);
    OrderlyGives(s);
    NewState(s, a);
    ThreadsChange(s, a);
    StagesChange(s, a, NewThreads(s, a));
    LogIsThere(s);
    StageOfIs(s, LOG);
    StageOfIs(u, LOG);
    AgreesAtGives(s, i);
    ToldAgrees(s.inst[i].view, s.jobs[j].job);
    if ToBeTold(s, i, j) {
      LogTold(s, a);
      StillToBeTold(s, a, u, i, j);
    } else if BeingRun(s.threads, j) {
      StillBeingRun(s, a, i, j);
    } else {
      StatesAreTold(s, a, i, j);
    }
  }

  /** A step that changes a job's state is about to tell its instances. */
  lemma StatesAreTold(s: State, a: Act, i: InstanceId, j: JobId)
    requires Enabled(s, a) && AllFit(s.threads)
    requires Mover(a).Some? ==> From(a, StageOf(s, Mover(a).value))
    requires j in s.jobs && i in s.jobs[j].instances && i in Do(s, a).inst && j in Do(s, a).jobs
    requires Agrees(Do(s, a).inst[i].view, s.jobs[j].job.state)
    ensures var u := Do(s, a);
            Agrees(u.inst[i].view, u.jobs[j].job.state) || ToBeTold(u, i, j) || BeingRun(u.threads, j)
  {
    hide *;
    var u := Do(s, a);
    EnabledGives(s, a);
    NewState(s, a);
    ThreadsChange(s, a);
    StagesChange(s, a, NewThreads(s, a));
    LogIsThere(s);
    StageOfIs(s, LOG);
    StageOfIs(u, LOG);
    LogTold(s, a);
    StatesChange(s, a, j);
    var g := StageOf(s, LOG);
    if Mover(a) == Some(LOG) {
      DeliverApplies(a, g);
    }
    if a.LogApply? && g.j == j && CurrentEffect(s).Some? {
      JobOfIs(s, j);
      NewlyToBeTold(s, g, u, i);
    } else if a.DoWrite? && StageOf(s, a.t).j == j {
      RunnerMoves(s, a);
      BeingRunIf(u.threads, a.t, j);
    }
  }

  lemma AgreementsStay(s: State, a: Act)
    requires Enabled(s, a) && Orderly(s) && WellRegistered(s) && AllAgree(s)
    ensures AllAgree(Do(s, a))
  {
    hide *;
    var u := Do(s, a);
    forall i | i in u.inst ensures AgreesAt(u, i) {
      AgreementStays(s, a, i);
    }
    AllAgreeIf(u);
  }

  lemma AllAgreeIf(s: State)
    requires forall i | i in s.inst :: AgreesAt(s, i)
    ensures AllAgree(s)
  {
    hide AgreesAt;
  }

  /** Nobody has the job locked. */
  predicate Unlocked(h: Threads, j: JobId) {
    forall t | t in h :: h[t].job != Some(j)
  }

  lemma HolderIsUntold(s: State, i: InstanceId, j: JobId, t: ThreadId)
    requires AllFit(s.threads) && Exclusive(s.threads) && t in s.threads && s.threads[t].job == Some(j)
    requires s.threads[t].stage.Test? || s.threads[t].stage.Look?
    ensures !ToBeTold(s, i, j) && !BeingRun(s.threads, j)
  {
    assert LocksFit(s.threads[LOG]);
    forall u | u in s.threads && (s.threads[u].stage.Register? || s.threads[u].stage.Update?)
      ensures s.threads[u].stage.j != j
    {
      assert LocksFit(s.threads[u]);
    }
  }

  lemma UnlockedIsUntold(s: State, i: InstanceId, j: JobId)
    requires AllFit(s.threads) && Unlocked(s.threads, j)
    ensures !ToBeTold(s, i, j) && !BeingRun(s.threads, j)
  {
    assert LocksFit(s.threads[LOG]);
    forall u | u in s.threads && (s.threads[u].stage.Register? || s.threads[u].stage.Update?)
      ensures s.threads[u].stage.j != j
    {
      assert LocksFit(s.threads[u]);
    }
  }

  /** Cache agreement: whenever the job is not locked, each instance that follows it and whose proxy
      lives shows the job's state in its metric, and has it cached or knows that the cache is out of
      date. */
  lemma CacheAgreement(s: State, i: InstanceId, j: JobId)
    requires Orderly(s) && AllAgree(s) && Joined(s, i, j) && s.inst[i].view.live && Unlocked(s.threads, j)
    ensures Agrees(s.inst[i].view, s.jobs[j].job.state)
  {
    hide *;
    OrderlyGives(s);
    JoinedGives(s, i, j);
    AgreesAtGives(s, i);
    UnlockedIsUntold(s, i, j);
  }

  lemma JoinedGives(s: State, i: InstanceId, j: JobId)
    requires Joined(s, i, j)
    ensures i in s.inst && s.inst[i].job == j && j in s.jobs && i in s.jobs[j].instances
  {
  }

  // ----- Waiting -----

  /** Whoever sleeps without having been notified, at an instance whose proxy lives, waits for a job
      that is not final, unless the log thread is about to notify all who wait for it. */
  predicate SleepsWell(s: State, g: Stage) {
    g.Sleep? && !g.notified && g.i in s.inst && s.inst[g.i].view.live && g.j in s.jobs ==>
      !Final(s.jobs[g.j].job.state) || (StageOf(s, LOG).Tell? && StageOf(s, LOG).j == g.j)
  }

  predicate AllSleepWell(s: State) {
    forall t | t in s.threads :: SleepsWell(s, s.threads[t].stage)
  }

  /** A test of the state, with the job locked, sees the state as it is. */
  lemma TestSees(s: State, t: ThreadId)
    requires At(s, t) && Orderly(s) && AllAgree(s) && s.threads[t].stage.Test?
    ensures var g := s.threads[t].stage;
            && g.i in s.inst && g.j in s.jobs
            && (s.inst[g.i].view.live ==> Looked(s, g.i).view.cached == s.jobs[g.j].job.state)
  {
    hide *;
    OrderlyGives(s);
    TestHolds(s, t);
    ThreadInPlace(s, t);
    var g := s.threads[t].stage;
    TestInPlace(s, g);
    if s.inst[g.i].view.live {
      AgreesAtGives(s, g.i);
      HolderIsUntold(s, g.i, g.j, t);
      LookedAgrees(s, g.i);
    }
  }

  lemma TestInPlace(s: State, g: Stage)
    requires InPlace(s, g) && (g.Test? || g.Sleep?)
    ensures g.i in s.inst && s.inst[g.i].job == g.j && g.j in s.jobs && g.i in s.jobs[g.j].instances
  {
  }

  lemma TestHolds(s: State, t: ThreadId)
    requires At(s, t) && AllFit(s.threads) && s.threads[t].stage.Test?
    ensures t in s.threads && s.threads[t].job == Some(s.threads[t].stage.j)
  {
    assert LocksFit(s.threads[t]);
  }

  lemma LookedAgrees(s: State, i: InstanceId)
    requires i in s.inst && s.inst[i].job in s.jobs && Agrees(s.inst[i].view, s.jobs[s.inst[i].job].job.state)
    ensures Looked(s, i).view.cached == s.jobs[s.inst[i].job].job.state
  {
  }

  /** When a wait returns because of its test, the state is final at that moment; a wait without a time
      limit returns in no other way. */
  lemma WaitReturnsFinal(s: State, a: Act)
    requires Enabled(s, a) && Orderly(s) && WellRegistered(s) && AllAgree(s) && a.DoTest?
    ensures s.threads[a.t].stage.Test? && s.threads[a.t].stage.i in s.inst && s.threads[a.t].stage.j in s.jobs
    ensures var g := s.threads[a.t].stage;
            && From(a, StageOf(s, a.t))
            && (To(s, a).Idle? && !g.timed ==> Final(Looked(s, g.i).view.cached))
            && (To(s, a).Idle? && !g.expired && s.inst[g.i].view.live ==> Final(s.jobs[g.j].job.state))
            && (Final(s.jobs[g.j].job.state) && s.inst[g.i].view.live ==> To(s, a).Idle?)
  {
    TestEnabled(s, a);
    TestSees(s, a.t);
    hide Enabled;
    hide Orderly;
    hide Looked;
    hide AllAgree;
    assert Facts(s, s.threads[a.t].stage);
    hide WellRegistered;
  }

  lemma TestEnabled(s: State, a: Act)
    requires Enabled(s, a) && a.DoTest?
    ensures At(s, a.t) && s.threads[a.t].stage.Test? && From(a, StageOf(s, a.t)) && Mover(a) == Some(a.t)
    ensures StageOf(s, a.t) == s.threads[a.t].stage
  {
  }

  lemma SleepersMove(s: State, a: Act)
    requires Mover(a).Some? && From(a, StageOf(s, Mover(a).value))
    ensures To(s, a).Sleep? ==>
              && a.DoTest? && Mover(a) == Some(a.t)
              && var g := StageOf(s, a.t);
                 To(s, a).i == g.i && To(s, a).j == g.j && !Final(Looked(s, g.i).view.cached)
  {
    hide StageOf;
    hide Looked;
    hide EntryTarget;
    hide CurrentEffect;
    hide Answered;
    hide CanRead;
    hide InstanceOf;
    hide JobOf;
  }

  /** Telling goes on with the same job, until the waiters are notified. */
  lemma TellerTells(s: State, a: Act, g: Stage, to: Stage)
    requires g == StageOf(s, LOG) && g.Tell? && Mover(a) == Some(LOG) && From(a, g) && to == To(s, a)
    ensures a.LogNotify? || (a.LogTell? && to == Tell(g.j, g.left - {a.i}))
  {
    hide StageOf;
    hide Looked;
    hide EntryTarget;
    hide CurrentEffect;
    hide Answered;
    hide CanRead;
    hide InstanceOf;
    hide JobOf;
  }

  /** The log thread is at a job from applying an entry to notifying the waiters. */
  lemma LogStays(s: State, a: Act, g: Stage, to: Stage)
    requires g == StageOf(s, LOG) && Mover(a) == Some(LOG) && From(a, g) && to == To(s, a)
    ensures a.LogApply? ==> g.Deliver? && (CurrentEffect(s).Some? ==> to.Tell? && to.j == g.j)
    ensures g.Tell? ==> a.LogNotify? || (a.LogTell? && to.Tell? && to.j == g.j)
    ensures a.LogNotify? ==> g.Tell?
  {
    hide *;
    DeliverApplies(a, g);
    if a.LogApply? {
      ApplyTells(s, g, to);
    } else if g.Tell? {
      TellerTells(s, a, g, to);
    }
  }

  lemma NotifyWakes(s: State, a: Act, t: ThreadId)
    requires Enabled(s, a) && a.LogNotify? && t in s.threads && t != LOG && s.threads[t].stage.Sleep?
    requires s.threads[t].stage.j == StageOf(s, LOG).j
    ensures t in NewThreads(s, a) && NewThreads(s, a)[t].stage.Sleep? && NewThreads(s, a)[t].stage.notified
  {
  }

  lemma SleepsWellIf(s: State, g: Stage)
    requires g.Sleep? && !g.notified && g.i in s.inst && s.inst[g.i].view.live && g.j in s.jobs ==>
               !Final(s.jobs[g.j].job.state) || (StageOf(s, LOG).Tell? && StageOf(s, LOG).j == g.j)
    ensures SleepsWell(s, g)
  {
  }

  lemma SleepsWellGives(s: State, t: ThreadId)
    requires AllSleepWell(s) && t in s.threads
    ensures var g := s.threads[t].stage;
            g.Sleep? && !g.notified && g.i in s.inst && s.inst[g.i].view.live && g.j in s.jobs ==>
              !Final(s.jobs[g.j].job.state) || (StageOf(s, LOG).Tell? && StageOf(s, LOG).j == g.j)
  {
    assert SleepsWell(s, s.threads[t].stage);
    hide StageOf;
  }

  lemma RunningIsNotFinal()
    ensures !Final(Running)
  {
  }

  lemma SameSleep(g: Stage, g': Stage)
    requires Same(g, g')
    ensures g'.Sleep? ==> g.Sleep? && g'.i == g.i && g'.j == g.j && (!g'.notified ==> !g.notified)
    ensures g.Tell? ==> g' == g
  {
  }

  /** Who falls asleep has just seen that the state is not final. */
  lemma MoverSleepsWell(s: State, a: Act)
    requires Enabled(s, a) && Orderly(s) && WellRegistered(s) && AllAgree(s)
    requires Mover(a).Some? && From(a, StageOf(s, Mover(a).value))
    ensures SleepsWell(Do(s, a), To(s, a))
  {
    hide *;
    var u, g := Do(s, a), To(s, a);
    OrderlyGives(s);
    NewState(s, a);
    SleepersMove(s, a);
    MoverIsInPlace(s, a);
    if g.Sleep? && !g.notified && g.i in u.inst && u.inst[g.i].view.live && g.j in u.jobs {
      TestEnabled(s, a);
      TestSees(s, a.t);
      ViewsChange(s, a, g.i);
      StatesChange(s, a, g.j);
    }
    SleepsWellIf(u, g);
  }

  lemma OtherSleepsWell(s: State, a: Act, t: ThreadId)
    requires Enabled(s, a) && Orderly(s) && AllSleepWell(s) && Mover(a) != Some(t)
    requires t in s.threads && t in Do(s, a).threads && Same(s.threads[t].stage, Do(s, a).threads[t].stage)
    requires Mover(a).Some? ==> From(a, StageOf(s, Mover(a).value))
    requires var h, k := s.threads, Do(s, a).threads;
             && LOG in h && LOG in k && StageOf(s, LOG) == h[LOG].stage && StageOf(Do(s, a), LOG) == k[LOG].stage
             && if Mover(a) == Some(LOG) then k[LOG].stage == To(s, a) else Same(h[LOG].stage, k[LOG].stage)
    ensures SleepsWell(Do(s, a), Do(s, a).threads[t].stage)
  {
    hide *;
    var u := Do(s, a);
    var g, k := u.threads[t].stage, s.threads[t].stage;
    OrderlyGives(s);
    NewState(s, a);
    LogTold(s, a);
    RunningIsNotFinal();
    if Mover(a).Some? {
      RunnerMoves(s, a);
      MoverIsInPlace(s, a);
    }
    SameSleep(k, g);
    if g.Sleep? && !g.notified && g.i in u.inst && u.inst[g.i].view.live && g.j in u.jobs {
      if Mover(a) == Some(LOG) {
        LogStays(s, a, StageOf(s, LOG), u.threads[LOG].stage);
      } else {
        SameSleep(s.threads[LOG].stage, u.threads[LOG].stage);
      }
      ThreadInPlace(s, t);
      TestInPlace(s, k);
      ViewsChange(s, a, g.i);
      StatesChange(s, a, g.j);
      SleepsWellGives(s, t);
      if a.LogNotify? && k.j == StageOf(s, LOG).j {
        NotifyWakes(s, a, t);
      }
    }
    SleepsWellIf(u, g);
  }

  lemma SleepStays(s: State, a: Act, t: ThreadId)
    requires Enabled(s, a) && Orderly(s) && WellRegistered(s) && AllAgree(s) && AllSleepWell(s)
    requires t in Do(s, a).threads
    ensures SleepsWell(Do(s, a), Do(s, a).threads[t].stage)
  {
    hide *;
    EnabledGives(s, a);
    OrderlyGives(s);
    NewState(s, a);
    ThreadsChange(s, a);
    StagesChange(s, a, NewThreads(s, a));
    if Mover(a) == Some(t) {
      MoverSleepsWell(s, a);
    } else {
      LogIsThere(s);
      StageOfIs(s, LOG);
      StageOfIs(Do(s, a), LOG);
      OtherSleepsWell(s, a, t);
    }
  }

  lemma SleepersStay(s: State, a: Act)
    requires Enabled(s, a) && Orderly(s) && WellRegistered(s) && AllAgree(s) && AllSleepWell(s)
    ensures AllSleepWell(Do(s, a))
  {
    hide *;
    var u := Do(s, a);
    forall t | t in u.threads ensures SleepsWell(u, u.threads[t].stage) {
      SleepStays(s, a, t);
    }
    AllSleepWellIf(u);
  }

  lemma AllSleepWellIf(s: State)
    requires forall t | t in s.threads :: SleepsWell(s, s.threads[t].stage)
    ensures AllSleepWell(s)
  {
    hide SleepsWell;
  }

  /** No lost wake-up: whenever the job is not locked and final, nobody sleeps at an instance with a
      living proxy without having been notified. */
  lemma NoLostWakeUp(s: State, t: ThreadId)
    requires Orderly(s) && AllSleepWell(s) && t in s.threads && s.threads[t].stage.Sleep?
    requires var g := s.threads[t].stage;
             g.i in s.inst && s.inst[g.i].view.live && g.j in s.jobs
             && Final(s.jobs[g.j].job.state) && Unlocked(s.threads, g.j)
    ensures s.threads[t].stage.notified
  {
    hide *;
    OrderlyGives(s);
    SleepsWellGives(s, t);
    TellIsLocked(s, s.threads[t].stage.j);
  }

  lemma TellIsLocked(s: State, j: JobId)
    requires AllFit(s.threads) && Unlocked(s.threads, j)
    ensures !(StageOf(s, LOG).Tell? && StageOf(s, LOG).j == j)
  {
    assert LocksFit(s.threads[LOG]);
  }
}
