/** What waiting threads wait for, in every run. */
module ProtocolWaits {
  import opened Text
  import opened ClassAds
  import opened Events
  import opened Protocol
  import opened ProtocolLocks
  import opened ProtocolPlaces
  import opened ProtocolRegistry
  import opened ProtocolLog
  import opened ProtocolInstances
  import opened ProtocolRuns

  // ----- Nobody waits for a job that has not been started -----

  /** The thread is past the tests that a job must pass before one waits for it. */
  predicate IsWaiting(g: Stage) {
    g.Test? || g.Sleep? || ((g.Ask? || g.Look? || g.Answer?) && g.question.IsFinished?)
  }

  /** The job has an ID: it has been submitted, or it was found running. */
  predicate Started(s: State, g: Stage) {
    IsWaiting(g) ==> Mentions(g).Some? && g.j in s.jobs && s.jobs[g.j].cluster.Some?
  }

  predicate AllStarted(s: State) {
    forall t | t in s.threads :: Started(s, s.threads[t].stage)
  }

  lemma SameWaiting(s: State, g: Stage, g': Stage)
    requires Same(g, g')
    ensures Started(s, g) <==> Started(s, g')
  {
  }

  /** Whoever begins to wait has looked whether the job has an ID; whoever goes on waiting stays at the job. */
  lemma WaitingMoves(s: State, a: Act)
    requires Mover(a).Some? && From(a, StageOf(s, Mover(a).value)) && Started(s, StageOf(s, Mover(a).value))
    requires InPlace(s, StageOf(s, Mover(a).value))
    ensures Started(s, To(s, a))
  {
    hide Looked;
    hide EntryTarget;
    hide CurrentEffect;
    hide CanRead;
    hide StageOf;
  }

  lemma StartedStays(s: State, a: Act, g: Stage)
    requires Enabled(s, a) && Orderly(s) && WellRegistered(s) && Started(s, g)
    ensures Started(Do(s, a), g)
  {
    hide *;
    OrderlyGives(s);
    WellRegisteredGives(s);
    StepKeeps(s, a);
    StartedKept(s, Do(s, a), Written(s, a), Added(s, a), g);
  }

  lemma StartedKept(s: State, u: State, written: Option<JobId>, added: Option<string>, g: Stage)
    requires Keeps(s, u, written, added) && Started(s, g)
    ensures Started(u, g)
  {
    hide Entered;
  }

  lemma AllStartedStays(s: State, a: Act)
    requires Enabled(s, a) && Orderly(s) && WellRegistered(s) && AllStarted(s)
    ensures AllStarted(Do(s, a))
  {
    hide *;
    var u := Do(s, a);
    EnabledGives(s, a);
    OrderlyGives(s);
    ThreadsChange(s, a);
    StagesChange(s, a, NewThreads(s, a));
    NewState(s, a);
    if Mover(a).Some? {
      AllStartedGives(s, Mover(a).value);
      ThreadInPlace(s, Mover(a).value);
      WaitingMoves(s, a);
      StartedStays(s, a, To(s, a));
    }
    forall t | t in u.threads ensures Started(u, u.threads[t].stage) {
      if Mover(a) != Some(t) {
        AllStartedGives(s, t);
        SameWaiting(s, s.threads[t].stage, u.threads[t].stage);
        StartedStays(s, a, u.threads[t].stage);
      }
    }
    AllStartedIf(u);
  }

  lemma AllStartedGives(s: State, t: ThreadId)
    requires AllStarted(s) && t in s.threads
    ensures Started(s, s.threads[t].stage)
  {
    hide Started;
  }

  lemma AllStartedIf(s: State)
    requires forall t | t in s.threads :: Started(s, s.threads[t].stage)
    ensures AllStarted(s)
  {
    hide Started;
  }

  lemma {:induction false} RunIsStarted(users: set<ThreadId>, acts: seq<Act>)
    ensures AllStarted(After(users, acts))
  {
    hide Do;
    hide Enabled;
    hide AllStarted;
    if acts == [] {
      NobodyWaits(users);
    } else {
      var s, a := After(users, acts[..|acts| - 1]), acts[|acts| - 1];
      RunIsGood(users, acts[..|acts| - 1]);
      GoodGives(s);
      hide Good;
      RunIsStarted(users, acts[..|acts| - 1]);
      if Enabled(s, a) {
        AllStartedStays(s, a);
      }
    }
  }

  lemma NobodyWaits(users: set<ThreadId>)
    ensures AllStarted(Start(users))
  {
  }

  /** In every reachable state, whoever sleeps on a job or is about to test its state waits for one that has been
      submitted or was found running; sync_wait and sync_cancel refuse all others. */
  lemma WaitersHaveStarted(users: set<ThreadId>, acts: seq<Act>, t: ThreadId)
    requires var s := After(users, acts);
             && t in s.threads
             && var g := s.threads[t].stage;
                g.Test? || g.Sleep? || ((g.Ask? || g.Look? || g.Answer?) && g.question.IsFinished?)
    ensures var s := After(users, acts);
            s.threads[t].stage.j in s.jobs && s.jobs[s.threads[t].stage.j].cluster.Some?
  {
    var s := After(users, acts);
    RunIsStarted(users, acts);
    hide After;
    AllStartedGives(s, t);
    hide AllStarted;
  }

  // ----- A wait without a limit -----

  /** In every reachable state, a wait without a time limit goes on through every step, at the same instance and
      without a limit, until its own test has seen a state that is Done, Canceled or Failed. */
  lemma UntimedWaitGoesOn(users: set<ThreadId>, acts: seq<Act>, t: ThreadId, a: Act)
    requires var s := After(users, acts);
             && Enabled(s, a) && t in s.threads
             && (s.threads[t].stage.Test? || s.threads[t].stage.Sleep?) && !s.threads[t].stage.timed
    ensures var s, u := After(users, acts), Do(After(users, acts), a);
            && t in u.threads
            && var g, to := s.threads[t].stage, u.threads[t].stage;
               || ((to.Test? || to.Sleep?) && to.i == g.i && to.j == g.j && !to.timed)
               || (a == DoTest(t) && to.Idle? && Looked(s, g.i).view.cached in {Done, Canceled, Failed})
  {
    FinalStates();
    hide *;
    var s := After(users, acts);
    RunIsGood(users, acts);
    GoodGives(s);
    OrderlyGives(s);
    WellRegisteredGives(s);
    EnabledGives(s, a);
    ThreadsChange(s, a);
    StagesChange(s, a, NewThreads(s, a));
    NewState(s, a);
    ThreadFacts(s, t);
    if Mover(a) == Some(t) {
      UntimedMoves(s, a, t);
    } else {
      SameWait(s.threads[t].stage, Do(s, a).threads[t].stage);
    }
  }

  lemma UntimedMoves(s: State, a: Act, t: ThreadId)
    requires Mover(a) == Some(t) && From(a, StageOf(s, t)) && Facts(s, StageOf(s, t))
    requires (StageOf(s, t).Test? || StageOf(s, t).Sleep?) && !StageOf(s, t).timed
    ensures var g, to := StageOf(s, t), To(s, a);
            || ((to.Test? || to.Sleep?) && to.i == g.i && to.j == g.j && !to.timed)
            || (a == DoTest(t) && to.Idle? && Final(Looked(s, g.i).view.cached))
  {
    hide StageOf;
    hide Looked;
    hide EntryTarget;
    hide CurrentEffect;
    hide CanRead;
  }

  lemma SameWait(g: Stage, to: Stage)
    requires Same(g, to) && (g.Test? || g.Sleep?)
    ensures (to.Test? || to.Sleep?) && to.i == g.i && to.j == g.j && to.timed == g.timed
  {
  }

  /** A wait with a time limit ends when the limit has expired: it wakes up for its last test, and that test ends it
      whatever the state is. */
  lemma ExpiredWaitEnds(users: set<ThreadId>, acts: seq<Act>, t: ThreadId)
    ensures var s := After(users, acts);
            Enabled(s, DoWake(t, true)) ==>
              && t in s.threads && s.threads[t].stage.Sleep? && s.threads[t].stage.timed
              && var g, u := s.threads[t].stage, Do(s, DoWake(t, true));
                 t in u.threads && u.threads[t].stage == Test(g.i, g.j, true, true)
    ensures var s := After(users, acts);
            Enabled(s, DoTest(t)) && s.threads[t].stage.Test? && s.threads[t].stage.expired ==>
              t in Do(s, DoTest(t)).threads && Do(s, DoTest(t)).threads[t].stage.Idle?
  {
    var s := After(users, acts);
    hide After;
    if Enabled(s, DoWake(t, true)) {
      WakeLeads(s, t);
    }
    if Enabled(s, DoTest(t)) && s.threads[t].stage.Test? && s.threads[t].stage.expired {
      LastTestLeads(s, t);
    }
    hide Enabled;
    hide Do;
  }

  lemma WakeLeads(s: State, t: ThreadId)
    requires Enabled(s, DoWake(t, true))
    ensures t in s.threads && s.threads[t].stage.Sleep? && s.threads[t].stage.timed
    ensures var g, u := s.threads[t].stage, Do(s, DoWake(t, true));
            t in u.threads && u.threads[t].stage == Test(g.i, g.j, true, true)
  {
    NewState(s, DoWake(t, true));
    hide Do;
  }

  lemma LastTestLeads(s: State, t: ThreadId)
    requires Enabled(s, DoTest(t)) && s.threads[t].stage.Test? && s.threads[t].stage.expired
    ensures t in Do(s, DoTest(t)).threads && Do(s, DoTest(t)).threads[t].stage.Idle?
  {
    NewState(s, DoTest(t));
    hide Do;
    hide Looked;
  }

  // ----- Before a job is started -----

  /** In every reachable state a job without an ID is New and has no attributes, and one that has been submitted has
      a number. */
  lemma JobsBeginAsNew(users: set<ThreadId>, acts: seq<Act>, j: JobId)
    requires j in After(users, acts).jobs
    ensures var d := After(users, acts).jobs[j];
            && (d.cluster == None ==> d.job == Job(New, map[]) && !d.submitted)
            && (d.submitted ==>
                  d.cluster.Some? && d.cluster.value != "" && forall c | c in d.cluster.value :: '0' <= c <= '9')
  {
    var s := After(users, acts);
    RunIsGood(users, acts);
    hide After;
    GoodGives(s);
    hide Good;
    WellRegisteredGives(s);
    hide WellRegistered;
    assert BlankAt(s, j);
  }

  /** In every reachable state a job that is about to be submitted is New and has no ID. */
  lemma OnlyNewJobsAreSubmitted(users: set<ThreadId>, acts: seq<Act>, t: ThreadId)
    requires var s := After(users, acts); t in s.threads && s.threads[t].stage.Submit?
    ensures var s := After(users, acts);
            var j := s.threads[t].stage.j;
            j in s.jobs && s.jobs[j].cluster == None && s.jobs[j].job == Job(New, map[])
  {
    var s := After(users, acts);
    RunIsGood(users, acts);
    hide After;
    GoodGives(s);
    hide Good;
    WellRegisteredGives(s);
    hide WellRegistered;
    ThreadFacts(s, t);
    assert BlankAt(s, s.threads[t].stage.j);
  }

  // ----- What one is told of the state -----

  /** In every reachable state: who asks at an instance that has been told of a change looks, with the job locked, at
      the state as it is, and the instance then has it cached; at other instances the cached state is the
      answer. */
  lemma AskersLook(users: set<ThreadId>, acts: seq<Act>, a: Act)
    requires Enabled(After(users, acts), a) && (a.DoAsk? || a.DoLook?)
    ensures var s := After(users, acts);
            var g := StageOf(s, a.t);
            && From(a, g) && g.i in s.inst && s.inst[g.i].job == g.j && g.j in s.jobs
            && (a.DoAsk? && s.inst[g.i].view.changed ==> To(s, a) == Look(g.i, g.j, g.question))
            && (a.DoAsk? && !s.inst[g.i].view.changed ==> To(s, a) == Answer(g.i, g.j, g.question))
            && (a.DoLook? ==>
                  && To(s, a) == Answer(g.i, g.j, g.question) && s.threads[a.t].job == Some(g.j)
                  && g.i in Do(s, a).inst
                  && Do(s, a).inst[g.i].view.cached == s.jobs[g.j].job.state && !Do(s, a).inst[g.i].view.changed)
  {
    var s := After(users, acts);
    RunIsGood(users, acts);
    hide After;
    GoodGives(s);
    OrderlyGives(s);
    hide Good;
    EnabledGives(s, a);
    hide Orderly;
    AskerStands(s, a);
    ThreadInPlace(s, a.t);
    AskerInPlace(s, s.threads[a.t].stage);
    hide InPlace;
    hide AllInPlace;
    NewState(s, a);
    AskerLeads(s, a);
    hide Do;
    hide To;
    hide Enabled;
    hide NewInst;
  }

  lemma AskerStands(s: State, a: Act)
    requires Enabled(s, a) && (a.DoAsk? || a.DoLook?) && AllFit(s.threads)
    ensures a.t in s.threads && Mover(a) == Some(a.t) && From(a, StageOf(s, a.t))
    ensures s.threads[a.t].stage == StageOf(s, a.t)
    ensures if a.DoAsk? then StageOf(s, a.t).Ask? else StageOf(s, a.t).Look?
    ensures a.DoLook? ==> s.threads[a.t].job == Some(StageOf(s, a.t).j)
  {
    assert LocksFit(s.threads[a.t]);
  }

  lemma AskerInPlace(s: State, g: Stage)
    requires InPlace(s, g) && (g.Ask? || g.Look?)
    ensures g.i in s.inst && s.inst[g.i].job == g.j && g.j in s.jobs
  {
  }

  lemma AskerLeads(s: State, a: Act)
    requires Enabled(s, a) && (a.DoAsk? || a.DoLook?) && From(a, StageOf(s, a.t))
    requires s.threads[a.t].stage == StageOf(s, a.t)
    requires var g := StageOf(s, a.t); g.i in s.inst && s.inst[g.i].job == g.j && g.j in s.jobs
    ensures var g := StageOf(s, a.t);
            && (a.DoAsk? && s.inst[g.i].view.changed ==> To(s, a) == Look(g.i, g.j, g.question))
            && (a.DoAsk? && !s.inst[g.i].view.changed ==> To(s, a) == Answer(g.i, g.j, g.question))
            && (a.DoLook? ==>
                  && To(s, a) == Answer(g.i, g.j, g.question) && g.i in NewInst(s, a)
                  && NewInst(s, a)[g.i].view.cached == s.jobs[g.j].job.state && !NewInst(s, a)[g.i].view.changed)
  {
    hide StageOf;
  }

  // ----- Constructors -----

  /** An instance that has just been made lives, and has New in its metric and in its cache. */
  lemma InstancesBeginAsNew(s: State, a: Act)
    requires Enabled(s, a)
    ensures a.StartCreate? ==>
              a.i in Do(s, a).inst && Do(s, a).inst[a.i] == Holder(a.made, Instance(true, map[], New, [], false, New))
    ensures a.DoFind? && s.threads[a.t].stage.id in s.registry ==>
              var g := s.threads[a.t].stage;
              && g.i in Do(s, a).inst
              && Do(s, a).inst[g.i] == Holder(s.registry[g.id], Instance(true, map[], New, [], false, New))
    ensures a.DoAwait? && s.threads[a.t].stage.purpose.ForAttach? ==>
              var p := s.threads[a.t].stage.purpose;
              && p.i in Do(s, a).inst
              && Do(s, a).inst[p.i] == Holder(a.made, Instance(true, map[], New, [], false, New))
              && a.made in Do(s, a).jobs
              && Do(s, a).jobs[a.made] == SharedJob(Job(p.state, map[]), Some(p.id), false, {})
  {
    NewState(s, a);
    hide Do;
    hide NewThreads;
    hide NewRegistry;
    hide NewPos;
  }

  /** Attaching to a job that condor_q does not know fails and leaves nothing behind; otherwise the state that
      condor_q has given goes on to the new job. */
  lemma UnknownJobIsRefused(s: State, t: ThreadId, answer: Option<JobState>)
    requires Enabled(s, DoQuery(t, answer)) && AllFit(s.threads)
    ensures var u, g := Do(s, DoQuery(t, answer)), s.threads[t].stage;
            && g.Query? && u.jobs == s.jobs && u.inst == s.inst && u.registry == s.registry && t in u.threads
            && u.threads[t].stage
               == if answer.None? then Idle else OpenLog(ForAttach(g.i, g.id, answer.value))
  {
    NewState(s, DoQuery(t, answer));
    hide Do;
  }
}
