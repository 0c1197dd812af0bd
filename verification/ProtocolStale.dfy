/** A run of the protocol in which sync_wait returns on a state that is out of date. */
module ProtocolStale {
  import opened Text
  import opened ClassAds
  import opened Events
  import opened Protocol
  import opened ProtocolLocks
  import opened ProtocolRuns

  const ID := "1"
  const WAIT := IsFinished(Forever)
  const USERS: set<ThreadId> := {1}

  /** One user thread, one job and one instance of it. */
  function Scene(user: Thread, log: Thread, jobs: map<JobId, SharedJob>, inst: map<InstanceId, Holder>,
                 registry: map<string, JobId>, entries: seq<Ad>): State
  {
    State(map[LOG := log, 1 := user], jobs, inst, registry, entries, 0, 0, {ID})
  }

  function Free(g: Stage): Thread {
    Thread(g, 0, None, Nothing)
  }

  function ForReg(g: Stage): Thread {
    Thread(g, 0, None, Reg)
  }

  function WithReg(g: Stage): Thread {
    Thread(g, 1, None, Nothing)
  }

  function ForJob(g: Stage): Thread {
    Thread(g, 0, None, JobLock(0))
  }

  function WithJob(g: Stage): Thread {
    Thread(g, 0, Some(0), Nothing)
  }

  predicate Takes(s: State, a: Act, t: State) {
    Enabled(s, a) && Do(s, a) == t
  }

  const PURPOSE := ForAttach(0, ID, Failed)
  const ENTERED: map<string, JobId> := map[ID := 0]
  const FOUND: map<JobId, SharedJob> := map[0 := SharedJob(Job(Failed, map[]), Some(ID), false, {})]
  const JOINED: map<JobId, SharedJob> := map[0 := SharedJob(Job(Failed, map[]), Some(ID), false, {0})]
  const EMPTY: map<InstanceId, Holder> := map[0 := Holder(0, FRESH)]
  const TOLD: map<InstanceId, Holder> := map[0 := Holder(0, Instance(true, map[], Failed, [Failed], true, New))]
  const LOOKED: map<InstanceId, Holder> := map[0 := Holder(0, Instance(true, map[], Failed, [Failed], false, Failed))]

  lemma IdAppears()
    ensures Takes(Start(USERS), Appear(ID),
                  Scene(FREE, Free(Absent), map[], map[], map[], []))
  {
  }

  lemma AttachBegins()
    ensures Takes(Scene(FREE, Free(Absent), map[], map[], map[], []), StartAttach(1, 0, ID),
                  Scene(ForReg(Find(0, ID)), Free(Absent), map[], map[], map[], []))
  {
  }

  lemma NothingIsFound()
    ensures Takes(Scene(WithReg(Find(0, ID)), Free(Absent), map[], map[], map[], []), DoFind(1),
                  Scene(Free(Query(0, ID)), Free(Absent), map[], map[], map[], []))
  {
  }

  lemma CondorAnswers()
    ensures Takes(Scene(Free(Query(0, ID)), Free(Absent), map[], map[], map[], []), DoQuery(1, Some(Failed)),
                  Scene(ForReg(OpenLog(PURPOSE)), Free(Absent), map[], map[], map[], []))
  {
  }

  lemma LogIsOpened()
    ensures Takes(Scene(WithReg(OpenLog(PURPOSE)), Free(Absent), map[], map[], map[], []), DoOpen(1),
                  Scene(WithReg(AwaitLog(PURPOSE)), Free(Init), map[], map[], map[], []))
  {
  }

  lemma LogThreadBegins()
    ensures Takes(Scene(WithReg(AwaitLog(PURPOSE)), Free(Init), map[], map[], map[], []), LogInit,
                  Scene(WithReg(AwaitLog(PURPOSE)), Free(Next), map[], map[], map[], []))
  {
  }

  lemma LogIsAwaited()
    ensures Takes(Scene(WithReg(AwaitLog(PURPOSE)), Free(Next), map[], map[], map[], []), DoAwait(1, 0),
                  Scene(ForReg(Enter(0, 0)), Free(Next), FOUND, EMPTY, map[], []))
  {
  }

  lemma DataAreEntered()
    ensures Takes(Scene(WithReg(Enter(0, 0)), Free(Next), FOUND, EMPTY, map[], []), DoEnter(1),
                  Scene(ForJob(Join(0, 0)), Free(Next), FOUND, EMPTY, ENTERED, []))
  {
  }

  lemma ToldFresh()
    ensures Updated(FRESH, Failed, map[]) == Instance(true, map[], Failed, [Failed], true, New)
  {
    var none: Attributes := map[];
    assert none + none == none;
    assert [] + [Failed] == [Failed];
  }

  lemma InstanceJoins()
    ensures Takes(Scene(WithJob(Join(0, 0)), Free(Next), FOUND, EMPTY, ENTERED, []), DoJoin(1),
                  Scene(FREE, Free(Next), JOINED, TOLD, ENTERED, []))
  {
    ToldFresh();
    hide Updated;
    assert {} + {0 as InstanceId} == {0};
  }

  lemma WaitBegins()
    ensures Takes(Scene(FREE, Free(Next), JOINED, TOLD, ENTERED, []), StartWait(1, 0, Forever),
                  Scene(Free(Ask(0, 0, HasStarted(Forever))), Free(Next), JOINED, TOLD, ENTERED, []))
  {
  }

  lemma MarkIsSet()
    ensures Takes(Scene(Free(Ask(0, 0, HasStarted(Forever))), Free(Next), JOINED, TOLD, ENTERED, []), DoAsk(1),
                  Scene(ForJob(Look(0, 0, HasStarted(Forever))), Free(Next), JOINED, TOLD, ENTERED, []))
  {
  }

  lemma StateIsLooked()
    ensures Takes(Scene(WithJob(Look(0, 0, HasStarted(Forever))), Free(Next), JOINED, TOLD, ENTERED, []), DoLook(1),
                  Scene(Free(Answer(0, 0, HasStarted(Forever))), Free(Next), JOINED, LOOKED, ENTERED, []))
  {
  }

  lemma JobHasStarted()
    ensures Takes(Scene(Free(Answer(0, 0, HasStarted(Forever))), Free(Next), JOINED, LOOKED, ENTERED, []), DoAnswer(1),
                  Scene(Free(Ask(0, 0, WAIT)), Free(Next), JOINED, LOOKED, ENTERED, []))
  {
  }

  lemma MarkIsGone()
    ensures Takes(Scene(Free(Ask(0, 0, WAIT)), Free(Next), JOINED, LOOKED, ENTERED, []), DoAsk(1),
                  Scene(Free(Answer(0, 0, WAIT)), Free(Next), JOINED, LOOKED, ENTERED, []))
  {
  }

  lemma EntryIsWritten(e: Ad)
    requires ClusterName(e) == Some(ID)
    ensures Takes(Scene(Free(Answer(0, 0, WAIT)), Free(Next), JOINED, LOOKED, ENTERED, []), Append(e),
                  Scene(Free(Answer(0, 0, WAIT)), Free(Next), JOINED, LOOKED, ENTERED, [e]))
  {
    hide ClusterName;
    assert [] + [e] == [e];
  }

  lemma EntryIsTaken(e: Ad)
    requires EventType(e).Some?
    ensures Takes(Scene(Free(Answer(0, 0, WAIT)), Free(Next), JOINED, LOOKED, ENTERED, [e]), LogTake,
                  Scene(Free(Answer(0, 0, WAIT)), ForReg(Lookup), JOINED, LOOKED, ENTERED, [e]))
  {
    hide EventType;
  }

  lemma EntryIsLookedUp(e: Ad)
    requires Target(ENTERED, e) == Some(0)
    ensures Takes(Scene(Free(Answer(0, 0, WAIT)), WithReg(Lookup), JOINED, LOOKED, ENTERED, [e]), LogLookup,
                  Scene(Free(Answer(0, 0, WAIT)), ForJob(Deliver(0)), JOINED, LOOKED, ENTERED, [e]))
  {
    hide Target;
  }

  lemma LockUser(user: Thread, log: Thread, jobs: map<JobId, SharedJob>, inst: map<InstanceId, Holder>,
                 registry: map<string, JobId>)
    requires log.reg == 0 && log.job == None
    ensures var s := Scene(user, log, jobs, inst, registry, []);
            && (user.wants == Reg ==>
                  Takes(s, LockReg(1),
                        Scene(user.(reg := user.reg + 1, wants := Nothing), log, jobs, inst, registry, [])))
            && (user.wants.JobLock? ==>
                  Takes(s, LockJob(1),
                        Scene(user.(job := Some(user.wants.j), wants := Nothing), log, jobs, inst, registry, [])))
  {
  }

  lemma LockLogReg(e: Ad)
    ensures var user := Free(Answer(0, 0, WAIT));
            Takes(Scene(user, ForReg(Lookup), JOINED, LOOKED, ENTERED, [e]), LockReg(LOG),
                  Scene(user, WithReg(Lookup), JOINED, LOOKED, ENTERED, [e]))
  {
  }

  lemma LockLogJob(e: Ad)
    ensures var user := Free(Answer(0, 0, WAIT));
            Takes(Scene(user, ForJob(Deliver(0)), JOINED, LOOKED, ENTERED, [e]), LockJob(LOG),
                  Scene(user, WithJob(Deliver(0)), JOINED, LOOKED, ENTERED, [e]))
  {
  }

  /** One more step of a run. */
  lemma Then(acts: seq<Act>, a: Act) returns (longer: seq<Act>)
    requires Enabled(After(USERS, acts), a)
    ensures After(USERS, longer) == Do(After(USERS, acts), a)
  {
    hide *;
    longer := acts + [a];
    AfterOneMore(USERS, acts, a);
  }

  /** A user attaches to a job of which Condor says that it has failed. */
  lemma AttachRun() returns (acts: seq<Act>)
    ensures After(USERS, acts) == Scene(FREE, Free(Next), JOINED, TOLD, ENTERED, [])
  {
    hide Enabled;
    hide Do;
    hide After;
    hide Scene;
    hide Start;
    acts := [];
    NoSteps(USERS);
    IdAppears();
    acts := Then(acts, Appear(ID));
    AttachBegins();
    acts := Then(acts, StartAttach(1, 0, ID));
    LockUser(ForReg(Find(0, ID)), Free(Absent), map[], map[], map[]);
    acts := Then(acts, LockReg(1));
    NothingIsFound();
    acts := Then(acts, DoFind(1));
    CondorAnswers();
    acts := Then(acts, DoQuery(1, Some(Failed)));
    LockUser(ForReg(OpenLog(PURPOSE)), Free(Absent), map[], map[], map[]);
    acts := Then(acts, LockReg(1));
    LogIsOpened();
    acts := Then(acts, DoOpen(1));
    LogThreadBegins();
    acts := Then(acts, LogInit);
    LogIsAwaited();
    acts := Then(acts, DoAwait(1, 0));
    LockUser(ForReg(Enter(0, 0)), Free(Next), FOUND, EMPTY, map[]);
    acts := Then(acts, LockReg(1));
    DataAreEntered();
    acts := Then(acts, DoEnter(1));
    LockUser(ForJob(Join(0, 0)), Free(Next), FOUND, EMPTY, ENTERED);
    acts := Then(acts, LockJob(1));
    InstanceJoins();
    acts := Then(acts, DoJoin(1));
  }

  /** The user waits for it, and looks at the state once. */
  lemma WaitRun() returns (acts: seq<Act>)
    ensures After(USERS, acts) == Scene(Free(Answer(0, 0, WAIT)), Free(Next), JOINED, LOOKED, ENTERED, [])
  {
    hide Enabled;
    hide Do;
    hide After;
    hide Scene;
    acts := AttachRun();
    WaitBegins();
    acts := Then(acts, StartWait(1, 0, Forever));
    MarkIsSet();
    acts := Then(acts, DoAsk(1));
    LockUser(ForJob(Look(0, 0, HasStarted(Forever))), Free(Next), JOINED, TOLD, ENTERED);
    acts := Then(acts, LockJob(1));
    StateIsLooked();
    acts := Then(acts, DoLook(1));
    JobHasStarted();
    acts := Then(acts, DoAnswer(1));
    MarkIsGone();
    acts := Then(acts, DoAsk(1));
  }

  /** Meanwhile the log thread finds an entry about the job. */
  lemma EntryRun(e: Ad) returns (acts: seq<Act>)
    requires ClusterName(e) == Some(ID) && EventType(e).Some? && Target(ENTERED, e) == Some(0)
    ensures After(USERS, acts)
            == Scene(Free(Answer(0, 0, WAIT)), WithJob(Deliver(0)), JOINED, LOOKED, ENTERED, [e])
  {
    hide Enabled;
    hide Do;
    hide After;
    hide Scene;
    hide ClusterName;
    hide EventType;
    hide Target;
    acts := WaitRun();
    EntryIsWritten(e);
    acts := Then(acts, Append(e));
    EntryIsTaken(e);
    acts := Then(acts, LogTake);
    LockLogReg(e);
    acts := Then(acts, LockReg(LOG));
    EntryIsLookedUp(e);
    acts := Then(acts, LogLookup);
    LockLogJob(e);
    acts := Then(acts, LockJob(LOG));
  }

  /** An execution event about the cluster. */
  lemma ExecutionEntry() returns (e: Ad)
    ensures ClusterName(e) == Some(ID) && EventType(e) == Some(1) && Target(ENTERED, e) == Some(0)
  {
    e := EventEntry("1", ID);
    DigitsAreRead();
    EventEntryIs(ENTERED, "1", ID);
    hide ParseInt;
    hide EventType;
    hide Target;
    hide Lower;
    KeysDiffer();
  }

  /** What the last scene offers. */
  lemma LastScene(e: Ad)
    ensures var s := Scene(Free(Answer(0, 0, WAIT)), WithJob(Deliver(0)), JOINED, LOOKED, ENTERED, [e]);
            && Enabled(s, LogApply) && Enabled(s, DoAnswer(1))
            && s.threads[1].stage == Answer(0, 0, WAIT)
            && 0 in s.inst && s.inst[0].view.cached in {Done, Canceled, Failed}
            && s.threads[LOG].stage == Deliver(0) && 0 in s.jobs && s.pos == 0 && s.log == [e]
            && var u := Do(s, LogApply);
               1 in u.threads && u.threads[1].stage == Answer(0, 0, WAIT) && 0 in u.jobs
  {
    hide EventType;
    hide EntryEffect;
  }

  lemma JobOfThere(s: State, j: JobId)
    ensures j in s.jobs ==> JobOf(s, j) == s.jobs[j]
  {
  }

  /** The run: an entry says that the job executes, the job is running, and the wait without a time limit
      ends all the same. */
  lemma StaleWait() returns (acts: seq<Act>)
    ensures var s, a := After({1}, acts), DoAnswer(1);
            && Enabled(s, a) && 1 in s.threads && s.threads[1].stage == Answer(0, 0, IsFinished(Forever))
            && From(a, StageOf(s, 1)) && To(s, a).Idle?
            && 0 in s.jobs && s.jobs[0].job.state == Running
  {
    hide Enabled;
    hide Do;
    hide After;
    hide Scene;
    hide From;
    hide To;
    hide JobOf;
    hide Final;
    hide ClusterName;
    hide EventType;
    hide Target;
    var e := ExecutionEntry();
    acts := EntryRun(e);
    LastScene(e);
    StaleTest(After(USERS, acts), DoAnswer(1), Forever);
    acts := Then(acts, LogApply);
    JobOfThere(After(USERS, acts), 0);
  }
}
