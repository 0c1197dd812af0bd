/** The job protocol as interleaved steps: threads that construct, run, poll, wait for and destroy job
    instances (condor_job/condor_job.cpp and .hpp), the log thread of a pool (condor_job/log_processor.hpp
    and .cpp, started by condor_job/pool_data.cpp), and Condor, which numbers jobs and appends to the log. */
module Protocol {
  import opened Text
  import opened ClassAds
  import opened Events

  type ThreadId = nat
  type JobId = nat
  type InstanceId = nat

  /** The log thread. */
  const LOG: ThreadId := 0

  // ----- Threads -----

  /** What the log is opened for. */
  datatype Purpose = ForRun(i: InstanceId, j: JobId) | ForAttach(i: InstanceId, id: string, state: JobState)

  /** How long a wait may last. */
  datatype Limit = AtOnce | Within | Forever

  /** What a thread asks get_state for: to poll; whether the job may be run; and in sync_wait and
      sync_cancel, whether it has been started and then whether it has finished. */
  datatype Question = Polls | MayRun | HasStarted(limit: Limit) | IsFinished(limit: Limit)

  /** Where a thread stands; it executes the stage as soon as it has the locks that the stage needs. */
  datatype Stage =
    | Idle
    | Ask(i: InstanceId, j: JobId, question: Question)
    | Look(i: InstanceId, j: JobId, question: Question)
    | Answer(i: InstanceId, j: JobId, question: Question)
    | OpenLog(purpose: Purpose)
    | AwaitLog(purpose: Purpose)
    | Submit(i: InstanceId, j: JobId)
    | Write(i: InstanceId, j: JobId, c: string)
    | Register(i: InstanceId, j: JobId, c: string)
    | Update(i: InstanceId, j: JobId, c: string)
    | Unlock
    | Find(i: InstanceId, id: string)
    | Query(i: InstanceId, id: string)
    | Enter(i: InstanceId, j: JobId)
    | Join(i: InstanceId, j: JobId)
    | Test(i: InstanceId, j: JobId, timed: bool, expired: bool)
    | Sleep(i: InstanceId, j: JobId, timed: bool, notified: bool)
    | Erase(i: InstanceId, j: JobId)
    | Absent
    | Init
    | Next
    | Lookup
    | Deliver(j: JobId)
    | Tell(j: JobId, left: set<InstanceId>)
    | Dead

  /** How often the registry is locked at a stage. */
  function RegAt(g: Stage): nat {
    match g
    case OpenLog(_) => 1
    case AwaitLog(_) => 1
    case Submit(_, _) => 1
    case Write(_, _, _) => 1
    case Register(_, _, _) => 2
    case Update(_, _, _) => 1
    case Unlock => 1
    case Find(_, _) => 1
    case Enter(_, _) => 1
    case Lookup => 1
    case _ => 0
  }

  /** The job that is locked at a stage. */
  function JobAt(g: Stage): Option<JobId> {
    match g
    case Look(_, j, _) => Some(j)
    case Write(_, j, _) => Some(j)
    case Register(_, j, _) => Some(j)
    case Update(_, j, _) => Some(j)
    case Join(_, j) => Some(j)
    case Test(_, j, _, _) => Some(j)
    case Erase(_, j) => Some(j)
    case Deliver(j) => Some(j)
    case Tell(j, _) => Some(j)
    case _ => None
  }

  datatype Want = Nothing | Reg | JobLock(j: JobId)

  /** A thread, the locks that it holds, and the lock that it waits for. */
  datatype Thread = Thread(stage: Stage, reg: nat, job: Option<JobId>, wants: Want)

  const FREE := Thread(Idle, 0, None, Nothing)

  /** Going to a stage releases what the stage does not need and asks for what it needs in addition. */
  function Goto(h: Thread, g: Stage): Thread {
    Thread(g,
           if RegAt(g) > h.reg then h.reg else RegAt(g),
           if JobAt(g) == h.job then h.job else None,
           if RegAt(g) > h.reg then Reg else if JobAt(g).Some? && JobAt(g) != h.job then JobLock(JobAt(g).value)
           else Nothing)
  }

  // ----- The state -----

  /** shared_job_data; submitted tells that sync_run has written to it. */
  datatype SharedJob = SharedJob(job: Job, cluster: Option<string>, submitted: bool, instances: set<InstanceId>)

  datatype Holder = Holder(job: JobId, view: Instance)

  const FRESH := Instance(true, map[], New, [], false, New)

  /** The log, the place at which the log thread has begun, and the number of entries that it is done
      with; known are the IDs that Condor has given out. */
  datatype State = State(threads: map<ThreadId, Thread>, jobs: map<JobId, SharedJob>, inst: map<InstanceId, Holder>,
                         registry: map<string, JobId>, log: seq<Ad>, start: nat, pos: nat, known: set<string>)

  function Start(users: set<ThreadId>): State {
    State((map t | t in users :: FREE)[LOG := FREE.(stage := Absent)], map[], map[], map[], [], 0, 0, {})
  }

  function ClusterName(ad: Ad): Option<string> {
    var attr := Get(ad, CLUSTER);
    if attr.Some? then Some(attr.value.text) else None
  }

  predicate Digits(c: string) {
    c != "" && forall x | x in c :: IsDigit(x)
  }

  /** What get_state does with the job locked. */
  function Refreshed(v: Instance, state: JobState): Instance {
    v.(cached := state, changed := false)
  }

  /** The whole of get_state, by a thread that has the job locked anyway. */
  function Read(v: Instance, state: JobState): Instance {
    if v.changed then Refreshed(v, state) else v
  }

  /** job_data_.unique(). */
  predicate Unique(s: State, i: InstanceId, j: JobId) {
    j !in s.registry.Values && forall k | k in s.inst :: s.inst[k].job == j ==> k == i
  }

  // ----- Steps -----

  datatype Act =
    | LockReg(t: ThreadId)
    | LockJob(t: ThreadId)
    | StartPoll(t: ThreadId, i: InstanceId)
    | StartRun(t: ThreadId, i: InstanceId)
    | StartWait(t: ThreadId, i: InstanceId, limit: Limit)
    | DoAsk(t: ThreadId)
    | DoLook(t: ThreadId)
    | DoAnswer(t: ThreadId)
    | DoOpen(t: ThreadId)
    | DoAwait(t: ThreadId, made: JobId)
    | DoSubmit(t: ThreadId, cluster: Option<string>)
    | DoWrite(t: ThreadId)
    | DoRegister(t: ThreadId)
    | DoUpdate(t: ThreadId)
    | DoUnlock(t: ThreadId)
    | StartCreate(t: ThreadId, i: InstanceId, made: JobId)
    | StartAttach(t: ThreadId, i: InstanceId, id: string)
    | DoFind(t: ThreadId)
    | DoQuery(t: ThreadId, answer: Option<JobState>)
    | DoEnter(t: ThreadId)
    | DoJoin(t: ThreadId)
    | DoTest(t: ThreadId)
    | DoWake(t: ThreadId, expired: bool)
    | StartDestroy(t: ThreadId, i: InstanceId)
    | DoErase(t: ThreadId)
    | LogInit
    | LogTake
    | LogLookup
    | LogApply
    | LogTell(i: InstanceId)
    | LogNotify
    | Append(ad: Ad)
    | Appear(id: string)
    | Die(i: InstanceId)

  /** The instance that a stage is about. */
  function Mentions(g: Stage): Option<InstanceId> {
    match g
    case Ask(i, _, _) => Some(i)
    case Look(i, _, _) => Some(i)
    case Answer(i, _, _) => Some(i)
    case OpenLog(p) => Some(p.i)
    case AwaitLog(p) => Some(p.i)
    case Submit(i, _) => Some(i)
    case Write(i, _, _) => Some(i)
    case Register(i, _, _) => Some(i)
    case Update(i, _, _) => Some(i)
    case Find(i, _) => Some(i)
    case Query(i, _) => Some(i)
    case Enter(i, _) => Some(i)
    case Join(i, _) => Some(i)
    case Test(i, _, _, _) => Some(i)
    case Sleep(i, _, _, _) => Some(i)
    case Erase(i, _) => Some(i)
    case _ => None
  }

  /** The job that a thread is about to submit. */
  function Runs(g: Stage): Option<JobId> {
    match g
    case Ask(_, j, MayRun) => Some(j)
    case Look(_, j, MayRun) => Some(j)
    case Answer(_, j, MayRun) => Some(j)
    case OpenLog(ForRun(_, j)) => Some(j)
    case AwaitLog(ForRun(_, j)) => Some(j)
    case Submit(_, j) => Some(j)
    case Write(_, j, _) => Some(j)
    case Register(_, j, _) => Some(j)
    case Update(_, j, _) => Some(j)
    case _ => None
  }

  /** A constructor is at work. */
  predicate Constructs(g: Stage) {
    match g
    case OpenLog(p) => p.ForAttach?
    case AwaitLog(p) => p.ForAttach?
    case Find(_, _) => true
    case Query(_, _) => true
    case Enter(_, _) => true
    case Join(_, _) => true
    case _ => false
  }

  /** The thread stands at its stage and has the locks. */
  predicate At(s: State, t: ThreadId) {
    t in s.threads && s.threads[t].wants == Nothing
  }

  /** The constructor of the instance has returned, and its destructor has not been called. */
  predicate Usable(s: State, i: InstanceId) {
    && i in s.inst && s.inst[i].job in s.jobs && i in s.jobs[s.inst[i].job].instances
    && forall t | t in s.threads :: !(s.threads[t].stage.Erase? && s.threads[t].stage.i == i)
  }

  /** That constructors are serialized is an assumption. */
  predicate MayConstruct(s: State, i: InstanceId) {
    i !in s.inst && forall u | u in s.threads :: !Constructs(s.threads[u].stage)
  }

  /** The thread that moves on in a step, apart from locking. */
  function Mover(a: Act): Option<ThreadId> {
    match a
    case LockReg(_) => None
    case LockJob(_) => None
    case Append(_) => None
    case Appear(_) => None
    case Die(_) => None
    case LogInit => Some(LOG)
    case LogTake => Some(LOG)
    case LogLookup => Some(LOG)
    case LogApply => Some(LOG)
    case LogTell(_) => Some(LOG)
    case LogNotify => Some(LOG)
    case _ => Some(a.t)
  }

  /** The stage at which it does so. */
  predicate From(a: Act, g: Stage) {
    match a
    case DoAsk(_) => g.Ask?
    case DoLook(_) => g.Look?
    case DoAnswer(_) => g.Answer?
    case DoOpen(_) => g.OpenLog?
    case DoAwait(_, _) => g.AwaitLog?
    case DoSubmit(_, _) => g.Submit?
    case DoWrite(_) => g.Write?
    case DoRegister(_) => g.Register?
    case DoUpdate(_) => g.Update?
    case DoUnlock(_) => g.Unlock?
    case DoFind(_) => g.Find?
    case DoQuery(_, _) => g.Query?
    case DoEnter(_) => g.Enter?
    case DoJoin(_) => g.Join?
    case DoTest(_) => g.Test?
    case DoWake(_, expired) => g.Sleep? && (expired ==> g.timed)
    case DoErase(_) => g.Erase?
    case LogInit => g.Init?
    case LogTake => g.Next?
    case LogLookup => g.Lookup?
    case LogApply => g.Deliver?
    case LogTell(i) => g.Tell? && i in g.left
    case LogNotify => g.Tell? && g.left == {}
    case _ => g.Idle?
  }

  /** Nobody else has the registry locked. */
  predicate CanLockReg(s: State, t: ThreadId) {
    && t in s.threads && s.threads[t].wants == Reg
    && forall u | u in s.threads && u != t :: s.threads[u].reg == 0
  }

  predicate CanLockJob(s: State, t: ThreadId) {
    && t in s.threads && s.threads[t].wants.JobLock?
    && forall u | u in s.threads && u != t :: s.threads[u].job != Some(s.threads[t].wants.j)
  }

  /** What a step needs besides. Condor gives out each number once, and writes entries about jobs that
      it has given a number. */
  predicate Guard(s: State, a: Act) {
    match a
    case LockReg(t) => CanLockReg(s, t)
    case LockJob(t) => CanLockJob(s, t)
    case StartPoll(_, i) => Usable(s, i)
    case StartRun(_, i) =>
      Usable(s, i) && forall u | u in s.threads :: Runs(s.threads[u].stage) != Some(s.inst[i].job)
    case StartWait(_, i, _) => Usable(s, i)
    case DoOpen(t) => LOG in s.threads
    case DoAwait(_, n) =>
      LOG in s.threads && n !in s.jobs && !s.threads[LOG].stage.Absent? && !s.threads[LOG].stage.Init?
    case DoSubmit(_, c) => c.Some? ==> Digits(c.value) && c.value !in s.known
    case StartCreate(_, i, n) => MayConstruct(s, i) && n !in s.jobs
    case StartAttach(_, i, id) => MayConstruct(s, i) && id in s.known
    case StartDestroy(_, i) => Usable(s, i) && forall u | u in s.threads :: Mentions(s.threads[u].stage) != Some(i)
    case LogTake => s.pos < |s.log|
    case Append(ad) => ClusterName(ad).Some? ==> ClusterName(ad).value in s.known
    case Appear(id) => id !in s.known
    case Die(i) => i in s.inst
    case _ => true
  }

  predicate Enabled(s: State, a: Act) {
    && (Mover(a).Some? ==> At(s, Mover(a).value) && From(a, s.threads[Mover(a).value].stage))
    && Guard(s, a)
  }

  const NO_JOB := SharedJob(Job(New, map[]), None, false, {})
  const NO_INSTANCE := Holder(0, FRESH)

  function JobOf(s: State, j: JobId): SharedJob {
    if j in s.jobs then s.jobs[j] else NO_JOB
  }

  function InstanceOf(s: State, i: InstanceId): Holder {
    if i in s.inst then s.inst[i] else NO_INSTANCE
  }

  function StageOf(s: State, t: ThreadId): Stage {
    if t in s.threads then s.threads[t].stage else Idle
  }

  /** The entry that the log thread is at, and the job and the effect that it has. */
  function EntryTarget(s: State): Option<JobId> {
    if s.pos < |s.log| then Target(s.registry, s.log[s.pos]) else None
  }

  function CurrentEffect(s: State): Option<Effect> {
    if s.pos < |s.log| then EntryEffect(s.log[s.pos]) else None
  }

  /** An instance is told of the state of its job. */
  function Told(s: State, i: InstanceId): Holder {
    var h := InstanceOf(s, i);
    var job := JobOf(s, h.job).job;
    h.(view := Updated(h.view, job.state, job.attributes))
  }

  /** An instance looks up the state of its job. */
  function Looked(s: State, i: InstanceId): Holder {
    var h := InstanceOf(s, i);
    h.(view := Read(h.view, JobOf(s, h.job).job.state))
  }

  /** What get_state's caller does with the cached state, which it reads without any lock. */
  function Answered(s: State, i: InstanceId, j: JobId, question: Question): (to: Stage)
    ensures to.Idle? || to.OpenLog? || to.Ask? || to.Test?
    ensures to.OpenLog? ==> to == OpenLog(ForRun(i, j)) && question.MayRun? && JobOf(s, j).cluster == None
    ensures to.Ask? ==> question.HasStarted? && to == Ask(i, j, IsFinished(question.limit))
    ensures to.Test? ==> question.IsFinished? && to == Test(i, j, question.limit.Within?, false)
  {
    var cached, cluster := InstanceOf(s, i).view.cached, JobOf(s, j).cluster;
    match question
    case Polls => Idle
    case MayRun => if cached == New && cluster == None then OpenLog(ForRun(i, j)) else Idle
    case HasStarted(limit) => if cached == New || cluster == None then Idle else Ask(i, j, IsFinished(limit))
    case IsFinished(limit) => if Final(cached) || limit.AtOnce? then Idle else Test(i, j, limit.Within?, false)
  }

  /** The event type of the entry that the log thread is at can be read. */
  predicate CanRead(s: State) {
    s.pos < |s.log| ==> EventType(s.log[s.pos]).Some?
  }

  /** The stage to which it moves on. */
  function To(s: State, a: Act): (to: Stage)
    requires Mover(a).Some? && From(a, StageOf(s, Mover(a).value))
  {
    var g := StageOf(s, Mover(a).value);
    match a
    case StartPoll(_, i) => Ask(i, InstanceOf(s, i).job, Polls)
    case StartRun(_, i) => Ask(i, InstanceOf(s, i).job, MayRun)
    case StartWait(_, i, limit) => Ask(i, InstanceOf(s, i).job, HasStarted(limit))
    case DoAsk(_) =>
      if InstanceOf(s, g.i).view.changed then Look(g.i, g.j, g.question) else Answer(g.i, g.j, g.question)
    case DoLook(_) => Answer(g.i, g.j, g.question)
    case DoAnswer(_) => Answered(s, g.i, g.j, g.question)
    case DoOpen(_) => AwaitLog(g.purpose)
    case DoAwait(_, n) => if g.purpose.ForRun? then Submit(g.purpose.i, g.purpose.j) else Enter(g.purpose.i, n)
    case DoSubmit(_, c) => if c.Some? then Write(g.i, g.j, c.value) else Idle
    case DoWrite(_) => Register(g.i, g.j, g.c)
    case DoRegister(_) => Update(g.i, g.j, g.c)
    case DoUpdate(_) => Unlock
    case StartCreate(_, i, n) => Join(i, n)
    case StartAttach(_, i, id) => Find(i, id)
    case DoFind(_) => if g.id in s.registry then Join(g.i, s.registry[g.id]) else Query(g.i, g.id)
    case DoQuery(_, answer) => if answer.Some? then OpenLog(ForAttach(g.i, g.id, answer.value)) else Idle
    case DoEnter(_) => Join(g.i, g.j)
    case DoTest(_) =>
      if Final(Looked(s, g.i).view.cached) || g.expired then Idle else Sleep(g.i, g.j, g.timed, false)
    case DoWake(_, expired) => Test(g.i, g.j, g.timed, expired)
    case StartDestroy(_, i) => Erase(i, InstanceOf(s, i).job)
    case LogInit => Next
    case LogTake => if CanRead(s) then Lookup else Dead
    case LogLookup => if EntryTarget(s).Some? then Deliver(EntryTarget(s).value) else Next
    case LogApply => if CurrentEffect(s).Some? then Tell(g.j, JobOf(s, g.j).instances) else Next
    case LogTell(i) => Tell(g.j, g.left - {i})
    case LogNotify => Next
    case _ => Idle
  }

  function Woken(h: Thread, j: JobId): Thread {
    if h.stage.Sleep? && h.stage.j == j then h.(stage := h.stage.(notified := true)) else h
  }

  function Notified(threads: map<ThreadId, Thread>, j: JobId): map<ThreadId, Thread> {
    map t | t in threads :: Woken(threads[t], j)
  }

  /** Opening the log starts the log thread, once. Awaiting it ends with the registry unlocked, before
      the registry is locked again. Notifying wakes all who sleep on the job. */
  function NewThreads(s: State, a: Act): map<ThreadId, Thread>
    requires Enabled(s, a)
  {
    var h := s.threads;
    if a.LockReg? then h[a.t := h[a.t].(reg := h[a.t].reg + 1, wants := Nothing)]
    else if a.LockJob? then h[a.t := h[a.t].(job := Some(h[a.t].wants.j), wants := Nothing)]
    else if Mover(a).None? then h
    else
      var t := Mover(a).value;
      var others := if a.DoOpen? && h[LOG].stage.Absent? then h[LOG := Goto(h[LOG], Init)]
                    else if a.LogNotify? then Notified(h, h[t].stage.j)
                    else h;
      others[t := Goto(if a.DoAwait? then FREE else h[t], To(s, a))]
  }

  function NewJobs(s: State, a: Act): map<JobId, SharedJob>
    requires Enabled(s, a)
  {
    match a
    case DoAwait(t, n) =>
      var p := s.threads[t].stage.purpose;
      if p.ForRun? then s.jobs else s.jobs[n := SharedJob(Job(p.state, map[]), Some(p.id), false, {})]
    case DoWrite(t) =>
      var g := s.threads[t].stage;
      var d := JobOf(s, g.j);
      s.jobs[g.j := d.(job := d.job.(state := Running), cluster := Some(g.c), submitted := true)]
    case StartCreate(_, _, n) => s.jobs[n := NO_JOB]
    case DoJoin(t) =>
      var g := s.threads[t].stage;
      var d := JobOf(s, g.j);
      s.jobs[g.j := d.(instances := d.instances + {g.i})]
    case DoErase(t) =>
      var g := s.threads[t].stage;
      var d := JobOf(s, g.j);
      s.jobs[g.j := d.(instances := d.instances - {g.i})]
    case LogApply =>
      var j := s.threads[LOG].stage.j;
      var d := JobOf(s, j);
      s.jobs[j := d.(job := Apply(d.job, CurrentEffect(s)))]
    case _ => s.jobs
  }

  function NewInst(s: State, a: Act): map<InstanceId, Holder>
    requires Enabled(s, a)
  {
    match a
    case DoLook(t) =>
      var g := s.threads[t].stage;
      var h := InstanceOf(s, g.i);
      s.inst[g.i := h.(view := Refreshed(h.view, JobOf(s, h.job).job.state))]
    case DoAwait(t, n) =>
      var p := s.threads[t].stage.purpose;
      if p.ForRun? then s.inst else s.inst[p.i := Holder(n, FRESH)]
    case DoUpdate(t) => s.inst[s.threads[t].stage.i := Told(s, s.threads[t].stage.i)]
    case StartCreate(_, i, n) => s.inst[i := Holder(n, FRESH)]
    case DoFind(t) =>
      var g := s.threads[t].stage;
      if g.id in s.registry then s.inst[g.i := Holder(s.registry[g.id], FRESH)] else s.inst
    case DoJoin(t) => s.inst[s.threads[t].stage.i := Told(s, s.threads[t].stage.i)]
    case DoTest(t) => s.inst[s.threads[t].stage.i := Looked(s, s.threads[t].stage.i)]
    case DoErase(t) => s.inst - {s.threads[t].stage.i}
    case LogTell(i) => s.inst[i := Told(s, i)]
    case Die(i) => s.inst[i := s.inst[i].(view := s.inst[i].view.(live := false))]
    case _ => s.inst
  }

  /** set_job_id registers data that nobody shares yet. */
  function NewRegistry(s: State, a: Act): map<string, JobId>
    requires Enabled(s, a)
  {
    match a
    case DoRegister(t) =>
      var g := s.threads[t].stage;
      if Unique(s, g.i, g.j) then s.registry[g.c := g.j] else s.registry
    case DoEnter(t) =>
      var g := s.threads[t].stage;
      var cluster := JobOf(s, g.j).cluster;
      if cluster.Some? && Unique(s, g.i, g.j) then s.registry[cluster.value := g.j] else s.registry
    case _ => s.registry
  }

  /** The number of entries that the log thread is done with. */
  function NewPos(s: State, a: Act): nat {
    match a
    case LogInit => |s.log|
    case LogLookup => if EntryTarget(s).None? then s.pos + 1 else s.pos
    case LogApply => if CurrentEffect(s).None? then s.pos + 1 else s.pos
    case LogNotify => s.pos + 1
    case _ => s.pos
  }

  function Do(s: State, a: Act): State
    requires Enabled(s, a)
  {
    State(NewThreads(s, a), NewJobs(s, a), NewInst(s, a), NewRegistry(s, a),
          if a.Append? then s.log + [a.ad] else s.log,
          if a.LogInit? then |s.log| else s.start,
          NewPos(s, a),
          if a.Appear? then s.known + {a.id}
          else if a.DoSubmit? && a.cluster.Some? then s.known + {a.cluster.value}
          else s.known)
  }
}
