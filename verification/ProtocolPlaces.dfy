/** Where the threads of the protocol stand, relative to each other and to the objects that they are
    about. */
module ProtocolPlaces {
  import opened Text
  import opened Events
  import opened Protocol
  import opened ProtocolLocks

  predicate LogStage(g: Stage) {
    g.Absent? || g.Init? || g.Next? || g.Lookup? || g.Deliver? || g.Tell? || g.Dead?
  }

  /** The log thread does what log threads do, and nobody else does. */
  predicate Kinds(h: Threads) {
    LOG in h && forall t | t in h :: LogStage(h[t].stage) <==> t == LOG
  }

  /** One constructor at a time, one thread that runs a job, and nobody else at an instance that is
      being destroyed. */
  predicate Ordered(h: Threads) {
    forall t, u | t in h && u in h && t != u :: Alongside(h[t].stage, h[u].stage)
  }

  /** Where a move can lead. */
  predicate Leads(s: State, a: Act, g: Stage, to: Stage) {
    && (LogStage(to) <==> LogStage(g))
    && (Constructs(to) ==> Constructs(g) || a.StartCreate? || a.StartAttach?)
    && (Runs(to) == None || Runs(to) == Runs(g) || (a.StartRun? && Runs(to) == Some(InstanceOf(s, a.i).job)))
    && (to.Erase? ==> a.StartDestroy? && Mentions(to) == Some(a.i))
    && (Mentions(to) == None || Mentions(to) == Mentions(g)
        || ((a.StartCreate? || a.StartAttach? || a.StartPoll? || a.StartRun? || a.StartWait? || a.StartDestroy?)
            && Mentions(to) == Some(a.i)))
  }

  lemma MoveLeads(s: State, a: Act)
    requires Mover(a).Some? && From(a, StageOf(s, Mover(a).value))
    ensures Leads(s, a, StageOf(s, Mover(a).value), To(s, a))
  {
    hide StageOf;
    hide InstanceOf;
    hide JobOf;
    hide Looked;
    hide EntryTarget;
    hide CurrentEffect;
    hide Answered;
    hide CanRead;
  }

  predicate Alongside(g: Stage, o: Stage) {
    && !(Constructs(g) && Constructs(o))
    && (Runs(g) == None || Runs(g) != Runs(o))
    && (g.Erase? ==> Mentions(o) != Mentions(g))
    && (o.Erase? ==> Mentions(g) != Mentions(o))
  }

  /** What a step may do to the stage of a thread that it does not move. */
  predicate Same(g: Stage, o: Stage) {
    o == g || (g.Sleep? && o == g.(notified := true)) || (g.Absent? && o.Init?)
  }

  lemma SamePlace(g: Stage, o: Stage)
    requires Same(g, o)
    ensures LogStage(o) == LogStage(g) && Constructs(o) == Constructs(g)
    ensures Runs(o) == Runs(g) && Mentions(o) == Mentions(g)
    ensures o.Erase? == g.Erase?
  {
  }

  lemma SameAlongside(g: Stage, g': Stage, o: Stage, o': Stage)
    requires Same(g, g') && Same(o, o') && Alongside(g, o)
    ensures Alongside(g', o')
  {
    SamePlace(g, g');
    SamePlace(o, o');
    hide Constructs;
    hide Runs;
    hide Mentions;
  }

  lemma StagesChange(s: State, a: Act, k: Threads)
    requires Mover(a).Some? ==> From(a, StageOf(s, Mover(a).value))
    requires Changed(s, a, k)
    ensures k.Keys == s.threads.Keys
    ensures forall t | t in k && Mover(a) != Some(t) :: Same(s.threads[t].stage, k[t].stage)
    ensures Mover(a).Some? ==> Mover(a).value in k && k[Mover(a).value].stage == To(s, a)
  {
    hide To;
    hide From;
    hide StageOf;
  }

  /** What may start next to a thread. */
  lemma GuardsAlongside(s: State, a: Act, o: ThreadId)
    requires Guard(s, a) && o in s.threads
    requires s.threads[o].stage.Erase? ==> s.threads[o].stage.i in s.inst
    ensures a.StartCreate? || a.StartAttach? ==> !Constructs(s.threads[o].stage)
    ensures a.StartRun? ==> Runs(s.threads[o].stage) != Some(InstanceOf(s, a.i).job)
    ensures a.StartDestroy? ==> Mentions(s.threads[o].stage) != Some(a.i)
    ensures a.StartCreate? || a.StartAttach? || a.StartPoll? || a.StartRun? || a.StartWait? || a.StartDestroy? ==>
              !(s.threads[o].stage.Erase? && s.threads[o].stage.i == a.i)
  {
    hide Constructs;
    hide Runs;
    hide Mentions;
  }

  lemma MoverAlongside(s: State, a: Act, o: ThreadId)
    requires Guard(s, a) && o in s.threads && Mover(a).Some? && From(a, StageOf(s, Mover(a).value))
    requires s.threads[o].stage.Erase? ==> s.threads[o].stage.i in s.inst
    requires Alongside(StageOf(s, Mover(a).value), s.threads[o].stage)
    ensures Alongside(To(s, a), s.threads[o].stage)
  {
    MoveLeads(s, a);
    GuardsAlongside(s, a, o);
    ErasesMentioned(s.threads[o].stage);
    hide Guard;
    hide From;
    hide To;
    hide Constructs;
    hide Runs;
    hide Mentions;
    hide StageOf;
    hide LogStage;
  }

  lemma ErasesMentioned(g: Stage)
    ensures g.Erase? ==> Mentions(g) == Some(g.i)
  {
  }

  lemma SameItself(g: Stage)
    ensures Same(g, g)
  {
  }

  lemma AlongsideIsMutual(g: Stage, o: Stage)
    requires Alongside(g, o)
    ensures Alongside(o, g)
  {
    hide Constructs;
    hide Runs;
    hide Mentions;
  }

  /** Instances that are being destroyed are there. */
  predicate ErasedAreThere(s: State) {
    forall t | t in s.threads && s.threads[t].stage.Erase? :: s.threads[t].stage.i in s.inst
  }

  lemma OrderedStays(s: State, a: Act)
    requires Enabled(s, a) && AllFit(s.threads) && Ordered(s.threads) && ErasedAreThere(s)
    ensures Ordered(NewThreads(s, a))
  {
    hide *;
    var h, k := s.threads, NewThreads(s, a);
    EnabledGives(s, a);
    ThreadsChange(s, a);
    StagesChange(s, a, k);
    if Mover(a).Some? {
      SameItself(To(s, a));
    }
    forall t, u | t in k && u in k && t != u ensures Alongside(k[t].stage, k[u].stage) {
      OrderedPair(h, t, u);
      ErasedIsThere(s, t);
      ErasedIsThere(s, u);
      if Mover(a) == Some(t) {
        MoverAlongside(s, a, u);
        SameAlongside(To(s, a), To(s, a), h[u].stage, k[u].stage);
      } else if Mover(a) == Some(u) {
        AlongsideIsMutual(h[t].stage, h[u].stage);
        MoverAlongside(s, a, t);
        AlongsideIsMutual(To(s, a), h[t].stage);
        SameAlongside(h[t].stage, k[t].stage, To(s, a), To(s, a));
      } else {
        SameAlongside(h[t].stage, k[t].stage, h[u].stage, k[u].stage);
      }
    }
    OrderedIf(k);
  }

  lemma EnabledGives(s: State, a: Act)
    requires Enabled(s, a)
    ensures Guard(s, a)
    ensures Mover(a).Some? ==>
              && Mover(a).value in s.threads && From(a, StageOf(s, Mover(a).value))
              && StageOf(s, Mover(a).value) == s.threads[Mover(a).value].stage
  {
  }

  lemma OrderedPair(h: Threads, t: ThreadId, u: ThreadId)
    requires Ordered(h) && t in h && u in h && t != u
    ensures Alongside(h[t].stage, h[u].stage) && Alongside(h[u].stage, h[t].stage)
  {
  }

  lemma OrderedIf(h: Threads)
    requires forall t, u | t in h && u in h && t != u :: Alongside(h[t].stage, h[u].stage)
    ensures Ordered(h)
  {
  }

  lemma ErasedIsThere(s: State, t: ThreadId)
    requires ErasedAreThere(s) && t in s.threads
    ensures s.threads[t].stage.Erase? ==> s.threads[t].stage.i in s.inst
  {
  }

  lemma KindsStay(s: State, a: Act)
    requires Enabled(s, a) && AllFit(s.threads) && Kinds(s.threads)
    ensures Kinds(NewThreads(s, a))
  {
    var h, k := s.threads, NewThreads(s, a);
    EnabledGives(s, a);
    ThreadsChange(s, a);
    StagesChange(s, a, k);
    if Mover(a).Some? {
      MoveLeads(s, a);
    }
    hide NewThreads;
    hide To;
    hide Guard;
    hide From;
    hide Changed;
    hide AllFit;
    forall t | t in k ensures LogStage(k[t].stage) <==> t == LOG {
      if Mover(a) != Some(t) {
        SamePlace(h[t].stage, k[t].stage);
      }
    }
  }

  // ----- Threads and instances -----

  /** The instance follows the job. */
  predicate Joined(s: State, i: InstanceId, j: JobId) {
    i in s.inst && s.inst[i].job == j && j in s.jobs && i in s.jobs[j].instances
  }

  /** The instance holds the job's data and does not follow it yet. */
  predicate Joining(s: State, i: InstanceId, j: JobId) {
    i in s.inst && s.inst[i].job == j && j in s.jobs && i !in s.jobs[j].instances
  }

  predicate InPlace(s: State, g: Stage) {
    match g
    case Ask(i, j, _) => Joined(s, i, j)
    case Look(i, j, _) => Joined(s, i, j)
    case Answer(i, j, _) => Joined(s, i, j)
    case OpenLog(p) => if p.ForRun? then Joined(s, p.i, p.j) else p.i !in s.inst
    case AwaitLog(p) => if p.ForRun? then Joined(s, p.i, p.j) else p.i !in s.inst
    case Submit(i, j) => Joined(s, i, j)
    case Write(i, j, _) => Joined(s, i, j)
    case Register(i, j, _) => Joined(s, i, j)
    case Update(i, j, _) => Joined(s, i, j)
    case Find(i, _) => i !in s.inst
    case Query(i, _) => i !in s.inst
    case Enter(i, j) => Joining(s, i, j)
    case Join(i, j) => Joining(s, i, j)
    case Test(i, j, _, _) => Joined(s, i, j)
    case Sleep(i, j, _, _) => Joined(s, i, j)
    case Erase(i, j) => Joined(s, i, j)
    case Deliver(j) => j in s.jobs
    case Tell(j, left) => j in s.jobs && left <= s.jobs[j].instances
    case _ => true
  }

  predicate AllInPlace(s: State) {
    forall t | t in s.threads :: InPlace(s, s.threads[t].stage)
  }

  /** Instances belong to jobs, jobs know their instances, and what is registered is a job. */
  predicate Shaped(s: State) {
    && (forall i | i in s.inst :: s.inst[i].job in s.jobs)
    && (forall j, i | j in s.jobs && i in s.jobs[j].instances :: i in s.inst && s.inst[i].job == j)
    && (forall id | id in s.registry :: s.registry[id] in s.jobs)
  }

  /** The same holds of an instance in both states: it is there, and it follows the same job. */
  predicate SameFor(s: State, u: State, i: InstanceId) {
    && (i in s.inst <==> i in u.inst)
    && (i in s.inst ==>
          && u.inst[i].job == s.inst[i].job
          && (s.inst[i].job in s.jobs ==>
                && s.inst[i].job in u.jobs
                && (i in s.jobs[s.inst[i].job].instances <==> i in u.jobs[s.inst[i].job].instances)))
  }

  /** The instance that a step makes, destroys or lets join. */
  function Shapes(s: State, a: Act): Option<InstanceId>
    requires Mover(a).Some? ==> From(a, StageOf(s, Mover(a).value))
  {
    match a
    case StartCreate(_, i, _) => Some(i)
    case DoAwait(t, _) => if StageOf(s, t).purpose.ForAttach? then Some(StageOf(s, t).purpose.i) else None
    case DoFind(t) => if StageOf(s, t).id in s.registry then Some(StageOf(s, t).i) else None
    case DoJoin(t) => Some(StageOf(s, t).i)
    case DoErase(t) => Some(StageOf(s, t).i)
    case _ => None
  }

  /** No step makes a job go away, and the instances of jobs change one at a time. */
  ghost predicate Reshaped(s: State, u: State, touched: Option<InstanceId>) {
    && (forall j | j in s.jobs :: j in u.jobs)
    && (forall i: InstanceId | touched != Some(i) :: SameFor(s, u, i))
    && (forall j, i: InstanceId | j in s.jobs && touched != Some(i) ::
          i in s.jobs[j].instances <==> i in u.jobs[j].instances)
    && (forall j | j in u.jobs && j !in s.jobs :: u.jobs[j].instances == {})
  }

  lemma StepReshapes(s: State, a: Act)
    requires Enabled(s, a) && Shaped(s)
    requires Mover(a).Some? ==> InPlace(s, StageOf(s, Mover(a).value))
    ensures Mover(a).Some? ==> From(a, StageOf(s, Mover(a).value))
    ensures Reshaped(s, Do(s, a), Shapes(s, a))
  {
    EnabledGives(s, a);
    match a
    case DoAwait(_, _) => AwaitReshapes(s, a);
    case StartCreate(_, _, _) => CreateReshapes(s, a);
    case DoFind(_) => FindReshapes(s, a);
    case DoJoin(_) => JoinReshapes(s, a);
    case DoErase(_) => EraseReshapes(s, a);
    case _ => OtherReshapes(s, a);
  }

  lemma AwaitReshapes(s: State, a: Act)
    requires Enabled(s, a) && a.DoAwait? && InPlace(s, StageOf(s, a.t))
    ensures Reshaped(s, Do(s, a), Shapes(s, a))
  {
    hide NewThreads;
    hide NewRegistry;
    hide NewPos;
  }

  lemma CreateReshapes(s: State, a: Act)
    requires Enabled(s, a) && a.StartCreate?
    ensures Reshaped(s, Do(s, a), Shapes(s, a))
  {
    hide NewThreads;
    hide NewRegistry;
    hide NewPos;
  }

  lemma FindReshapes(s: State, a: Act)
    requires Enabled(s, a) && a.DoFind?
    ensures Reshaped(s, Do(s, a), Shapes(s, a))
  {
    hide NewThreads;
    hide NewRegistry;
    hide NewPos;
  }

  lemma JoinReshapes(s: State, a: Act)
    requires Enabled(s, a) && a.DoJoin? && InPlace(s, StageOf(s, a.t))
    ensures Reshaped(s, Do(s, a), Shapes(s, a))
  {
    hide NewThreads;
    hide NewRegistry;
    hide NewPos;
    hide Updated;
  }

  lemma EraseReshapes(s: State, a: Act)
    requires Enabled(s, a) && a.DoErase? && InPlace(s, StageOf(s, a.t))
    ensures Reshaped(s, Do(s, a), Shapes(s, a))
  {
    hide NewThreads;
    hide NewRegistry;
    hide NewPos;
  }

  /** Most steps leave the shape alone. */
  lemma OtherReshapes(s: State, a: Act)
    requires Enabled(s, a) && Shaped(s) && !a.DoAwait? && !a.StartCreate? && !a.DoFind? && !a.DoJoin? && !a.DoErase?
    requires Mover(a).Some? ==> InPlace(s, StageOf(s, Mover(a).value))
    ensures Reshaped(s, Do(s, a), None)
  {
    hide *;
    SameJobShape(s, a);
    SameInstShape(s, a);
    NewState(s, a);
    ReshapedIf(s, Do(s, a));
  }

  lemma ReshapedIf(s: State, u: State)
    requires u.jobs.Keys == s.jobs.Keys && u.inst.Keys == s.inst.Keys
    requires forall j | j in s.jobs :: u.jobs[j].instances == s.jobs[j].instances
    requires forall i | i in s.inst :: u.inst[i].job == s.inst[i].job
    ensures Reshaped(s, u, None)
  {
  }

  lemma SameJobShape(s: State, a: Act)
    requires Enabled(s, a) && !a.DoAwait? && !a.StartCreate? && !a.DoJoin? && !a.DoErase?
    requires Mover(a).Some? ==> InPlace(s, StageOf(s, Mover(a).value))
    ensures NewJobs(s, a).Keys == s.jobs.Keys
    ensures forall j | j in s.jobs :: NewJobs(s, a)[j].instances == s.jobs[j].instances
  {
    hide Guard;
    hide Apply;
    hide CurrentEffect;
    if !a.DoWrite? && !a.LogApply? {
      hide InPlace;
      hide Enabled;
    }
  }

  lemma SameInstShape(s: State, a: Act)
    requires Enabled(s, a) && Shaped(s) && !a.DoAwait? && !a.StartCreate? && !a.DoFind? && !a.DoErase?
    requires Mover(a).Some? ==> InPlace(s, StageOf(s, Mover(a).value))
    ensures NewInst(s, a).Keys == s.inst.Keys
    ensures forall i | i in s.inst :: NewInst(s, a)[i].job == s.inst[i].job
  {
    hide Updated;
    hide Read;
  }

  lemma InPlaceKept(s: State, u: State, touched: Option<InstanceId>, g: Stage, g': Stage)
    requires InPlace(s, g) && Same(g, g') && Reshaped(s, u, touched) && Shaped(s)
    requires touched.Some? ==> Mentions(g) != touched && (g.Tell? ==> touched.value !in g.left)
    ensures InPlace(u, g')
  {
    hide InPlace;
    hide Mentions;
    if g.Tell? {
      TellKept(s, u, touched, g, g');
    } else {
      assert Mentions(g).Some? ==> SameFor(s, u, Mentions(g).value);
      PlaceKept(s, u, g, g');
    }
  }

  lemma TellKept(s: State, u: State, touched: Option<InstanceId>, g: Stage, g': Stage)
    requires InPlace(s, g) && g.Tell? && Same(g, g') && Reshaped(s, u, touched)
    requires touched.Some? ==> touched.value !in g.left
    ensures InPlace(u, g')
  {
    assert forall i: InstanceId | i in g.left :: i in s.jobs[g.j].instances && touched != Some(i);
  }

  lemma PlaceKept(s: State, u: State, g: Stage, g': Stage)
    requires InPlace(s, g) && !g.Tell? && Same(g, g') && forall j | j in s.jobs :: j in u.jobs
    requires Mentions(g).Some? ==> SameFor(s, u, Mentions(g).value)
    ensures InPlace(u, g')
  {
    hide *;
    StagePlaceKept(s, u, g);
    InPlaceOfSame(u, g, g');
  }

  lemma StagePlaceKept(s: State, u: State, g: Stage)
    requires InPlace(s, g) && !g.Tell? && forall j | j in s.jobs :: j in u.jobs
    requires Mentions(g).Some? ==> SameFor(s, u, Mentions(g).value)
    ensures InPlace(u, g)
  {
  }

  lemma InPlaceOfSame(s: State, g: Stage, g': Stage)
    requires Same(g, g') && InPlace(s, g)
    ensures InPlace(s, g')
  {
    if g != g' {
      assert g.Sleep? || g.Absent?;
    }
  }

  /** Nobody else is at an instance that is being made or destroyed. */
  lemma TouchedIsAlone(s: State, g: Stage, o: Stage)
    requires InPlace(s, g) && InPlace(s, o) && Alongside(g, o) && (Constructs(g) || g.Erase?) && Mentions(g).Some?
    ensures Mentions(o) != Mentions(g)
  {
  }

  lemma ShapesWhat(s: State, a: Act)
    requires Guard(s, a) && Mover(a).Some? && From(a, StageOf(s, Mover(a).value)) && Shapes(s, a).Some?
    ensures a.StartCreate? ==> Shapes(s, a) == Some(a.i) && a.i !in s.inst
    ensures !a.StartCreate? ==>
              var g := StageOf(s, Mover(a).value);
              (Constructs(g) || g.Erase?) && Mentions(g) == Shapes(s, a)
  {
    hide StageOf;
  }

  /** A step leaves every other thread in place. */
  lemma OtherInPlace(s: State, a: Act, o: ThreadId, g': Stage)
    requires Enabled(s, a) && Shaped(s) && AllInPlace(s) && Ordered(s.threads)
    requires AllFit(s.threads) && Exclusive(s.threads)
    requires o in s.threads && Mover(a) != Some(o) && Same(s.threads[o].stage, g')
    ensures InPlace(Do(s, a), g')
  {
    hide *;
    EnabledGives(s, a);
    var g := s.threads[o].stage;
    ThreadInPlace(s, o);
    if Mover(a).Some? {
      var m := Mover(a).value;
      ThreadInPlace(s, m);
      OrderedPair(s.threads, m, o);
      if Shapes(s, a).Some? {
        ShapesWhat(s, a);
        if a.StartCreate? {
          NewIsAlone(s, a, o);
        } else {
          TouchedIsAlone(s, s.threads[m].stage, g);
        }
        TouchedIsUntold(s, a, o);
      }
    } else {
      ShapesByMovers(s, a);
    }
    StepReshapes(s, a);
    InPlaceKept(s, Do(s, a), Shapes(s, a), g, g');
  }

  lemma ShapesByMovers(s: State, a: Act)
    requires Mover(a).None?
    ensures Shapes(s, a).None?
  {
  }

  lemma ThreadInPlace(s: State, t: ThreadId)
    requires AllInPlace(s) && t in s.threads
    ensures InPlace(s, s.threads[t].stage) && StageOf(s, t) == s.threads[t].stage
  {
    hide InPlace;
  }

  lemma NewIsAlone(s: State, a: Act, o: ThreadId)
    requires Guard(s, a) && a.StartCreate? && o in s.threads && InPlace(s, s.threads[o].stage)
    ensures Mentions(s.threads[o].stage) != Some(a.i)
  {
  }

  /** An instance that is touched is not waiting to be told something. */
  lemma TouchedIsUntold(s: State, a: Act, o: ThreadId)
    requires Enabled(s, a) && Shaped(s) && AllInPlace(s) && AllFit(s.threads) && Exclusive(s.threads)
    requires Mover(a).Some? && o in s.threads && o != Mover(a).value
    requires From(a, StageOf(s, Mover(a).value)) && Shapes(s, a).Some?
    ensures s.threads[o].stage.Tell? ==> Shapes(s, a).value !in s.threads[o].stage.left
  {
    var m := Mover(a).value;
    EnabledGives(s, a);
    ShapesWhat(s, a);
    var g, o' := s.threads[m].stage, s.threads[o].stage;
    ThreadInPlace(s, m);
    ThreadInPlace(s, o);
    hide Guard;
    hide From;
    assert LocksFit(s.threads[m]) && LocksFit(s.threads[o]);
  }

  /** A step leads the thread that it moves to a place that fits. */
  lemma MoverInPlace(s: State, a: Act)
    requires Enabled(s, a) && Shaped(s) && AllInPlace(s) && Mover(a).Some?
    ensures From(a, StageOf(s, Mover(a).value)) && InPlace(Do(s, a), To(s, a))
  {
    EnabledGives(s, a);
    ThreadInPlace(s, Mover(a).value);
    hide AllInPlace;
    match a
    case DoAwait(_, _) => AwaitInPlace(s, a);
    case StartCreate(_, _, _) => CreateInPlace(s, a);
    case DoFind(_) => FindInPlace(s, a);
    case DoJoin(_) =>
    case DoErase(_) =>
    case _ => OtherMoverInPlace(s, a);
  }

  lemma AwaitInPlace(s: State, a: Act)
    requires Enabled(s, a) && a.DoAwait? && InPlace(s, StageOf(s, a.t))
    ensures InPlace(Do(s, a), To(s, a))
  {
    hide NewThreads;
    hide NewRegistry;
    hide NewPos;
  }

  lemma CreateInPlace(s: State, a: Act)
    requires Enabled(s, a) && a.StartCreate?
    ensures InPlace(Do(s, a), To(s, a))
  {
    hide NewThreads;
    hide NewRegistry;
    hide NewPos;
  }

  lemma FindInPlace(s: State, a: Act)
    requires Enabled(s, a) && a.DoFind? && Shaped(s) && InPlace(s, StageOf(s, a.t))
    ensures InPlace(Do(s, a), To(s, a))
  {
    hide NewThreads;
    hide NewRegistry;
    hide NewPos;
    var g := StageOf(s, a.t);
    if g.id in s.registry && g.i in s.jobs[s.registry[g.id]].instances {
      assert false;
    }
  }

  lemma OtherMoverInPlace(s: State, a: Act)
    requires Enabled(s, a) && Shaped(s) && Mover(a).Some? && InPlace(s, StageOf(s, Mover(a).value))
    requires !a.DoAwait? && !a.StartCreate? && !a.DoFind? && !a.DoJoin? && !a.DoErase?
    ensures InPlace(Do(s, a), To(s, a))
  {
    hide *;
    EnabledGives(s, a);
    SameJobShape(s, a);
    SameInstShape(s, a);
    TargetHasShape(s);
    OldInPlace(s, a);
    NewState(s, a);
    InPlaceSameShape(s, Do(s, a), To(s, a));
  }

  lemma InPlaceSameShape(s: State, u: State, g: Stage)
    requires InPlace(s, g) && u.jobs.Keys == s.jobs.Keys && u.inst.Keys == s.inst.Keys
    requires forall j | j in s.jobs :: u.jobs[j].instances == s.jobs[j].instances
    requires forall i | i in s.inst :: u.inst[i].job == s.inst[i].job
    ensures InPlace(u, g)
  {
  }

  lemma TargetHasShape(s: State)
    requires Shaped(s)
    ensures EntryTarget(s).Some? ==> EntryTarget(s).value in s.jobs
  {
  }

  /** In the world before the step, the thread would already stand well at its next stage. */
  lemma OldInPlace(s: State, a: Act)
    requires Enabled(s, a) && Mover(a).Some? && InPlace(s, StageOf(s, Mover(a).value))
    requires EntryTarget(s).Some? ==> EntryTarget(s).value in s.jobs
    requires !a.DoAwait? && !a.StartCreate? && !a.DoFind? && !a.DoJoin? && !a.DoErase?
    ensures InPlace(s, To(s, a))
  {
    hide EntryTarget;
    hide CurrentEffect;
    hide Answered;
    hide CanRead;
    hide Looked;
  }

  lemma InPlaceStays(s: State, a: Act)
    requires Enabled(s, a) && Shaped(s) && AllInPlace(s) && Ordered(s.threads)
    requires AllFit(s.threads) && Exclusive(s.threads)
    ensures AllInPlace(Do(s, a))
  {
    hide *;
    var u := Do(s, a);
    EnabledGives(s, a);
    ThreadsChange(s, a);
    StagesChange(s, a, NewThreads(s, a));
    NewState(s, a);
    forall t | t in u.threads ensures InPlace(u, u.threads[t].stage) {
      if Mover(a) == Some(t) {
        MoverInPlace(s, a);
      } else {
        OtherInPlace(s, a, t, u.threads[t].stage);
      }
    }
    AllInPlaceIf(u);
  }

  lemma NewState(s: State, a: Act)
    requires Enabled(s, a)
    ensures var u := Do(s, a);
            && u.threads == NewThreads(s, a) && u.jobs == NewJobs(s, a) && u.inst == NewInst(s, a)
            && u.registry == NewRegistry(s, a) && u.pos == NewPos(s, a)
  {
    hide NewThreads;
    hide NewJobs;
    hide NewInst;
    hide NewRegistry;
    hide NewPos;
    hide Enabled;
  }

  lemma AllInPlaceIf(s: State)
    requires forall t | t in s.threads :: InPlace(s, s.threads[t].stage)
    ensures AllInPlace(s)
  {
    hide InPlace;
  }

  lemma ShapeStays(s: State, a: Act)
    requires Enabled(s, a) && Shaped(s) && AllInPlace(s)
    ensures Shaped(Do(s, a))
  {
    EnabledGives(s, a);
    if Mover(a).Some? {
      ThreadInPlace(s, Mover(a).value);
    }
    hide AllInPlace;
    match a
    case DoAwait(_, _) => AwaitShaped(s, a);
    case StartCreate(_, _, _) => CreateShaped(s, a);
    case DoFind(_) => FindShaped(s, a);
    case DoJoin(_) => JoinShaped(s, a);
    case DoErase(_) => EraseShaped(s, a);
    case _ => OtherShaped(s, a);
  }

  lemma AwaitShaped(s: State, a: Act)
    requires Enabled(s, a) && a.DoAwait? && InPlace(s, StageOf(s, a.t)) && Shaped(s)
    ensures Shaped(Do(s, a))
  {
    hide NewThreads;
    hide NewPos;
  }

  lemma CreateShaped(s: State, a: Act)
    requires Enabled(s, a) && a.StartCreate? && Shaped(s)
    ensures Shaped(Do(s, a))
  {
    hide NewThreads;
    hide NewPos;
  }

  lemma FindShaped(s: State, a: Act)
    requires Enabled(s, a) && a.DoFind? && InPlace(s, StageOf(s, a.t)) && Shaped(s)
    ensures Shaped(Do(s, a))
  {
    hide NewThreads;
    hide NewPos;
  }

  lemma JoinShaped(s: State, a: Act)
    requires Enabled(s, a) && a.DoJoin? && InPlace(s, StageOf(s, a.t)) && Shaped(s)
    ensures Shaped(Do(s, a))
  {
    hide NewThreads;
    hide NewPos;
    hide Updated;
  }

  lemma EraseShaped(s: State, a: Act)
    requires Enabled(s, a) && a.DoErase? && InPlace(s, StageOf(s, a.t)) && Shaped(s)
    ensures Shaped(Do(s, a))
  {
    hide NewThreads;
    hide NewPos;
  }

  lemma OtherShaped(s: State, a: Act)
    requires Enabled(s, a) && Shaped(s) && !a.DoAwait? && !a.StartCreate? && !a.DoFind? && !a.DoJoin? && !a.DoErase?
    requires Mover(a).Some? ==> InPlace(s, StageOf(s, Mover(a).value))
    ensures Shaped(Do(s, a))
  {
    hide *;
    SameJobShape(s, a);
    SameInstShape(s, a);
    RegistersJobs(s, a);
    NewState(s, a);
    ShapedIf(s, Do(s, a));
  }

  lemma ShapedIf(s: State, u: State)
    requires Shaped(s) && u.jobs.Keys == s.jobs.Keys && u.inst.Keys == s.inst.Keys
    requires forall j | j in s.jobs :: u.jobs[j].instances == s.jobs[j].instances
    requires forall i | i in s.inst :: u.inst[i].job == s.inst[i].job
    requires forall id | id in u.registry :: u.registry[id] in s.jobs
    ensures Shaped(u)
  {
  }

  lemma RegistersJobs(s: State, a: Act)
    requires Enabled(s, a) && Shaped(s) && (Mover(a).Some? ==> InPlace(s, StageOf(s, Mover(a).value)))
    ensures forall id | id in NewRegistry(s, a) :: NewRegistry(s, a)[id] in s.jobs
  {
    hide Guard;
    hide Unique;
  }

  // ----- Taken together -----

  /** Locks, places and shape. */
  predicate Orderly(s: State) {
    && AllFit(s.threads) && Exclusive(s.threads) && Kinds(s.threads) && Ordered(s.threads)
    && Shaped(s) && AllInPlace(s)
  }

  lemma InPlaceGivesErased(s: State)
    requires AllInPlace(s)
    ensures ErasedAreThere(s)
  {
    forall t | t in s.threads && s.threads[t].stage.Erase? ensures s.threads[t].stage.i in s.inst {
      assert InPlace(s, s.threads[t].stage);
    }
  }

  lemma OrderlyStays(s: State, a: Act)
    requires Enabled(s, a) && Orderly(s)
    ensures Orderly(Do(s, a))
  {
    InPlaceGivesErased(s);
    FitStays(s, a);
    ExclusiveStays(s, a);
    KindsStay(s, a);
    OrderedStays(s, a);
    ShapeStays(s, a);
    InPlaceStays(s, a);
    NewState(s, a);
    hide AllFit;
    hide Exclusive;
    hide Kinds;
    hide Ordered;
    hide Shaped;
    hide AllInPlace;
    hide Do;
    hide Enabled;
  }
}
