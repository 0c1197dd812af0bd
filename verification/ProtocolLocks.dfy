/** The locks of the protocol: who holds what, and why threads do not wait for each other in a circle. */
module ProtocolLocks {
  import opened Text
  import opened Protocol

  /** The registry stays locked from the submission of a job until the job is registered. */
  predicate Submits(g: Stage) {
    g.Write? || g.Register? || g.Update?
  }

  /** A thread holds what its stage needs, or is about to lock the one thing that is missing. */
  predicate LocksFit(h: Thread) {
    && h.reg + (if h.wants.Reg? then 1 else 0) == RegAt(h.stage)
    && (if h.wants.JobLock? then h.job == None && JobAt(h.stage) == Some(h.wants.j) else h.job == JobAt(h.stage))
    && (h.wants.Reg? ==> h.reg > 0 || h.job == None)
    && (h.stage.Tell? || h.stage.Register? || h.stage.Update? ==> !h.wants.JobLock?)
    && (Submits(h.stage) ==> h.reg > 0)
  }

  type Threads = map<ThreadId, Thread>

  predicate AllFit(h: Threads) {
    LOG in h && forall t | t in h :: LocksFit(h[t])
  }

  lemma LogIsThere(s: State)
    requires AllFit(s.threads)
    ensures LOG in s.threads
  {
    hide LocksFit;
  }

  /** No lock has two owners. */
  predicate Exclusive(h: Threads) {
    forall t, u | t in h && u in h && t != u ::
      (h[t].reg == 0 || h[u].reg == 0) && (h[t].job == None || h[t].job != h[u].job)
  }

  /** No stage needs two locks more than the one before. */
  predicate OneAtATime(g: Stage, to: Stage) {
    && RegAt(to) <= RegAt(g) + 1
    && (RegAt(to) > RegAt(g) ==> JobAt(to) == JobAt(g) && (RegAt(g) > 0 || JobAt(g) == None))
    && (JobAt(to).Some? && JobAt(g).Some? ==> JobAt(to) == JobAt(g))
    && (to.Tell? || to.Register? || to.Update? ==> JobAt(g) == JobAt(to))
    && (Submits(to) ==> RegAt(g) > 0)
  }

  lemma StagesFit(s: State, a: Act)
    requires Mover(a).Some? && From(a, StageOf(s, Mover(a).value))
    ensures OneAtATime(if a.DoAwait? then Idle else StageOf(s, Mover(a).value), To(s, a))
  {
    hide StageOf;
    hide InstanceOf;
    hide JobOf;
    hide Looked;
    hide EntryTarget;
    hide CurrentEffect;
    hide Answered;
    hide CanRead;
  }

  /** What a step may do to a thread that it is not about: wake it up, or start the log thread. */
  predicate Alike(h: Thread, k: Thread) {
    && k.reg == h.reg && k.job == h.job && k.wants == h.wants
    && (|| k.stage == h.stage
        || (h.stage.Sleep? && k.stage == h.stage.(notified := true))
        || (h.stage.Absent? && k.stage.Init?))
  }

  function Locker(a: Act): Option<ThreadId> {
    if a.LockReg? || a.LockJob? then Some(a.t) else None
  }

  lemma LockGuards(s: State, a: Act)
    requires Guard(s, a)
    ensures a.LockReg? ==> CanLockReg(s, a.t)
    ensures a.LockJob? ==> CanLockJob(s, a.t)
  {
  }

  /** What a step does to the threads. */
  predicate Changed(s: State, a: Act, k: Threads)
    requires Mover(a).Some? ==> From(a, StageOf(s, Mover(a).value))
  {
    var h := s.threads;
    && k.Keys == h.Keys
    && (forall t | t in h && Mover(a) != Some(t) && Locker(a) != Some(t) :: Alike(h[t], k[t]))
    && (Mover(a).Some? ==>
          && Mover(a).value in h && h[Mover(a).value].wants == Nothing
          && k[Mover(a).value] == Goto(if a.DoAwait? then FREE else h[Mover(a).value], To(s, a)))
    && (a.LockReg? ==> CanLockReg(s, a.t) && k[a.t] == h[a.t].(reg := h[a.t].reg + 1, wants := Nothing))
    && (a.LockJob? ==> CanLockJob(s, a.t) && k[a.t] == h[a.t].(job := Some(h[a.t].wants.j), wants := Nothing))
  }

  lemma ThreadsChange(s: State, a: Act)
    requires Enabled(s, a) && AllFit(s.threads)
    ensures Changed(s, a, NewThreads(s, a))
  {
    hide *;
    if a.LogNotify? {
      NotifyChanges(s);
    } else if a.DoOpen? {
      OpenChanges(s, a);
    } else if a.LockReg? || a.LockJob? {
      LockChanges(s, a);
    } else {
      MoveChanges(s, a);
    }
  }

  lemma LockChanges(s: State, a: Act)
    requires Enabled(s, a) && (a.LockReg? || a.LockJob?)
    ensures Changed(s, a, NewThreads(s, a))
  {
    LockGuards(s, a);
    hide Guard;
    hide To;
    hide Goto;
    AlikeItself(s.threads);
    hide Alike;
  }

  lemma MoveChanges(s: State, a: Act)
    requires Enabled(s, a) && !a.LogNotify? && !a.DoOpen? && !a.LockReg? && !a.LockJob?
    ensures Changed(s, a, NewThreads(s, a))
  {
    hide Guard;
    hide To;
    hide Goto;
    AlikeItself(s.threads);
    hide Alike;
    hide CanLockJob;
    hide CanLockReg;
  }

  lemma AlikeItself(h: Threads)
    ensures forall t | t in h :: Alike(h[t], h[t])
  {
  }

  lemma NotifyChanges(s: State)
    requires Enabled(s, LogNotify) && AllFit(s.threads)
    ensures Changed(s, LogNotify, NewThreads(s, LogNotify))
  {
  }

  lemma OpenChanges(s: State, a: Act)
    requires Enabled(s, a) && AllFit(s.threads) && a.DoOpen?
    ensures Changed(s, a, NewThreads(s, a))
  {
    AbsentStarts(s.threads[LOG]);
    AlikeItself(s.threads);
    hide Guard;
    hide To;
    hide Goto;
    hide Alike;
    hide LocksFit;
  }

  lemma AbsentStarts(h: Thread)
    requires LocksFit(h)
    ensures h.stage.Absent? ==> Alike(h, Goto(h, Init))
  {
  }

  predicate Fewer(h: Thread, k: Thread) {
    k.reg <= h.reg && (k.job == None || k.job == h.job)
  }

  lemma GotoFits(h: Thread, g: Stage)
    requires LocksFit(h) && h.wants == Nothing && OneAtATime(h.stage, g)
    ensures LocksFit(Goto(h, g)) && Fewer(h, Goto(h, g))
  {
  }

  lemma AlikeFits(h: Thread, k: Thread)
    requires LocksFit(h) && Alike(h, k)
    ensures LocksFit(k) && Fewer(h, k)
  {
  }

  lemma LockFits(h: Thread)
    requires LocksFit(h)
    ensures h.wants.Reg? ==> LocksFit(h.(reg := h.reg + 1, wants := Nothing))
    ensures h.wants.JobLock? ==> LocksFit(h.(job := Some(h.wants.j), wants := Nothing))
  {
  }

  /** Except for the thread that locks something, nobody holds more than before. */
  lemma HoldingsChange(s: State, a: Act, k: Threads)
    requires Enabled(s, a) && AllFit(s.threads) && Changed(s, a, k)
    ensures k.Keys == s.threads.Keys
    ensures forall t | t in k :: LocksFit(k[t]) && (Locker(a) != Some(t) ==> Fewer(s.threads[t], k[t]))
  {
    var h := s.threads;
    if Mover(a).Some? {
      StagesFit(s, a);
      GotoFits(if a.DoAwait? then FREE else h[Mover(a).value], To(s, a));
    }
    hide To;
    hide Guard;
    hide Goto;
    hide OneAtATime;
    hide From;
    forall t | t in k ensures LocksFit(k[t]) && (Locker(a) != Some(t) ==> Fewer(h[t], k[t])) {
      if Locker(a) == Some(t) {
        LockFits(h[t]);
      } else if Mover(a) != Some(t) {
        AlikeFits(h[t], k[t]);
      }
      hide LocksFit;
      hide Fewer;
      hide Alike;
    }
  }

  lemma FitStays(s: State, a: Act)
    requires Enabled(s, a) && AllFit(s.threads)
    ensures AllFit(NewThreads(s, a))
  {
    ThreadsChange(s, a);
    hide NewThreads;
    HoldingsChange(s, a, NewThreads(s, a));
    hide Enabled;
    hide Changed;
    hide LocksFit;
  }

  lemma ExclusiveIfFewer(h: Threads, k: Threads)
    requires Exclusive(h) && k.Keys == h.Keys && forall t | t in k :: Fewer(h[t], k[t])
    ensures Exclusive(k)
  {
  }

  lemma ExclusiveIfLocked(s: State, a: Act, k: Threads)
    requires Exclusive(s.threads) && Enabled(s, a) && Changed(s, a, k) && Locker(a).Some?
    ensures Exclusive(k)
  {
    hide Guard;
  }

  lemma ExclusiveStays(s: State, a: Act)
    requires Enabled(s, a) && AllFit(s.threads) && Exclusive(s.threads)
    ensures Exclusive(NewThreads(s, a))
  {
    ThreadsChange(s, a);
    var k := NewThreads(s, a);
    hide NewThreads;
    HoldingsChange(s, a, k);
    hide Enabled;
    hide Changed;
    hide Exclusive;
    hide Fewer;
    hide LocksFit;
    if Locker(a).Some? {
      ExclusiveIfLocked(s, a, k);
    } else {
      ExclusiveIfFewer(s.threads, k);
    }
  }

  // ----- No deadlock -----

  /** A thread cannot go on before another one has: it needs a lock that the other holds, or it waits
      for the log thread to find the end of the log. */
  predicate WaitsFor(h: Threads, t: ThreadId, u: ThreadId)
    requires t in h && u in h
  {
    t != u
    && (|| (h[t].wants.Reg? && h[u].reg > 0)
        || (h[t].wants.JobLock? && h[u].job == Some(h[t].wants.j))
        || (h[t].wants.Nothing? && h[t].stage.AwaitLog? && u == LOG && h[u].stage.Init?))
  }

  function Rank(h: Thread): nat {
    if h.wants.Reg? && h.reg == 0 then 3
    else if h.wants.JobLock? then 2
    else if h.wants.Nothing? && h.stage.AwaitLog? then 1
    else 0
  }

  lemma WaitsDescend(h: Threads, t: ThreadId, u: ThreadId)
    requires AllFit(h) && Exclusive(h) && t in h && u in h && WaitsFor(h, t, u)
    ensures Rank(h[u]) < Rank(h[t])
  {
    assert LocksFit(h[t]) && LocksFit(h[u]);
  }

  /** There is no cycle of waiting threads. */
  lemma {:induction false} NoCycle(h: Threads, ts: seq<ThreadId>)
    requires AllFit(h) && Exclusive(h) && |ts| > 1 && forall t | t in ts :: t in h
    requires forall k | 0 <= k < |ts| - 1 :: WaitsFor(h, ts[k], ts[k + 1])
    ensures Rank(h[ts[|ts| - 1]]) < Rank(h[ts[0]])
    ensures ts[0] != ts[|ts| - 1]
  {
    WaitsDescend(h, ts[0], ts[1]);
    if |ts| > 2 {
      assert forall k | 0 <= k < |ts| - 1 :: ts[1..][k] == ts[k + 1];
      NoCycle(h, ts[1..]);
    }
  }
}
