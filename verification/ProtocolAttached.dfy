/** Jobs that an instance has been attached to: what the log thread makes of them once they are registered, in
    every run. */
module ProtocolAttached {
  import opened Text
  import opened ClassAds
  import opened Events
  import opened Protocol
  import opened ProtocolLocks
  import opened ProtocolPlaces
  import opened ProtocolRegistry
  import opened ProtocolLog
  import opened ProtocolRuns

  // ----- Entries that name an ID -----

  /** Cluster and process, as the log thread puts them together. */
  function ProcessName(ad: Ad): Option<string> {
    var cluster, process := Get(ad, CLUSTER), Get(ad, PROC);
    if cluster.None? then None
    else Some(cluster.value.text + ("." + (if process.Some? then process.value.text else "")))
  }

  /** The entry is about the ID, which is that of a cluster or of a process. */
  predicate Names(ad: Ad, id: string) {
    ClusterName(ad) == Some(id) || ProcessName(ad) == Some(id)
  }

  /** The entry is about the process, but its cluster is registered, too, and comes first. */
  predicate Shadowed(registry: map<string, JobId>, ad: Ad, id: string) {
    && ClusterName(ad).Some? && ClusterName(ad) != Some(id) && ClusterName(ad).value in registry
    && ProcessName(ad) == Some(id)
  }

  /** An entry is found to be about a job exactly if it names the job's ID and is not shadowed. */
  lemma TargetNames(registry: map<string, JobId>, ad: Ad, id: string, j: JobId)
    requires id in registry && registry[id] == j && (forall x | x in registry && registry[x] == j :: x == id)
    ensures Target(registry, ad) == Some(j) <==> Names(ad, id) && !Shadowed(registry, ad, id)
  {
    hide Get;
  }

  /** The ID of a cluster is never shadowed. */
  lemma NumbersAreClusters(registry: map<string, JobId>, ad: Ad, id: string)
    requires Digits(id)
    ensures !Shadowed(registry, ad, id) && (Names(ad, id) <==> ClusterName(ad) == Some(id))
  {
    hide Get;
    var name := ProcessName(ad);
    if name.Some? {
      var cluster := Get(ad, CLUSTER).value.text;
      assert name.value[|cluster|] == '.' && '.' in name.value;
    }
  }

  /** The effects that the entries about an ID have, in their order. */
  function NamedEffects(log: seq<Ad>, id: string): seq<Effect> {
    if log == [] then []
    else
      var ad := log[|log| - 1];
      NamedEffects(log[..|log| - 1], id)
      + (if Names(ad, id) && EntryEffect(ad).Some? then [EntryEffect(ad).value] else [])
  }

  lemma OneMoreNamed(log: seq<Ad>, from: nat, n: nat, id: string)
    requires from <= n < |log|
    ensures NamedEffects(log[from..n + 1], id)
            == if Names(log[n], id) && EntryEffect(log[n]).Some?
               then NamedEffects(log[from..n], id) + [EntryEffect(log[n]).value]
               else NamedEffects(log[from..n], id)
  {
    hide Names;
    hide EntryEffect;
    assert log[from..n + 1][..n - from] == log[from..n] && log[from..n + 1][n - from] == log[n];
  }

  // ----- What is kept once the job is registered -----

  predicate Unshadowed(registry: map<string, JobId>, log: seq<Ad>, from: nat, to: nat, id: string) {
    forall k | from <= k < to && k < |log| :: !Shadowed(registry, log[k], id)
  }

  /** The entries that have had their effect, from a place on. */
  function Since(s: State, since: nat): seq<Ad> {
    if since <= Applied(s) <= |s.log| then s.log[since..Applied(s)] else []
  }

  /** The entry that the log thread is at is recognised, and the others have had their effect, each once and
      in order. */
  predicate Caught(s: State, j: JobId, id: string, since: nat, base: Job) {
    && (Subject(s).Some? && s.pos < |s.log| ==>
          (Subject(s) == Some(j) <==> since <= s.pos && Names(s.log[s.pos], id)))
    && j in s.jobs && s.jobs[j].job == Outcome(base, NamedEffects(Since(s, since), id))
  }

  predicate Follows(s: State, j: JobId, id: string, since: nat, base: Job) {
    && Begun(s) && Entered(s, j) && s.jobs[j].cluster == Some(id) && s.start <= since <= Taken(s)
    && (Unshadowed(s.registry, s.log, since, Taken(s), id) ==> Caught(s, j, id, since, base))
  }

  lemma FollowsGives(s: State, j: JobId, id: string, since: nat, base: Job)
    requires Follows(s, j, id, since, base)
    ensures Begun(s) && Entered(s, j) && j in s.jobs && s.jobs[j].cluster == Some(id) && s.start <= since <= Taken(s)
    ensures Unshadowed(s.registry, s.log, since, Taken(s), id) ==> Caught(s, j, id, since, base)
  {
    hide Begun;
    hide Taken;
    hide Unshadowed;
    hide Caught;
  }

  lemma FollowsIf(s: State, j: JobId, id: string, since: nat, base: Job)
    requires Begun(s) && Entered(s, j) && s.jobs[j].cluster == Some(id) && s.start <= since <= Taken(s)
    requires Unshadowed(s.registry, s.log, since, Taken(s), id) ==> Caught(s, j, id, since, base)
    ensures Follows(s, j, id, since, base)
  {
    hide Begun;
    hide Taken;
    hide Unshadowed;
    hide Caught;
  }

  lemma CaughtIf(s: State, j: JobId, id: string, since: nat, base: Job)
    requires Subject(s).Some? && s.pos < |s.log| ==>
               (Subject(s) == Some(j) <==> since <= s.pos && Names(s.log[s.pos], id))
    requires j in s.jobs && s.jobs[j].job == Outcome(base, NamedEffects(Since(s, since), id))
    ensures Caught(s, j, id, since, base)
  {
    hide Subject;
    hide Names;
    hide Outcome;
    hide NamedEffects;
    hide Since;
  }

  lemma CaughtGives(s: State, j: JobId, id: string, since: nat, base: Job)
    requires Caught(s, j, id, since, base)
    ensures Subject(s).Some? && s.pos < |s.log| ==>
              (Subject(s) == Some(j) <==> since <= s.pos && Names(s.log[s.pos], id))
    ensures j in s.jobs && s.jobs[j].job == Outcome(base, NamedEffects(Since(s, since), id))
  {
    hide Subject;
    hide Names;
    hide Outcome;
    hide NamedEffects;
    hide Since;
  }

  // ----- Steps that do not concern the log -----

  /** The log as far as it has been handled, the reader and the job are the same. */
  lemma SameCaught(s: State, u: State, j: JobId, id: string, since: nat, base: Job)
    requires Caught(s, j, id, since, base) && Subject(u) == Subject(s) && u.pos == s.pos
    requires Since(u, since) == Since(s, since)
    requires Subject(s).Some? ==> s.pos < |s.log| && s.pos < |u.log| && u.log[s.pos] == s.log[s.pos]
    requires j in u.jobs && j in s.jobs && u.jobs[j].job == s.jobs[j].job
    ensures Caught(u, j, id, since, base)
  {
    hide Subject;
    hide Names;
    hide Outcome;
    hide NamedEffects;
    hide Since;
  }

  lemma QuietKeepsJob(s: State, a: Act, j: JobId)
    requires Enabled(s, a) && (Quiet(a) || a.Append? || a.LogLookup? || a.LogNotify?) && j in s.jobs
    ensures j in Do(s, a).jobs && Do(s, a).jobs[j].job == s.jobs[j].job
  {
    NewState(s, a);
    hide Do;
    hide NewThreads;
    hide NewInst;
    hide NewRegistry;
    hide NewPos;
  }

  lemma SinceSame(s: State, u: State, since: nat)
    requires Applied(u) == Applied(s) && u.log == s.log
    ensures Since(u, since) == Since(s, since)
  {
    hide Applied;
  }

  lemma QuietCaught(s: State, a: Act, j: JobId, id: string, since: nat, base: Job)
    requires Enabled(s, a) && Orderly(s) && Positions(s) && Quiet(a) && Caught(s, j, id, since, base)
    ensures Caught(Do(s, a), j, id, since, base) && Taken(Do(s, a)) == Taken(s)
  {
    hide *;
    var u := Do(s, a);
    QuietLog(s, a);
    QuietReader(s, u);
    CaughtGives(s, j, id, since, base);
    QuietKeepsJob(s, a, j);
    SinceSame(s, u, since);
    SameCaught(s, u, j, id, since, base);
  }

  lemma QuietReader(s: State, u: State)
    requires SameLog(s, u) && Positions(s)
    ensures Subject(u) == Subject(s) && Applied(u) == Applied(s) && Taken(u) == Taken(s)
    ensures u.log == s.log && u.pos == s.pos && u.start == s.start && (Subject(s).Some? ==> s.pos < |s.log|)
  {
    hide Subject;
    hide StageOf;
    hide Begun;
  }

  lemma AppendCaught(s: State, a: Act, j: JobId, id: string, since: nat, base: Job)
    requires Enabled(s, a) && a.Append? && LogOk(s) && Caught(s, j, id, since, base)
    ensures Caught(Do(s, a), j, id, since, base) && Taken(Do(s, a)) == Taken(s)
  {
    hide *;
    var u := Do(s, a);
    AppendStep(s, a);
    LogOkGives(s);
    TakenInLog(s);
    AppendedReader(s, u);
    AppendedSince(s, u, since);
    CaughtGives(s, j, id, since, base);
    QuietKeepsJob(s, a, j);
    PositionOfSubject(s);
    TakenIs(s);
    TakenIs(u);
    LongerLog(s, u);
    SameCaught(s, u, j, id, since, base);
  }

  lemma LongerLog(s: State, u: State)
    requires s.log <= u.log
    ensures |s.log| <= |u.log|
  {
  }

  lemma TakenIs(s: State)
    ensures Taken(s) == s.pos + if Subject(s).Some? then 1 else 0
  {
  }

  lemma PositionOfSubject(s: State)
    requires Positions(s)
    ensures Subject(s).Some? ==> s.pos < |s.log|
  {
    hide Subject;
  }

  lemma AppendedSince(s: State, u: State, since: nat)
    requires s.log <= u.log && Applied(u) == Applied(s) && Applied(s) <= |s.log|
    ensures Since(u, since) == Since(s, since)
  {
    hide Applied;
    var n := Applied(s);
    if since <= n {
      assert u.log[since..n] == s.log[since..n];
    }
  }

  lemma WriteCaught(s: State, a: Act, j: JobId, id: string, since: nat, base: Job)
    requires Enabled(s, a) && a.DoWrite? && Orderly(s) && WellRegistered(s) && Positions(s)
    requires j in s.jobs && s.jobs[j].cluster == Some(id) && Caught(s, j, id, since, base)
    ensures Caught(Do(s, a), j, id, since, base) && Taken(Do(s, a)) == Taken(s)
  {
    hide *;
    var u := Do(s, a);
    OrderlyGives(s);
    WellRegisteredGives(s);
    WriteStep(s, a);
    FactsAt(s, a);
    OthersWritten(s, a, j);
    SameReader(s, u);
    SinceSame(s, u, since);
    PositionOfSubject(s);
    SameCaught(s, u, j, id, since, base);
  }

  lemma OthersWritten(s: State, a: Act, j: JobId)
    requires Enabled(s, a) && a.DoWrite? && From(a, StageOf(s, a.t)) && Facts(s, StageOf(s, a.t))
    requires j in s.jobs && s.jobs[j].cluster.Some?
    ensures j in NewJobs(s, a) && NewJobs(s, a)[j].job == s.jobs[j].job
  {
  }

  // ----- Steps of the log thread -----

  lemma LookupCaught(s: State, a: Act, j: JobId, id: string, since: nat, base: Job)
    requires Enabled(s, a) && a.LogLookup? && Orderly(s) && RightKeys(s) && LogOk(s)
    requires Entered(s, j) && s.jobs[j].cluster == Some(id) && Caught(s, j, id, since, base) && since <= Taken(s)
    ensures Taken(Do(s, a)) == s.pos + 1 && Taken(s) == s.pos
    ensures !Shadowed(s.registry, s.log[s.pos], id) ==> Caught(Do(s, a), j, id, since, base)
  {
    hide *;
    var u := Do(s, a);
    OrderlyGives(s);
    LogOkGives(s);
    LookupPosition(s, a);
    LookupStage(s, a);
    LogStep(s, a);
    TakenIs(s);
    TakenIs(u);
    CaughtGives(s, j, id, since, base);
    QuietKeepsJob(s, a, j);
    EnteredKeys(s, j, id);
    if !Shadowed(s.registry, s.log[s.pos], id) {
      TargetNames(s.registry, s.log[s.pos], id, j);
      EntryTargetIs(s);
      if EntryTarget(s).Some? {
        SinceSame(s, u, since);
      } else {
        OneMoreNamed(s.log, since, s.pos, id);
        SinceOneMore(s, u, since);
      }
      CaughtIf(u, j, id, since, base);
    }
  }

  lemma LookupStage(s: State, a: Act)
    requires a.LogLookup? && Enabled(s, a)
    ensures Subject(s) == None
  {
  }

  lemma EntryTargetIs(s: State)
    requires s.pos < |s.log|
    ensures EntryTarget(s) == Target(s.registry, s.log[s.pos])
  {
    hide Target;
  }

  lemma EnteredKeys(s: State, j: JobId, id: string)
    requires RightKeys(s) && Entered(s, j) && s.jobs[j].cluster == Some(id)
    ensures id in s.registry && s.registry[id] == j && forall x | x in s.registry && s.registry[x] == j :: x == id
  {
  }

  /** One more entry has had its effect. */
  lemma SinceOneMore(s: State, u: State, since: nat)
    requires u.log == s.log && Applied(s) == s.pos && Applied(u) == s.pos + 1 && s.pos < |s.log|
    ensures since <= s.pos ==> Since(s, since) == s.log[since..s.pos] && Since(u, since) == s.log[since..s.pos + 1]
    ensures s.pos < since ==> Since(s, since) == [] && Since(u, since) == []
  {
    hide Applied;
  }

  lemma ApplyCaught(s: State, a: Act, j: JobId, id: string, since: nat, base: Job)
    requires Enabled(s, a) && a.LogApply? && Orderly(s) && LogOk(s)
    requires Caught(s, j, id, since, base)
    ensures Taken(Do(s, a)) == Taken(s) && Caught(Do(s, a), j, id, since, base)
  {
    hide *;
    var u := Do(s, a);
    OrderlyGives(s);
    LogOkGives(s);
    ApplyPosition(s, a);
    ApplySubject(s, a);
    LogStep(s, a);
    TakenIs(s);
    TakenIs(u);
    CaughtGives(s, j, id, since, base);
    JobIsApplied(s, a, j);
    SinceOneMore(s, u, since);
    if since <= s.pos {
      OneMoreNamed(s.log, since, s.pos, id);
      OutcomeOneMore(base, NamedEffects(s.log[since..s.pos], id), CurrentEffect(s));
    }
    CaughtIf(u, j, id, since, base);
  }

  lemma ApplySubject(s: State, a: Act)
    requires a.LogApply? && Enabled(s, a)
    ensures Subject(s).Some?
  {
  }

  lemma JobIsApplied(s: State, a: Act, j: JobId)
    requires Enabled(s, a) && a.LogApply? && j in s.jobs
    ensures j in NewJobs(s, a)
    ensures NewJobs(s, a)[j].job
         == if Subject(s) == Some(j) then Apply(s.jobs[j].job, CurrentEffect(s)) else s.jobs[j].job
  {
    hide CurrentEffect;
    hide Apply;
  }

  lemma NotifyCaught(s: State, a: Act, j: JobId, id: string, since: nat, base: Job)
    requires Enabled(s, a) && a.LogNotify? && Orderly(s) && Caught(s, j, id, since, base)
    ensures Caught(Do(s, a), j, id, since, base) && Taken(Do(s, a)) == Taken(s)
  {
    hide *;
    var u := Do(s, a);
    OrderlyGives(s);
    NotifyPosition(s, a);
    NotifyTaken(s, a);
    LogStep(s, a);
    CaughtGives(s, j, id, since, base);
    QuietKeepsJob(s, a, j);
    SinceSame(s, u, since);
    CaughtIf(u, j, id, since, base);
  }

  lemma NotifyTaken(s: State, a: Act)
    requires Enabled(s, a) && a.LogNotify? && AllFit(s.threads)
    ensures Taken(Do(s, a)) == Taken(s)
  {
    LogStep(s, a);
    hide Do;
    hide NewJobs;
  }

  // ----- Every step -----

  lemma CaughtStays(s: State, a: Act, j: JobId, id: string, since: nat, base: Job)
    requires Enabled(s, a) && Good(s) && Begun(s) && Entered(s, j) && s.jobs[j].cluster == Some(id)
    requires since <= Taken(s) && Caught(s, j, id, since, base)
    requires a.LogLookup? && s.pos < |s.log| ==> !Shadowed(s.registry, s.log[s.pos], id)
    ensures Caught(Do(s, a), j, id, since, base)
  {
    hide *;
    GoodGives(s);
    NothingLostGives(s);
    LogOkGives(s);
    WellRegisteredGives(s);
    EnteredGives(s, j);
    if Quiet(a) {
      QuietCaught(s, a, j, id, since, base);
    } else {
      OnlyThese(a);
      if a.Append? {
        AppendCaught(s, a, j, id, since, base);
      } else if a.DoWrite? {
        WriteCaught(s, a, j, id, since, base);
      } else if a.LogLookup? {
        OrderlyGives(s);
        LookupPosition(s, a);
        LookupCaught(s, a, j, id, since, base);
      } else if a.LogApply? {
        ApplyCaught(s, a, j, id, since, base);
      } else if a.LogNotify? {
        NotifyCaught(s, a, j, id, since, base);
      } else {
        InitIsNotBegun(s, a);
      }
    }
  }

  /** The log thread does not go back. */
  lemma TakenGrows(s: State, a: Act)
    requires Enabled(s, a) && Orderly(s) && LogOk(s) && Begun(s)
    ensures Taken(s) <= Taken(Do(s, a)) && Do(s, a).start == s.start
    ensures a.LogLookup? ==> Taken(Do(s, a)) == s.pos + 1 && s.pos < |s.log|
  {
    hide *;
    var u := Do(s, a);
    OrderlyGives(s);
    LogOkGives(s);
    TakenIs(s);
    TakenIs(u);
    if Quiet(a) {
      QuietLog(s, a);
      QuietReader(s, u);
      NotALookup(a);
    } else {
      OnlyThese(a);
      if a.Append? {
        AppendStep(s, a);
        TakenInLog(s);
        AppendedReader(s, u);
      } else if a.DoWrite? {
        WriteStep(s, a);
        SameReader(s, u);
      } else if a.LogInit? {
        InitIsNotBegun(s, a);
      } else {
        LogStep(s, a);
        if a.LogLookup? {
          LookupPosition(s, a);
          LookupStage(s, a);
        } else if a.LogApply? {
          ApplyPosition(s, a);
          ApplySubject(s, a);
        } else {
          NotifyTaken(s, a);
        }
      }
    }
  }

  lemma NotALookup(a: Act)
    requires Quiet(a)
    ensures !a.LogLookup?
  {
  }

  /** What is not shadowed now has not been shadowed before: the registry and the log only grow. */
  lemma UnshadowedBefore(s: State, u: State, from: nat, n: nat, m: nat, id: string)
    requires (forall x | x in s.registry :: x in u.registry) && s.log <= u.log && n <= m && n <= |s.log|
    requires Unshadowed(u.registry, u.log, from, m, id)
    ensures Unshadowed(s.registry, s.log, from, n, id)
  {
    hide ClusterName;
    hide ProcessName;
    forall k | from <= k < n && k < |s.log| ensures !Shadowed(s.registry, s.log[k], id) {
      assert u.log[k] == s.log[k];
      assert !Shadowed(u.registry, u.log[k], id);
    }
  }

  lemma UnshadowedThere(s: State, u: State, from: nat, m: nat, id: string)
    requires (forall x | x in s.registry :: x in u.registry) && s.log <= u.log && from <= s.pos < m && s.pos < |s.log|
    requires Unshadowed(u.registry, u.log, from, m, id)
    ensures !Shadowed(s.registry, s.log[s.pos], id)
  {
    hide ClusterName;
    hide ProcessName;
    assert u.log[s.pos] == s.log[s.pos];
    assert !Shadowed(u.registry, u.log[s.pos], id);
  }

  lemma RegistryGrows(s: State, a: Act)
    requires Enabled(s, a) && Orderly(s) && AllFacts(s)
    ensures forall x | x in s.registry :: x in Do(s, a).registry
  {
    StepKeeps(s, a);
    hide Do;
    hide Enabled;
    hide Orderly;
    hide AllFacts;
    hide Entered;
  }

  lemma EnteredStays(s: State, a: Act, j: JobId)
    requires Enabled(s, a) && Orderly(s) && AllFacts(s) && Entered(s, j)
    ensures Entered(Do(s, a), j) && j in s.jobs && Do(s, a).jobs[j].cluster == s.jobs[j].cluster
  {
    hide *;
    StepKeeps(s, a);
    EnteredGives(s, j);
    WrittenIsNew(s, Do(s, a), Written(s, a), Added(s, a), j);
    EnteredKept(s, Do(s, a), Written(s, a), Added(s, a), j);
    KeepsCluster(s, Do(s, a), Written(s, a), Added(s, a), j);
  }

  lemma WrittenIsNew(s: State, u: State, written: Option<JobId>, added: Option<string>, j: JobId)
    requires Keeps(s, u, written, added) && j in s.jobs && s.jobs[j].cluster.Some?
    ensures written != Some(j)
  {
    hide Entered;
  }

  lemma FollowsStays(s: State, a: Act, j: JobId, id: string, since: nat, base: Job)
    requires Enabled(s, a) && Good(s) && Follows(s, j, id, since, base)
    ensures Follows(Do(s, a), j, id, since, base)
  {
    hide *;
    var u := Do(s, a);
    GoodGives(s);
    NothingLostGives(s);
    WellRegisteredGives(s);
    FollowsGives(s, j, id, since, base);
    EnteredStays(s, a, j);
    EnteredGives(u, j);
    BegunStays(s, a);
    TakenGrows(s, a);
    TakenInLog(s);
    if Unshadowed(u.registry, u.log, since, Taken(u), id) {
      RegistryGrows(s, a);
      LogGrows(s, a);
      UnshadowedBefore(s, u, since, Taken(s), Taken(u), id);
      if a.LogLookup? {
        LookupStage(s, a);
        TakenIs(s);
        UnshadowedThere(s, u, since, Taken(u), id);
      }
      CaughtStays(s, a, j, id, since, base);
    }
    FollowsIf(u, j, id, since, base);
  }

  // ----- From the question to Condor to the registration -----

  /** The thread is about to register the job, which is as condor_q has said. */
  predicate Waiting(s: State, t: ThreadId, j: JobId, id: string, state: JobState) {
    && t in s.threads && s.threads[t].stage.Enter? && s.threads[t].stage.j == j
    && j in s.jobs && s.jobs[j].cluster == Some(id) && s.jobs[j].job == Job(state, map[])
  }

  lemma AwaitWaits(s: State, t: ThreadId, j: JobId)
    requires Enabled(s, DoAwait(t, j)) && StageOf(s, t).AwaitLog? && StageOf(s, t).purpose.ForAttach?
    ensures var p := StageOf(s, t).purpose; Waiting(Do(s, DoAwait(t, j)), t, j, p.id, p.state)
  {
    NewState(s, DoAwait(t, j));
    hide Do;
    hide NewInst;
    hide NewRegistry;
    hide NewPos;
  }

  lemma WaitingStays(s: State, a: Act, t: ThreadId, j: JobId, id: string, state: JobState)
    requires Enabled(s, a) && Orderly(s) && WellRegistered(s) && Waiting(s, t, j, id, state)
    ensures if a == DoEnter(t) then Entered(Do(s, a), j) else Waiting(Do(s, a), t, j, id, state)
  {
    hide *;
    var u := Do(s, a);
    WaitingGives(s, t, j, id, state);
    StageOfIs(s, t);
    EnabledGives(s, a);
    if a == DoEnter(t) {
      PendingIsEntered(s, a);
    } else {
      OrderlyGives(s);
      WellRegisteredGives(s);
      ThreadsChange(s, a);
      StagesChange(s, a, NewThreads(s, a));
      NewState(s, a);
      StepKeeps(s, a);
      ThreadFacts(s, t);
      PendingIsOutside(s, s.threads[t].stage);
      WrittenIsNew(s, u, Written(s, a), Added(s, a), j);
      KeepsCluster(s, u, Written(s, a), Added(s, a), j);
      if Mover(a) == Some(t) {
        PendingMoves(s, a);
        MoverOfEnter(a);
      }
      SamePending(s.threads[t].stage, u.threads[t].stage);
      WaitingIf(u, t, j, id, state);
    }
  }

  lemma MoverOfEnter(a: Act)
    ensures a.DoEnter? ==> Mover(a) == Some(a.t) && a == DoEnter(a.t)
  {
  }

  lemma PendingIsOutside(s: State, g: Stage)
    requires Facts(s, g) && g.Enter?
    ensures !Entered(s, g.j)
  {
  }

  lemma WaitingGives(s: State, t: ThreadId, j: JobId, id: string, state: JobState)
    requires Waiting(s, t, j, id, state)
    ensures t in s.threads && s.threads[t].stage.Enter? && s.threads[t].stage.j == j
    ensures j in s.jobs && s.jobs[j].cluster == Some(id) && s.jobs[j].job == Job(state, map[])
  {
  }

  lemma WaitingIf(s: State, t: ThreadId, j: JobId, id: string, state: JobState)
    requires t in s.threads && s.threads[t].stage.Enter? && s.threads[t].stage.j == j
    requires j in s.jobs && s.jobs[j].cluster == Some(id) && s.jobs[j].job == Job(state, map[])
    ensures Waiting(s, t, j, id, state)
  {
  }

  /** With the registration the job begins to follow the log. */
  lemma EnterFollows(s: State, t: ThreadId, j: JobId, id: string, state: JobState)
    requires Enabled(s, DoEnter(t)) && Good(s) && Begun(s) && Waiting(s, t, j, id, state)
    ensures Follows(Do(s, DoEnter(t)), j, id, Taken(s), Job(state, map[])) && Taken(Do(s, DoEnter(t))) == Taken(s)
  {
    hide *;
    var a, u := DoEnter(t), Do(s, DoEnter(t));
    GoodGives(s);
    OrderlyGives(s);
    WellRegisteredGives(s);
    NothingLostGives(s);
    LogOkGives(s);
    WaitingGives(s, t, j, id, state);
    WaitingStays(s, a, t, j, id, state);
    EnterIsQuiet(a);
    QuietLog(s, a);
    QuietReader(s, u);
    QuietKeepsJob(s, a, j);
    EnterKeepsCluster(s, a, j);
    BegunStays(s, a);
    TakenInLog(s);
    TakenIs(s);
    ThreadFacts(s, t);
    PendingIsOutside(s, s.threads[t].stage);
    SubjectIsEntered(s);
    NothingSince(u);
    NoNamed(id, Job(state, map[]));
    CaughtIf(u, j, id, Taken(s), Job(state, map[]));
    FollowsIf(u, j, id, Taken(s), Job(state, map[]));
  }

  lemma EnterIsQuiet(a: Act)
    requires a.DoEnter?
    ensures Quiet(a)
  {
  }

  lemma EnterKeepsCluster(s: State, a: Act, j: JobId)
    requires Enabled(s, a) && a.DoEnter? && j in s.jobs
    ensures j in Do(s, a).jobs && Do(s, a).jobs[j].cluster == s.jobs[j].cluster
  {
    NewState(s, a);
    hide Do;
    hide NewThreads;
    hide NewInst;
    hide NewRegistry;
    hide NewPos;
  }

  lemma NothingSince(s: State)
    ensures Since(s, Taken(s)) == []
  {
    hide StageOf;
  }

  lemma NoNamed(id: string, job: Job)
    ensures Outcome(job, NamedEffects([], id)) == job
  {
  }

  // ----- Every run -----

  /** The state after more steps. */
  function Further(s: State, acts: seq<Act>): State {
    if acts == [] then s
    else
      var u, a := Further(s, acts[..|acts| - 1]), acts[|acts| - 1];
      if Enabled(u, a) then Do(u, a) else u
  }

  lemma {:induction false} FurtherIsAfter(users: set<ThreadId>, before: seq<Act>, acts: seq<Act>)
    ensures Further(After(users, before), acts) == After(users, before + acts)
  {
    hide Enabled;
    hide Do;
    if acts == [] {
      assert before + acts == before;
    } else {
      var all := before + acts;
      assert all[..|all| - 1] == before + acts[..|acts| - 1];
      FurtherIsAfter(users, before, acts[..|acts| - 1]);
    }
  }

  lemma {:induction false} FollowsFurther(s: State, acts: seq<Act>, j: JobId, id: string, since: nat, base: Job)
    requires Good(s) && Follows(s, j, id, since, base)
    ensures Good(Further(s, acts)) && Follows(Further(s, acts), j, id, since, base)
  {
    hide Good;
    hide Follows;
    hide Enabled;
    hide Do;
    if acts != [] {
      var u, a := Further(s, acts[..|acts| - 1]), acts[|acts| - 1];
      FollowsFurther(s, acts[..|acts| - 1], j, id, since, base);
      if Enabled(u, a) {
        StepIsGood(u, a);
        FollowsStays(u, a, j, id, since, base);
      }
    }
  }

  /** Until the thread registers the job, it waits; and the log thread does not vanish. */
  lemma {:induction false} WaitingFurther(s: State, acts: seq<Act>, t: ThreadId, j: JobId, id: string,
                                          state: JobState)
    requires Good(s) && Begun(s) && Waiting(s, t, j, id, state)
    ensures var u := Further(s, acts);
            Good(u) && Begun(u) && (Waiting(u, t, j, id, state) || Entered(u, j))
  {
    hide *;
    FurtherStep(s, acts);
    if acts != [] {
      var u, a := Further(s, acts[..|acts| - 1]), acts[|acts| - 1];
      WaitingFurther(s, acts[..|acts| - 1], t, j, id, state);
      if Enabled(u, a) {
        GoodGives(u);
        WellRegisteredGives(u);
        StepIsGood(u, a);
        BegunStays(u, a);
        if Waiting(u, t, j, id, state) {
          WaitingStays(u, a, t, j, id, state);
        } else {
          EnteredStays(u, a, j);
        }
      }
    }
  }

  lemma FurtherStep(s: State, acts: seq<Act>)
    ensures acts == [] ==> Further(s, acts) == s
    ensures acts != [] ==>
              var u, a := Further(s, acts[..|acts| - 1]), acts[|acts| - 1];
              Further(s, acts) == if Enabled(u, a) then Do(u, a) else u
  {
    hide Enabled;
    hide Do;
  }

  /** What has been handled from a place on is the first of what can be read from there. */
  lemma SinceIsReadable(s: State, since: nat)
    requires Positions(s) && ReadSoFar(s) && s.start <= since <= Taken(s)
    ensures since <= |s.log| && Since(s, since) <= Readable(s.log[since..])
    ensures StageOf(s, LOG).Dead? || (StageOf(s, LOG).Next? && s.pos == |s.log|) ==>
              Since(s, since) == Readable(s.log[since..])
  {
    hide EventType;
    hide StageOf;
    hide Readable;
    AppliedSinceStart(s);
    if since <= Applied(s) {
      var log, n := s.log[since..], Applied(s) - since;
      assert forall k | 0 <= k < n :: log[k] == s.log[since + k];
      ReadableFirst(log, n);
      assert log[..n] == s.log[since..Applied(s)];
    }
  }

  /** The run from the question to condor_q to the registration of the job, and on. */
  predicate Attaches(users: set<ThreadId>, before: seq<Act>, t: ThreadId, j: JobId, between: seq<Act>) {
    var s, r := After(users, before), After(users, before + [DoAwait(t, j)] + between);
    && Enabled(s, DoAwait(t, j)) && StageOf(s, t).AwaitLog? && StageOf(s, t).purpose.ForAttach?
    && Enabled(r, DoEnter(t)) && StageOf(r, t).Enter? && StageOf(r, t).j == j
  }

  /** For a job that was found running and attached to, in every run and at every time after its
      registration: the entries that have been looked up since are the first of those that can be read, and the
      job is what those about its ID make, each applied once and in order, of the state that condor_q has
      given; all of them, once the log thread has caught up or died. Only entries about a process
      whose cluster is registered by itself go to the cluster's job. */
  lemma AttachedJobFollows(users: set<ThreadId>, before: seq<Act>, t: ThreadId, j: JobId, between: seq<Act>,
                           after: seq<Act>)
    requires Attaches(users, before, t, j, between)
    ensures var asked := StageOf(After(users, before), t).purpose;
            var since := Taken(After(users, before + [DoAwait(t, j)] + between));
            var s := After(users, before + [DoAwait(t, j)] + between + [DoEnter(t)] + after);
            && since <= Taken(s) && since <= |s.log| && j in s.jobs && s.jobs[j].cluster == Some(asked.id)
            && Since(s, since) <= Readable(s.log[since..])
            && (StageOf(s, LOG).Dead? || (StageOf(s, LOG).Next? && s.pos == |s.log|) ==>
                  Since(s, since) == Readable(s.log[since..]))
            && (Unshadowed(s.registry, s.log, since, Taken(s), asked.id) ==>
                  var own := NamedEffects(Since(s, since), asked.id);
                  && s.jobs[j].job == Outcome(Job(asked.state, map[]), own)
                  && s.jobs[j].job.state == LastState(own, asked.state))
  {
    hide *;
    AttachesGives(users, before, t, j, between);
    var s0, asked := After(users, before), StageOf(After(users, before), t).purpose;
    RunIsGood(users, before);
    AwaitBegins(s0, t, j);
    AwaitWaits(s0, t, j);
    AfterOneMore(users, before, DoAwait(t, j));
    FurtherIsAfter(users, before + [DoAwait(t, j)], between);
    StepIsGood(s0, DoAwait(t, j));
    WaitingFurther(Do(s0, DoAwait(t, j)), between, t, j, asked.id, asked.state);
    var r := After(users, before + [DoAwait(t, j)] + between);
    StillWaiting(r, t, j, asked.id, asked.state);
    EnterFollows(r, t, j, asked.id, asked.state);
    AfterOneMore(users, before + [DoAwait(t, j)] + between, DoEnter(t));
    FurtherIsAfter(users, before + [DoAwait(t, j)] + between + [DoEnter(t)], after);
    StepIsGood(r, DoEnter(t));
    FollowsFurther(Do(r, DoEnter(t)), after, j, asked.id, Taken(r), Job(asked.state, map[]));
    FollowsOutcome(Further(Do(r, DoEnter(t)), after), j, asked.id, Taken(r), asked.state);
  }

  lemma AttachesGives(users: set<ThreadId>, before: seq<Act>, t: ThreadId, j: JobId, between: seq<Act>)
    requires Attaches(users, before, t, j, between)
    ensures var s, r := After(users, before), After(users, before + [DoAwait(t, j)] + between);
            && Enabled(s, DoAwait(t, j)) && StageOf(s, t).AwaitLog? && StageOf(s, t).purpose.ForAttach?
            && Enabled(r, DoEnter(t)) && StageOf(r, t).Enter? && StageOf(r, t).j == j
  {
    hide After;
    hide Enabled;
    hide StageOf;
  }

  lemma AwaitBegins(s: State, t: ThreadId, j: JobId)
    requires Enabled(s, DoAwait(t, j)) && Good(s)
    ensures Begun(Do(s, DoAwait(t, j)))
  {
    hide *;
    GoodGives(s);
    AwaitFindsLog(s, t, j);
    BegunStays(s, DoAwait(t, j));
  }

  lemma AwaitFindsLog(s: State, t: ThreadId, j: JobId)
    requires Enabled(s, DoAwait(t, j))
    ensures Begun(s)
  {
  }

  lemma StillWaiting(s: State, t: ThreadId, j: JobId, id: string, state: JobState)
    requires Good(s) && (Waiting(s, t, j, id, state) || Entered(s, j))
    requires Enabled(s, DoEnter(t)) && StageOf(s, t).Enter? && StageOf(s, t).j == j
    ensures Waiting(s, t, j, id, state)
  {
    hide *;
    GoodGives(s);
    WellRegisteredGives(s);
    EnabledGives(s, DoEnter(t));
    MoverOfEnter(DoEnter(t));
    ThreadFacts(s, t);
    PendingIsOutside(s, StageOf(s, t));
  }

  lemma FollowsOutcome(s: State, j: JobId, id: string, since: nat, state: JobState)
    requires Good(s) && Follows(s, j, id, since, Job(state, map[]))
    ensures since <= Taken(s) && since <= |s.log| && j in s.jobs && s.jobs[j].cluster == Some(id)
    ensures Since(s, since) <= Readable(s.log[since..])
    ensures StageOf(s, LOG).Dead? || (StageOf(s, LOG).Next? && s.pos == |s.log|) ==>
              Since(s, since) == Readable(s.log[since..])
    ensures Unshadowed(s.registry, s.log, since, Taken(s), id) ==>
              var own := NamedEffects(Since(s, since), id);
              s.jobs[j].job == Outcome(Job(state, map[]), own) && s.jobs[j].job.state == LastState(own, state)
  {
    hide *;
    GoodGives(s);
    NothingLostGives(s);
    LogOkGives(s);
    FollowsGives(s, j, id, since, Job(state, map[]));
    SinceIsReadable(s, since);
    if Unshadowed(s.registry, s.log, since, Taken(s), id) {
      CaughtGives(s, j, id, since, Job(state, map[]));
      OutcomeIsLast(Job(state, map[]), NamedEffects(Since(s, since), id), "");
    }
  }

  lemma {:induction false} ClusterIsNamed(log: seq<Ad>, id: string)
    requires Digits(id)
    ensures NamedEffects(log, id) == ClusterEffects(log, id)
  {
    hide Names;
    hide ClusterName;
    hide EntryEffect;
    hide Digits;
    if log != [] {
      ClusterIsNamed(log[..|log| - 1], id);
      NumbersAreClusters(map[], log[|log| - 1], id);
    }
  }

  /** A job that was attached to by the number of its cluster is what the entries about that cluster make of it,
      whatever else is registered. */
  lemma AttachedClusterFollows(users: set<ThreadId>, before: seq<Act>, t: ThreadId, j: JobId, between: seq<Act>,
                               after: seq<Act>)
    requires Attaches(users, before, t, j, between) && Digits(StageOf(After(users, before), t).purpose.id)
    ensures var asked := StageOf(After(users, before), t).purpose;
            var since := Taken(After(users, before + [DoAwait(t, j)] + between));
            var s := After(users, before + [DoAwait(t, j)] + between + [DoEnter(t)] + after);
            && j in s.jobs
            && s.jobs[j].job == Outcome(Job(asked.state, map[]), ClusterEffects(Since(s, since), asked.id))
  {
    hide *;
    AttachesGives(users, before, t, j, between);
    var asked := StageOf(After(users, before), t).purpose;
    var since := Taken(After(users, before + [DoAwait(t, j)] + between));
    var s := After(users, before + [DoAwait(t, j)] + between + [DoEnter(t)] + after);
    AttachedJobFollows(users, before, t, j, between, after);
    NumbersUnshadowed(s.registry, s.log, since, Taken(s), asked.id);
    ClusterIsNamed(Since(s, since), asked.id);
  }

  lemma NumbersUnshadowed(registry: map<string, JobId>, log: seq<Ad>, from: nat, to: nat, id: string)
    requires Digits(id)
    ensures Unshadowed(registry, log, from, to, id)
  {
    hide Shadowed;
    hide Digits;
    forall k | from <= k < to && k < |log| ensures !Shadowed(registry, log[k], id) {
      NumbersAreClusters(registry, log[k], id);
    }
  }
}
