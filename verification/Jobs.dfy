/** The objects that carry a job: its instances (condor_job/condor_job.hpp and condor_job.cpp), the
    data that they share (condor_job/shared_job_data.hpp), the registry (condor_job/job_registry.cpp),
    pools (condor_job/pool_data.cpp) and the adaptor (condor_job/condor_job_adaptor.hpp and .cpp),
    and the processing of log entries (condor_job/log_processor.cpp). */
module Jobs {
  import opened Text
  import opened ClassAds
  import opened Events
  import EventCodes
  import JobIds
  import Pools
  import SubmitFile

  /** The attribute that shows the identifier. */
  const JOB_ID := "JobID"

  /** job_cpi_impl, as far as it follows its job. */
  class JobInstance {
    const data: SharedJobData
    var live: bool
    var attributes: Attributes
    var metric: JobState
    var fired: seq<JobState>
    var changed: bool
    var cached: JobState

    /** The beginning of the constructor: the instance holds the data. */
    constructor (data: SharedJobData, metric: JobState)
      modifies data`holders
      ensures this.data == data && data.holders == old(data.holders) + {this}
      ensures View() == Instance(true, map[], metric, [], false, New)
    {
      this.data := data;
      live := true;
      attributes := map[];
      this.metric := metric;
      fired := [];
      changed := false;
      cached := New;
      new;
      data.holders := data.holders + {this};
    }

    ghost function View(): Instance
      reads this
    {
      Instance(live, attributes, metric, fired, changed, cached)
    }

    method UpdateState(state: JobState, news: Attributes)
      modifies this
      ensures View() == Updated(old(View()), state, news)
      ensures !old(live) ==> View() == old(View())
      ensures old(live) ==>
                && attributes == old(attributes) + news && metric == state && live && changed && cached == old(cached)
                && fired == old(fired) + (if old(metric) == state then [] else [state])
    {
      if !live {
        return;
      }
      SetAttributes(news);
      if metric != state {
        metric := state;
        fired := fired + [state];
      }
      changed := true;
    }

    method SetAttributes(news: Attributes)
      modifies this`attributes
      ensures attributes == old(attributes) + news
    {
      var names := news.Keys;
      assert news - names == map[];
      while names != {}
        invariant names <= news.Keys
        invariant attributes == old(attributes) + (news - names)
        decreases |names|
      {
        var name :| name in names;
        MergeOneMore(old(attributes), news, names, name);
        attributes := attributes[name := news[name]];
        names := names - {name};
      }
      assert news - {} == news;
    }

    /** The cached state is refreshed only if something has changed since. */
    method GetState() returns (state: JobState)
      modifies this`changed, this`cached
      ensures state == if old(changed) then data.state else old(cached)
      ensures cached == state && !changed
    {
      if changed {
        cached := data.state;
        changed := false;
      }
      return cached;
    }

    method IsStateFinal() returns (final: bool)
      modifies this`changed, this`cached
      ensures final <==> (if old(changed) then data.state else old(cached)) in {Done, Canceled, Failed}
      ensures cached in {Running, Suspended, New, Unknown} ==> !final
    {
      var state := GetState();
      final := state == Done || state == Canceled || state == Failed;
    }

    /** The end of the constructor: the instance learns of the state and then follows the job. */
    method Join()
      modifies this, data`instances
      ensures data.instances == old(data.instances) + {this}
      ensures View() == Updated(old(View()), data.state, data.attributes)
    {
      UpdateState(data.state, data.attributes);
      data.instances := data.instances + {this};
    }

    /** The destructor. */
    method Leave()
      modifies data`instances, data`holders
      ensures data.instances == old(data.instances) - {this} && data.holders == old(data.holders) - {this}
    {
      data.instances := data.instances - {this};
      data.holders := data.holders - {this};
    }

    /** Nobody but this instance holds the data, and no registry does. */
    predicate Unique()
      reads this, data, data.pool.registry
    {
      data.holders == {this} && data !in data.pool.registry.jobs.Values
    }

    /** The instance does not show an identifier yet. */
    predicate Anonymous()
      reads this
    {
      JOB_ID in attributes ==> attributes[JOB_ID] == ""
    }

    /** set_job_id shows the identifier, and registers a job that has one by now and that nobody else
        holds. Its own assertion and those of the registry are the preconditions. */
    method SetJobId()
      requires Anonymous() || data.fullJobId == ""
      requires data.fullJobId != "" && Unique() ==> data.clusterId !in data.pool.registry.jobs
      modifies this`attributes, data.pool.registry
      ensures attributes == old(attributes)["JobID" := data.fullJobId]
      ensures data.pool.registry.jobs
           == if data.fullJobId != "" && old(Unique())
              then old(data.pool.registry.jobs)[data.clusterId := data]
              else old(data.pool.registry.jobs)
    {
      attributes := attributes[JOB_ID := data.fullJobId];
      if data.fullJobId != "" && Unique() {
        data.RegisterJob();
      }
    }

    /** The part of sync_run that follows a successful submission, with the registry locked. Other
        instances of the job are not told of the new state. */
    method Submitted(cluster: string)
      requires Anonymous() && (Unique() ==> cluster !in data.pool.registry.jobs)
      modifies this, data, data.pool.registry
      ensures data.state == Running && data.clusterId == cluster
      ensures data.fullJobId == "[" + data.pool.url + "]-[" + cluster + "]"
      ensures data.pool.url != "" && JobIds.Number(cluster) ==>
                JobIds.Split(data.fullJobId) == Some((data.pool.url, cluster))
      ensures data.attributes == old(data.attributes) && data.instances == old(data.instances)
      ensures data.holders == old(data.holders) && data.notified == old(data.notified)
      ensures data.pool.registry.jobs
           == if old(Unique()) then old(data.pool.registry.jobs)[cluster := data] else old(data.pool.registry.jobs)
      ensures var before := old(View());
              View() == Updated(before.(attributes := before.attributes[JOB_ID := data.fullJobId]),
                                Running, data.attributes)
    {
      data.state := Running;
      data.clusterId := cluster;
      data.fullJobId := "[" + data.pool.url + "]-[" + data.clusterId + "]";
      SetJobId();
      UpdateState(data.state, data.attributes);
      if data.pool.url != "" && JobIds.Number(cluster) {
        JobIds.NumberedIsReadBack(data.pool.url, cluster);
      }
    }
  }

  lemma MergeOneMore(base: Attributes, news: Attributes, names: set<string>, name: string)
    requires name in names && names <= news.Keys
    ensures base + (news - (names - {name})) == (base + (news - names))[name := news[name]]
  {
    assert news - (names - {name}) == (news - names)[name := news[name]];
  }

  class SharedJobData {
    const pool: Pool
    var state: JobState
    var attributes: Attributes
    var fullJobId: string
    var clusterId: string
    var instances: set<JobInstance>
    /** The instances that hold these data; the registry may hold them, too. */
    var holders: set<JobInstance>
    /** How often the waiters have been notified. */
    var notified: nat

    constructor (pool: Pool, state: JobState)
      ensures this.pool == pool && this.state == state && attributes == map[] && instances == {}
      ensures fullJobId == "" && clusterId == "" && holders == {} && notified == 0
    {
      this.pool := pool;
      this.state := state;
      attributes := map[];
      fullJobId := "";
      clusterId := "";
      instances := {};
      holders := {};
      notified := 0;
    }

    ghost function Value(): Job
      reads this
    {
      Job(state, attributes)
    }

    /** The job, its waiters and its instances have seen the effect of an entry, if there was one. */
    twostate predicate Follows(effect: Option<Effect>)
      reads this, instances
    {
      && Value() == Apply(old(Value()), effect)
      && instances == old(instances)
      && notified == old(notified) + (if effect.Some? then 1 else 0)
      && forall i | i in instances ::
           i.View() == if effect.Some? then Updated(old(i.View()), state, attributes) else old(i.View())
    }

    method RegisterJob()
      requires clusterId !in pool.registry.jobs
      modifies pool.registry
      ensures pool.registry.jobs == old(pool.registry.jobs)[clusterId := this]
    {
      pool.registry.RegisterJob(this);
    }

    method UnregisterJob()
      requires clusterId in pool.registry.jobs
      modifies pool.registry
      ensures pool.registry.jobs == old(pool.registry.jobs) - {clusterId}
    {
      pool.registry.UnregisterJob(this);
    }
  }

  class JobRegistry {
    var jobs: map<string, SharedJobData>

    constructor ()
      ensures jobs == map[]
    {
      jobs := map[];
    }

    /** Every job is registered under its cluster ID, and its instances are its own. */
    ghost predicate Valid()
      reads this, jobs.Values
    {
      forall k | k in jobs :: jobs[k].clusterId == k && forall i | i in jobs[k].instances :: i.data == jobs[k]
    }

    /** The two assertions of the original are the precondition. */
    method RegisterJob(ptr: SharedJobData)
      requires ptr.clusterId !in jobs
      modifies this
      ensures jobs == old(jobs)[ptr.clusterId := ptr]
    {
      jobs := jobs[ptr.clusterId := ptr];
    }

    method UnregisterJob(ptr: SharedJobData)
      requires ptr.clusterId in jobs
      modifies this
      ensures jobs == old(jobs) - {ptr.clusterId}
    {
      jobs := jobs - {ptr.clusterId};
    }

    method FindJob(id: string) returns (job: SharedJobData?)
      ensures id in jobs ==> job == jobs[id]
      ensures id !in jobs ==> job == null
    {
      if id in jobs {
        return jobs[id];
      }
      return null;
    }

    /** The instances of all registered jobs. */
    ghost function Instances(): set<JobInstance>
      reads this, jobs.Values
    {
      set d, i | d in jobs.Values && i in d.instances :: i
    }

    ghost function View(): map<SharedJobData, Job>
      reads this, jobs.Values
    {
      map d | d in jobs.Values :: d.Value()
    }

    ghost function Views(): map<JobInstance, Instance>
      reads this, jobs.Values, Instances()
    {
      map i | i in Instances() :: i.View()
    }

    /** Since the jobs and the instances were as given, exactly the entries of the log have been
        processed: the jobs are what replaying the log makes of them, and each instance has been
        told of each state of its job. */
    ghost predicate Followed(base: map<SharedJobData, Job>, bases: map<JobInstance, Instance>, log: seq<Ad>)
      reads this, jobs.Values, Instances()
    {
      && View() == Replay(jobs, base, log)
      && base.Keys == jobs.Values
      && forall i | i in Instances() ::
           i in bases && i.data in base && i.View() == Follow(bases[i], base[i.data], Own(jobs, log, i.data))
    }

    /** From the given values, one entry has had its effect on the job that it is about and on the
        instances of that job, and on nothing else. */
    ghost predicate Stepped(view: map<SharedJobData, Job>, views: map<JobInstance, Instance>,
                            job: Option<SharedJobData>, effect: Option<Effect>)
      reads this, jobs.Values, Instances()
    {
      && view.Keys == jobs.Values && views.Keys == Instances()
      && (forall d | d in jobs.Values :: d.Value() == if job == Some(d) then Apply(view[d], effect) else view[d])
      && forall i | i in Instances() ::
           && i.data in jobs.Values
           && i.View() == if job == Some(i.data) && effect.Some?
                          then Updated(views[i], i.data.state, i.data.attributes) else views[i]
    }

    lemma ViewsAre()
      ensures View().Keys == jobs.Values && Views().Keys == Instances()
      ensures forall d | d in jobs.Values :: View()[d] == d.Value()
      ensures forall i | i in Instances() :: Views()[i] == i.View()
    {
    }

    /** The instances of one job have been told of its new state, and all else is as before. */
    lemma DeliveredIsStepped(view: map<SharedJobData, Job>, views: map<JobInstance, Instance>,
                             job: SharedJobData, effect: Option<Effect>)
      requires Valid() && job in jobs.Values && view.Keys == jobs.Values && views.Keys == Instances()
      requires forall d | d in jobs.Values :: d.Value() == if job == d then Apply(view[d], effect) else view[d]
      requires forall i | i in Instances() ::
                 i.View() == if effect.Some? && i in job.instances then Updated(views[i], job.state, job.attributes)
                             else views[i]
      ensures Stepped(view, views, Some(job), effect)
    {
      hide Apply;
      hide Updated;
      forall i | i in Instances()
        ensures && i.data in jobs.Values
                && i.View() == if i.data == job && effect.Some? then Updated(views[i], i.data.state, i.data.attributes)
                               else views[i]
      {
        assert i.data in jobs.Values && i in i.data.instances;
      }
    }

    lemma NothingStepped(job: Option<SharedJobData>, effect: Option<Effect>)
      requires Valid() && (job.None? || effect.None?)
      ensures Stepped(View(), Views(), job, effect)
    {
      forall i | i in Instances() ensures i.data in jobs.Values {
      }
    }

    lemma NothingFollowed()
      requires Valid()
      ensures Followed(View(), Views(), [])
    {
      assert View().Keys == jobs.Values;
      forall i | i in Instances() ensures i.data in jobs.Values && Own(jobs, [], i.data) == [] {
      }
    }
  }

  class Pool {
    const url: string
    var log: string
    const registry: JobRegistry
    var processor: EventProcessor?

    constructor (url: string, log: string)
      ensures this.url == url && this.log == log && processor == null
      ensures fresh(registry) && registry.jobs == map[]
    {
      this.url := url;
      this.log := log;
      processor := null;
      var r := new JobRegistry();
      registry := r;
    }

    /** The pool opens one log and starts one processor for it. The path of a new temporary file
        is a parameter. */
    method GetLog(temporary: string) returns (path: string)
      requires temporary != ""
      modifies this`log, this`processor
      ensures path == log && log == (if old(log) == "" then temporary else old(log))
      ensures processor != null
      ensures if old(processor) == null then fresh(processor) && processor.registry == registry
              else processor == old(processor)
    {
      if log == "" {
        log := temporary;
      }
      if processor == null {
        processor := new EventProcessor(registry);
      }
      return log;
    }

    ghost function View(): Pools.Pool<SharedJobData>
      reads registry
    {
      Pools.Pool(url, registry.jobs)
    }
  }

  class JobAdaptor {
    const condorLog: string
    var pools: map<string, Pool>

    constructor (condorLog: string)
      ensures this.condorLog == condorLog && pools == map[]
    {
      this.condorLog := condorLog;
      pools := map[];
    }

    ghost function View(): map<string, Pools.Pool<SharedJobData>>
      reads this, pools.Values, set p | p in pools.Values :: p.registry
    {
      map k | k in pools :: pools[k].View()
    }

    /** The pool of the jobs that the adaptor submits. */
    method GetPool(rm: string) returns (sp: Pool)
      modifies this`pools
      ensures rm in pools && sp == pools[rm] && pools == old(pools)[rm := sp]
      ensures if rm in old(pools) then sp == old(pools[rm])
              else fresh(sp) && fresh(sp.registry) && sp.url == rm && sp.log == condorLog && sp.registry.jobs == map[]
    {
      if rm in pools {
        sp := pools[rm];
      } else {
        sp := new Pool(rm, condorLog);
        pools := pools[rm := sp];
      }
    }

    /** The pool of the jobs that are found running: it goes by the log, and whoever asks first
        gives it the URL. */
    method GetPoolForLog(rm: string, log: string) returns (sp: Pool)
      modifies this`pools
      ensures log in pools && sp == pools[log] && pools == old(pools)[log := sp]
      ensures if log in old(pools) then sp == old(pools[log])
              else fresh(sp) && fresh(sp.registry) && sp.url == rm && sp.log == log && sp.registry.jobs == map[]
    {
      if log in pools {
        sp := pools[log];
      } else {
        sp := new Pool(rm, log);
        pools := pools[log := sp];
      }
    }

    /** First the candidates are collected, and then each one is asked. The order of the keys is
        that of the map. */
    method FindJob(rm: string, id: string, order: seq<string>) returns (job: SharedJobData?)
      requires order == SubmitFile.SortedKeys(pools.Keys)
      ensures match Pools.FindJob(View(), rm, id)
              case None => job == null
              case Some(d) => job == d
    {
      SubmitFile.SortedKeysAreSorted(pools.Keys);
      var candidates := CollectPools(rm, order);
      job := AskPools(candidates, id);
      ghost var view := View();
      assert view.Keys == pools.Keys;
      CandidatesSuffice(order, pools, view, rm, id);
    }

    method CollectPools(rm: string, order: seq<string>) returns (candidates: seq<Pool>)
      requires forall k | k in order :: k in pools
      ensures candidates == Candidates(order, pools, rm)
    {
      candidates := [];
      for i := 0 to |order|
        invariant candidates + Candidates(order[i..], pools, rm) == Candidates(order, pools, rm)
      {
        assert order[i] in order;
        assert order[i..][0] == order[i] && order[i..][1..] == order[i + 1..];
        if pools[order[i]].url == rm {
          candidates := candidates + [pools[order[i]]];
        }
      }
    }

    method AskPools(candidates: seq<Pool>, id: string) returns (job: SharedJobData?)
      ensures job == FirstWith(candidates, id)
    {
      job := null;
      for i := 0 to |candidates|
        invariant job == null
        invariant FirstWith(candidates, id) == FirstWith(candidates[i..], id)
      {
        assert candidates[i..][0] == candidates[i] && candidates[i..][1..] == candidates[i + 1..];
        job := candidates[i].registry.FindJob(id);
        if job != null {
          break;
        }
      }
    }
  }

  ghost function Candidates(keys: seq<string>, pools: map<string, Pool>, rm: string): seq<Pool>
    requires forall k | k in keys :: k in pools
  {
    if keys == [] then []
    else
      assert keys[0] in keys;
      (if pools[keys[0]].url == rm then [pools[keys[0]]] else []) + Candidates(keys[1..], pools, rm)
  }

  ghost function FirstWith(pools: seq<Pool>, id: string): SharedJobData?
    reads set p | p in pools :: p.registry
  {
    if pools == [] then null
    else if id in pools[0].registry.jobs then pools[0].registry.jobs[id]
    else FirstWith(pools[1..], id)
  }

  lemma {:induction false} CandidatesSuffice(keys: seq<string>, pools: map<string, Pool>,
                                             view: map<string, Pools.Pool<SharedJobData>>, rm: string, id: string)
    requires forall k | k in keys :: k in pools && k in view && view[k] == pools[k].View()
    ensures match Pools.FindAmong(keys, view, rm, id)
            case None => FirstWith(Candidates(keys, pools, rm), id) == null
            case Some(d) => FirstWith(Candidates(keys, pools, rm), id) == d
  {
    if keys != [] {
      assert keys[0] in keys;
      CandidatesSuffice(keys[1..], pools, view, rm, id);
      var first := pools[keys[0]];
      if first.url == rm {
        assert Candidates(keys, pools, rm)[0] == first;
        assert Candidates(keys, pools, rm)[1..] == Candidates(keys[1..], pools, rm);
      } else {
        assert Candidates(keys, pools, rm) == Candidates(keys[1..], pools, rm);
      }
    }
  }

  // ----- Log entries -----

  datatype Handling = Processed | Skipped | Threw

  class EventProcessor {
    const registry: JobRegistry

    constructor (registry: JobRegistry)
      ensures this.registry == registry
    {
      this.registry := registry;
    }

    method ProcessLogEntry(c: Ad) returns (outcome: Handling)
      requires registry.Valid()
      modifies registry.jobs.Values, registry.Instances()
      ensures registry.Valid() && registry.Instances() == old(registry.Instances())
      ensures outcome == Threw <==> EventType(c).None?
      ensures outcome == Processed <==> Target(registry.jobs, c).Some? && EntryEffect(c).Some?
      ensures registry.Stepped(old(registry.View()), old(registry.Views()),
                               Target(registry.jobs, c), EntryEffect(c))
      ensures forall d | d in registry.jobs.Values ::
                d.notified
                == old(d.notified) + (if outcome == Processed && Target(registry.jobs, c) == Some(d) then 1 else 0)
    {
      hide *;
      EffectOfEntry(c);
      var event, job := Resolve(c);
      if event.None? {
        registry.NothingStepped(Target(registry.jobs, c), EntryEffect(c));
        return Threw;
      }
      if job == null {
        registry.NothingStepped(Target(registry.jobs, c), EntryEffect(c));
        return Skipped;
      }
      var known := DeliverRegistered(job, c, event.value);
      outcome := if known then Processed else Skipped;
    }

    /** The event type and the job of an entry. */
    method Resolve(c: Ad) returns (event: Option<int>, job: SharedJobData?)
      requires registry.Valid()
      ensures registry.Valid() && registry.Instances() == old(registry.Instances())
      ensures registry.View() == old(registry.View()) && registry.Views() == old(registry.Views())
      ensures event == EventType(c)
      ensures event.Some? && job == null ==> Target(registry.jobs, c) == None
      ensures event.Some? && job != null ==> Target(registry.jobs, c) == Some(job) && job in registry.jobs.Values
    {
      hide Get;
      hide ParseInt;
      event, job := Some(-1), null;
      var attr := Get(c, EVENT_TYPE);
      if attr.Some? && attr.value.kind == "i" {
        event := ParseInt(attr.value.text);
        if event.None? {
          return;
        }
      }
      attr := Get(c, CLUSTER);
      if attr.None? {
        return;
      }
      var cluster := attr.value.text;
      var process := "";
      attr := Get(c, PROC);
      if attr.Some? {
        process := attr.value.text;
      }
      job := registry.FindJob(cluster);
      if job == null {
        job := registry.FindJob(cluster + ("." + process));
      }
    }

    method DeliverRegistered(job: SharedJobData, c: Ad, event: int) returns (known: bool)
      requires registry.Valid() && job in registry.jobs.Values
      modifies registry.jobs.Values, registry.Instances()
      ensures registry.Valid() && registry.Instances() == old(registry.Instances())
      ensures known == EffectOf(c, event).Some?
      ensures registry.Stepped(old(registry.View()), old(registry.Views()), Some(job), EffectOf(c, event))
      ensures forall d | d in registry.jobs.Values ::
                d.notified == old(d.notified) + (if known && d == job then 1 else 0)
    {
      hide *;
      ghost var view, views := registry.View(), registry.Views();
      registry.ViewsAre();
      known := DeliverTo(job, c, event);
      registry.DeliveredIsStepped(view, views, job, EffectOf(c, event));
    }

    method DeliverTo(job: SharedJobData, c: Ad, event: int) returns (known: bool)
      requires registry.Valid() && job in registry.jobs.Values
      modifies registry.jobs.Values, registry.Instances()
      ensures registry.Valid() && registry.Instances() == old(registry.Instances())
      ensures known == EffectOf(c, event).Some?
      ensures forall d | d in old(registry.jobs.Values) ::
                && d.Value() == (if d == job then Apply(old(d.Value()), EffectOf(c, event)) else old(d.Value()))
                && d.notified == old(d.notified) + (if known && d == job then 1 else 0)
      ensures forall i | i in old(registry.Instances()) ::
                i.View() == if known && i in job.instances then Updated(old(i.View()), job.state, job.attributes)
                            else old(i.View())
    {
      hide EffectOf;
      hide Apply;
      hide Updated;
      assert job.instances <= registry.Instances();
      known := Deliver(job, c, event);
    }

    /** What happens once the job is locked. */
    method Deliver(job: SharedJobData, c: Ad, event: int) returns (known: bool)
      modifies job`state, job`attributes, job`notified, job.instances
      ensures known == EffectOf(c, event).Some?
      ensures job.Follows(EffectOf(c, event))
    {
      hide EffectOf;
      known := Switch(job, c, event);
      if known {
        Notify(job);
      }
    }

    /** The entries that the log reader hands over are processed one after the other, until one
        cannot be read: its exception ends the thread. */
    method ProcessLog(handed: seq<Ad>)
      requires registry.Valid()
      modifies registry.jobs.Values, registry.Instances()
      ensures registry.Valid() && registry.Instances() == old(registry.Instances())
      ensures registry.Followed(old(registry.View()), old(registry.Views()), Readable(handed))
    {
      hide *;
      ReadableStart(handed);
      registry.NothingFollowed();
      ghost var base, bases := registry.View(), registry.Views();
      for k := 0 to |handed|
        invariant registry.Valid() && registry.Instances() == old(registry.Instances())
        invariant Readable(handed[..k]) == handed[..k]
        invariant registry.Followed(base, bases, handed[..k])
      {
        ReadableTurn(handed, k);
        var outcome := ProcessNext(handed[k], handed, k, base, bases);
        if outcome == Threw {
          return;
        }
      }
      assert handed[..|handed|] == handed;
    }

    method ProcessNext(c: Ad, ghost log: seq<Ad>, ghost k: nat, ghost base: map<SharedJobData, Job>,
                       ghost bases: map<JobInstance, Instance>)
      returns (outcome: Handling)
      requires registry.Valid() && k < |log| && log[k] == c
      requires registry.Followed(base, bases, log[..k])
      modifies registry.jobs.Values, registry.Instances()
      ensures registry.Valid() && registry.Instances() == old(registry.Instances())
      ensures outcome == Threw <==> EventType(c).None?
      ensures registry.Followed(base, bases, if outcome == Threw then log[..k] else log[..k + 1])
    {
      hide *;
      ghost var view, views := registry.View(), registry.Views();
      FollowedGives(registry, base, bases, log[..k]);
      outcome := ProcessLogEntry(c);
      FollowedOneMore(registry, view, views, base, bases, log, k);
      if outcome == Threw {
        FollowedNone(registry, base, bases, log, k);
      }
    }

    method Switch(job: SharedJobData, c: Ad, event: int) returns (known: bool)
      modifies job`state, job`attributes
      ensures known == EffectOf(c, event).Some? && job.Value() == Apply(old(job.Value()), EffectOf(c, event))
      ensures known <==> event in {0, 1, 2, 4, 5, 9, 12, 13}
      ensures event in {0, 1, 13} ==> job.state == Running
      ensures event == 12 ==> job.state == Suspended
      ensures event in {2, 4} ==> job.state == Failed
      ensures event == 5 ==> job.state == if Get(c, "TerminatedBySignal").Some? then Failed else Done
      ensures event == 9 ==> job.state == Canceled
      ensures Given(c, "EventTime", event in {2, 4, 5, 9}, "Finished", old(job.attributes), job.attributes)
      ensures Given(c, "ReturnValue", event == 5, "ExitCode", old(job.attributes), job.attributes)
      ensures Given(c, "TerminatedBySignal", event == 5, "Termsig", old(job.attributes), job.attributes)
      ensures forall name | name !in {"Finished", "ExitCode", "Termsig"} ::
                Entry(job.attributes, name) == old(Entry(job.attributes, name))
    {
      hide Apply;
      hide EffectOf;
      hide Get;
      hide Entry;
      hide Given;
      ghost var before := job.Value();
      known := SwitchOn(job, c, event);
      EventCodes.EffectMeans(before, c, event);
      SwitchSets(before, c, event);
    }

    method SwitchOn(job: SharedJobData, c: Ad, event: int) returns (known: bool)
      modifies job`state, job`attributes
      ensures known == EffectOf(c, event).Some?
      ensures job.Value() == Apply(old(job.Value()), EffectOf(c, event))
    {
      hide Get;
      known := true;
      if event == 0 || event == 1 || event == 13 {
        job.state := Running;
      } else if event == 12 {
        job.state := Suspended;
      } else if event == 2 || event == 4 {
        Copy(job, c, FINISHED, EVENT_TIME);
        job.state := Failed;
      } else if event == 5 {
        Terminated(job, c);
      } else if event == 9 {
        Copy(job, c, FINISHED, EVENT_TIME);
        job.state := Canceled;
      } else {
        known := false;
      }
    }

    method Terminated(job: SharedJobData, c: Ad)
      modifies job`state, job`attributes
      ensures EffectOf(c, 5).Some?
      ensures job.Value() == Apply(old(job.Value()), EffectOf(c, 5))
    {
      hide Get;
      hide Setting;
      Copy(job, c, FINISHED, EVENT_TIME);
      Copy(job, c, EXIT_CODE, RETURN_VALUE);
      job.state := Done;
      var attr := Get(c, TERMINATED_BY_SIGNAL);
      if attr.Some? {
        Copy(job, c, TERM_SIG, TERMINATED_BY_SIGNAL);
        job.state := Failed;
      }
      MergeNothing(job.attributes, TERM_SIG);
      MergeThree(old(job.attributes), Setting(FINISHED, Get(c, EVENT_TIME)),
                 Setting(EXIT_CODE, Get(c, RETURN_VALUE)), Setting(TERM_SIG, attr));
    }

    method Copy(job: SharedJobData, c: Ad, name: string, key: string)
      modifies job`attributes
      ensures job.attributes == old(job.attributes) + Setting(name, Get(c, key))
    {
      var attr := Get(c, key);
      if attr.Some? {
        job.attributes := job.attributes[name := attr.value.text];
      }
    }

    /** Every instance is told of the state, and then the waiters are woken up. */
    method Notify(job: SharedJobData)
      modifies job`notified, job.instances
      ensures job.notified == old(job.notified) + 1
      ensures forall i | i in job.instances :: i.View() == Updated(old(i.View()), job.state, job.attributes)
    {
      var left := job.instances;
      while left != {}
        invariant left <= job.instances
        invariant job.notified == old(job.notified)
        invariant forall i | i in job.instances ::
                    i.View() == if i in left then old(i.View()) else Updated(old(i.View()), job.state, job.attributes)
        decreases |left|
      {
        var it :| it in left;
        it.UpdateState(job.state, job.attributes);
        left := left - {it};
      }
      job.notified := job.notified + 1;
    }
  }

  /** The attribute has the text that the entry gives under a name, if it should and does, and else what it had. */
  predicate Given(c: Ad, key: string, applies: bool, name: string, before: Attributes, after: Attributes) {
    Entry(after, name)
    == if applies && Get(c, key).Some? then Some(Get(c, key).value.text) else Entry(before, name)
  }

  lemma SwitchSets(job: Job, c: Ad, event: int)
    ensures var after := Apply(job, EffectOf(c, event)).attributes;
            && Given(c, "EventTime", event in {2, 4, 5, 9}, "Finished", job.attributes, after)
            && Given(c, "ReturnValue", event == 5, "ExitCode", job.attributes, after)
            && Given(c, "TerminatedBySignal", event == 5, "Termsig", job.attributes, after)
            && forall name | name !in {"Finished", "ExitCode", "Termsig"} ::
                 Entry(after, name) == Entry(job.attributes, name)
  {
    EventCodes.NamesDiffer();
    EventCodes.EffectSets(job, c, event, "Finished");
    EventCodes.EffectSets(job, c, event, "ExitCode");
    EventCodes.EffectSets(job, c, event, "Termsig");
    hide EffectOf;
    hide Apply;
    hide Get;
    hide Entry;
    forall name | name !in {"Finished", "ExitCode", "Termsig"}
      ensures Entry(Apply(job, EffectOf(c, event)).attributes, name) == Entry(job.attributes, name)
    {
      EventCodes.EffectSets(job, c, event, name);
    }
  }

  lemma OwnMore<J>(registry: map<string, J>, log: seq<Ad>, k: nat, j: J)
    requires k < |log|
    ensures var own, effect := Own(registry, log[..k], j), EntryEffect(log[k]);
            Own(registry, log[..k + 1], j)
            == if Target(registry, log[k]) == Some(j) && effect.Some? then own + [effect.value] else own
  {
    hide Target;
    hide EntryEffect;
    assert log[..k + 1][..k] == log[..k];
  }

  lemma ReplayTurn<J>(registry: map<string, J>, jobs: map<J, Job>, log: seq<Ad>, k: nat)
    requires k < |log|
    ensures var before, j := Replay(registry, jobs, log[..k]), Target(registry, log[k]);
            Replay(registry, jobs, log[..k + 1])
            == if j.Some? && j.value in before then before[j.value := Apply(before[j.value], EntryEffect(log[k]))]
               else before
  {
    hide Target;
    hide EntryEffect;
    assert log[..k + 1][..k] == log[..k];
  }

  lemma {:induction false} ReadableTurn(log: seq<Ad>, k: nat)
    requires k < |log| && Readable(log[..k]) == log[..k]
    ensures if EventType(log[k]).None? then Readable(log) == log[..k] else Readable(log[..k + 1]) == log[..k + 1]
  {
    hide EventType;
    if k == 0 {
      assert log[..0] == [] && log[..1] == [log[0]] && log[..1][1..] == [];
    } else {
      var rest := log[1..];
      assert log[..k][1..] == rest[..k - 1] && log[..k][0] == log[0];
      assert log[..k + 1][1..] == rest[..k] && log[..k + 1][0] == log[0];
      assert rest[k - 1] == log[k];
      assert log[..k] == [log[0]] + rest[..k - 1];
      assert log[..k + 1] == [log[0]] + rest[..k];
      ReadableTurn(rest, k - 1);
    }
  }

  lemma InstanceOneMore(i: JobInstance, job: Job, before: Instance, own: seq<Effect>, effect: Effect)
    requires i.data.Value() == Outcome(job, own + [effect])
    ensures Updated(Follow(before, job, own), i.data.state, i.data.attributes) == Follow(before, job, own + [effect])
  {
    assert (own + [effect])[..|own|] == own;
  }

  lemma JobStepped(registry: JobRegistry, view: map<SharedJobData, Job>, views: map<JobInstance, Instance>,
                   ad: Ad, d: SharedJobData)
    requires registry.Stepped(view, views, Target(registry.jobs, ad), EntryEffect(ad)) && d in view
    ensures d in registry.View()
    ensures Target(registry.jobs, ad) == Some(d) ==> registry.View()[d] == Apply(view[d], EntryEffect(ad))
    ensures Target(registry.jobs, ad) != Some(d) ==> registry.View()[d] == view[d]
  {
    hide Target;
    hide EntryEffect;
  }

  lemma KeysStepped(registry: JobRegistry, view: map<SharedJobData, Job>, views: map<JobInstance, Instance>, ad: Ad)
    requires registry.Stepped(view, views, Target(registry.jobs, ad), EntryEffect(ad))
    ensures registry.View().Keys == view.Keys && views.Keys == registry.Instances()
  {
    hide Apply;
  }

  lemma JobsOneMore(registry: JobRegistry, view: map<SharedJobData, Job>, views: map<JobInstance, Instance>,
                    base: map<SharedJobData, Job>, log: seq<Ad>, k: nat)
    requires k < |log| && registry.Stepped(view, views, Target(registry.jobs, log[k]), EntryEffect(log[k]))
    requires view == Replay(registry.jobs, base, log[..k])
    ensures registry.View() == Replay(registry.jobs, base, log[..k + 1])
  {
    hide *;
    KeysStepped(registry, view, views, log[k]);
    ReplayTurn(registry.jobs, base, log, k);
    var now, after := registry.View(), Replay(registry.jobs, base, log[..k + 1]);
    forall d | d in view ensures d in after && now[d] == after[d] {
      JobStepped(registry, view, views, log[k], d);
    }
    assert after.Keys == view.Keys;
  }

  lemma FollowedOneMore(registry: JobRegistry, view: map<SharedJobData, Job>, views: map<JobInstance, Instance>,
                        base: map<SharedJobData, Job>, bases: map<JobInstance, Instance>, log: seq<Ad>, k: nat)
    requires k < |log| && registry.Stepped(view, views, Target(registry.jobs, log[k]), EntryEffect(log[k]))
    requires view == Replay(registry.jobs, base, log[..k]) && base.Keys == registry.jobs.Values
    requires forall i | i in views ::
               && i in bases && i.data in base
               && views[i] == Follow(bases[i], base[i.data], Own(registry.jobs, log[..k], i.data))
    ensures registry.Followed(base, bases, log[..k + 1])
  {
    hide *;
    JobsOneMore(registry, view, views, base, log, k);
    KeysStepped(registry, view, views, log[k]);
    forall i | i in registry.Instances()
      ensures i in bases && i.data in base
      ensures i.View() == Follow(bases[i], base[i.data], Own(registry.jobs, log[..k + 1], i.data))
    {
      InstanceStepped(registry, view, views, base, bases[i], log, k, i);
    }
    FollowedIf(registry, base, bases, log[..k + 1]);
  }

  lemma FollowedIf(registry: JobRegistry, base: map<SharedJobData, Job>,
                   bases: map<JobInstance, Instance>, log: seq<Ad>)
    requires registry.View() == Replay(registry.jobs, base, log) && base.Keys == registry.jobs.Values
    requires forall i | i in registry.Instances() ::
               && i in bases && i.data in base
               && i.View() == Follow(bases[i], base[i.data], Own(registry.jobs, log, i.data))
    ensures registry.Followed(base, bases, log)
  {
    hide Replay;
    hide Own;
    hide Follow;
  }

  lemma InstanceStepped(registry: JobRegistry, view: map<SharedJobData, Job>, views: map<JobInstance, Instance>,
                        base: map<SharedJobData, Job>, before: Instance, log: seq<Ad>, k: nat, i: JobInstance)
    requires k < |log| && registry.Stepped(view, views, Target(registry.jobs, log[k]), EntryEffect(log[k]))
    requires i in views && i.data in base
    requires registry.View() == Replay(registry.jobs, base, log[..k + 1])
    requires views[i] == Follow(before, base[i.data], Own(registry.jobs, log[..k], i.data))
    ensures i.View() == Follow(before, base[i.data], Own(registry.jobs, log[..k + 1], i.data))
  {
    hide *;
    var d, own := i.data, Own(registry.jobs, log[..k], i.data);
    OutcomeIsReplay(registry.jobs, base, log[..k + 1], d);
    OwnMore(registry.jobs, log, k, d);
    ShownStepped(registry, view, views, log[k], i);
    if Target(registry.jobs, log[k]) == Some(d) && EntryEffect(log[k]).Some? {
      InstanceOneMore(i, base[d], before, own, EntryEffect(log[k]).value);
    }
  }

  lemma ShownStepped(registry: JobRegistry, view: map<SharedJobData, Job>, views: map<JobInstance, Instance>,
                     ad: Ad, i: JobInstance)
    requires registry.Stepped(view, views, Target(registry.jobs, ad), EntryEffect(ad)) && i in views
    ensures i.data in registry.View() && registry.View()[i.data] == i.data.Value()
    ensures i.View() == if Target(registry.jobs, ad) == Some(i.data) && EntryEffect(ad).Some?
                        then Updated(views[i], i.data.state, i.data.attributes) else views[i]
  {
    hide Target;
    hide EntryEffect;
    hide Updated;
  }

  lemma EffectOfEntry(ad: Ad)
    ensures EntryEffect(ad) == if EventType(ad).None? then None else EffectOf(ad, EventType(ad).value)
  {
    hide EventType;
    hide EffectOf;
  }

  lemma NoEffect(ad: Ad)
    requires EventType(ad).None?
    ensures EntryEffect(ad).None? && forall job :: Apply(job, EntryEffect(ad)) == job
  {
    hide EventType;
  }

  lemma FollowedNone(registry: JobRegistry, base: map<SharedJobData, Job>,
                     bases: map<JobInstance, Instance>, log: seq<Ad>, k: nat)
    requires k < |log| && EventType(log[k]).None?
    requires registry.Followed(base, bases, log[..k + 1])
    ensures registry.Followed(base, bases, log[..k])
  {
    hide *;
    NoEffect(log[k]);
    ReplayTurn(registry.jobs, base, log, k);
    forall d ensures Own(registry.jobs, log[..k], d) == Own(registry.jobs, log[..k + 1], d) {
      OwnMore(registry.jobs, log, k, d);
    }
    FollowedSame(registry, base, bases, log[..k + 1], log[..k]);
  }

  lemma FollowedGives(registry: JobRegistry, base: map<SharedJobData, Job>,
                      bases: map<JobInstance, Instance>, log: seq<Ad>)
    requires registry.Followed(base, bases, log)
    ensures registry.View() == Replay(registry.jobs, base, log) && base.Keys == registry.jobs.Values
    ensures forall i | i in registry.Views() ::
              && i in bases && i.data in base
              && registry.Views()[i] == Follow(bases[i], base[i.data], Own(registry.jobs, log, i.data))
  {
    hide Replay;
    hide Own;
    hide Follow;
  }

  lemma FollowedSame(registry: JobRegistry, base: map<SharedJobData, Job>, bases: map<JobInstance, Instance>,
                     log: seq<Ad>, log': seq<Ad>)
    requires registry.Followed(base, bases, log)
    requires Replay(registry.jobs, base, log) == Replay(registry.jobs, base, log')
    requires forall d :: Own(registry.jobs, log, d) == Own(registry.jobs, log', d)
    ensures registry.Followed(base, bases, log')
  {
    hide Replay;
    hide Own;
    hide Follow;
  }

  lemma ReadableStart(log: seq<Ad>)
    ensures Readable(log[..0]) == log[..0]
  {
  }

  lemma MergeNothing(a: Attributes, name: string)
    ensures a + Setting(name, None) == a
  {
  }

  lemma MergeThree(a: Attributes, b: Attributes, c: Attributes, d: Attributes)
    ensures ((a + b) + c) + d == a + ((b + c) + d)
  {
  }
}
