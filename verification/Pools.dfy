/** The pools of the adaptor (condor_job/condor_job_adaptor.hpp and .cpp), the registration of jobs
    (set_job_id in condor_job/condor_job.cpp) and what an identifier leads to over whole runs in which
    jobs are submitted and attached to. */
module Pools {
  import opened Text
  import opened SubmitFile
  import opened JobIds

  /** What a pool shows to others: its URL and its registry. */
  datatype Pool<D> = Pool(url: string, jobs: map<string, D>)

  /** The first of the pools, in the order of the keys, that has the URL and knows the ID. */
  function FindAmong<D>(keys: seq<string>, pools: map<string, Pool<D>>, url: string, id: string): Option<D>
    requires forall k | k in keys :: k in pools
  {
    if keys == [] then None
    else
      assert keys[0] in keys;
      var p := pools[keys[0]];
      if p.url == url && id in p.jobs then Some(p.jobs[id]) else FindAmong(keys[1..], pools, url, id)
  }

  ghost function FindJob<D>(pools: map<string, Pool<D>>, url: string, id: string): Option<D> {
    SortedKeysAreSorted(pools.Keys);
    FindAmong(SortedKeys(pools.Keys), pools, url, id)
  }

  predicate Knows<D>(p: Pool<D>, url: string, id: string) {
    p.url == url && id in p.jobs
  }

  lemma {:induction false} FindAmongIs<D>(keys: seq<string>, pools: map<string, Pool<D>>, url: string, id: string)
    requires forall k | k in keys :: k in pools
    ensures FindAmong(keys, pools, url, id).None? <==> forall k | k in keys :: !Knows(pools[k], url, id)
    ensures FindAmong(keys, pools, url, id).Some? ==>
              exists k :: k in keys && Knows(pools[k], url, id)
                          && FindAmong(keys, pools, url, id) == Some(pools[k].jobs[id])
  {
    if keys != [] {
      assert keys[0] in keys;
      FindAmongIs(keys[1..], pools, url, id);
      assert forall k :: k in keys <==> k == keys[0] || k in keys[1..];
    }
  }

  /** find_job finds nothing exactly if no pool of that URL knows the ID, and otherwise what one
      of them has registered. */
  lemma FindJobIs<D>(pools: map<string, Pool<D>>, url: string, id: string)
    ensures FindJob(pools, url, id).None? <==> forall k | k in pools :: !Knows(pools[k], url, id)
    ensures FindJob(pools, url, id).Some? ==>
              exists k :: k in pools && Knows(pools[k], url, id) && FindJob(pools, url, id) == Some(pools[k].jobs[id])
    ensures forall k | k in pools :: Knows(pools[k], url, id) <==> pools[k].url == url && id in pools[k].jobs
  {
    SortedKeysAreSorted(pools.Keys);
    FindAmongIs(SortedKeys(pools.Keys), pools, url, id);
  }

  // ----- Runs -----

  type DataId = nat
  type InstanceId = nat

  /** A job's shared data: the key of its pool, and its cluster ID once it has one. */
  datatype Data = Data(pool: string, cluster: string)

  /** The pools, the job data that have been made, what each instance holds, and the jobs that
      Condor knows, as pairs of a URL and an ID. */
  datatype World = World(pools: map<string, Pool<DataId>>, data: map<DataId, Data>, next: DataId,
                         holders: map<InstanceId, DataId>, known: set<(string, string)>)

  const START := World(map[], map[], 0, map[], {})

  /** The key under which all jobs without an XML log are kept. */
  const NO_XML_LOG := "//-- No XML Log --//"

  datatype Op =
    | Create(i: InstanceId, rm: string)
    | Submit(i: InstanceId, cluster: string)
    | Attach(i: InstanceId, jobId: string, log: string)
    | Destroy(i: InstanceId)
    | Appear(url: string, id: string)

  /** Both forms of get_pool. */
  function GetPool(pools: map<string, Pool<DataId>>, key: string, url: string): map<string, Pool<DataId>> {
    if key in pools then pools else pools[key := Pool(url, map[])]
  }

  predicate Registered(w: World, d: DataId) {
    exists k, id | k in w.pools && id in w.pools[k].jobs :: w.pools[k].jobs[id] == d
  }

  /** job_data_.unique(): no registry and no other instance refers to the data. */
  predicate Unique(w: World, i: InstanceId, d: DataId) {
    !Registered(w, d) && forall j | j in w.holders :: w.holders[j] == d ==> j == i
  }

  /** set_job_id: data that have an ID and are not shared are registered. */
  function SetJobId(w: World, i: InstanceId, d: DataId): World
    requires d in w.data && w.data[d].pool in w.pools
  {
    var k, id := w.data[d].pool, w.data[d].cluster;
    if id != "" && Unique(w, i, d)
    then w.(pools := w.pools[k := w.pools[k].(jobs := w.pools[k].jobs[id := d])])
    else w
  }

  /** An assertion of register_job fails. */
  predicate SetJobIdAsserts(w: World, i: InstanceId, d: DataId)
    requires d in w.data && w.data[d].pool in w.pools
  {
    var k, id := w.data[d].pool, w.data[d].cluster;
    id != "" && Unique(w, i, d) && id in w.pools[k].jobs
  }

  /** The URL and the ID of a job identifier. */
  function Parts(jobId: string): (string, string) {
    if Split(jobId).Some? then Split(jobId).value else ("", "")
  }

  lemma PartsAreNotEmpty(jobId: string)
    requires Split(jobId).Some?
    ensures Parts(jobId).0 != "" && Parts(jobId).1 != ""
  {
    SplitIsLongest(jobId, Parts(jobId).0, Parts(jobId).1);
  }

  /** What the operations and Condor's numbering of jobs allow: a job is submitted once, with a
      number that has not been given out before, and one attaches to jobs that Condor knows. */
  ghost predicate Enabled(w: World, op: Op) {
    match op
    case Create(i, rm) => i !in w.holders && rm != ""
    case Submit(i, c) =>
      && i in w.holders && w.holders[i] in w.data
      && var d := w.data[w.holders[i]];
         d.pool in w.pools && d.cluster == "" && Number(c) && (w.pools[d.pool].url, c) !in w.known
    case Attach(i, jobId, log) =>
      && i !in w.holders && Split(jobId).Some?
      && var (url, id) := Parts(jobId);
         FindJob(w.pools, url, id).Some? || (url, id) in w.known
    case Destroy(i) => i in w.holders
    case Appear(url, id) => id != ""
  }

  /** The world right before set_job_id, and the data that are then held. */
  ghost function Before(w: World, op: Op): (World, DataId)
    requires Enabled(w, op) && (op.Create? || op.Submit? || op.Attach?)
  {
    match op
    case Create(i, rm) =>
      (w.(pools := GetPool(w.pools, rm, rm), data := w.data[w.next := Data(rm, "")], next := w.next + 1,
          holders := w.holders[i := w.next]), w.next)
    case Submit(i, c) =>
      var d := w.holders[i];
      (w.(data := w.data[d := Data(w.data[d].pool, c)], known := w.known + {(w.pools[w.data[d].pool].url, c)}), d)
    case Attach(i, jobId, log) =>
      var (url, id) := Parts(jobId);
      var found := FindJob(w.pools, url, id);
      if found.Some? then (w.(holders := w.holders[i := found.value]), found.value)
      else (w.(pools := GetPool(w.pools, log, url), data := w.data[w.next := Data(log, id)], next := w.next + 1,
               holders := w.holders[i := w.next]), w.next)
  }

  ghost predicate InBounds(w: World) {
    && (forall d | d in w.data :: d < w.next && w.data[d].pool in w.pools)
    && (forall i | i in w.holders :: w.holders[i] in w.data)
    && (forall k, id | k in w.pools && id in w.pools[k].jobs :: w.pools[k].jobs[id] in w.data)
  }

  ghost function Next(w: World, op: Op): World
    requires InBounds(w) && Enabled(w, op)
  {
    match op
    case Destroy(i) => w.(holders := w.holders - {i})
    case Appear(url, id) => w.(known := w.known + {(url, id)})
    case _ =>
      var (b, d) := Before(w, op);
      BeforeInBounds(w, op);
      SetJobId(b, op.i, d)
  }

  /** An assertion of register_job fails during the operation. */
  ghost predicate Asserts(w: World, op: Op)
    requires InBounds(w) && Enabled(w, op)
  {
    (op.Create? || op.Submit? || op.Attach?)
    && var (b, d) := Before(w, op);
       BeforeInBounds(w, op);
       SetJobIdAsserts(b, op.i, d)
  }

  lemma BeforeInBounds(w: World, op: Op)
    requires InBounds(w) && Enabled(w, op) && (op.Create? || op.Submit? || op.Attach?)
    ensures InBounds(Before(w, op).0) && Before(w, op).1 in Before(w, op).0.data
  {
    if op.Attach? {
      var (url, id) := Parts(op.jobId);
      FindJobIs(w.pools, url, id);
    }
  }

  // ----- When an assertion fails -----

  /** In any world: attaching fails an assertion exactly if the pool that goes with the log belongs
      to another URL and knows the same ID, and no pool of the right URL does. */
  lemma AttachAssertsExactly(w: World, i: InstanceId, jobId: string, log: string)
    requires InBounds(w) && Enabled(w, Attach(i, jobId, log))
    ensures var (url, id) := Parts(jobId);
            Asserts(w, Attach(i, jobId, log))
            <==> && log in w.pools && w.pools[log].url != url && id in w.pools[log].jobs
                 && forall k | k in w.pools :: !Knows(w.pools[k], url, id)
  {
    var op := Attach(i, jobId, log);
    var (url, id) := Parts(jobId);
    FindJobIs(w.pools, url, id);
    var (b, d) := Before(w, op);
    BeforeInBounds(w, op);
    PartsAreNotEmpty(jobId);
    if FindJob(w.pools, url, id).Some? {
      var k :| k in w.pools && Knows(w.pools[k], url, id) && FindJob(w.pools, url, id) == Some(w.pools[k].jobs[id]);
      assert b.pools[k].jobs[id] == d;
      assert Registered(b, d);
    } else {
      NewIsUnique(w, op);
    }
  }

  /** In any world: submitting fails an assertion exactly if nobody shares the data and the pool has a job
      under the new ID. */
  lemma SubmitAssertsExactly(w: World, i: InstanceId, cluster: string)
    requires InBounds(w) && Enabled(w, Submit(i, cluster))
    ensures Asserts(w, Submit(i, cluster))
            <==> Unique(w, i, w.holders[i]) && cluster in w.pools[w.data[w.holders[i]].pool].jobs
  {
    BeforeInBounds(w, Submit(i, cluster));
    NumberIsThere(cluster);
    SameUnique(w, Before(w, Submit(i, cluster)).0, i, w.holders[i]);
    hide Unique;
  }

  lemma SameUnique(w: World, b: World, i: InstanceId, d: DataId)
    requires b.pools == w.pools && b.holders == w.holders
    ensures Unique(b, i, d) <==> Unique(w, i, d)
  {
    hide Registered;
    assert Registered(b, d) <==> Registered(w, d) by { SameRegistered(w, b, d); }
  }

  lemma SameRegistered(w: World, b: World, d: DataId)
    requires b.pools == w.pools
    ensures Registered(b, d) <==> Registered(w, d)
  {
  }

  lemma NumberIsThere(c: string)
    requires Number(c)
    ensures c != ""
  {
  }

  /** Making an instance fails none. */
  lemma CreateNeverAsserts(w: World, i: InstanceId, rm: string)
    requires InBounds(w) && Enabled(w, Create(i, rm))
    ensures !Asserts(w, Create(i, rm))
  {
    BeforeInBounds(w, Create(i, rm));
  }

  /** The simplest run that fails: whoever attaches to a job whose log is kept in a pool of another URL has
      it registered there, where it is not found again, and the next one who attaches to it fails. */
  lemma AttachingTwice(w: World, i: InstanceId, k: InstanceId, jobId: string, log: string)
    requires InBounds(w) && Enabled(w, Attach(i, jobId, log)) && k !in w.holders && k != i
    requires !Asserts(w, Attach(i, jobId, log))
    requires var (url, id) := Parts(jobId);
             && log in w.pools && w.pools[log].url != url && (url, id) in w.known
             && forall p | p in w.pools :: !Knows(w.pools[p], url, id)
    ensures var u := Next(w, Attach(i, jobId, log));
            InBounds(u) && Enabled(u, Attach(k, jobId, log)) && Asserts(u, Attach(k, jobId, log))
  {
    var op := Attach(i, jobId, log);
    var (url, id) := Parts(jobId);
    FindJobIs(w.pools, url, id);
    BeforeInBounds(w, op);
    NewIsUnique(w, op);
    PartsAreNotEmpty(jobId);
    hide Unique;
    hide Split;
    hide Parts;
    hide FindJob;
    var u := Next(w, op);
    assert u.pools == w.pools[log := w.pools[log].(jobs := w.pools[log].jobs[id := w.next])];
    assert forall p | p in u.pools :: !Knows(u.pools[p], url, id);
    hide Next;
    hide Before;
    AttachAssertsExactly(u, k, jobId, log);
  }

  /** Data that have just been made are not shared. */
  lemma NewIsUnique(w: World, op: Op)
    requires InBounds(w) && Enabled(w, op) && (op.Create? || op.Attach?)
    requires Before(w, op).1 == w.next
    ensures Unique(Before(w, op).0, op.i, w.next)
  {
    var (b, d) := Before(w, op);
    assert w.next !in w.data;
    forall j | j in w.holders ensures w.holders[j] != d {
      assert w.holders[j] in w.data;
    }
    forall k, id | k in b.pools && id in b.pools[k].jobs ensures b.pools[k].jobs[id] != d {
      assert k in w.pools && w.pools[k].jobs[id] in w.data;
    }
  }

  // ----- Runs in which every log belongs to one resource manager -----

  /** Each key of the pool map stands for one URL. */
  predicate OneUrlPerKey(op: Op, owner: string -> string) {
    match op
    case Create(i, rm) => owner(rm) == rm
    case Attach(i, jobId, log) => Split(jobId).Some? ==> owner(log) == Parts(jobId).0
    case _ => true
  }

  /** The registry is well formed: each key is the cluster ID of its value, a job is registered as
      soon as it has an ID, and what has none yet is held by one instance only. Pools of one URL
      have no ID in common, because Condor knows each ID once. */
  ghost predicate WellFormed(w: World, owner: string -> string) {
    InBounds(w) && RightKeys(w) && HaveEntries(w, {}) && OneHolder(w) && Owned(w, owner) && Disjoint(w)
  }

  ghost predicate RightKeys(w: World)
    requires InBounds(w)
  {
    forall k, id | k in w.pools && id in w.pools[k].jobs :: IsRegistered(w, k, id)
  }

  ghost predicate HaveEntries(w: World, except: set<DataId>)
    requires InBounds(w)
  {
    forall d | d in w.data && d !in except && w.data[d].cluster != "" :: HasEntry(w, d)
  }

  ghost predicate OneHolder(w: World)
    requires InBounds(w)
  {
    forall i, j | i in w.holders && j in w.holders && w.holders[i] == w.holders[j] ::
      i == j || w.data[w.holders[i]].cluster != ""
  }

  predicate Owned(w: World, owner: string -> string) {
    forall k | k in w.pools :: w.pools[k].url == owner(k) && w.pools[k].url != ""
  }

  predicate Disjoint(w: World) {
    forall k, l, id | k in w.pools && l in w.pools && id in w.pools[k].jobs && id in w.pools[l].jobs ::
      w.pools[k].url == w.pools[l].url ==> k == l
  }

  ghost predicate IsRegistered(w: World, k: string, id: string)
    requires InBounds(w) && k in w.pools && id in w.pools[k].jobs
  {
    w.data[w.pools[k].jobs[id]] == Data(k, id) && id != "" && (w.pools[k].url, id) in w.known
  }

  ghost predicate HasEntry(w: World, d: DataId)
    requires InBounds(w) && d in w.data
  {
    var k, id := w.data[d].pool, w.data[d].cluster;
    id in w.pools[k].jobs && w.pools[k].jobs[id] == d
  }

  /** A job is in a registry exactly if it has an ID, and it is there once. */
  lemma RegisteredOnce(w: World, owner: string -> string, d: DataId)
    requires WellFormed(w, owner) && d in w.data
    ensures Registered(w, d) <==> w.data[d].cluster != ""
    ensures forall k, id | k in w.pools && id in w.pools[k].jobs ::
              w.pools[k].jobs[id] == d ==> k == w.data[d].pool && id == w.data[d].cluster
  {
    if w.data[d].cluster != "" {
      assert HasEntry(w, d);
    }
    forall k, id | k in w.pools && id in w.pools[k].jobs && w.pools[k].jobs[id] == d
      ensures k == w.data[d].pool && id == w.data[d].cluster && id != ""
    {
      assert IsRegistered(w, k, id);
    }
  }

  /** Apart from the data d, which have an ID but no entry yet, the world is well formed; nobody
      else holds the data, and no pool of the URL knows the ID. */
  ghost predicate Ready(w: World, owner: string -> string, i: InstanceId, d: DataId) {
    && InBounds(w) && RightKeys(w) && HaveEntries(w, {d}) && OneHolder(w) && Owned(w, owner) && Disjoint(w)
    && d in w.data && w.data[d].cluster != "" && Unique(w, i, d)
    && (w.pools[w.data[d].pool].url, w.data[d].cluster) in w.known
    && forall k | k in w.pools :: !Knows(w.pools[k], w.pools[w.data[d].pool].url, w.data[d].cluster)
  }

  lemma RegisterKeeps(w: World, owner: string -> string, i: InstanceId, d: DataId)
    requires Ready(w, owner, i, d)
    ensures !SetJobIdAsserts(w, i, d) && WellFormed(SetJobId(w, i, d), owner)
  {
    var after := SetJobId(w, i, d);
    var key, cluster := w.data[d].pool, w.data[d].cluster;
    assert !Knows(w.pools[key], w.pools[key].url, cluster);
    hide Unique;
    hide RightKeys;
    hide HaveEntries;
    hide OneHolder;
    hide Owned;
    hide Disjoint;
    EntriesWithNew(w, after, d);
    PoolsWithNew(w, after, key, cluster, d, owner);
    FewerHolders(w, after);
  }

  lemma EntriesWithNew(w: World, v: World, d: DataId)
    requires InBounds(w) && d in w.data && w.data[d].cluster != ""
    requires var (key, cluster) := (w.data[d].pool, w.data[d].cluster);
             && cluster !in w.pools[key].jobs && (w.pools[key].url, cluster) in w.known
             && v == w.(pools := w.pools[key := w.pools[key].(jobs := w.pools[key].jobs[cluster := d])])
    requires RightKeys(w) && HaveEntries(w, {d})
    ensures InBounds(v) && RightKeys(v) && HaveEntries(v, {})
  {
    var key, cluster := w.data[d].pool, w.data[d].cluster;
    forall k, id | k in v.pools && id in v.pools[k].jobs
      ensures v.pools[k].jobs[id] in v.data && IsRegistered(v, k, id)
    {
      if k != key || id != cluster {
        assert IsRegistered(w, k, id);
      }
    }
    forall e | e in v.data && v.data[e].cluster != "" ensures HasEntry(v, e) {
      assert e != d ==> HasEntry(w, e);
    }
  }

  lemma PoolsWithNew(w: World, v: World, key: string, cluster: string, d: DataId, owner: string -> string)
    requires Owned(w, owner) && Disjoint(w) && key in w.pools
    requires v.pools == w.pools[key := w.pools[key].(jobs := w.pools[key].jobs[cluster := d])]
    requires forall k | k in w.pools :: !Knows(w.pools[k], w.pools[key].url, cluster)
    ensures Owned(v, owner) && Disjoint(v)
  {
    forall k, l, id | k in v.pools && l in v.pools && id in v.pools[k].jobs && id in v.pools[l].jobs
      ensures v.pools[k].url == v.pools[l].url ==> k == l
    {
      assert !Knows(w.pools[k], w.pools[key].url, cluster) && !Knows(w.pools[l], w.pools[key].url, cluster);
    }
  }

  lemma AttachNewKeeps(w: World, owner: string -> string, op: Op)
    requires WellFormed(w, owner) && Enabled(w, op) && OneUrlPerKey(op, owner) && op.Attach?
    requires FindJob(w.pools, Parts(op.jobId).0, Parts(op.jobId).1).None?
    ensures !Asserts(w, op) && WellFormed(Next(w, op), owner)
  {
    var (url, id) := Parts(op.jobId);
    FindJobIs(w.pools, url, id);
    PartsAreNotEmpty(op.jobId);
    hide Split;
    hide Parts;
    hide FindJob;
    var (b, d) := Before(w, op);
    BeforeInBounds(w, op);
    NewIsUnique(w, op);
    hide Unique;
    NewIsReady(w, owner, op, url, id, b);
    hide Ready;
    RegisterKeeps(b, owner, op.i, d);
    hide WellFormed;
  }

  lemma NewIsReady(w: World, owner: string -> string, op: Op, url: string, id: string, b: World)
    requires WellFormed(w, owner) && op.Attach? && op.i !in w.holders
    requires url != "" && id != "" && owner(op.log) == url && (url, id) in w.known
    requires b == w.(pools := GetPool(w.pools, op.log, url), data := w.data[w.next := Data(op.log, id)],
                     next := w.next + 1, holders := w.holders[op.i := w.next])
    requires forall k | k in w.pools :: !Knows(w.pools[k], url, id)
    requires Unique(b, op.i, w.next) && InBounds(b)
    ensures Ready(b, owner, op.i, w.next)
  {
    hide *;
    WellFormedGives(w, owner);
    PoolsWithOne(w, b, op.log, url, id);
    NextIsNew(w);
    SameRegistry(w, b, {w.next});
    PoolAdded(w, b, op.log, url, owner);
    HolderAdded(w, b, op.i, w.next);
    ReadyIf(b, owner, op.i, w.next);
  }

  lemma WellFormedGives(w: World, owner: string -> string)
    requires WellFormed(w, owner)
    ensures InBounds(w) && RightKeys(w) && HaveEntries(w, {}) && OneHolder(w) && Owned(w, owner) && Disjoint(w)
  {
  }

  lemma NextIsNew(w: World)
    requires InBounds(w)
    ensures w.next !in w.data
  {
  }

  /** A pool without jobs may have been added. */
  lemma PoolsWithOne(w: World, b: World, key: string, url: string, id: string)
    requires b.pools == GetPool(w.pools, key, url) && forall k | k in w.pools :: !Knows(w.pools[k], url, id)
    ensures forall k | k in b.pools && b.pools[k].jobs != map[] :: k in w.pools
    ensures forall k | k in w.pools :: k in b.pools && b.pools[k] == w.pools[k]
    ensures forall k | k in b.pools :: !Knows(b.pools[k], url, id)
  {
  }

  lemma ReadyIf(b: World, owner: string -> string, i: InstanceId, d: DataId)
    requires InBounds(b) && RightKeys(b) && HaveEntries(b, {d}) && OneHolder(b) && Owned(b, owner) && Disjoint(b)
    requires d in b.data && b.data[d].cluster != "" && Unique(b, i, d) && b.data[d].pool in b.pools
    requires var url, cluster := b.pools[b.data[d].pool].url, b.data[d].cluster;
             (url, cluster) in b.known && forall k | k in b.pools :: !Knows(b.pools[k], url, cluster)
    ensures Ready(b, owner, i, d)
  {
  }

  lemma PoolAdded(w: World, v: World, key: string, url: string, owner: string -> string)
    requires Owned(w, owner) && Disjoint(w) && v.pools == GetPool(w.pools, key, url) && owner(key) == url && url != ""
    ensures Owned(v, owner) && Disjoint(v) && key in v.pools && v.pools[key].url == url
  {
  }

  lemma HolderAdded(w: World, v: World, i: InstanceId, d: DataId)
    requires InBounds(w) && InBounds(v) && OneHolder(w)
    requires i !in w.holders && v.holders == w.holders[i := d]
    requires forall e | e in w.data :: e in v.data && v.data[e] == w.data[e]
    requires d in w.data ==> w.data[d].cluster != ""
    ensures OneHolder(v)
  {
  }

  lemma SubmitKeeps(w: World, owner: string -> string, op: Op)
    requires WellFormed(w, owner) && Enabled(w, op) && op.Submit?
    ensures !Asserts(w, op) && WellFormed(Next(w, op), owner)
    ensures Next(w, op) == SetJobId(Before(w, op).0, op.i, w.holders[op.i])
  {
    var (b, d) := Before(w, op);
    BeforeInBounds(w, op);
    RegisteredOnce(w, owner, d);
    RegisteredKept(w, b, d);
    hide RightKeys;
    hide HaveEntries;
    hide OneHolder;
    hide Owned;
    hide Disjoint;
    OthersKeepEntries(w, b, d);
    PoolsKept(w, b, owner);
    HolderGainsId(w, b, d);
    forall k | k in b.pools && op.cluster in b.pools[k].jobs ensures (w.pools[k].url, op.cluster) in w.known {
      KnownToCondor(w, k, op.cluster);
    }
    assert Unique(b, op.i, d);
    RegisterKeeps(b, owner, op.i, d);
  }

  lemma RegisteredKept(w: World, b: World, d: DataId)
    requires b.pools == w.pools
    ensures Registered(b, d) == Registered(w, d)
  {
  }

  lemma KnownToCondor(w: World, k: string, id: string)
    requires InBounds(w) && RightKeys(w) && k in w.pools && id in w.pools[k].jobs
    ensures (w.pools[k].url, id) in w.known
  {
    assert IsRegistered(w, k, id);
  }

  lemma OthersKeepEntries(w: World, b: World, d: DataId)
    requires InBounds(w) && InBounds(b) && RightKeys(w) && HaveEntries(w, {}) && !Registered(w, d) && d in w.data
    requires d in b.data && b.pools == w.pools && w.known <= b.known && b.data == w.data[d := b.data[d]]
    ensures RightKeys(b) && HaveEntries(b, {d})
  {
    forall k, x | k in b.pools && x in b.pools[k].jobs ensures IsRegistered(b, k, x) {
      assert IsRegistered(w, k, x);
    }
    forall e | e in b.data && e != d && b.data[e].cluster != "" ensures HasEntry(b, e) {
      assert HasEntry(w, e);
    }
  }

  lemma HolderGainsId(w: World, b: World, d: DataId)
    requires InBounds(w) && InBounds(b) && OneHolder(w) && d in b.data
    requires b.holders == w.holders && b.data == w.data[d := b.data[d]] && b.data[d].cluster != ""
    ensures OneHolder(b)
  {
  }

  lemma AttachFoundKeeps(w: World, owner: string -> string, op: Op)
    requires WellFormed(w, owner) && Enabled(w, op) && op.Attach?
    requires FindJob(w.pools, Parts(op.jobId).0, Parts(op.jobId).1).Some?
    ensures !Asserts(w, op) && WellFormed(Next(w, op), owner)
    ensures Next(w, op) == Before(w, op).0
  {
    var (url, id) := Parts(op.jobId);
    FindJobIs(w.pools, url, id);
    BeforeInBounds(w, op);
    var k :| k in w.pools && Knows(w.pools[k], url, id) && FindJob(w.pools, url, id) == Some(w.pools[k].jobs[id]);
    hide Split;
    hide Parts;
    hide FindJob;
    var d := w.pools[k].jobs[id];
    assert IsRegistered(w, k, id);
    var (b, e) := Before(w, op);
    assert b.pools[k].jobs[id] == d;
    assert Registered(b, d);
    HolderKeeps(w, owner, op.i, d);
  }

  lemma HolderKeeps(w: World, owner: string -> string, i: InstanceId, d: DataId)
    requires WellFormed(w, owner) && i !in w.holders && d in w.data && w.data[d].cluster != ""
    ensures WellFormed(w.(holders := w.holders[i := d]), owner)
  {
    hide RightKeys;
    hide HaveEntries;
    hide OneHolder;
    hide Owned;
    hide Disjoint;
    var v := w.(holders := w.holders[i := d]);
    SameRegistry(w, v, {});
    PoolsKept(w, v, owner);
    HolderAdded(w, v, i, d);
  }

  lemma PoolsKept(w: World, v: World, owner: string -> string)
    requires Owned(w, owner) && Disjoint(w) && v.pools == w.pools
    ensures Owned(v, owner) && Disjoint(v)
  {
  }

  /** Registration does not depend on who holds the data, and more jobs that Condor knows and data
      that have no ID do no harm. */
  lemma SameRegistry(w: World, v: World, except: set<DataId>)
    requires InBounds(w) && InBounds(v)
    requires forall k | k in v.pools && v.pools[k].jobs != map[] :: k in w.pools
    requires forall k | k in w.pools :: k in v.pools && v.pools[k] == w.pools[k]
    requires forall d | d in w.data :: d in v.data && v.data[d] == w.data[d]
    requires forall d | d in v.data && d !in except && v.data[d].cluster != "" :: d in w.data
    requires w.known <= v.known
    requires RightKeys(w) && HaveEntries(w, {})
    ensures RightKeys(v) && HaveEntries(v, except)
  {
    forall k, id | k in v.pools && id in v.pools[k].jobs ensures IsRegistered(v, k, id) {
      assert IsRegistered(w, k, id);
    }
    forall d | d in v.data && d !in except && v.data[d].cluster != "" ensures HasEntry(v, d) {
      assert HasEntry(w, d);
    }
  }

  lemma CreateKeeps(w: World, owner: string -> string, op: Op)
    requires WellFormed(w, owner) && Enabled(w, op) && OneUrlPerKey(op, owner) && op.Create?
    ensures !Asserts(w, op) && WellFormed(Next(w, op), owner)
  {
    hide FindJob;
    BeforeInBounds(w, op);
    hide RightKeys;
    hide HaveEntries;
    hide OneHolder;
    hide Owned;
    hide Disjoint;
    var v := Before(w, op).0;
    assert w.next !in w.data;
    SameRegistry(w, v, {});
    PoolAdded(w, v, op.rm, op.rm, owner);
    HolderAdded(w, v, op.i, w.next);
  }

  lemma RestKeeps(w: World, owner: string -> string, op: Op)
    requires WellFormed(w, owner) && Enabled(w, op) && (op.Destroy? || op.Appear?)
    ensures !Asserts(w, op) && WellFormed(Next(w, op), owner)
  {
    hide FindJob;
    hide RightKeys;
    hide HaveEntries;
    hide OneHolder;
    hide Owned;
    hide Disjoint;
    var v := Next(w, op);
    SameRegistry(w, v, {});
    PoolsKept(w, v, owner);
    FewerHolders(w, v);
  }

  lemma FewerHolders(w: World, v: World)
    requires InBounds(w) && InBounds(v) && OneHolder(w) && v.data == w.data
    requires forall i | i in v.holders :: i in w.holders && w.holders[i] == v.holders[i]
    ensures OneHolder(v)
  {
  }

  /** No assertion fails, and the world stays well formed. */
  lemma StepKeeps(w: World, owner: string -> string, op: Op)
    requires WellFormed(w, owner) && Enabled(w, op) && OneUrlPerKey(op, owner)
    ensures InBounds(w) && !Asserts(w, op) && WellFormed(Next(w, op), owner)
  {
    assert InBounds(w);
    match op
    case Create(_, _) => CreateKeeps(w, owner, op);
    case Submit(_, _) => SubmitKeeps(w, owner, op);
    case Attach(_, _, _) =>
      if FindJob(w.pools, Parts(op.jobId).0, Parts(op.jobId).1).Some? {
        AttachFoundKeeps(w, owner, op);
      } else {
        AttachNewKeeps(w, owner, op);
      }
    case _ => RestKeeps(w, owner, op);
  }

  // ----- Whole runs -----

  /** The world after a run; an operation that is not enabled is left out. */
  ghost function After(ops: seq<Op>): World {
    if ops == [] then START
    else
      var w, op := After(ops[..|ops| - 1]), ops[|ops| - 1];
      if InBounds(w) && Enabled(w, op) then Next(w, op) else w
  }

  /** Each operation was enabled when it came. */
  ghost predicate Legal(ops: seq<Op>) {
    forall n | 0 <= n < |ops| :: InBounds(After(ops[..n])) && Enabled(After(ops[..n]), ops[n])
  }

  predicate OneUrlPerLog(ops: seq<Op>, owner: string -> string) {
    forall n | 0 <= n < |ops| :: OneUrlPerKey(ops[n], owner)
  }

  lemma LegalPrefix(ops: seq<Op>, n: nat)
    requires n <= |ops| && Legal(ops)
    ensures Legal(ops[..n])
    ensures n < |ops| ==> var w := After(ops[..n]);
                          InBounds(w) && Enabled(w, ops[n]) && After(ops[..n + 1]) == Next(w, ops[n])
  {
    forall m | 0 <= m < n ensures ops[..n][..m] == ops[..m] {
    }
    if n < |ops| {
      assert ops[..n + 1][..n] == ops[..n];
    }
  }

  lemma StartIsWellFormed(owner: string -> string)
    ensures WellFormed(START, owner)
  {
  }

  /** In every run in which each log belongs to one resource manager, the registries stay well formed. */
  lemma {:induction false} RunsStayWellFormed(ops: seq<Op>, owner: string -> string)
    requires Legal(ops) && OneUrlPerLog(ops, owner)
    ensures WellFormed(After(ops), owner)
  {
    hide WellFormed;
    if ops == [] {
      StartIsWellFormed(owner);
    } else {
      var n := |ops| - 1;
      LegalPrefix(ops, n);
      assert ops[..n + 1] == ops;
      RunsStayWellFormed(ops[..n], owner);
      StepKeeps(After(ops[..n]), owner, ops[n]);
    }
  }

  /** Where a run stands after n operations. */
  lemma Halfway(ops: seq<Op>, owner: string -> string, n: nat)
    requires Legal(ops) && OneUrlPerLog(ops, owner) && n <= |ops|
    ensures var w := After(ops[..n]);
            && WellFormed(w, owner)
            && (n < |ops| ==>
                  && InBounds(w) && Enabled(w, ops[n]) && OneUrlPerKey(ops[n], owner)
                  && After(ops[..n + 1]) == Next(w, ops[n]))
  {
    hide WellFormed;
    hide Enabled;
    hide OneUrlPerKey;
    LegalPrefix(ops, n);
    RunsStayWellFormed(ops[..n], owner);
  }

  /** No assertion of register_job ever fails in such a run. */
  lemma NoAssertionFails(ops: seq<Op>, owner: string -> string, n: nat)
    requires Legal(ops) && OneUrlPerLog(ops, owner) && n < |ops|
    ensures InBounds(After(ops[..n])) && Enabled(After(ops[..n]), ops[n])
    ensures !Asserts(After(ops[..n]), ops[n])
  {
    hide *;
    Halfway(ops, owner, n);
    StepKeeps(After(ops[..n]), owner, ops[n]);
  }

  /** A registered job stays registered, in the same place. */
  ghost predicate Leads(w: World, k: string, url: string, id: string, d: DataId) {
    k in w.pools && Knows(w.pools[k], url, id) && w.pools[k].jobs[id] == d
  }

  lemma StepLeads(w: World, owner: string -> string, op: Op, k: string, url: string, id: string, d: DataId)
    requires WellFormed(w, owner) && Enabled(w, op) && OneUrlPerKey(op, owner) && Leads(w, k, url, id, d)
    ensures Leads(Next(w, op), k, url, id, d)
  {
    StepKeeps(w, owner, op);
    hide WellFormed;
    if op.Create? || op.Submit? || op.Attach? {
      var (b, e) := Before(w, op);
      BeforeInBounds(w, op);
      BeforeLeads(w, op, k, url, id, d);
      hide Before;
      hide Leads;
      SetJobIdLeads(b, op.i, e, k, url, id, d);
    }
  }

  lemma BeforeLeads(w: World, op: Op, k: string, url: string, id: string, d: DataId)
    requires InBounds(w) && Enabled(w, op) && (op.Create? || op.Submit? || op.Attach?) && Leads(w, k, url, id, d)
    ensures Leads(Before(w, op).0, k, url, id, d)
  {
    hide FindJob;
    hide Parts;
    hide Split;
  }

  lemma SetJobIdLeads(w: World, i: InstanceId, e: DataId, k: string, url: string, id: string, d: DataId)
    requires e in w.data && w.data[e].pool in w.pools && !SetJobIdAsserts(w, i, e) && Leads(w, k, url, id, d)
    ensures Leads(SetJobId(w, i, e), k, url, id, d)
  {
    hide Unique;
  }

  lemma {:induction false} RunLeads(ops: seq<Op>, owner: string -> string, m: nat, n: nat,
                                    k: string, url: string, id: string, d: DataId)
    requires Legal(ops) && OneUrlPerLog(ops, owner) && m <= n <= |ops|
    requires Leads(After(ops[..m]), k, url, id, d)
    ensures Leads(After(ops[..n]), k, url, id, d)
  {
    hide *;
    if m < n {
      RunLeads(ops, owner, m, n - 1, k, url, id, d);
      Halfway(ops, owner, n - 1);
      StepLeads(After(ops[..n - 1]), owner, ops[n - 1], k, url, id, d);
    }
  }

  /** What is registered is what find_job finds. */
  lemma LeadsIsFound(w: World, owner: string -> string, k: string, url: string, id: string, d: DataId)
    requires WellFormed(w, owner) && Leads(w, k, url, id, d)
    ensures FindJob(w.pools, url, id) == Some(d)
  {
    FindJobIs(w.pools, url, id);
    hide FindJob;
    var l :| l in w.pools && Knows(w.pools[l], url, id) && FindJob(w.pools, url, id) == Some(w.pools[l].jobs[id]);
    assert k == l;
  }

  lemma SubmitLeads(w: World, owner: string -> string, i: InstanceId, c: string)
    requires WellFormed(w, owner) && Enabled(w, Submit(i, c))
    ensures var d := w.holders[i];
            var k := w.data[d].pool;
            Leads(Next(w, Submit(i, c)), k, w.pools[k].url, c, d)
  {
    var d := w.holders[i];
    var after := Next(w, Submit(i, c));
    SubmitKeeps(w, owner, Submit(i, c));
    var b := Before(w, Submit(i, c)).0;
    assert after.data == b.data && d in after.data && after.data[d] == Data(w.data[d].pool, c);
    assert HasEntry(after, d);
  }

  lemma NumberIsPlain(c: string)
    requires Number(c)
    ensures c != "" && !Ambiguous(c)
  {
    if Ambiguous(c) {
      AmbiguousHasBracket(c);
    }
  }

  /** Sharing: whoever attaches by the identifier that sync_run has produced, however much later,
      holds the very data of the job that was submitted. */
  lemma AttachingShares(ops: seq<Op>, owner: string -> string, m: nat, n: nat)
    requires Legal(ops) && OneUrlPerLog(ops, owner) && m < n < |ops|
    requires ops[m].Submit? && ops[n].Attach?
    requires var w := After(ops[..m]);
             && InBounds(w) && Enabled(w, ops[m])
             && ops[n].jobId == "[" + w.pools[w.data[w.holders[ops[m].i]].pool].url + "]-[" + ops[m].cluster + "]"
    ensures var after := After(ops[..n + 1]);
            ops[n].i in after.holders && after.holders[ops[n].i] == After(ops[..m]).holders[ops[m].i]
  {
    var w, i, c := After(ops[..m]), ops[m].i, ops[m].cluster;
    var d := w.holders[i];
    var k := w.data[d].pool;
    var url := w.pools[k].url;
    hide *;
    Halfway(ops, owner, m);
    SubmitLeads(w, owner, i, c);
    RunLeads(ops, owner, m + 1, n, k, url, c, d);
    Halfway(ops, owner, n);
    var v := After(ops[..n]);
    LeadsIsFound(v, owner, k, url, c, d);
    SubmittedParts(w, owner, ops[m], url);
    IdentifierIs(url, c);
    AttachFoundHolds(v, owner, ops[n], d);
  }

  lemma SubmittedParts(w: World, owner: string -> string, op: Op, url: string)
    requires WellFormed(w, owner) && op.Submit? && Enabled(w, op)
    requires url == w.pools[w.data[w.holders[op.i]].pool].url
    ensures Parts(JobId(url, op.cluster)) == (url, op.cluster)
  {
    NumberIsPlain(op.cluster);
    IdentifierSplits(url, op.cluster);
    hide Split;
    hide JobId;
  }

  lemma AttachFoundHolds(w: World, owner: string -> string, op: Op, d: DataId)
    requires WellFormed(w, owner) && Enabled(w, op) && op.Attach?
    requires FindJob(w.pools, Parts(op.jobId).0, Parts(op.jobId).1) == Some(d)
    ensures op.i in Next(w, op).holders && Next(w, op).holders[op.i] == d
  {
    AttachFoundKeeps(w, owner, op);
  }

  // ----- A run in which an assertion fails -----

  function ClashingRun(a: string, b: string, id: string): seq<Op> {
    [Appear(a, id), Appear(b, id), Attach(0, JobId(a, id), NO_XML_LOG), Attach(1, JobId(b, id), NO_XML_LOG)]
  }

  function Clash(a: string, b: string, id: string): World {
    World(map[NO_XML_LOG := Pool(a, map[id := 0])], map[0 := Data(NO_XML_LOG, id)], 1, map[0 := 0], {(a, id), (b, id)})
  }

  lemma FirstAttach(a: string, b: string, id: string, w: World)
    requires a != "" && id != "" && !Ambiguous(id) && w == START.(known := {(a, id), (b, id)})
    ensures var op := Attach(0, JobId(a, id), NO_XML_LOG);
            InBounds(w) && Enabled(w, op) && Next(w, op) == Clash(a, b, id)
  {
    IdentifierSplits(a, id);
    FindJobIs(w.pools, a, id);
    hide FindJob;
    hide Split;
    hide JobId;
    var op := Attach(0, JobId(a, id), NO_XML_LOG);
    assert Parts(JobId(a, id)) == (a, id);
    hide Parts;
    BeforeInBounds(w, op);
    NewIsUnique(w, op);
    hide Unique;
    assert w.pools[NO_XML_LOG := Pool(a, map[])][NO_XML_LOG := Pool(a, map[id := 0])]
        == map[NO_XML_LOG := Pool(a, map[id := 0])];
  }

  lemma SecondAttach(a: string, b: string, id: string)
    requires a != b && b != "" && id != "" && !Ambiguous(id)
    ensures var w, op := Clash(a, b, id), Attach(1, JobId(b, id), NO_XML_LOG);
            InBounds(w) && Enabled(w, op) && Asserts(w, op)
  {
    var w := Clash(a, b, id);
    IdentifierSplits(b, id);
    FindJobIs(w.pools, b, id);
    hide FindJob;
    hide Split;
    hide JobId;
    AttachAssertsExactly(w, 1, JobId(b, id), NO_XML_LOG);
    hide Asserts;
  }

  lemma OneMore(ops: seq<Op>, op: Op)
    requires Legal(ops) && InBounds(After(ops)) && Enabled(After(ops), op)
    ensures Legal(ops + [op]) && After(ops + [op]) == Next(After(ops), op)
  {
    var all := ops + [op];
    assert all[..|ops|] == ops;
    forall n | 0 <= n < |all| ensures InBounds(After(all[..n])) && Enabled(After(all[..n]), all[n]) {
      if n < |ops| {
        assert all[..n] == ops[..n];
      }
    }
  }

  lemma ClashFails(a: string, b: string, id: string)
    requires a != b && a != "" && b != "" && id != "" && !Ambiguous(id)
    ensures var ops := ClashingRun(a, b, id);
            && Legal(ops)
            && InBounds(After(ops[..3])) && Enabled(After(ops[..3]), ops[3]) && Asserts(After(ops[..3]), ops[3])
  {
    var ops := ClashingRun(a, b, id);
    TwoAppear(a, b, id);
    FirstAttach(a, b, id, After(ops[..2]));
    SecondAttach(a, b, id);
    hide Enabled;
    hide Next;
    hide Asserts;
    hide InBounds;
    hide Clash;
    hide Legal;
    OneMore(ops[..2], ops[2]);
    assert ops[..2] + [ops[2]] == ops[..3];
    OneMore(ops[..3], ops[3]);
    assert ops[..3] + [ops[3]] == ops;
  }

  /** Without the discipline a legal run can fail an assertion: all jobs without an XML log share one
      pool, which carries the URL of the first. If one attaches to a job of one resource manager
      and then to the job with the same ID of another, the ID is registered twice. */
  lemma JobsWithoutLogClash(a: string, b: string, id: string)
    requires a != b && a != "" && b != "" && id != ""
    requires !exists q: nat :: q + 3 < |id| && id[q] == ']' && id[q + 1] == '-' && id[q + 2] == '['
    ensures var ops := [Appear(a, id), Appear(b, id),
                        Attach(0, "[" + a + "]-[" + id + "]", "//-- No XML Log --//"),
                        Attach(1, "[" + b + "]-[" + id + "]", "//-- No XML Log --//")];
            && Legal(ops)
            && InBounds(After(ops[..3])) && Enabled(After(ops[..3]), ops[3]) && Asserts(After(ops[..3]), ops[3])
  {
    AmbiguousIs(id);
    ClashFails(a, b, id);
    IdentifierIs(a, id);
    IdentifierIs(b, id);
    ClashingRunIs(a, b, id);
    hide *;
  }

  lemma ClashingRunIs(a: string, b: string, id: string)
    ensures ClashingRun(a, b, id) == [Appear(a, id), Appear(b, id), Attach(0, JobId(a, id), "//-- No XML Log --//"),
                                      Attach(1, JobId(b, id), "//-- No XML Log --//")]
  {
  }

  lemma TwoAppear(a: string, b: string, id: string)
    requires id != ""
    ensures var ops := ClashingRun(a, b, id);
            Legal(ops[..2]) && After(ops[..2]) == START.(known := {(a, id), (b, id)})
  {
    var ops := ClashingRun(a, b, id);
    assert Legal([]) && After([]) == START;
    OneMore([], ops[0]);
    assert [] + [ops[0]] == ops[..1];
    OneMore(ops[..1], ops[1]);
    assert ops[..1] + [ops[1]] == ops[..2];
    assert {} + {(a, id)} + {(b, id)} == {(a, id), (b, id)};
  }
}
