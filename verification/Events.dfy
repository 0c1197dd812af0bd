/** What the entries of Condor's event log mean for jobs: the event switch of process_log_entry in
    condor_job/log_processor.cpp and update_state in condor_job/condor_job.hpp, and what a whole
    log amounts to. */
module Events {
  import opened Text
  import opened ClassAds

  datatype JobState = Unknown | New | Running | Done | Canceled | Failed | Suspended

  predicate Final(s: JobState) {
    s.Done? || s.Canceled? || s.Failed?
  }

  lemma FinalStates()
    ensures forall s :: Final(s) <==> s in {Done, Canceled, Failed}
  {
  }

  type Attributes = map<string, string>

  const FINISHED := "Finished"
  const EXIT_CODE := "ExitCode"
  const TERM_SIG := "Termsig"

  const EVENT_TYPE := "EventTypeNumber"
  const CLUSTER := "Cluster"
  const PROC := "Proc"
  const EVENT_TIME := "EventTime"
  const RETURN_VALUE := "ReturnValue"
  const TERMINATED_BY_SIGNAL := "TerminatedBySignal"

  // ----- One entry -----

  function Number(digits: string): nat
    requires forall c | c in digits :: IsDigit(c)
  {
    if digits == "" then 0
    else
      var last := digits[|digits| - 1];
      assert last in digits && IsDigit(last);
      assert forall c | c in digits[..|digits| - 1] :: c in digits;
      10 * Number(digits[..|digits| - 1]) + (last as int - '0' as int)
  }

  /** boost::lexical_cast<int>: nothing, if it throws. */
  function ParseInt(text: string): Option<int> {
    var signed := text != "" && (text[0] == '-' || text[0] == '+');
    var digits := if signed then text[1..] else text;
    if digits == "" || exists c | c in digits :: !IsDigit(c) then None
    else
      var size: int := Number(digits);
      var n := if signed && text[0] == '-' then -size else size;
      if -0x8000_0000 <= n < 0x8000_0000 then Some(n) else None
  }

  /** The event type of an entry: -1 if there is none, nothing if reading it throws. */
  function EventType(ad: Ad): Option<int> {
    var attr := Get(ad, EVENT_TYPE);
    if attr.Some? && attr.value.kind == "i" then ParseInt(attr.value.text) else Some(-1)
  }

  /** What an entry sets in its job. */
  datatype Effect = Effect(state: JobState, attributes: Attributes)

  function Setting(name: string, value: Option<AdValue>): Attributes {
    if value.Some? then map[name := value.value.text] else map[]
  }

  /** The switch; nothing, if the event is not one that the adaptor processes. */
  function EffectOf(ad: Ad, event: int): Option<Effect> {
    var time := Setting(FINISHED, Get(ad, EVENT_TIME));
    var signal := Get(ad, TERMINATED_BY_SIGNAL);
    match event
    case 0 => Some(Effect(Running, map[]))
    case 1 => Some(Effect(Running, map[]))
    case 13 => Some(Effect(Running, map[]))
    case 12 => Some(Effect(Suspended, map[]))
    case 2 => Some(Effect(Failed, time))
    case 4 => Some(Effect(Failed, time))
    case 5 => Some(Effect(if signal.Some? then Failed else Done,
                          time + Setting(EXIT_CODE, Get(ad, RETURN_VALUE)) + Setting(TERM_SIG, signal)))
    case 9 => Some(Effect(Canceled, time))
    case _ => None
  }

  /** The job that an entry is about: the one registered for the cluster, or else for the process. */
  function Target<J>(registry: map<string, J>, ad: Ad): Option<J> {
    var cluster, process := Get(ad, CLUSTER), Get(ad, PROC);
    if cluster.None? then None
    else
      var key := cluster.value.text + ("." + (if process.Some? then process.value.text else ""));
      if cluster.value.text in registry then Some(registry[cluster.value.text])
      else if key in registry then Some(registry[key])
      else None
  }

  lemma TargetIsRegistered<J>(registry: map<string, J>, ad: Ad)
    ensures Target(registry, ad).Some? ==> exists k :: k in registry && registry[k] == Target(registry, ad).value
  {
    hide Get;
  }

  datatype Job = Job(state: JobState, attributes: Attributes)

  function Apply(job: Job, effect: Option<Effect>): Job {
    if effect.None? then job
    else Job(effect.value.state, job.attributes + effect.value.attributes)
  }

  /** The effect of an entry that has been read; an entry whose event type cannot be read ends
      the processing of the log. */
  function EntryEffect(ad: Ad): Option<Effect> {
    var event := EventType(ad);
    if event.None? then None else EffectOf(ad, event.value)
  }

  /** The entries before the first one whose event type cannot be read. */
  function Readable(log: seq<Ad>): seq<Ad> {
    if log == [] || EventType(log[0]).None? then [] else [log[0]] + Readable(log[1..])
  }

  // ----- A whole log -----

  /** Each entry is applied to the job that it is about. */
  function Replay<J(==)>(registry: map<string, J>, jobs: map<J, Job>, log: seq<Ad>): map<J, Job> {
    if log == [] then jobs
    else
      var before := Replay(registry, jobs, log[..|log| - 1]);
      var ad := log[|log| - 1];
      var j := Target(registry, ad);
      if j.Some? && j.value in before
      then before[j.value := Apply(before[j.value], EntryEffect(ad))]
      else before
  }

  /** The effects that the entries about one job have, in their order. */
  function Own<J(==)>(registry: map<string, J>, log: seq<Ad>, j: J): seq<Effect> {
    if log == [] then []
    else
      var ad := log[|log| - 1];
      Own(registry, log[..|log| - 1], j)
      + (if Target(registry, ad) == Some(j) && EntryEffect(ad).Some? then [EntryEffect(ad).value] else [])
  }

  /** The value of the last entry that sets the name. */
  function LastSetting(own: seq<Effect>, name: string, initially: Option<string>): Option<string> {
    if own == [] then initially
    else
      var last := own[|own| - 1].attributes;
      if name in last then Some(last[name]) else LastSetting(own[..|own| - 1], name, initially)
  }

  function Entry(m: Attributes, name: string): Option<string> {
    if name in m then Some(m[name]) else None
  }

  /** The state of the last entry. */
  function LastState(own: seq<Effect>, initially: JobState): JobState {
    if own == [] then initially else own[|own| - 1].state
  }

  /** A job after its own entries. */
  function Outcome(job: Job, own: seq<Effect>): Job {
    if own == [] then job else Apply(Outcome(job, own[..|own| - 1]), Some(own[|own| - 1]))
  }

  /** The outcome of a job's own entries is what the replay of the whole log gives. */
  lemma {:induction false} OutcomeIsReplay<J>(registry: map<string, J>, jobs: map<J, Job>, log: seq<Ad>, j: J)
    requires j in jobs
    ensures j in Replay(registry, jobs, log)
    ensures Replay(registry, jobs, log)[j] == Outcome(jobs[j], Own(registry, log, j))
  {
    hide EntryEffect;
    hide Target;
    if log != [] {
      OutcomeIsReplay(registry, jobs, log[..|log| - 1], j);
      var ad := log[|log| - 1];
      var before := Own(registry, log[..|log| - 1], j);
      var own := Own(registry, log, j);
      if Target(registry, ad) == Some(j) && EntryEffect(ad).Some? {
        assert own[..|own| - 1] == before;
      } else {
        assert own == before;
      }
    }
  }

  lemma {:induction false} OutcomeIsLast(job: Job, own: seq<Effect>, name: string)
    ensures Outcome(job, own).state == LastState(own, job.state)
    ensures Entry(Outcome(job, own).attributes, name) == LastSetting(own, name, Entry(job.attributes, name))
  {
    if own != [] {
      OutcomeIsLast(job, own[..|own| - 1], name);
    }
  }

  /** Replay refinement: whatever is interleaved in the log, the final state of a job is that of its
      own last state-bearing entry, and its attributes are the merge of its own entries in which
      the last one wins. */
  lemma ReplayRefinement<J>(registry: map<string, J>, jobs: map<J, Job>, log: seq<Ad>, j: J)
    requires j in jobs
    ensures Replay(registry, jobs, log).Keys == jobs.Keys
    ensures var job, own := Replay(registry, jobs, log)[j], Own(registry, log, j);
            && job.state == LastState(own, jobs[j].state)
            && forall name :: Entry(job.attributes, name) == LastSetting(own, name, Entry(jobs[j].attributes, name))
  {
    hide *;
    SameKeys(registry, jobs, log);
    OutcomeIsReplay(registry, jobs, log, j);
    var own := Own(registry, log, j);
    forall name
      ensures Entry(Outcome(jobs[j], own).attributes, name) == LastSetting(own, name, Entry(jobs[j].attributes, name))
    {
      OutcomeIsLast(jobs[j], own, name);
    }
    OutcomeIsLast(jobs[j], own, "");
  }

  /** Entries about different jobs commute: two logs that agree on the entries of every job have
      the same outcome. */
  lemma ReplayCommutes<J>(registry: map<string, J>, jobs: map<J, Job>, log: seq<Ad>, log': seq<Ad>)
    requires forall j | j in jobs :: Own(registry, log, j) == Own(registry, log', j)
    ensures Replay(registry, jobs, log) == Replay(registry, jobs, log')
  {
    var r, r' := Replay(registry, jobs, log), Replay(registry, jobs, log');
    forall j | j in jobs ensures j in r && j in r' && r[j] == r'[j] {
      ReplayRefinement(registry, jobs, log, j);
      ReplayRefinement(registry, jobs, log', j);
      SameEntries(r[j].attributes, r'[j].attributes);
    }
    SameKeys(registry, jobs, log);
    SameKeys(registry, jobs, log');
  }

  lemma SameEntries(m: Attributes, n: Attributes)
    requires forall name :: Entry(m, name) == Entry(n, name)
    ensures m == n
  {
    forall name ensures (name in m <==> name in n) && (name in m ==> m[name] == n[name]) {
      assert Entry(m, name) == Entry(n, name);
    }
  }

  lemma {:induction false} SameKeys<J>(registry: map<string, J>, jobs: map<J, Job>, log: seq<Ad>)
    ensures Replay(registry, jobs, log).Keys == jobs.Keys
  {
    if log != [] {
      SameKeys(registry, jobs, log[..|log| - 1]);
    }
  }

  /** Swapping two neighbouring entries about different jobs changes nothing for any job. */
  lemma NeighboursCommute<J>(registry: map<string, J>, jobs: map<J, Job>,
                                   before: seq<Ad>, a: Ad, b: Ad, after: seq<Ad>)
    requires Target(registry, a) != Target(registry, b)
    ensures Replay(registry, jobs, before + [a, b] + after) == Replay(registry, jobs, before + [b, a] + after)
  {
    hide Target;
    hide EntryEffect;
    forall j | j in jobs
      ensures Own(registry, before + [a, b] + after, j) == Own(registry, before + [b, a] + after, j)
    {
      OwnConcat(registry, before + [a, b], after, j);
      OwnConcat(registry, before + [b, a], after, j);
      OwnConcat(registry, before, [a, b], j);
      OwnConcat(registry, before, [b, a], j);
      OwnTwo(registry, a, b, j);
      OwnTwo(registry, b, a, j);
    }
    ReplayCommutes(registry, jobs, before + [a, b] + after, before + [b, a] + after);
  }

  lemma {:induction false} OwnConcat<J>(registry: map<string, J>, u: seq<Ad>, v: seq<Ad>, j: J)
    ensures Own(registry, u + v, j) == Own(registry, u, j) + Own(registry, v, j)
  {
    hide Target;
    hide EntryEffect;
    if v == [] {
      assert u + v == u;
    } else {
      assert (u + v)[..|u + v| - 1] == u + v[..|v| - 1];
      OwnConcat(registry, u, v[..|v| - 1], j);
    }
  }

  lemma OwnTwo<J>(registry: map<string, J>, a: Ad, b: Ad, j: J)
    ensures Own(registry, [a, b], j) == Own(registry, [a], j) + Own(registry, [b], j)
    ensures Target(registry, a) != Some(j) ==> Own(registry, [a], j) == []
  {
    assert [a, b] == [a] + [b];
    OwnConcat(registry, [a], [b], j);
    OwnOne(registry, a, j);
    hide *;
  }

  lemma OwnOne<J>(registry: map<string, J>, a: Ad, j: J)
    ensures Target(registry, a) != Some(j) ==> Own(registry, [a], j) == []
  {
    hide Target;
    hide EntryEffect;
    assert [a][..0] == [];
    assert Own(registry, [], j) == [];
  }

  /** Final states are not absorbing: a job that is evicted and executes again is running. */
  lemma FinalIsNotAbsorbing<J>(registry: map<string, J>, jobs: map<J, Job>, evicted: Ad, executing: Ad, j: J)
    requires j in jobs && Target(registry, evicted) == Some(j) && Target(registry, executing) == Some(j)
    requires EventType(evicted) == Some(4) && EventType(executing) == Some(1)
    ensures var after := Replay(registry, jobs, [evicted]);
            j in after && after[j].state == Failed
    ensures var after := Replay(registry, jobs, [evicted, executing]);
            j in after && after[j].state == Running
  {
    hide *;
    SameKeys(registry, jobs, []);
    StateAfter(Replay(registry, jobs, [])[j], evicted);
    ReplayMore(registry, jobs, [], evicted, j);
    assert [] + [evicted] == [evicted] && [evicted] + [executing] == [evicted, executing];
    StateAfter(Replay(registry, jobs, [evicted])[j], executing);
    ReplayMore(registry, jobs, [evicted], executing, j);
  }

  lemma StateAfter(job: Job, ad: Ad)
    ensures EventType(ad) == Some(1) ==> Apply(job, EntryEffect(ad)).state == Running
    ensures EventType(ad) == Some(4) ==> Apply(job, EntryEffect(ad)).state == Failed
  {
    hide EventType;
    hide Get;
    hide Setting;
  }

  lemma ReplayMore<J>(registry: map<string, J>, jobs: map<J, Job>, log: seq<Ad>, ad: Ad, j: J)
    requires j in Replay(registry, jobs, log) && Target(registry, ad) == Some(j)
    ensures j in Replay(registry, jobs, log + [ad])
    ensures Replay(registry, jobs, log + [ad])[j] == Apply(Replay(registry, jobs, log)[j], EntryEffect(ad))
  {
    hide Target;
    hide EntryEffect;
    assert (log + [ad])[..|log|] == log;
  }

  /** An entry with an event type and a cluster. */
  function EventEntry(event: string, cluster: string): Ad {
    map[Lower(EVENT_TYPE) := AdValue("i", event), Lower(CLUSTER) := AdValue("i", cluster)]
  }

  lemma EventEntryIs<J>(registry: map<string, J>, event: string, cluster: string)
    requires cluster in registry
    ensures EventType(EventEntry(event, cluster)) == ParseInt(event)
    ensures Target(registry, EventEntry(event, cluster)) == Some(registry[cluster])
  {
    hide Lower;
    hide ParseInt;
    KeysDiffer();
  }

  lemma KeysDiffer()
    ensures Lower(EVENT_TYPE) != Lower(CLUSTER)
  {
    assert |EVENT_TYPE| == 15 && |CLUSTER| == 7;
    hide Lower;
    assert |Lower(EVENT_TYPE)| == |EVENT_TYPE| && |Lower(CLUSTER)| == |CLUSTER|;
  }

  lemma DigitsAreRead()
    ensures ParseInt("1") == Some(1) && ParseInt("4") == Some(4)
  {
    assert "1"[..0] == "" && "4"[..0] == "";
  }

  /** Two such entries: the job is evicted and then executes again. */
  lemma EvictedRunsAgain<J>(registry: map<string, J>, jobs: map<J, Job>, cluster: string)
    requires cluster in registry && registry[cluster] in jobs
    ensures var j, after := registry[cluster], Replay(registry, jobs, [EventEntry("4", cluster)]);
            j in after && after[j].state == Failed
    ensures var j := registry[cluster];
            var after := Replay(registry, jobs, [EventEntry("4", cluster), EventEntry("1", cluster)]);
            j in after && after[j].state == Running
  {
    hide *;
    DigitsAreRead();
    EventEntryIs(registry, "4", cluster);
    EventEntryIs(registry, "1", cluster);
    FinalIsNotAbsorbing(registry, jobs, EventEntry("4", cluster), EventEntry("1", cluster), registry[cluster]);
  }

  // ----- What an instance shows of it -----

  /** The part of job_cpi_impl that follows its job: whether its proxy lives, the attributes and
      the metric of that proxy, the values that the metric has fired, and the cached state. */
  datatype Instance = Instance(live: bool, attributes: Attributes, metric: JobState, fired: seq<JobState>,
                               changed: bool, cached: JobState)

  function Updated(i: Instance, state: JobState, attributes: Attributes): Instance {
    if !i.live then i
    else
      i.(attributes := i.attributes + attributes,
         metric := state,
         fired := if i.metric == state then i.fired else i.fired + [state],
         changed := true)
  }

  /** An instance that is told of each state. */
  function Follow(i: Instance, job: Job, own: seq<Effect>): Instance {
    if own == [] then i
    else
      var before := own[..|own| - 1];
      var now := Outcome(job, own);
      Updated(Follow(i, job, before), now.state, now.attributes)
  }

  function States(own: seq<Effect>): (r: seq<JobState>)
    ensures |r| == |own| && forall i | 0 <= i < |own| :: r[i] == own[i].state
  {
    seq(|own|, i requires 0 <= i < |own| => own[i].state)
  }

  /** The states without those that repeat the one before. */
  function Changes(from: JobState, states: seq<JobState>): seq<JobState>
    decreases |states|
  {
    if states == [] then []
    else (if states[0] == from then [] else [states[0]]) + Changes(states[0], states[1..])
  }

  /** No state repeats the one before. */
  predicate Repeatless(states: seq<JobState>) {
    forall i, k | 0 <= i && k == i + 1 < |states| :: states[i] != states[k]
  }

  lemma RepeatlessMore(first: JobState, rest: seq<JobState>)
    requires Repeatless(rest) && (rest != [] ==> rest[0] != first)
    ensures Repeatless([first] + rest)
  {
    var all := [first] + rest;
    forall i, k | 0 <= i && k == i + 1 < |all| ensures all[i] != all[k] {
      assert all[k] == rest[k - 1];
    }
  }

  /** The last of some states, behind another one. */
  function LastOf(from: JobState, states: seq<JobState>): JobState {
    if states == [] then from else states[|states| - 1]
  }

  lemma LastMore(from: JobState, first: JobState, rest: seq<JobState>)
    ensures LastOf(from, [first] + rest) == LastOf(first, rest)
  {
  }

  /** What is fired repeats nothing, and the last one is the last of all. */
  lemma {:induction false} ChangesDoNotRepeat(from: JobState, states: seq<JobState>)
    ensures var c := Changes(from, states);
            (c != [] ==> c[0] != from) && Repeatless(c) && LastOf(from, c) == LastOf(from, states)
    decreases |states|
  {
    if states != [] {
      var first, rest := states[0], states[1..];
      ChangesDoNotRepeat(first, rest);
      ChangesFirst(from, first, rest);
      assert states == [first] + rest;
      LastMore(from, first, rest);
      hide Changes;
      hide LastOf;
      var more := Changes(first, rest);
      if first == from {
        assert [] + more == more;
      } else {
        RepeatlessMore(first, more);
        LastMore(from, first, more);
        hide Repeatless;
      }
    }
  }

  lemma ChangesFirst(from: JobState, first: JobState, rest: seq<JobState>)
    ensures Changes(from, [first] + rest) == (if first == from then [] else [first]) + Changes(first, rest)
  {
    assert ([first] + rest)[1..] == rest;
  }

  lemma {:induction false} ChangesAppend(from: JobState, states: seq<JobState>, s: JobState)
    ensures var last := if states == [] then from else states[|states| - 1];
            Changes(from, states + [s]) == Changes(from, states) + (if last == s then [] else [s])
    decreases |states|
  {
    if states == [] {
      assert states + [s] == [s] && [s][1..] == [];
    } else {
      hide Changes;
      var first, rest := states[0], states[1..];
      ChangesAppend(first, rest, s);
      ChangesFirst(from, first, rest);
      ChangesFirst(from, first, rest + [s]);
      assert states == [first] + rest && states + [s] == [first] + (rest + [s]);
      assert rest != [] ==> rest[|rest| - 1] == states[|states| - 1];
      Regroup(if first == from then [] else [first], Changes(first, rest),
              if (if rest == [] then first else rest[|rest| - 1]) == s then [] else [s]);
    }
  }

  lemma Regroup(u: seq<JobState>, v: seq<JobState>, w: seq<JobState>)
    ensures u + (v + w) == (u + v) + w
  {
  }

  lemma AttributesAreShown(i: Instance, job: Job, own: seq<Effect>)
    requires i.live && own != []
    ensures var f, shown := Follow(i, job, own).attributes, Outcome(job, own).attributes;
            forall name | name in shown :: name in f && f[name] == shown[name]
  {
    FiredStates(i, job, own[..|own| - 1]);
  }

  /** An instance whose proxy lives fires its metric on exactly the states of its job with
      consecutive repeats left out; in the end the metric shows the job's state. An instance whose
      proxy is gone is left alone. */
  lemma {:induction false} FiredStates(i: Instance, job: Job, own: seq<Effect>)
    ensures !i.live ==> Follow(i, job, own) == i
    ensures i.live ==>
              var f := Follow(i, job, own);
              && f.live
              && f.fired == i.fired + Changes(i.metric, States(own))
              && f.metric == LastState(own, i.metric)
              && f.changed == (i.changed || own != [])
              && f.cached == i.cached
  {
    if own == [] {
      assert i.fired + [] == i.fired;
    } else {
      var before, last := own[..|own| - 1], own[|own| - 1];
      FiredStates(i, job, before);
      assert States(own) == States(before) + [last.state];
      ChangesAppend(i.metric, States(before), last.state);
      if i.live {
        var f := Follow(i, job, before);
        assert f.metric == (if States(before) == [] then i.metric else States(before)[|States(before)| - 1]);
      }
    }
  }
}
