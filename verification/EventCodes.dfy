/** The event types of Condor's log one by one: the numbers, the attributes and the states of the switch in
    condor_job/log_processor.cpp. */
module EventCodes {
  import opened Text
  import opened ClassAds
  import opened Events

  // ----- What each number does -----

  /** The state, and for which numbers there is one. */
  lemma EffectMeans(job: Job, ad: Ad, n: int)
    ensures var after := Apply(job, EffectOf(ad, n));
            && (n in {0, 1, 13} ==> after.state == Running)
            && (n == 12 ==> after.state == Suspended)
            && (n in {2, 4} ==> after.state == Failed)
            && (n == 5 ==> after.state == if Get(ad, "TerminatedBySignal").Some? then Failed else Done)
            && (n == 9 ==> after.state == Canceled)
            && (n !in {0, 1, 2, 4, 5, 9, 12, 13} ==> after == job)
    ensures EffectOf(ad, n).Some? <==> n in {0, 1, 2, 4, 5, 9, 12, 13}
  {
    hide Get;
  }

  /** The attributes that are set: the rest stays as it is. */
  lemma EffectSets(job: Job, ad: Ad, n: int, name: string)
    ensures var before, after := Entry(job.attributes, name), Entry(Apply(job, EffectOf(ad, n)).attributes, name);
            var source := if name == "Finished" && n in {2, 4, 5, 9} then Get(ad, "EventTime")
                          else if name == "ExitCode" && n == 5 then Get(ad, "ReturnValue")
                          else if name == "Termsig" && n == 5 then Get(ad, "TerminatedBySignal")
                          else None;
            after == if source.Some? then Some(source.value.text) else before
  {
    hide Get;
    NamesDiffer();
  }

  lemma NamesDiffer()
    ensures "Finished" != "ExitCode" && "ExitCode" != "Termsig" && "Finished" != "Termsig"
  {
    assert |"Termsig"| == 7 && "Finished"[0] == 'F' && "ExitCode"[0] == 'E';
  }

  lemma EventTypeMeans(ad: Ad)
    ensures EventType(ad)
            == match Get(ad, "EventTypeNumber")
               case None => Some(-1)
               case Some(v) => if v.kind == "i" then ParseInt(v.text) else Some(-1)
  {
    hide Get;
    hide ParseInt;
  }

  /** The number of an entry: -1 if it has none, or one that is not marked as an integer. */
  predicate HasNumber(ad: Ad, n: int) {
    match Get(ad, "EventTypeNumber")
    case None => n == -1
    case Some(v) => if v.kind == "i" then ParseInt(v.text) == Some(n) else n == -1
  }

  lemma OneMoreEntry<J>(registry: map<string, J>, jobs: map<J, Job>, log: seq<Ad>, ad: Ad, n: int, j: J)
    requires j in jobs && Target(registry, ad) == Some(j) && HasNumber(ad, n)
    ensures j in Replay(registry, jobs, log) && j in Replay(registry, jobs, log + [ad])
    ensures Replay(registry, jobs, log + [ad])[j] == Apply(Replay(registry, jobs, log)[j], EffectOf(ad, n))
  {
    hide *;
    SameKeys(registry, jobs, log);
    NumberIsEventType(ad, n);
    ReplayMore(registry, jobs, log, ad, j);
    EntryEffectIs(ad, n);
  }

  lemma NumberIsEventType(ad: Ad, n: int)
    requires HasNumber(ad, n)
    ensures EventType(ad) == Some(n)
  {
    EventTypeMeans(ad);
    hide EventType;
    hide Get;
    hide ParseInt;
  }

  /** After a log with one more entry about a job, the job has the state that belongs to the entry's number; of any
      other number, or without one, it is as it was. */
  lemma LastEntryDecides<J>(registry: map<string, J>, jobs: map<J, Job>, log: seq<Ad>, ad: Ad, n: int, j: J)
    requires j in jobs && Target(registry, ad) == Some(j)
    requires match Get(ad, "EventTypeNumber")
             case None => n == -1
             case Some(v) => if v.kind == "i" then ParseInt(v.text) == Some(n) else n == -1
    ensures j in Replay(registry, jobs, log) && j in Replay(registry, jobs, log + [ad])
    ensures var before, after := Replay(registry, jobs, log)[j], Replay(registry, jobs, log + [ad])[j];
            && (n in {0, 1, 13} ==> after.state == Running)
            && (n == 12 ==> after.state == Suspended)
            && (n in {2, 4} ==> after.state == Failed)
            && (n == 5 ==> after.state == if Get(ad, "TerminatedBySignal").Some? then Failed else Done)
            && (n == 9 ==> after.state == Canceled)
            && (n !in {0, 1, 2, 4, 5, 9, 12, 13} ==> after == before)
  {
    hide *;
    HasNumberIf(ad, n);
    OneMoreEntry(registry, jobs, log, ad, n, j);
    EffectMeans(Replay(registry, jobs, log)[j], ad, n);
  }

  lemma HasNumberIf(ad: Ad, n: int)
    requires match Get(ad, "EventTypeNumber")
             case None => n == -1
             case Some(v) => if v.kind == "i" then ParseInt(v.text) == Some(n) else n == -1
    ensures HasNumber(ad, n)
  {
    hide Get;
    hide ParseInt;
  }

  /** And it has the time, the exit code and the signal that the entry gives, and all its other attributes. */
  lemma LastEntrySets<J>(registry: map<string, J>, jobs: map<J, Job>, log: seq<Ad>, ad: Ad, n: int, j: J, name: string)
    requires j in jobs && Target(registry, ad) == Some(j)
    requires match Get(ad, "EventTypeNumber")
             case None => n == -1
             case Some(v) => if v.kind == "i" then ParseInt(v.text) == Some(n) else n == -1
    ensures j in Replay(registry, jobs, log) && j in Replay(registry, jobs, log + [ad])
    ensures var before := Entry(Replay(registry, jobs, log)[j].attributes, name);
            var after := Entry(Replay(registry, jobs, log + [ad])[j].attributes, name);
            var source := if name == "Finished" && n in {2, 4, 5, 9} then Get(ad, "EventTime")
                          else if name == "ExitCode" && n == 5 then Get(ad, "ReturnValue")
                          else if name == "Termsig" && n == 5 then Get(ad, "TerminatedBySignal")
                          else None;
            after == if source.Some? then Some(source.value.text) else before
  {
    hide *;
    HasNumberIf(ad, n);
    OneMoreEntry(registry, jobs, log, ad, n, j);
    EffectSets(Replay(registry, jobs, log)[j], ad, n, name);
  }

  lemma EntryEffectIs(ad: Ad, n: int)
    requires EventType(ad) == Some(n)
    ensures EntryEffect(ad) == EffectOf(ad, n)
  {
    hide EventType;
    hide EffectOf;
  }

  // ----- Which job it is about -----

  /** The job under the cluster, or else the one under cluster, dot and process. */
  lemma TargetMeans<J>(registry: map<string, J>, ad: Ad)
    ensures Get(ad, "Cluster").None? ==> Target(registry, ad) == None
    ensures Get(ad, "Cluster").Some? ==>
              var cluster := Get(ad, "Cluster").value.text;
              var process := if Get(ad, "Proc").Some? then Get(ad, "Proc").value.text else "";
              && (cluster in registry ==> Target(registry, ad) == Some(registry[cluster]))
              && (cluster !in registry && cluster + "." + process in registry ==>
                    Target(registry, ad) == Some(registry[cluster + "." + process]))
              && (cluster !in registry && cluster + "." + process !in registry ==> Target(registry, ad) == None)
  {
    hide Get;
    if Get(ad, "Cluster").Some? {
      var cluster := Get(ad, "Cluster").value.text;
      var process := if Get(ad, "Proc").Some? then Get(ad, "Proc").value.text else "";
      assert cluster + ("." + process) == cluster + "." + process;
    }
  }

  // ----- Reading a number -----

  /** A number as it is written. */
  function Decimal(n: nat): string {
    (if n < 10 then "" else Decimal(n / 10)) + [(n % 10 + '0' as int) as char]
  }

  predicate AllDigits(t: string) {
    forall c | c in t :: '0' <= c <= '9'
  }

  lemma {:induction false} DecimalIsNumber(n: nat)
    ensures Decimal(n) != "" && AllDigits(Decimal(n)) && Number(Decimal(n)) == n
  {
    var d := Decimal(n);
    if n >= 10 {
      DecimalIsNumber(n / 10);
      assert d[..|d| - 1] == Decimal(n / 10);
    } else {
      assert d[..|d| - 1] == "";
    }
  }

  lemma DigitsAreParsed(t: string)
    requires t != "" && AllDigits(t)
    ensures var n: int := Number(t); ParseInt(t) == if n < 0x8000_0000 then Some(n) else None
  {
    assert t[0] in t;
    hide Number;
  }

  lemma SignedAreParsed(t: string)
    requires t != "" && AllDigits(t)
    ensures var n: int := Number(t);
            && ParseInt("+" + t) == (if n < 0x8000_0000 then Some(n) else None)
            && ParseInt("-" + t) == (if n <= 0x8000_0000 then Some(-n) else None)
  {
    assert ("+" + t)[1..] == t && ("-" + t)[1..] == t;
    hide Number;
  }

  /** Every number of 32 bits is read as it was written, with or without a sign, and no other one is read. */
  lemma NumbersAreRead(n: int, t: string)
    requires 0 <= n && t == Decimal(n)
    ensures ParseInt(t) == if n < 2147483648 then Some(n) else None
    ensures ParseInt("+" + t) == if n < 2147483648 then Some(n) else None
    ensures ParseInt("-" + t) == if n <= 2147483648 then Some(-n) else None
  {
    hide *;
    DecimalIsNumber(n);
    DigitsAreParsed(t);
    SignedAreParsed(t);
  }

  /** Nothing is a number but digits behind at most one sign. */
  lemma NothingElseIsRead(t: string)
    requires ParseInt(t).Some?
    ensures var digits := if t != "" && (t[0] == '+' || t[0] == '-') then t[1..] else t;
            digits != "" && forall c | c in digits :: '0' <= c <= '9'
  {
    hide Number;
    var digits := if t != "" && (t[0] == '+' || t[0] == '-') then t[1..] else t;
    forall c | c in digits ensures '0' <= c <= '9' {
      assert IsDigit(c);
    }
  }

  lemma OneDigit(n: nat)
    requires n < 10
    ensures Decimal(n) == [(n + '0' as int) as char]
  {
  }

  /** The numbers of the events. */
  lemma CodesAreRead()
    ensures ParseInt("0") == Some(0) && ParseInt("1") == Some(1) && ParseInt("2") == Some(2)
    ensures ParseInt("4") == Some(4) && ParseInt("5") == Some(5) && ParseInt("9") == Some(9)
    ensures ParseInt("12") == Some(12) && ParseInt("13") == Some(13)
  {
    hide ParseInt;
    forall n: nat | n < 10 ensures ParseInt([(n + '0' as int) as char]) == Some(n) {
      OneDigit(n);
      NumbersAreRead(n, Decimal(n));
    }
    TwoDigits();
    NumbersAreRead(12, "12");
    NumbersAreRead(13, "13");
    hide Decimal;
    assert ParseInt([(0 + '0' as int) as char]) == Some(0) && ParseInt([(1 + '0' as int) as char]) == Some(1);
    assert ParseInt([(2 + '0' as int) as char]) == Some(2) && ParseInt([(4 + '0' as int) as char]) == Some(4);
    assert ParseInt([(5 + '0' as int) as char]) == Some(5) && ParseInt([(9 + '0' as int) as char]) == Some(9);
  }

  lemma TwoDigits()
    ensures Decimal(12) == "12" && Decimal(13) == "13"
  {
    OneDigit(1);
  }
}
