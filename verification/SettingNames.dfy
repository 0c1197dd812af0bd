/** The settings of a submit description one by one, under the names that Condor knows: what saga_to_condor in
    condor_job/description.hpp sets from the parts of a job description, and the text that sync_run of
    condor_job/condor_job.cpp hands to Condor. */
module SettingNames {
  import opened Text
  import opened SubmitFile
  import opened OneSetting
  import opened JobDescriptions
  import opened Arrivals
  import Arguments
  import Requirements
  import Transfers

  // ----- Which part a setting comes from -----

  function NotifyPart(jd: JobDescription): Settings {
    if jd.jobContact.None? then map[] else NotifySettings(jd.jobContact.value)
  }

  function RequirementsPart(jd: JobDescription): Settings {
    SetNonEmpty("requirements", Requirements.Join(RequirementsOf(jd)))
  }

  /** Of the parts that have a name, the last one counts. */
  lemma PartsOf(jd: JobDescription, rm: ResourceManager, contexts: seq<Context>, k: string)
    ensures var s, early, proxy, host := AdaptorSettings(jd, rm, contexts), CommandSettings(jd) + EarlySettings(jd),
                                         ProxySettings(contexts), HostSettings(rm);
            var files, notify, reqs := TransferSettings(jd.fileTransfer), NotifyPart(jd), RequirementsPart(jd);
            && (k in s <==> k in early || k in proxy || k in host || k in files || k in notify || k in reqs)
            && (k in reqs ==> s[k] == reqs[k])
            && (k !in reqs && k in notify ==> s[k] == notify[k])
            && (k !in reqs && k !in notify && k in files ==> s[k] == files[k])
            && (k !in reqs && k !in notify && k !in files && k in host ==> s[k] == host[k])
            && (k !in reqs && k !in notify && k !in files && k !in host && k in proxy ==> s[k] == proxy[k])
  {
    hide CommandSettings;
    hide Set;
    hide SetVector;
    hide SetNonEmpty;
    hide ProxySettings;
    hide HostSettings;
    hide TransferSettings;
    hide NotifySettings;
    hide RequirementsOf;
    hide Requirements.Join;
  }

  /** The names in each part. */
  lemma EarlyKeys(jd: JobDescription)
    ensures forall k | k in CommandSettings(jd) + EarlySettings(jd) ::
              k in {"executable", "arguments", "environment", "remote_initialdir", "input", "output", "error",
                    "deferral_time", "queue"}
  {
    forall k | k in CommandSettings(jd) + EarlySettings(jd)
      ensures k in {"executable", "arguments", "environment", "remote_initialdir", "input", "output", "error",
                    "deferral_time", "queue"}
    {
      EarlyKey(jd, k);
    }
    hide CommandSettings;
    hide EarlySettings;
  }

  lemma EarlyKey(jd: JobDescription, k: string)
    requires k in CommandSettings(jd) + EarlySettings(jd)
    ensures k in {"executable", "arguments", "environment", "remote_initialdir", "input", "output", "error",
                  "deferral_time", "queue"}
  {
    VectorIs("environment", jd.environment, k);
    VectorIs("arguments", jd.arguments, k);
    SetIs("executable", jd.executable, k);
    SetIs("remote_initialdir", jd.workingDirectory, k);
    SetIs("input", jd.input, k);
    SetIs("output", jd.output, k);
    SetIs("error", jd.error, k);
    SetIs("deferral_time", jd.jobStartTime, k);
    SetIs("queue", WithDefault(jd.numberOfProcesses, "1"), k);
    hide Set;
    hide SetVector;
    hide WithDefault;
  }

  lemma HostKeys(rm: ResourceManager)
    ensures forall k | k in HostSettings(rm) :: k in {"universe", "grid_resource", "Universe"}
  {
    hide GridResource;
  }

  lemma FileKeys(ts: Option<seq<Transfer>>)
    ensures forall k | k in TransferSettings(ts) ::
              k in {"transfer_input_files", "transfer_output_files", "transfer_output_remaps"}
  {
    hide InputFiles;
    hide OutputFiles;
    hide Renamed;
    hide Transfers.RemapText;
  }

  lemma LastKeys(jd: JobDescription)
    ensures forall k | k in NotifyPart(jd) :: k == "notify_user"
    ensures forall k | k in RequirementsPart(jd) :: k == "requirements"
  {
    if jd.jobContact.Some? {
      NotifyKeys(jd.jobContact.value);
    }
    hide NotifySettings;
    hide RequirementsOf;
    hide Requirements.Join;
  }

  // ----- Proxy -----

  predicate Usable(c: Context) {
    c.kind == Some("x509") && c.proxy.Some? && c.proxyExists
  }

  lemma {:induction false} LastProxyIs(contexts: seq<Context>, i: nat)
    requires i < |contexts| && Usable(contexts[i]) && forall j | i < j < |contexts| :: !Usable(contexts[j])
    ensures "x509userproxy" in ProxySettings(contexts)
    ensures ProxySettings(contexts)["x509userproxy"] == contexts[i].proxy.value
  {
    if i < |contexts| - 1 {
      LastProxyIs(contexts[..|contexts| - 1], i);
    }
  }

  lemma {:induction false} NoProxyIs(contexts: seq<Context>)
    requires forall c | c in contexts :: !Usable(c)
    ensures "x509userproxy" !in ProxySettings(contexts)
  {
    if contexts != [] {
      var c := contexts[|contexts| - 1];
      assert c in contexts && !Usable(c);
      assert forall x | x in contexts[..|contexts| - 1] :: x in contexts;
      NoProxyIs(contexts[..|contexts| - 1]);
    }
  }

  lemma ProxyIsOwn(jd: JobDescription, rm: ResourceManager, contexts: seq<Context>)
    ensures var s, k := AdaptorSettings(jd, rm, contexts), "x509userproxy";
            && (k in s <==> k in ProxySettings(contexts))
            && (k in s ==> s[k] == ProxySettings(contexts)[k])
  {
    hide *;
    EarlyKeys(jd);
    HostKeys(rm);
    FileKeys(jd.fileTransfer);
    LastKeys(jd);
    PartsOf(jd, rm, contexts, "x509userproxy");
    LateNamesDiffer();
  }

  /** The names that begin late in the alphabet are not among the others. */
  lemma LateNamesDiffer()
    ensures var early := {"executable", "arguments", "environment", "remote_initialdir", "input", "output",
                          "error", "deferral_time", "queue"};
            && "x509userproxy" !in early && "universe" !in early && "Universe" !in early && "notify_user" !in early
    ensures var files := {"transfer_input_files", "transfer_output_files", "transfer_output_remaps"};
            && "x509userproxy" !in files && "universe" !in files && "Universe" !in files && "notify_user" !in files
    ensures "x509userproxy" !in {"universe", "grid_resource", "Universe"}
    ensures "notify_user" !in {"universe", "grid_resource", "Universe"}
    ensures "x509userproxy" != "notify_user" && "x509userproxy" != "requirements"
    ensures "universe" != "notify_user" && "universe" != "requirements" && "universe" != "x509userproxy"
    ensures "Universe" != "notify_user" && "Universe" != "requirements" && "notify_user" != "requirements"
  {
    assert "x509userproxy"[0] == 'x' && "universe"[0] == 'u' && "Universe"[0] == 'U' && "notify_user"[0] == 'n';
  }

  lemma GridNameDiffers()
    ensures "grid_resource" !in {"transfer_input_files", "transfer_output_files", "transfer_output_remaps"}
    ensures "grid_resource" != "notify_user" && "grid_resource" != "requirements"
  {
    assert "grid_resource"[0] == 'g';
  }

  /** The proxy of the last x509 context that has one which exists is set. */
  lemma ProxyIsSet(jd: JobDescription, rm: ResourceManager, contexts: seq<Context>, i: nat)
    requires i < |contexts|
    requires contexts[i].kind == Some("x509") && contexts[i].proxy.Some? && contexts[i].proxyExists
    requires forall j | i < j < |contexts| ::
               !(contexts[j].kind == Some("x509") && contexts[j].proxy.Some? && contexts[j].proxyExists)
    ensures var s := AdaptorSettings(jd, rm, contexts);
            "x509userproxy" in s && s["x509userproxy"] == contexts[i].proxy.value
  {
    ProxyIsOwn(jd, rm, contexts);
    LastProxyIs(contexts, i);
    hide AdaptorSettings;
    hide ProxySettings;
  }

  /** And none, if there is no such context. */
  lemma NoProxyIsSet(jd: JobDescription, rm: ResourceManager, contexts: seq<Context>)
    requires forall c | c in contexts :: !(c.kind == Some("x509") && c.proxy.Some? && c.proxyExists)
    ensures "x509userproxy" !in AdaptorSettings(jd, rm, contexts)
  {
    ProxyIsOwn(jd, rm, contexts);
    NoProxyIs(contexts);
    hide AdaptorSettings;
    hide ProxySettings;
  }

  // ----- Universe and resource -----

  lemma HostIsOwn(jd: JobDescription, rm: ResourceManager, contexts: seq<Context>, k: string)
    requires k in {"universe", "Universe"} || (k == "grid_resource" && k in HostSettings(rm))
    ensures var s := AdaptorSettings(jd, rm, contexts);
            && (k in s <==> k in HostSettings(rm))
            && (k in s ==> s[k] == HostSettings(rm)[k])
  {
    hide *;
    EarlyKeys(jd);
    FileKeys(jd.fileTransfer);
    LastKeys(jd);
    ProxyKeys(contexts);
    PartsOf(jd, rm, contexts, k);
    LateNamesDiffer();
    GridNameDiffers();
    UniverseIsNoProxy();
  }

  lemma UniverseIsNoProxy()
    ensures "Universe" != "x509userproxy"
  {
    assert "Universe"[0] == 'U';
  }

  lemma {:induction false} SchemeIsReplaced(u: string, v: string, i: nat)
    requires i <= |u| && forall k: nat | i <= k < |u| :: !IsAt(u + ("condorg://" + v), k, "condorg://")
    ensures GridResource(u + ("condorg://" + v), i) == u + ("gt2 " + v)
    decreases |u| - i
  {
    var url := u + ("condorg://" + v);
    if i < |u| {
      SchemeIsReplaced(u, v, i + 1);
    } else {
      assert url[i..i + 10] == "condorg://" && url[..i] == u && url[i + 10..] == v;
    }
  }

  /** A Condor-G resource is used through the grid universe, as the gt2 resource behind the first scheme in its
      URL. */
  lemma GridIsSet(jd: JobDescription, rm: ResourceManager, contexts: seq<Context>, u: string, v: string)
    requires rm.scheme == "condorg" && rm.url == u + ("condorg://" + v)
    requires forall k: nat | k < |u| :: !IsAt(rm.url, k, "condorg://")
    ensures var s := AdaptorSettings(jd, rm, contexts);
            && "universe" in s && s["universe"] == "grid" && "Universe" !in s
            && "grid_resource" in s && s["grid_resource"] == u + ("gt2 " + v)
  {
    SchemeIsReplaced(u, v, 0);
    hide GridResource;
    GridSettings(rm);
    hide HostSettings;
    hide AdaptorSettings;
    HostIsOwn(jd, rm, contexts, "universe");
    HostIsOwn(jd, rm, contexts, "Universe");
    HostIsOwn(jd, rm, contexts, "grid_resource");
  }

  lemma GridSettings(rm: ResourceManager)
    ensures var s := HostSettings(rm);
            if rm.scheme == "condorg"
            then && "universe" in s && s["universe"] == "grid" && "Universe" !in s
                 && "grid_resource" in s && s["grid_resource"] == GridResource(rm.url, 0)
            else "Universe" in s && s["Universe"] == "vanilla" && "universe" !in s
  {
    hide GridResource;
    assert "universe" != "grid_resource" by { assert |"universe"| != |"grid_resource"|; }
    LateNamesDiffer();
    assert "Universe"[0] != "universe"[0];
  }

  /** Any other resource is used through the vanilla universe, under the capitalised name. */
  lemma VanillaIsSet(jd: JobDescription, rm: ResourceManager, contexts: seq<Context>)
    requires rm.scheme != "condorg"
    ensures var s := AdaptorSettings(jd, rm, contexts);
            "Universe" in s && s["Universe"] == "vanilla" && "universe" !in s
  {
    GridSettings(rm);
    hide HostSettings;
    hide AdaptorSettings;
    HostIsOwn(jd, rm, contexts, "universe");
    HostIsOwn(jd, rm, contexts, "Universe");
  }

  // ----- Whom to notify -----

  lemma {:induction false} FirstMail(contacts: seq<string>, i: nat, address: string)
    requires i < |contacts| && contacts[i] == "mailto:" + address
    requires forall j | 0 <= j < i :: !("mailto:" <= contacts[j])
    ensures "notify_user" in NotifySettings(contacts) && NotifySettings(contacts)["notify_user"] == address
  {
    if i == 0 {
      assert contacts[0][7..] == address && "mailto:" <= contacts[0];
    } else {
      FirstMail(contacts[1..], i - 1, address);
    }
  }

  lemma {:induction false} NoMail(contacts: seq<string>)
    requires forall c | c in contacts :: !("mailto:" <= c)
    ensures "notify_user" !in NotifySettings(contacts)
  {
    if contacts != [] {
      assert contacts[0] in contacts;
      assert forall c | c in contacts[1..] :: c in contacts;
      NoMail(contacts[1..]);
    }
  }

  lemma NotifyIsOwn(jd: JobDescription, rm: ResourceManager, contexts: seq<Context>)
    ensures var s, k := AdaptorSettings(jd, rm, contexts), "notify_user";
            && (k in s <==> k in NotifyPart(jd))
            && (k in s ==> s[k] == NotifyPart(jd)[k])
  {
    hide *;
    EarlyKeys(jd);
    HostKeys(rm);
    FileKeys(jd.fileTransfer);
    LastKeys(jd);
    ProxyKeys(contexts);
    PartsOf(jd, rm, contexts, "notify_user");
    LateNamesDiffer();
  }

  /** The first contact that is a mail address is whom Condor notifies. */
  lemma NotifyIsSet(jd: JobDescription, rm: ResourceManager, contexts: seq<Context>, i: nat, address: string)
    requires jd.jobContact.Some? && i < |jd.jobContact.value| && jd.jobContact.value[i] == "mailto:" + address
    requires forall j | 0 <= j < i :: !("mailto:" <= jd.jobContact.value[j])
    ensures var s := AdaptorSettings(jd, rm, contexts); "notify_user" in s && s["notify_user"] == address
  {
    FirstMail(jd.jobContact.value, i, address);
    hide NotifySettings;
    hide AdaptorSettings;
    NotifyIsOwn(jd, rm, contexts);
  }

  lemma NobodyIsNotified(jd: JobDescription, rm: ResourceManager, contexts: seq<Context>)
    requires jd.jobContact.Some? ==> forall c | c in jd.jobContact.value :: !("mailto:" <= c)
    ensures "notify_user" !in AdaptorSettings(jd, rm, contexts)
  {
    if jd.jobContact.Some? {
      NoMail(jd.jobContact.value);
    }
    hide NotifySettings;
    hide AdaptorSettings;
    NotifyIsOwn(jd, rm, contexts);
  }

  // ----- What is required -----

  /** The requirements of a description: its hosts, if any, and then CPU count, memory, architecture and system,
      as far as they are set. */
  lemma RequirementsAre(jd: JobDescription)
    ensures var hosts := if jd.candidateHosts.None? then []
                         else Requirements.NonEmpty(jd.candidateHosts.value);
            RequirementsOf(jd)
            == (if Requirements.HostsText(hosts) == "" then [] else [Requirements.HostsText(hosts)])
               + (if jd.totalCpuCount in {None, Some("")} then [] else ["cpus = " + jd.totalCpuCount.value])
               + (if jd.totalPhysicalMemory in {None, Some("")} then []
                  else ["memory = " + jd.totalPhysicalMemory.value])
               + (if jd.cpuArchitecture in {None, Some("")} then [] else ["arch = " + jd.cpuArchitecture.value])
               + (if jd.operatingSystemType in {None, Some("")} then []
                  else ["opsys = " + jd.operatingSystemType.value])
  {
    hide Requirements.NonEmpty;
    CpuRequirement(jd.totalCpuCount);
    MemoryRequirement(jd.totalPhysicalMemory);
    ArchRequirement(jd.cpuArchitecture);
    SystemRequirement(jd.operatingSystemType);
    hide Requirement;
    assert Requirements.HostsText([]) == "";
    hide Requirements.HostsText;
  }

  lemma CpuRequirement(value: Option<string>)
    ensures Requirement("cpus", value) == if value in {None, Some("")} then [] else ["cpus = " + value.value]
  {
    assert value.Some? ==> "cpus" + (" = " + value.value) == "cpus = " + value.value;
  }

  lemma MemoryRequirement(value: Option<string>)
    ensures Requirement("memory", value) == if value in {None, Some("")} then [] else ["memory = " + value.value]
  {
    assert value.Some? ==> "memory" + (" = " + value.value) == "memory = " + value.value;
  }

  lemma ArchRequirement(value: Option<string>)
    ensures Requirement("arch", value) == if value in {None, Some("")} then [] else ["arch = " + value.value]
  {
    assert value.Some? ==> "arch" + (" = " + value.value) == "arch = " + value.value;
  }

  lemma SystemRequirement(value: Option<string>)
    ensures Requirement("opsys", value) == if value in {None, Some("")} then [] else ["opsys = " + value.value]
  {
    assert value.Some? ==> "opsys" + (" = " + value.value) == "opsys = " + value.value;
  }

  // ----- The text -----

  /** The text ends in the line. */
  predicate EndsInLine(text: string, line: string) {
    var n := |line| + 1;
    && n <= |text| && text[|text| - n..] == line + "\n"
    && (n == |text| || text[|text| - n - 1] == '\n')
  }

  /** What sync_run hands to condor_submit: the description is translated over the presets and printed. Its last line
      is the queue command, with the number of processes, or with 1 if the description does not say one; an empty
      number takes the command away. */
  method Describe(presets: Settings, jd: JobDescription, rm: ResourceManager, contexts: seq<Context>)
    returns (error: Option<Error>, text: string)
    ensures error == Refusal(jd)
    ensures error.None? ==> text == Render(presets + AdaptorSettings(jd, rm, contexts))
    ensures error.None? && jd.numberOfProcesses == None ==> EndsInLine(text, "queue 1")
    ensures error.None? && jd.numberOfProcesses.Some? && jd.numberOfProcesses.value != "" ==>
              EndsInLine(text, "queue " + jd.numberOfProcesses.value)
  {
    hide *;
    var translation := new SagaToCondor(presets);
    error := translation.Translate(jd, rm, contexts);
    if error.Some? {
      return error, "";
    }
    var description := new Description(translation.attributes);
    text := description.Print();
    QueueIsLast(presets, jd, rm, contexts);
  }

  lemma QueueIsLast(presets: Settings, jd: JobDescription, rm: ResourceManager, contexts: seq<Context>)
    ensures var text := Render(presets + AdaptorSettings(jd, rm, contexts));
            && (jd.numberOfProcesses == None ==> EndsInLine(text, "queue 1"))
            && (jd.numberOfProcesses.Some? && jd.numberOfProcesses.value != "" ==>
                  EndsInLine(text, "queue " + jd.numberOfProcesses.value))
  {
    hide *;
    QueueSetting(jd, rm, contexts);
    var m := presets + AdaptorSettings(jd, rm, contexts);
    if m["queue"] != "" {
      QueueEnds(m);
    }
    assert "queue " + "1" == "queue 1";
  }

  lemma QueueSetting(jd: JobDescription, rm: ResourceManager, contexts: seq<Context>)
    ensures var s := AdaptorSettings(jd, rm, contexts);
            "queue" in s && s["queue"] == if jd.numberOfProcesses.None? then "1" else jd.numberOfProcesses.value
  {
    EarlyNames();
    QueueIsEarly(jd);
    hide *;
    SettingIsEarly(jd, rm, contexts, "queue");
  }

  lemma QueueIsEarly(jd: JobDescription)
    ensures var s := EarlySettings(jd);
            "queue" in s && s["queue"] == if jd.numberOfProcesses.None? then "1" else jd.numberOfProcesses.value
  {
    SetIs("queue", WithDefault(jd.numberOfProcesses, "1"), "queue");
    hide Set;
    hide SetVector;
  }

  lemma QueueEnds(m: Settings)
    requires "queue" in m && m["queue"] != ""
    ensures EndsInLine(Render(m), "queue " + m["queue"])
  {
    SortedKeysAreSorted(m.Keys);
    var front, line := Assignments(SortedKeys(m.Keys), m), "queue " + m["queue"];
    assert Lines(m) == front + [line];
    hide Assignments;
    UnlinesAppend(front, line);
    var before := Unlines(front);
    UnlinesEnd(front);
    hide Unlines;
    assert Render(m) == before + (line + "\n");
    assert (before + (line + "\n"))[|before|..] == line + "\n";
  }

  lemma {:induction false} UnlinesEnd(lines: seq<string>)
    ensures Unlines(lines) == "" || Unlines(lines)[|Unlines(lines)| - 1] == '\n'
  {
    if lines != [] {
      UnlinesEnd(lines[1..]);
    }
  }
}
