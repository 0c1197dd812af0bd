/** The translation of a job description into Condor's settings: saga_to_condor in
    condor_job/description.hpp. */
module JobDescriptions {
  import opened Text
  import opened SubmitFile
  import opened OneSetting
  import Arguments
  import Transfers
  import Requirements

  datatype Direction = CopyLocalRemote | CopyRemoteLocal | AppendLocalRemote | AppendRemoteLocal

  /** A file transfer entry as the engine parses it, with what the file system says: whether both
      names have the same last component, and whether the left file exists and is a directory. */
  datatype Transfer =
    | IllFormed
    | Transfer(left: string, direction: Direction, right: string,
               sameLeaf: bool, found: bool, isDirectory: bool)

  /** A security context: its type, its proxy file if any, and whether that file exists. */
  datatype Context = Context(kind: Option<string>, proxy: Option<string>, proxyExists: bool)

  datatype JobDescription = JobDescription(
    executable: Option<string>,
    arguments: Option<seq<string>>,
    environment: Option<seq<string>>,
    workingDirectory: Option<string>,
    interactive: Option<string>,
    input: Option<string>,
    output: Option<string>,
    error: Option<string>,
    jobStartTime: Option<string>,
    numberOfProcesses: Option<string>,
    fileTransfer: Option<seq<Transfer>>,
    jobContact: Option<seq<string>>,
    spmdVariation: Option<string>,
    processesPerHost: Option<string>,
    threadsPerProcess: Option<string>,
    candidateHosts: Option<seq<string>>,
    totalCpuCount: Option<string>,
    totalPhysicalMemory: Option<string>,
    cpuArchitecture: Option<string>,
    operatingSystemType: Option<string>)

  datatype ResourceManager = ResourceManager(scheme: string, url: string)

  datatype Error = DoesNotExist | NotImplemented | BadParameter

  // ----- What is accepted -----

  predicate TransferAccepted(t: Transfer) {
    t.Transfer? &&
    match t.direction {
      case CopyLocalRemote => t.sameLeaf && t.found && !t.isDirectory
      case CopyRemoteLocal => true
      case _ => false
    }
  }

  /** Why an entry is refused, if it is. */
  function TransferError(t: Transfer): Option<Error> {
    if t.IllFormed? then Some(BadParameter)
    else
      match t.direction
      case CopyLocalRemote =>
        if !t.sameLeaf then Some(NotImplemented) else if !t.found || t.isDirectory then Some(BadParameter) else None
      case CopyRemoteLocal => None
      case _ => Some(NotImplemented)
  }

  /** The first entry that is refused decides. */
  function TransfersError(ts: seq<Transfer>): Option<Error> {
    if ts == [] then None
    else if TransferError(ts[0]).Some? then TransferError(ts[0])
    else TransfersError(ts[1..])
  }

  predicate Unset(v: Option<string>) {
    v.Some? ==> v.value == ""
  }

  predicate Accepted(jd: JobDescription) {
    && jd.executable.Some?
    && !(jd.interactive.Some? && Lower(jd.interactive.value) == "true")
    && (jd.fileTransfer.Some? ==> forall t | t in jd.fileTransfer.value :: TransferAccepted(t))
    && Unset(jd.spmdVariation) && Unset(jd.processesPerHost) && Unset(jd.threadsPerProcess)
  }

  /** Why a description is refused, if it is. */
  function Refusal(jd: JobDescription): Option<Error> {
    if jd.executable.None? then Some(DoesNotExist)
    else if jd.interactive.Some? && Lower(jd.interactive.value) == "true" then Some(NotImplemented)
    else if jd.fileTransfer.Some? && TransfersError(jd.fileTransfer.value).Some?
    then TransfersError(jd.fileTransfer.value)
    else if !Unset(jd.spmdVariation) || !Unset(jd.processesPerHost) || !Unset(jd.threadsPerProcess)
    then Some(NotImplemented)
    else None
  }

  lemma {:induction false} TransfersAccepted(ts: seq<Transfer>)
    ensures TransfersError(ts).None? <==> forall t | t in ts :: TransferAccepted(t)
  {
    if ts != [] {
      TransfersAccepted(ts[1..]);
      assert ts[0] in ts && forall t :: t in ts <==> t == ts[0] || t in ts[1..];
      assert TransferAccepted(ts[0]) <==> TransferError(ts[0]).None?;
      hide TransferAccepted;
      hide TransferError;
    }
  }

  lemma RefusedIfNotAccepted(jd: JobDescription)
    ensures Refusal(jd).None? <==> Accepted(jd)
  {
    if jd.fileTransfer.Some? {
      TransfersAccepted(jd.fileTransfer.value);
    }
    hide TransfersError;
    hide TransferAccepted;
    hide Unset;
    hide Lower;
  }

  lemma UnsetIs(v: Option<string>)
    ensures Unset(v) <==> v in {None, Some("")}
  {
  }

  lemma TransferAcceptedIs(t: Transfer)
    ensures TransferAccepted(t)
            <==> && t.Transfer?
                 && (|| t.direction.CopyRemoteLocal?
                     || (t.direction.CopyLocalRemote? && t.sameLeaf && t.found && !t.isDirectory))
  {
  }

  /** Nothing is refused exactly if there is an executable, the job is not interactive, every file transfer is a copy
      that Condor can do, and no parallel attribute is set. */
  lemma AcceptedExactly(jd: JobDescription)
    ensures Refusal(jd).None?
            <==> && jd.executable.Some?
                 && !(jd.interactive.Some? && Lower(jd.interactive.value) == "true")
                 && (jd.fileTransfer.Some? ==>
                       forall t | t in jd.fileTransfer.value ::
                         && t.Transfer?
                         && (|| t.direction.CopyRemoteLocal?
                             || (t.direction.CopyLocalRemote? && t.sameLeaf && t.found && !t.isDirectory)))
                 && jd.spmdVariation in {None, Some("")} && jd.processesPerHost in {None, Some("")}
                 && jd.threadsPerProcess in {None, Some("")}
  {
    RefusedIfNotAccepted(jd);
    UnsetIs(jd.spmdVariation);
    UnsetIs(jd.processesPerHost);
    UnsetIs(jd.threadsPerProcess);
    hide Refusal;
    hide TransferAccepted;
    hide Unset;
    hide Lower;
    if jd.fileTransfer.Some? {
      forall t | t in jd.fileTransfer.value
        ensures TransferAccepted(t)
                <==> && t.Transfer?
                     && (|| t.direction.CopyRemoteLocal?
                         || (t.direction.CopyLocalRemote? && t.sameLeaf && t.found && !t.isDirectory))
      {
        TransferAcceptedIs(t);
      }
    }
  }

  lemma {:induction false} FirstRefused(ts: seq<Transfer>, i: nat)
    requires i < |ts| && TransferError(ts[i]).Some? && forall j | 0 <= j < i :: TransferError(ts[j]).None?
    ensures TransfersError(ts) == TransferError(ts[i])
  {
    hide TransferError;
    if i > 0 {
      FirstRefused(ts[1..], i - 1);
    }
  }

  /** Why a file transfer is refused: the first entry that cannot be done decides. */
  lemma TransferRefusedBecause(ts: seq<Transfer>, i: nat)
    requires i < |ts|
    requires forall j | 0 <= j < i ::
               && ts[j].Transfer?
               && (|| ts[j].direction.CopyRemoteLocal?
                   || (ts[j].direction.CopyLocalRemote? && ts[j].sameLeaf && ts[j].found && !ts[j].isDirectory))
    ensures ts[i].IllFormed? ==> TransfersError(ts) == Some(BadParameter)
    ensures ts[i].Transfer? && (ts[i].direction.AppendLocalRemote? || ts[i].direction.AppendRemoteLocal?) ==>
              TransfersError(ts) == Some(NotImplemented)
    ensures ts[i].Transfer? && ts[i].direction.CopyLocalRemote? ==>
              && (!ts[i].sameLeaf ==> TransfersError(ts) == Some(NotImplemented))
              && (ts[i].sameLeaf && (!ts[i].found || ts[i].isDirectory) ==> TransfersError(ts) == Some(BadParameter))
  {
    hide TransfersError;
    if TransferError(ts[i]).Some? {
      FirstRefused(ts, i);
    }
  }

  /** Why a description is refused: of several reasons the first one in the order of the source counts. */
  lemma RefusedBecause(jd: JobDescription)
    ensures jd.executable.None? ==> Refusal(jd) == Some(DoesNotExist)
    ensures jd.executable.Some? && jd.interactive.Some? && Lower(jd.interactive.value) == "true" ==>
              Refusal(jd) == Some(NotImplemented)
    ensures var transfers := if jd.fileTransfer.None? then None else TransfersError(jd.fileTransfer.value);
            jd.executable.Some? && !(jd.interactive.Some? && Lower(jd.interactive.value) == "true") ==>
              Refusal(jd)
              == if transfers.Some? then transfers
                 else if jd.spmdVariation in {None, Some("")} && jd.processesPerHost in {None, Some("")}
                         && jd.threadsPerProcess in {None, Some("")} then None
                 else Some(NotImplemented)
  {
    hide Lower;
    hide TransfersError;
    UnsetIs(jd.spmdVariation);
    UnsetIs(jd.processesPerHost);
    UnsetIs(jd.threadsPerProcess);
    hide Unset;
  }

  // ----- What is set -----

  function Set(key: string, value: Option<string>): Settings {
    if value.None? then map[] else map[key := value.value]
  }

  function SetVector(key: string, values: Option<seq<string>>): Settings {
    if values.None? then map[] else Set(key, Arguments.Format(values.value))
  }

  function SetNonEmpty(key: string, value: string): Settings {
    if value == "" then map[] else map[key := value]
  }

  function WithDefault(v: Option<string>, default: string): Option<string> {
    if v.None? then Some(default) else v
  }

  /** The last usable proxy of an x509 context. */
  function ProxySettings(contexts: seq<Context>): Settings {
    if contexts == [] then map[]
    else
      var c := contexts[|contexts| - 1];
      ProxySettings(contexts[..|contexts| - 1])
      + (if c.kind == Some("x509") && c.proxy.Some? && c.proxyExists
         then map["x509userproxy" := c.proxy.value] else map[])
  }

  /** boost::replace_first of the scheme of a Condor-G resource. */
  function GridResource(url: string, i: nat): string
    requires i <= |url|
    decreases |url| - i
  {
    if IsAt(url, i, "condorg://") then url[..i] + "gt2 " + url[i + 10..]
    else if i == |url| then url
    else GridResource(url, i + 1)
  }

  function HostSettings(rm: ResourceManager): Settings {
    if rm.scheme == "condorg"
    then map["universe" := "grid", "grid_resource" := GridResource(rm.url, 0)]
    else map["Universe" := "vanilla"]
  }

  function InputFiles(ts: seq<Transfer>): string {
    if ts == [] then ""
    else InputFiles(ts[..|ts| - 1]) +
         (var t := ts[|ts| - 1]; if t.Transfer? && t.direction.CopyLocalRemote? then ", " + t.left else "")
  }

  function OutputFiles(ts: seq<Transfer>): string {
    if ts == [] then ""
    else OutputFiles(ts[..|ts| - 1]) +
         (var t := ts[|ts| - 1]; if t.Transfer? && t.direction.CopyRemoteLocal? then " " + t.right else "")
  }

  /** The pairs for the files that are to be renamed on their way back: the local name, then the remote
      one. */
  function Renamed(ts: seq<Transfer>): seq<(string, string)> {
    if ts == [] then []
    else Renamed(ts[..|ts| - 1]) +
         (var t := ts[|ts| - 1];
          if t.Transfer? && t.direction.CopyRemoteLocal? && !t.sameLeaf then [(t.left, t.right)] else [])
  }

  function TransferSettings(ts: Option<seq<Transfer>>): Settings {
    if ts.None? then map[]
    else
      var remaps := Transfers.RemapText(Renamed(ts.value));
      SetNonEmpty("transfer_input_files", InputFiles(ts.value))
      + SetNonEmpty("transfer_output_files", OutputFiles(ts.value))
      + (if remaps == "" then map[] else map["transfer_output_remaps" := "\"" + (remaps + "\"")])
  }

  const MAILTO := "mailto:"

  /** The first contact that is a mail address. */
  function NotifySettings(contacts: seq<string>): Settings {
    if contacts == [] then map[]
    else if MAILTO <= contacts[0] then map["notify_user" := contacts[0][7..]]
    else NotifySettings(contacts[1..])
  }

  function Requirement(name: string, value: Option<string>): seq<string> {
    if value.None? || value.value == "" then [] else [name + (" = " + value.value)]
  }

  /** The requirements, in the order in which they are collected. */
  function RequirementsOf(jd: JobDescription): seq<string> {
    var hosts := if jd.candidateHosts.None? then ""
                 else Requirements.HostsText(Requirements.NonEmpty(jd.candidateHosts.value));
    (if hosts == "" then [] else [hosts])
    + Requirement("cpus", jd.totalCpuCount)
    + Requirement("memory", jd.totalPhysicalMemory)
    + Requirement("arch", jd.cpuArchitecture)
    + Requirement("opsys", jd.operatingSystemType)
  }

  function CommandSettings(jd: JobDescription): Settings {
    Set("executable", jd.executable) + SetVector("arguments", jd.arguments)
  }

  function FurtherSettings(jd: JobDescription, rm: ResourceManager, contexts: seq<Context>): Settings {
    SetVector("environment", jd.environment)
    + Set("remote_initialdir", jd.workingDirectory)
    + Set("input", jd.input)
    + Set("output", jd.output)
    + Set("error", jd.error)
    + Set("deferral_time", jd.jobStartTime)
    + Set("queue", WithDefault(jd.numberOfProcesses, "1"))
    + ProxySettings(contexts)
    + HostSettings(rm)
    + TransferSettings(jd.fileTransfer)
    + (if jd.jobContact.None? then map[] else NotifySettings(jd.jobContact.value))
    + SetNonEmpty("requirements", Requirements.Join(RequirementsOf(jd)))
  }

  /** Everything that the adaptor sets itself. */
  function AdaptorSettings(jd: JobDescription, rm: ResourceManager, contexts: seq<Context>): Settings {
    CommandSettings(jd) + FurtherSettings(jd, rm, contexts)
  }

  class SagaToCondor {
    var attributes: Settings
    var requirements: seq<string>

    constructor (presets: Settings)
      ensures attributes == presets && requirements == []
    {
      attributes := presets;
      requirements := [];
    }

    method MapAttribute(value: Option<string>, key: string) returns (mapped: bool)
      modifies this`attributes
      ensures attributes == old(attributes) + Set(key, value) && mapped == value.Some?
    {
      if value.Some? {
        attributes := attributes[key := value.value];
      }
      mapped := value.Some?;
    }

    method MapAttributeVector(values: Option<seq<string>>, key: string)
      modifies this`attributes
      ensures attributes == old(attributes) + SetVector(key, values)
    {
      if values.Some? {
        var result := Arguments.MapAttributeVector(values.value);
        if result.Some? {
          attributes := attributes[key := result.value];
        }
      }
    }

    method ProcessX509Certs(contexts: seq<Context>)
      modifies this`attributes
      ensures attributes == old(attributes) + ProxySettings(contexts)
    {
      hide ProxySettings;
      NoProxies();
      var i := 0;
      while i < |contexts|
        invariant 0 <= i <= |contexts|
        invariant attributes == old(attributes) + ProxySettings(contexts[..i])
      {
        var c := contexts[i];
        ProxyTurn(contexts, i, old(attributes));
        if c.kind == Some("x509") && c.proxy.Some? && c.proxyExists {
          attributes := attributes["x509userproxy" := c.proxy.value];
        }
        i := i + 1;
      }
      assert contexts[..|contexts|] == contexts;
    }

    method ProcessCondorGHost(rm: ResourceManager)
      modifies this`attributes
      ensures attributes == old(attributes) + HostSettings(rm)
    {
      if rm.scheme == "condorg" {
        attributes := attributes["universe" := "grid"];
        attributes := attributes["grid_resource" := GridResource(rm.url, 0)];
      } else {
        attributes := attributes["Universe" := "vanilla"];
      }
    }

    /** Every entry is checked before anything is set. */
    method ProcessFileTransfer(ts: Option<seq<Transfer>>) returns (error: Option<Error>)
      modifies this`attributes
      ensures error == if ts.None? then None else TransfersError(ts.value)
      ensures attributes == if error.None? then old(attributes) + TransferSettings(ts) else old(attributes)
    {
      hide InputFiles;
      hide OutputFiles;
      hide Renamed;
      if ts.None? {
        assert TransferSettings(ts) == map[];
        return None;
      }
      var specs := ts.value;
      var input, output, remaps := "", "", "";
      NoTransfers();
      for i := 0 to |specs|
        invariant attributes == old(attributes)
        invariant TransfersError(specs) == TransfersError(specs[i..])
        invariant input == InputFiles(specs[..i]) && output == OutputFiles(specs[..i])
        invariant remaps == Transfers.RemapText(Renamed(specs[..i]))
      {
        var t := specs[i];
        assert specs[i..][0] == t && specs[i..][1..] == specs[i + 1..];
        if t.IllFormed? {
          return Some(BadParameter);
        }
        if t.direction.AppendLocalRemote? || t.direction.AppendRemoteLocal? {
          return Some(NotImplemented);
        }
        ListTurn(specs, i);
        RemapTurn(specs, i);
        if t.direction.CopyLocalRemote? {
          if !t.sameLeaf {
            return Some(NotImplemented);
          }
          if !t.found {
            return Some(BadParameter);
          }
          if t.isDirectory {
            return Some(BadParameter);
          }
          input := input + (", " + t.left);
        } else {
          if !t.sameLeaf {
            remaps := remaps + (Transfers.EscapeName(t.left) + ("=" + (Transfers.EscapeName(t.right) + ";")));
          }
          output := output + (" " + t.right);
        }
      }
      assert specs[..|specs|] == specs;
      SetTransfers(input, output, remaps);
      return None;
    }

    method SetTransfers(input: string, output: string, remaps: string)
      modifies this`attributes
      ensures attributes == old(attributes)
              + (SetNonEmpty("transfer_input_files", input)
                 + SetNonEmpty("transfer_output_files", output)
                 + (if remaps == "" then map[] else map["transfer_output_remaps" := "\"" + (remaps + "\"")]))
    {
      if input != "" {
        attributes := attributes["transfer_input_files" := input];
      }
      ghost var i, o := SetNonEmpty("transfer_input_files", input), SetNonEmpty("transfer_output_files", output);
      assert attributes == old(attributes) + i;
      ghost var before := attributes;
      if output != "" {
        attributes := attributes["transfer_output_files" := output];
      }
      assert attributes == before + o;
      hide SetNonEmpty;
      MergeAssoc(old(attributes), i, o);
      MergeAssoc(old(attributes), i + o,
                 if remaps == "" then map[] else map["transfer_output_remaps" := "\"" + (remaps + "\"")]);
      if remaps != "" {
        attributes := attributes["transfer_output_remaps" := "\"" + (remaps + "\"")];
      }
    }

    method MapContacts(contacts: Option<seq<string>>)
      modifies this`attributes
      ensures attributes == old(attributes) + (if contacts.None? then map[] else NotifySettings(contacts.value))
    {
      if contacts.Some? {
        var all := contacts.value;
        for i := 0 to |all|
          invariant attributes == old(attributes)
          invariant NotifySettings(all) == NotifySettings(all[i..])
        {
          assert all[i..][0] == all[i] && all[i..][1..] == all[i + 1..];
          if MAILTO <= all[i] {
            attributes := attributes["notify_user" := all[i][7..]];
            return;
          }
        }
      }
    }

    method MapRequirement(name: string, value: Option<string>)
      modifies this`requirements
      ensures requirements == old(requirements) + Requirement(name, value)
    {
      if value.Some? && value.value != "" {
        requirements := requirements + [name + (" = " + value.value)];
      }
    }

    method CollectRequirements(jd: JobDescription)
      requires requirements == []
      modifies this
      ensures requirements == RequirementsOf(jd)
      ensures attributes == old(attributes) + SetNonEmpty("requirements", Requirements.Join(RequirementsOf(jd)))
    {
      hide Requirements.Join;
      hide Requirements.HostsText;
      hide Requirements.NonEmpty;
      hide Requirement;
      if jd.candidateHosts.Some? {
        var req := Requirements.JoinHosts(jd.candidateHosts.value);
        if req != "" {
          requirements := requirements + [req];
        }
      }
      MapRequirement("cpus", jd.totalCpuCount);
      MapRequirement("memory", jd.totalPhysicalMemory);
      MapRequirement("arch", jd.cpuArchitecture);
      MapRequirement("opsys", jd.operatingSystemType);
      var text := Requirements.JoinRequirements(requirements);
      if text != "" {
        attributes := attributes["requirements" := text];
      }
    }

    /** The constructor's body: it fails exactly on descriptions that are not accepted, and
        otherwise lays the adaptor's settings over the presets. */
    method Translate(jd: JobDescription, rm: ResourceManager, contexts: seq<Context>) returns (error: Option<Error>)
      requires requirements == []
      modifies this
      ensures error == Refusal(jd)
      ensures error.None? ==> attributes == old(attributes) + AdaptorSettings(jd, rm, contexts)
      ensures error.None? ==> requirements == RequirementsOf(jd)
    {
      hide Set;
      hide SetVector;
      hide ProxySettings;
      hide HostSettings;
      hide TransferSettings;
      hide NotifySettings;
      hide SetNonEmpty;
      hide RequirementsOf;
      hide TransfersError;
      hide Lower;
      if jd.executable.None? {
        return Some(DoesNotExist);
      }
      var mapped := MapAttribute(jd.executable, "executable");
      MapAttributeVector(jd.arguments, "arguments");
      MergeAssoc(old(attributes), Set("executable", jd.executable), SetVector("arguments", jd.arguments));
      ghost var base := attributes;
      MapAttributeVector(jd.environment, "environment");
      ghost var applied := SetVector("environment", jd.environment);
      mapped := MapAttribute(jd.workingDirectory, "remote_initialdir");
      MergeAssoc(base, applied, Set("remote_initialdir", jd.workingDirectory));
      applied := applied + Set("remote_initialdir", jd.workingDirectory);
      if jd.interactive.Some? && jd.interactive.value != "" && Lower(jd.interactive.value) == "true" {
        return Some(NotImplemented);
      }
      mapped := MapAttribute(jd.input, "input");
      MergeAssoc(base, applied, Set("input", jd.input));
      applied := applied + Set("input", jd.input);
      mapped := MapAttribute(jd.output, "output");
      MergeAssoc(base, applied, Set("output", jd.output));
      applied := applied + Set("output", jd.output);
      mapped := MapAttribute(jd.error, "error");
      MergeAssoc(base, applied, Set("error", jd.error));
      applied := applied + Set("error", jd.error);
      mapped := MapAttribute(jd.jobStartTime, "deferral_time");
      MergeAssoc(base, applied, Set("deferral_time", jd.jobStartTime));
      applied := applied + Set("deferral_time", jd.jobStartTime);
      mapped := MapAttribute(WithDefault(jd.numberOfProcesses, "1"), "queue");
      MergeAssoc(base, applied, Set("queue", WithDefault(jd.numberOfProcesses, "1")));
      applied := applied + Set("queue", WithDefault(jd.numberOfProcesses, "1"));
      ProcessX509Certs(contexts);
      MergeAssoc(base, applied, ProxySettings(contexts));
      applied := applied + ProxySettings(contexts);
      ProcessCondorGHost(rm);
      MergeAssoc(base, applied, HostSettings(rm));
      applied := applied + HostSettings(rm);
      error := ProcessFileTransfer(jd.fileTransfer);
      if error.Some? {
        return;
      }
      MergeAssoc(base, applied, TransferSettings(jd.fileTransfer));
      applied := applied + TransferSettings(jd.fileTransfer);
      MapContacts(jd.jobContact);
      MergeAssoc(base, applied, if jd.jobContact.None? then map[] else NotifySettings(jd.jobContact.value));
      applied := applied + (if jd.jobContact.None? then map[] else NotifySettings(jd.jobContact.value));
      if !Unset(jd.spmdVariation) || !Unset(jd.processesPerHost) || !Unset(jd.threadsPerProcess) {
        return Some(NotImplemented);
      }
      CollectRequirements(jd);
      MergeAssoc(base, applied, SetNonEmpty("requirements", Requirements.Join(RequirementsOf(jd))));
      MergeAssoc(old(attributes), CommandSettings(jd), FurtherSettings(jd, rm, contexts));
      return None;
    }
  }

  lemma NoProxies()
    ensures ProxySettings([]) == map[]
  {
  }

  lemma ProxyTurn(contexts: seq<Context>, i: nat, base: Settings)
    requires i < |contexts|
    ensures var c := contexts[i];
            base + ProxySettings(contexts[..i + 1])
            == if c.kind == Some("x509") && c.proxy.Some? && c.proxyExists
               then (base + ProxySettings(contexts[..i]))["x509userproxy" := c.proxy.value]
               else base + ProxySettings(contexts[..i])
  {
    assert contexts[..i + 1][..i] == contexts[..i];
    var before := ProxySettings(contexts[..i]);
    hide ProxySettings;
    assert before + map[] == before;
  }

  lemma NoTransfers()
    ensures InputFiles([]) == "" && OutputFiles([]) == "" && Transfers.RemapText(Renamed([])) == ""
  {
  }

  /** What one accepted entry adds to the file lists. */
  lemma ListTurn(ts: seq<Transfer>, i: nat)
    requires i < |ts| && ts[i].Transfer?
    ensures var t := ts[i];
            InputFiles(ts[..i + 1])
            == InputFiles(ts[..i]) + (if t.direction.CopyLocalRemote? then ", " + t.left else "")
    ensures var t := ts[i];
            OutputFiles(ts[..i + 1])
            == OutputFiles(ts[..i]) + (if t.direction.CopyRemoteLocal? then " " + t.right else "")
  {
    assert ts[..i + 1][..i] == ts[..i];
  }

  /** What one accepted entry adds to the remaps. */
  lemma RemapTurn(ts: seq<Transfer>, i: nat)
    requires i < |ts| && ts[i].Transfer?
    ensures var t := ts[i];
            Transfers.RemapText(Renamed(ts[..i + 1]))
            == Transfers.RemapText(Renamed(ts[..i]))
               + (if t.direction.CopyRemoteLocal? && !t.sameLeaf
                  then Transfers.EscapeName(t.left) + ("=" + (Transfers.EscapeName(t.right) + ";")) else "")
  {
    hide Transfers.RemapText;
    hide Transfers.EscapeName;
    var t := ts[i];
    assert ts[..i + 1][..i] == ts[..i];
    RenamedTurn(ts, i);
    RemapMore(Renamed(ts[..i]), (t.left, t.right));
  }

  lemma RenamedTurn(ts: seq<Transfer>, i: nat)
    requires i < |ts| && ts[i].Transfer?
    ensures var t := ts[i];
            Renamed(ts[..i + 1])
            == if t.direction.CopyRemoteLocal? && !t.sameLeaf then Renamed(ts[..i]) + [(t.left, t.right)]
               else Renamed(ts[..i])
  {
    assert ts[..i + 1][..i] == ts[..i];
  }

  lemma MergeAssoc(a: Settings, b: Settings, c: Settings)
    ensures (a + b) + c == a + (b + c)
  {
  }

  lemma {:induction false} RemapMore(pairs: seq<(string, string)>, p: (string, string))
    ensures Transfers.RemapText(pairs + [p])
            == Transfers.RemapText(pairs) + (Transfers.EscapeName(p.0) + ("=" + (Transfers.EscapeName(p.1) + ";")))
  {
    if pairs == [] {
      assert pairs + [p] == [p];
      assert [p][1..] == [];
      assert Transfers.RemapText([]) == "";
      assert Transfers.EscapeName(p.1) + (";" + "") == Transfers.EscapeName(p.1) + ";";
    } else {
      var q, more := pairs[0], pairs[1..];
      assert (pairs + [p])[0] == q && (pairs + [p])[1..] == more + [p];
      RemapMore(more, p);
      RemapFirst(pairs);
      RemapFirst(pairs + [p]);
      hide *;
      Regroup(Transfers.EscapeName(q.0), Transfers.EscapeName(q.1), Transfers.RemapText(more),
              Transfers.EscapeName(p.0) + ("=" + (Transfers.EscapeName(p.1) + ";")));
    }
  }

  lemma RemapFirst(pairs: seq<(string, string)>)
    requires pairs != []
    ensures Transfers.RemapText(pairs)
            == Transfers.EscapeName(pairs[0].0)
               + ("=" + (Transfers.EscapeName(pairs[0].1) + (";" + Transfers.RemapText(pairs[1..]))))
  {
  }

  lemma Regroup(l: string, r: string, rest: string, text: string)
    ensures l + ("=" + (r + (";" + (rest + text)))) == (l + ("=" + (r + (";" + rest)))) + text
  {
  }

  // ----- What Condor reads in the end -----

  /** A word of lower-case letters, digits and underscores. */
  predicate LowerWord(k: string) {
    k != "" && forall c | c in k :: 'a' <= c <= 'z' || IsDigit(c) || c == '_'
  }

  lemma LowerWordIsName(k: string)
    requires LowerWord(k)
    ensures Lower(k) == k && PlainName(k) && k[0] != '#'
  {
    forall i | 0 <= i < |k| ensures Lower(k)[i] == k[i] {
      assert k[i] in k;
    }
    assert k[0] in k;
  }

  lemma CommandWords()
    ensures LowerWord("executable") && LowerWord("arguments") && LowerWord("environment")
  {
  }

  lemma StreamWords()
    ensures LowerWord("remote_initialdir") && LowerWord("input") && LowerWord("output") && LowerWord("error")
  {
  }

  lemma QueueWords()
    ensures LowerWord("deferral_time") && LowerWord("queue") && LowerWord("requirements")
  {
  }

  lemma HostWords()
    ensures LowerWord("x509userproxy") && LowerWord("universe") && LowerWord("grid_resource")
  {
  }

  lemma TransferWords()
    ensures LowerWord("transfer_input_files") && LowerWord("transfer_output_files")
  {
  }

  lemma MoreWords()
    ensures LowerWord("transfer_output_remaps") && LowerWord("notify_user")
  {
  }

  /** A name is in lower case, or it is the capitalised universe; and, by its length, it is
      not the name of the arguments. */
  predicate FurtherName(k: string) {
    (LowerWord(k) || k == "Universe") && |k| != |"arguments"|
  }

  predicate FurtherNames(s: Settings) {
    forall k | k in s :: FurtherName(k)
  }

  lemma MergedNames(s: Settings, t: Settings)
    requires FurtherNames(s) && FurtherNames(t)
    ensures FurtherNames(s + t)
  {
    hide LowerWord;
  }

  lemma OneName(k: string, v: string)
    requires LowerWord(k) && |k| != 9
    ensures FurtherNames(map[k := v]) && FurtherNames(map[])
  {
    hide LowerWord;
  }

  lemma SetNames(key: string, value: Option<string>)
    requires LowerWord(key) && |key| != 9
    ensures FurtherNames(Set(key, value)) && FurtherNames(SetNonEmpty(key, if value.Some? then value.value else ""))
  {
    hide LowerWord;
  }

  lemma VectorNames(key: string, values: Option<seq<string>>)
    requires LowerWord(key) && |key| != 9
    ensures FurtherNames(SetVector(key, values))
  {
    hide LowerWord;
    hide Arguments.Format;
  }

  lemma {:induction false} ProxyNames(contexts: seq<Context>)
    ensures FurtherNames(ProxySettings(contexts))
  {
    hide FurtherNames;
    HostWords();
    OneName("x509userproxy", "");
    if contexts != [] {
      var c := contexts[|contexts| - 1];
      ProxyNames(contexts[..|contexts| - 1]);
      if c.proxy.Some? {
        OneName("x509userproxy", c.proxy.value);
      }
      hide LowerWord;
      MergedNames(ProxySettings(contexts[..|contexts| - 1]),
                  if c.kind == Some("x509") && c.proxy.Some? && c.proxyExists
                  then map["x509userproxy" := c.proxy.value] else map[]);
    }
  }

  lemma {:induction false} NotifyNames(contacts: seq<string>)
    ensures FurtherNames(NotifySettings(contacts))
  {
    hide FurtherNames;
    hide LowerWord;
    MoreWords();
    OneName("notify_user", "");
    if contacts != [] {
      NotifyNames(contacts[1..]);
      if MAILTO <= contacts[0] {
        OneName("notify_user", contacts[0][7..]);
      }
    }
  }

  lemma HostNames(rm: ResourceManager)
    ensures FurtherNames(HostSettings(rm))
  {
    hide GridResource;
    hide LowerWord;
    HostWords();
  }

  lemma TransferNames(ts: Option<seq<Transfer>>)
    ensures FurtherNames(TransferSettings(ts))
  {
    hide LowerWord;
    hide FurtherNames;
    hide InputFiles;
    hide OutputFiles;
    hide Renamed;
    TransferWords();
    MoreWords();
    OneName("transfer_output_remaps", "");
    if ts.Some? {
      var remaps := Transfers.RemapText(Renamed(ts.value));
      var i, o := SetNonEmpty("transfer_input_files", InputFiles(ts.value)),
                  SetNonEmpty("transfer_output_files", OutputFiles(ts.value));
      hide SetNonEmpty;
      SetNames("transfer_input_files", Some(InputFiles(ts.value)));
      SetNames("transfer_output_files", Some(OutputFiles(ts.value)));
      OneName("transfer_output_remaps", "\"" + (remaps + "\""));
      MergedNames(i, o);
      MergedNames(i + o, if remaps == "" then map[] else map["transfer_output_remaps" := "\"" + (remaps + "\"")]);
    }
  }

  lemma StreamNames(jd: JobDescription)
    ensures FurtherNames(SetVector("environment", jd.environment))
    ensures FurtherNames(Set("remote_initialdir", jd.workingDirectory))
    ensures FurtherNames(Set("input", jd.input)) && FurtherNames(Set("output", jd.output))
    ensures FurtherNames(Set("error", jd.error)) && FurtherNames(Set("deferral_time", jd.jobStartTime))
    ensures FurtherNames(Set("queue", WithDefault(jd.numberOfProcesses, "1")))
    ensures FurtherNames(SetNonEmpty("requirements", Requirements.Join(RequirementsOf(jd))))
  {
    hide *;
    CommandWords();
    StreamWords();
    QueueWords();
    VectorNames("environment", jd.environment);
    SetNames("remote_initialdir", jd.workingDirectory);
    SetNames("input", jd.input);
    SetNames("output", jd.output);
    SetNames("error", jd.error);
    SetNames("deferral_time", jd.jobStartTime);
    SetNames("queue", WithDefault(jd.numberOfProcesses, "1"));
    SetNames("requirements", Some(Requirements.Join(RequirementsOf(jd))));
  }

  lemma FurtherSettingsNames(jd: JobDescription, rm: ResourceManager, contexts: seq<Context>)
    ensures FurtherNames(FurtherSettings(jd, rm, contexts))
  {
    StreamNames(jd);
    ProxyNames(contexts);
    HostNames(rm);
    TransferNames(jd.fileTransfer);
    if jd.jobContact.Some? {
      NotifyNames(jd.jobContact.value);
    }
    hide Set;
    hide SetVector;
    hide SetNonEmpty;
    hide ProxySettings;
    hide HostSettings;
    hide TransferSettings;
    hide NotifySettings;
    hide RequirementsOf;
    hide FurtherName;
  }

  lemma AdaptorNames(jd: JobDescription, rm: ResourceManager, contexts: seq<Context>, k: string)
    requires k in AdaptorSettings(jd, rm, contexts) && k != "Universe"
    ensures LowerWord(k)
  {
    hide FurtherSettings;
    hide LowerWord;
    hide Arguments.Format;
    FurtherSettingsNames(jd, rm, contexts);
    CommandWords();
  }

  /** What Condor reads for a name that the adaptor has set is the adaptor's value if presets and other settings leave
      it undisturbed, as regular ones do; and that is so for every value that the adaptor might set only if they
      do. The queue command is not an assignment, and the universe of a plain Condor job is spelled with a
      capital letter. */
  lemma AdaptorSettingsWin(presets: Settings, jd: JobDescription, rm: ResourceManager,
                           contexts: seq<Context>, k: string)
    requires var s := AdaptorSettings(jd, rm, contexts); k in s && Tidy(s[k]) && k != "queue" && k != "Universe"
    ensures var s := AdaptorSettings(jd, rm, contexts);
            var m := presets + s;
            && (Undisturbed(m, k) ==> ReadSetting(m, k) == Some(Trim(s[k])))
            && (Undisturbed(m, k) <==> forall w | Tidy(w) :: ReadSetting(m[k := w], k) == Some(Trim(w)))
            && (Regular(m - {k}) ==> Undisturbed(m, k))
  {
    hide *;
    var m := presets + AdaptorSettings(jd, rm, contexts);
    AdaptorNames(jd, rm, contexts, k);
    LowerWordIsName(k);
    ArrivesExactly(m, k);
    assert m[k := m[k]] == m;
    if Undisturbed(m, k) {
      TidyArrives(m, k, m[k]);
    }
    if Regular(m - {k}) {
      RegularIsUndisturbed(m, k);
    }
  }
}
