/** From the job description through the submit file to Condor's readers: condor_job/description.hpp
    taken as a whole. */
module Arrivals {
  import opened Text
  import opened SubmitFile
  import opened OneSetting
  import opened Macros
  import opened MacroFormats
  import opened JobDescriptions
  import Arguments
  import FileLists
  import Transfers
  import Requirements

  // ----- One setting -----

  lemma {:induction false} LinesAreOneLine(text: string, cur: string)
    requires OneLine(cur)
    ensures AllOneLine(SplitFrom(text, cur))
    decreases |text|
  {
    if text != "" {
      if text[0] == '\n' {
        LinesAreOneLine(text[1..], "");
      } else {
        LinesAreOneLine(text[1..], cur + [text[0]]);
      }
    }
  }

  lemma {:induction false} ContinuedOneLine(lines: seq<string>)
    requires AllOneLine(lines)
    ensures AllOneLine(Continued(lines))
    decreases |lines|
  {
    if lines != [] {
      assert OneLine(lines[0]);
      if Open(lines[0]) && |lines| > 1 {
        assert OneLine(lines[1]);
        ContinuedOneLine([lines[0][..|lines[0]| - 1] + lines[1]] + lines[2..]);
      } else {
        ContinuedOneLine(lines[1..]);
      }
    }
  }

  lemma AssignmentOneLine(line: string)
    requires OneLine(line)
    ensures ReadAssignment(line).Some? ==> OneLine(ReadAssignment(line).value.1)
  {
    EqualsAtBound(line);
    var k := EqualsAt(line);
    if k.Some? {
      Trimmed(line[k.value + 1..]);
    }
    hide Trim;
    hide Comment;
  }

  lemma {:induction false} LookupOneLine(lines: seq<string>, name: string)
    requires AllOneLine(lines)
    ensures Lookup(lines, name).Some? ==> OneLine(Lookup(lines, name).value)
  {
    if lines != [] {
      LookupOneLine(lines[1..], name);
      AssignmentOneLine(lines[0]);
      hide ReadAssignment;
    }
  }

  lemma SettingOneLine(m: Settings, name: string)
    ensures ReadSetting(m, name).Some? ==> OneLine(ReadSetting(m, name).value)
  {
    hide Render;
    LinesAreOneLine(Render(m), "");
    ContinuedOneLine(SplitLines(Render(m)));
    LookupOneLine(Continued(SplitLines(Render(m))), name);
  }

  /** What Condor reads for a name that the adaptor has set: the value, with the line that it takes in if it
      ends in a backslash, provided that it stays on its line; and in any case nothing with a line break.
      Presets and other settings may be anything that leaves it undisturbed. */
  lemma SettingArrives(presets: Settings, jd: JobDescription, rm: ResourceManager, contexts: seq<Context>, k: string)
    requires var s := AdaptorSettings(jd, rm, contexts);
             k in s && s[k] != "" && k != "queue" && k != "Universe" && Undisturbed(presets + s, k)
    ensures var m := presets + AdaptorSettings(jd, rm, contexts);
            var read := ReadSetting(m, k);
            && (OneLine(m[k]) ==> read == Some(Trim(Joined(m[k], Next(m, k)))))
            && (OneLine(m[k]) && Next(m, k).Some? ==> Says(Next(m, k).value))
            && (read.Some? ==> OneLine(read.value))
  {
    hide *;
    var m := presets + AdaptorSettings(jd, rm, contexts);
    AdaptorNames(jd, rm, contexts, k);
    LowerWordIsName(k);
    SettingOneLine(m, k);
    if OneLine(m[k]) {
      SettingIsRead(m, k);
    }
  }

  lemma QueueIsSet(jd: JobDescription, rm: ResourceManager, contexts: seq<Context>)
    requires jd.numberOfProcesses != Some("")
    ensures var s := AdaptorSettings(jd, rm, contexts); "queue" in s && s["queue"] != ""
  {
    var queue := Set("queue", WithDefault(jd.numberOfProcesses, "1"));
    assert "queue" in queue && queue["queue"] != "";
    hide Set;
    hide SetVector;
    EarlyNames();
    hide LaterName;
    SettingIsEarly(jd, rm, contexts, "queue");
    hide AdaptorSettings;
  }

  /** Unless the number of processes is set to an empty text, a line follows every setting, so that a value
      that ends in a backslash takes one in. */
  lemma ALineFollows(presets: Settings, jd: JobDescription, rm: ResourceManager, contexts: seq<Context>, k: string)
    requires k in AdaptorSettings(jd, rm, contexts) && jd.numberOfProcesses != Some("")
    ensures var m := presets + AdaptorSettings(jd, rm, contexts); Open(m[k]) ==> Next(m, k).Some?
  {
    hide *;
    var m := presets + AdaptorSettings(jd, rm, contexts);
    QueueIsSet(jd, rm, contexts);
    QueueFollows(m, k);
    NextIs(m, k);
  }

  /** What Condor uses is what it reads, with the references expanded. */
  function Used(read: Option<string>, d: Dialect, macros: string -> string): Option<string> {
    if read.None? then None else Some(Expand(read.value, d, macros))
  }

  /** The line that a value takes in has no parenthesis, or there is no reference in what is read. */
  predicate Clear(v: string, next: Option<string>, d: Dialect) {
    next.Some? ==> '(' !in next.value || !HasRef(Trim(Joined(v, next)), d)
  }

  lemma JoinedParens(v: string, next: Option<string>)
    requires next.Some? ==> Open(v) && '(' !in next.value
    ensures Parens(Trim(Joined(v, next))) == Parens(v)
  {
    FileLists.TrimmedParens(Joined(v, next));
    hide Trim;
    if next.Some? {
      var u := v[..|v| - 1];
      assert v == u + "\\";
      NoParens("\\");
      NoParens(next.value);
      ParensConcat(u, "\\");
      ParensConcat(u, next.value);
    }
  }

  /** Where all parentheses are left, nothing has been expanded. */
  lemma NothingReplaced(v: string, next: Option<string>, d: Dialect, macros: string -> string)
    requires (next.Some? ==> Open(v)) && Tame(macros) && Clear(v, next, d)
    requires Parens(Expand(Trim(Joined(v, next)), d, macros)) == Parens(v)
    ensures var read := Trim(Joined(v, next)); !HasRef(read, d) && Expand(read, d, macros) == read
  {
    hide Tame;
    hide Parens;
    hide HasRef;
    hide Trim;
    hide Joined;
    hide Open;
    var read := Trim(Joined(v, next));
    if !HasRef(read, d) {
      NothingExpanded(read, d, macros);
    } else {
      JoinedParens(v, next);
      Unexpanded(read, d, macros);
    }
  }

  // ----- Settings that are copied as they are -----

  /** The description's attributes that are copied. */
  predicate Copied(jd: JobDescription, k: string, v: string) {
    || (k == "executable" && jd.executable == Some(v))
    || (k == "remote_initialdir" && jd.workingDirectory == Some(v))
    || (k == "input" && jd.input == Some(v))
    || (k == "output" && jd.output == Some(v))
    || (k == "error" && jd.error == Some(v))
    || (k == "deferral_time" && jd.jobStartTime == Some(v))
  }

  /** Such a value is used as it is, if nothing is taken in. */
  predicate AsItIs(v: string, d: Dialect) {
    OneLine(v) && Trim(v) == v && !HasRef(v, d)
  }

  lemma CopyArrives(read: Option<string>, v: string, next: Option<string>, d: Dialect, macros: string -> string)
    requires next.Some? ==> Open(v)
    requires OneLine(v) && next.Some? ==> Says(next.value)
    requires OneLine(v) ==> read == Some(Trim(Joined(v, next)))
    requires read.Some? ==> OneLine(read.value)
    ensures AsItIs(v, d) && next.None? ==> Used(read, d, macros) == Some(v)
    ensures Tame(macros) && Clear(v, next, d) ==> (Used(read, d, macros) == Some(v) <==> AsItIs(v, d) && next.None?)
  {
    hide Trim;
    hide Open;
    hide Says;
    hide Expand;
    hide HasRef;
    hide Tame;
    hide Clear;
    JoinedIs(v, None);
    hide Joined;
    if AsItIs(v, d) {
      NothingExpanded(v, d, macros);
    }
    if Tame(macros) && Clear(v, next, d) && Used(read, d, macros) == Some(v) {
      ExpandedOneLine(read.value, d, macros);
      NothingReplaced(v, next, d, macros);
      if next.Some? {
        FileLists.JoinedMarks(v, next.value);
      }
    }
  }

  /** Where what is read is not clear, an expression about the machine may reach into the line that is taken
      in, and what it stands for may make up for the rest. */
  lemma UnclearMayCoincide(d: Dialect, macros: string -> string)
    requires macros("$$([k = ])") == "$$"
    ensures var v, next := "$$([\\", Some("k = ])([\\ ");
            && Open(v) && Says(next.value) && !Open(next.value) && !Clear(v, next, d)
            && Used(Some(Trim(Joined(v, next))), d, macros) == Some(v)
  {
    var t := "$$([k = ])([\\";
    CoincidingLines();
    hide Trim;
    hide Joined;
    MachineRef(t, d);
    MachineRefIsReplaced(t, d, macros);
    hide RefLength;
    hide Expand;
  }

  lemma CoincidingLines()
    ensures var v, next := "$$([\\", Some("k = ])([\\ ");
            && Open(v) && Says(next.value) && !Open(next.value) && '(' in next.value
            && Trim(Joined(v, next)) == "$$([k = ])([\\"
  {
    var v, next := "$$([\\", Some("k = ])([\\ ");
    assert next.value[2] == '=' && next.value[6] == '(';
    assert Joined(v, next) == "$$([k = ])([\\" + " ";
    TrimmedEnd("$$([k = ])([\\");
  }

  lemma MachineRefIsReplaced(t: string, d: Dialect, macros: string -> string)
    requires t == "$$([k = ])([\\" && RefLength(t, d) == 10 && macros("$$([k = ])") == "$$"
    ensures Expand(t, d, macros) == "$$([\\"
  {
    hide RefLength;
    var rest := t[10..];
    assert rest == "([\\" && t[..10] == "$$([k = ])";
    NoDollarNoRef(rest, d);
    NothingExpanded(rest, d, macros);
    assert Expand(t, d, macros) == macros(t[..10]) + Expand(rest, d, macros);
  }

  lemma TrimmedEnd(t: string)
    requires t != "" && !IsSpace(t[0]) && !IsSpace(t[|t| - 1])
    ensures Trim(t + " ") == t
  {
    assert (t + " ")[..|t|] == t && (t + " ")[0] == t[0];
    assert TrimLeft(t + " ") == t + " ";
    assert TrimRight(t) == t;
  }

  lemma MachineRef(t: string, d: Dialect)
    requires t == "$$([k = ])([\\"
    ensures RefLength(t, d) == 10
  {
    assert EndOf(t, "])", 8) == 10;
    assert t[7] == ' ' && EndOf(t, "])", 7) == 10;
    assert t[6] == '=' && EndOf(t, "])", 6) == 10;
    assert t[5] == ' ' && EndOf(t, "])", 5) == 10;
    assert t[4] == 'k' && EndOf(t, "])", 4) == 10;
  }

  /** The settings in front of those that the resource manager and the files make. */
  function EarlySettings(jd: JobDescription): Settings {
    SetVector("environment", jd.environment)
    + Set("remote_initialdir", jd.workingDirectory) + Set("input", jd.input)
    + Set("output", jd.output) + Set("error", jd.error) + Set("deferral_time", jd.jobStartTime)
    + Set("queue", WithDefault(jd.numberOfProcesses, "1"))
  }

  /** The later ones are told apart by their first letter, or by their length. */
  predicate LaterName(k: string) {
    k != "" && (k[0] in {'x', 'u', 'U', 'g', 't', 'n'} || |k| == 12)
  }

  lemma EarlyNames()
    ensures !LaterName("executable") && !LaterName("environment") && !LaterName("remote_initialdir")
    ensures !LaterName("input") && !LaterName("output") && !LaterName("error")
    ensures !LaterName("deferral_time") && !LaterName("queue")
  {
  }

  lemma LaterNames(jd: JobDescription, rm: ResourceManager, contexts: seq<Context>, k: string)
    requires !LaterName(k)
    ensures k !in ProxySettings(contexts) && k !in HostSettings(rm) && k !in TransferSettings(jd.fileTransfer)
    ensures jd.jobContact.Some? ==> k !in NotifySettings(jd.jobContact.value)
    ensures k !in SetNonEmpty("requirements", Requirements.Join(RequirementsOf(jd)))
  {
    ProxyKeys(contexts);
    hide ProxySettings;
    hide InputFiles;
    hide OutputFiles;
    hide Renamed;
    hide GridResource;
    hide RequirementsOf;
    hide Requirements.Join;
    hide Transfers.RemapText;
    if jd.jobContact.Some? {
      NotifyKeys(jd.jobContact.value);
    }
    hide NotifySettings;
  }

  lemma SettingIsEarly(jd: JobDescription, rm: ResourceManager, contexts: seq<Context>, k: string)
    requires !LaterName(k)
    ensures var s, early, commands := AdaptorSettings(jd, rm, contexts), EarlySettings(jd), CommandSettings(jd);
            && (k in early ==> k in s && s[k] == early[k])
            && (k !in early && k in commands ==> k in s && s[k] == commands[k])
  {
    LaterNames(jd, rm, contexts, k);
    hide LaterName;
    hide CommandSettings;
    hide Set;
    hide SetVector;
    hide SetNonEmpty;
    hide ProxySettings;
    hide HostSettings;
    hide TransferSettings;
    hide NotifySettings;
    hide RequirementsOf;
    hide Requirements.Join;
  }

  lemma CopiedNames(jd: JobDescription, k: string, v: string)
    requires Copied(jd, k, v)
    ensures !LaterName(k) && k != "queue" && k != "Universe"
  {
  }

  lemma SetIs(key: string, value: Option<string>, k: string)
    ensures k in Set(key, value) <==> k == key && value.Some?
    ensures k in Set(key, value) ==> Set(key, value)[k] == value.value
  {
  }

  lemma VectorIs(key: string, values: Option<seq<string>>, k: string)
    ensures k in SetVector(key, values) ==> k == key
  {
    hide Arguments.Format;
  }

  lemma EarlyIs(jd: JobDescription, k: string, v: string)
    requires Copied(jd, k, v)
    ensures if k in EarlySettings(jd) then EarlySettings(jd)[k] == v
            else k in CommandSettings(jd) && CommandSettings(jd)[k] == v
  {
    VectorIs("environment", jd.environment, k);
    VectorIs("arguments", jd.arguments, k);
    SetIs("executable", jd.executable, k);
    SetIs("remote_initialdir", jd.workingDirectory, k);
    SetIs("input", jd.input, k);
    SetIs("output", jd.output, k);
    SetIs("error", jd.error, k);
    SetIs("deferral_time", jd.jobStartTime, k);
    SetIs("queue", WithDefault(jd.numberOfProcesses, "1"), k);
    hide Set;
    hide SetVector;
  }

  lemma CopiedSetting(jd: JobDescription, rm: ResourceManager, contexts: seq<Context>, k: string, v: string)
    requires Copied(jd, k, v)
    ensures var s := AdaptorSettings(jd, rm, contexts); k in s && s[k] == v && k != "queue" && k != "Universe"
  {
    hide *;
    CopiedNames(jd, k, v);
    EarlyIs(jd, k, v);
    SettingIsEarly(jd, rm, contexts, k);
  }

  /** The value of a setting is what Condor uses if it has no line break, no white space at its ends and no
      reference to a macro, and takes no line in; and, unless a macro's value has a parenthesis or a line
      break, or both the line taken in has a parenthesis and what is read a reference, only then. */
  lemma SettingIsUsed(presets: Settings, jd: JobDescription, rm: ResourceManager, contexts: seq<Context>,
                      k: string, d: Dialect, macros: string -> string)
    requires var s := AdaptorSettings(jd, rm, contexts);
             k in s && s[k] != "" && k != "queue" && k != "Universe" && Undisturbed(presets + s, k)
    ensures var m, v := presets + AdaptorSettings(jd, rm, contexts), AdaptorSettings(jd, rm, contexts)[k];
            var used := Used(ReadSetting(m, k), d, macros);
            && (AsItIs(v, d) && Next(m, k).None? ==> used == Some(v))
            && (Tame(macros) && Clear(v, Next(m, k), d) ==>
                  (used == Some(v) <==> AsItIs(v, d) && Next(m, k).None?))
  {
    hide *;
    var m := presets + AdaptorSettings(jd, rm, contexts);
    SettingArrives(presets, jd, rm, contexts, k);
    NextIs(m, k);
    CopyArrives(ReadSetting(m, k), m[k], Next(m, k), d, macros);
  }

  /** In particular what is copied from the description: executable, directory, streams and start time. */
  lemma CopiedSettingArrives(presets: Settings, jd: JobDescription, rm: ResourceManager, contexts: seq<Context>,
                             k: string, v: string, d: Dialect, macros: string -> string)
    requires || (k == "executable" && jd.executable == Some(v))
             || (k == "remote_initialdir" && jd.workingDirectory == Some(v))
             || (k == "input" && jd.input == Some(v))
             || (k == "output" && jd.output == Some(v))
             || (k == "error" && jd.error == Some(v))
             || (k == "deferral_time" && jd.jobStartTime == Some(v))
    requires v != ""
    requires Undisturbed(presets + AdaptorSettings(jd, rm, contexts), k)
    ensures k in presets + AdaptorSettings(jd, rm, contexts)
    ensures var m := presets + AdaptorSettings(jd, rm, contexts);
            var used := Used(ReadSetting(m, k), d, macros);
            && (AsItIs(v, d) && Next(m, k).None? ==> used == Some(v))
            && (Tame(macros) && Clear(v, Next(m, k), d) ==>
                  (used == Some(v) <==> AsItIs(v, d) && Next(m, k).None?))
  {
    assert Copied(jd, k, v);
    hide *;
    CopiedSetting(jd, rm, contexts, k, v);
    SettingIsUsed(presets, jd, rm, contexts, k, d, macros);
  }

  // ----- Arguments and environment -----

  function ListText(args: seq<string>): string {
    var text := Arguments.Format(args);
    if text.None? then "" else text.value
  }

  /** Such a list is read as it was meant. */
  predicate ListCanArrive(args: seq<string>, d: Dialect) {
    (forall a | a in args :: Arguments.Survives(a) && OneLine(a)) && !HasRef(ListText(args), d)
  }

  predicate ListArrived(used: Option<string>, args: seq<string>) {
    used.Some? && Arguments.Read(used.value) == Some(args)
  }

  /** What a reader of lists gets from a setting that arrives as it should. */
  lemma ListArrives(read: Option<string>, args: seq<string>, d: Dialect, macros: string -> string)
    requires args != []
    requires OneLine(ListText(args)) ==> read == Some(ListText(args))
    requires read.Some? ==> OneLine(read.value)
    ensures ListCanArrive(args, d) ==> ListArrived(Used(read, d, macros), args)
    ensures Tame(macros) ==> (ListArrived(Used(read, d, macros), args) <==> ListCanArrive(args, d))
  {
    FormatKeeps(args);
    hide Arguments.Format;
    hide Arguments.Read;
    hide Arguments.Survives;
    hide HasRef;
    hide Expand;
    hide Parens;
    hide Tame;
    hide Trim;
    var v := ListText(args);
    Arguments.SurvivorsAreRead(args);
    if Tame(macros) && ListArrived(Used(read, d, macros), args) {
      ListReadKeeps(Expand(read.value, d, macros));
      ExpandedOneLine(read.value, d, macros);
      Unexpanded(v, d, macros);
    }
    if !HasRef(v, d) {
      NothingExpanded(v, d, macros);
    }
  }

  /** A plain reference to a macro is never read as it was meant, wherever it stands. */
  lemma ReferencesDoNotArrive(args: seq<string>, u: string, name: string, w: string, d: Dialect)
    requires (forall c | c in name :: NameChar(c)) && u + (PlainRef(name) + w) in args
    ensures !ListCanArrive(args, d)
  {
    hide *;
    NoQuotesInRef(name);
    var x, y := FormatAllAround(args, u, PlainRef(name), w);
    QuotedAround(args, x, PlainRef(name), y);
    PlainRefIsSeen("\"" + x, name, y + "\"", d);
    ListCanArriveIs(args, d);
  }

  lemma NoQuotesInRef(name: string)
    requires forall c | c in name :: NameChar(c)
    ensures '"' !in PlainRef(name) && '\'' !in PlainRef(name) && PlainRef(name) != ""
  {
    assert forall c | c in PlainRef(name) :: c in name || c == '$' || c == '(' || c == ')';
  }

  lemma ListCanArriveIs(args: seq<string>, d: Dialect)
    ensures ListCanArrive(args, d) ==> !HasRef(ListText(args), d)
  {
    hide ListText;
    hide HasRef;
    hide Arguments.Survives;
  }

  lemma QuotedAround(args: seq<string>, x: string, ref: string, y: string)
    requires Arguments.FormatAll(args) == x + (ref + y) && ref != ""
    ensures ListText(args) == ("\"" + x) + (ref + (y + "\""))
  {
    hide Arguments.FormatAll;
  }

  lemma ArgumentsSetting(jd: JobDescription, rm: ResourceManager, contexts: seq<Context>)
    requires jd.arguments.Some? && jd.arguments.value != []
    ensures var s := AdaptorSettings(jd, rm, contexts);
            "arguments" in s && Some(s["arguments"]) == Arguments.Format(jd.arguments.value)
  {
    hide FurtherSettings;
    Arguments.NothingToFormat(jd.arguments.value);
    hide Arguments.Format;
    FurtherSettingsNames(jd, rm, contexts);
  }

  /** From the job description through the submit file to what the job is started with: Condor gets
      exactly the arguments that were asked for if each of them survives the quoting and has no line break,
      and there is no reference to a macro in what is written; and, unless a macro's value has a
      parenthesis or a line break, only then. */
  lemma ArgumentsArrive(presets: Settings, jd: JobDescription, rm: ResourceManager, contexts: seq<Context>,
                        d: Dialect, macros: string -> string)
    requires jd.arguments.Some? && jd.arguments.value != []
    requires Undisturbed(presets + AdaptorSettings(jd, rm, contexts), "arguments")
    ensures var args := jd.arguments.value;
            var used := Used(ReadSetting(presets + AdaptorSettings(jd, rm, contexts), "arguments"), d, macros);
            && (ListCanArrive(args, d) ==> ListArrived(used, args))
            && (Tame(macros) ==> (ListArrived(used, args) <==> ListCanArrive(args, d)))
  {
    hide *;
    var m, args := presets + AdaptorSettings(jd, rm, contexts), jd.arguments.value;
    ArgumentsSetting(jd, rm, contexts);
    FormatKeeps(args);
    ListTextIs(args);
    SettingArrives(presets, jd, rm, contexts, "arguments");
    NextIs(m, "arguments");
    JoinedIs(m["arguments"], None);
    ListArrives(ReadSetting(m, "arguments"), args, d, macros);
  }

  lemma ListTextIs(args: seq<string>)
    ensures Arguments.Format(args).Some? ==> ListText(args) == Arguments.Format(args).value
  {
  }

  lemma {:induction false} ProxyKeys(contexts: seq<Context>)
    ensures forall k | k in ProxySettings(contexts) :: k == "x509userproxy"
  {
    if contexts != [] {
      ProxyKeys(contexts[..|contexts| - 1]);
    }
  }

  lemma {:induction false} NotifyKeys(contacts: seq<string>)
    ensures forall k | k in NotifySettings(contacts) :: k == "notify_user"
  {
    if contacts != [] {
      NotifyKeys(contacts[1..]);
    }
  }

  lemma EnvironmentSetting(jd: JobDescription, rm: ResourceManager, contexts: seq<Context>)
    requires jd.environment.Some? && jd.environment.value != []
    ensures var s := AdaptorSettings(jd, rm, contexts);
            "environment" in s && Some(s["environment"]) == Arguments.Format(jd.environment.value)
  {
    EnvironmentIsEarly(jd);
    EarlyNames();
    hide *;
    SettingIsEarly(jd, rm, contexts, "environment");
  }

  lemma EnvironmentIsEarly(jd: JobDescription)
    requires jd.environment.Some? && jd.environment.value != []
    ensures var s := EarlySettings(jd);
            "environment" in s && Some(s["environment"]) == Arguments.Format(jd.environment.value)
  {
    Arguments.NothingToFormat(jd.environment.value);
    hide Arguments.Format;
    SetIs("remote_initialdir", jd.workingDirectory, "environment");
    SetIs("input", jd.input, "environment");
    SetIs("output", jd.output, "environment");
    SetIs("error", jd.error, "environment");
    SetIs("deferral_time", jd.jobStartTime, "environment");
    SetIs("queue", WithDefault(jd.numberOfProcesses, "1"), "environment");
    var first := SetVector("environment", jd.environment);
    assert "environment" in first && Some(first["environment"]) == Arguments.Format(jd.environment.value);
    hide Set;
    hide SetVector;
  }

  // ----- What the environment is -----

  /** A variable: a name that is not empty, an equals sign and a value. */
  predicate IsVariable(entry: string) {
    EqualsAt(entry).Some? && EqualsAt(entry).value > 0
  }

  /** Condor refuses an environment in which an entry is no variable. */
  function ReadEnvironment(value: string): Option<seq<string>> {
    var entries := Arguments.Read(value);
    if entries.Some? && forall e | e in entries.value :: IsVariable(e) then entries else None
  }

  predicate EnvironmentArrived(used: Option<string>, entries: seq<string>) {
    used.Some? && ReadEnvironment(used.value) == Some(entries)
  }

  /** The environment is read as it was meant if its list is and it consists of variables. */
  lemma VariablesArrive(used: Option<string>, entries: seq<string>)
    ensures EnvironmentArrived(used, entries)
            <==> ListArrived(used, entries) && forall e | e in entries :: IsVariable(e)
  {
    hide IsVariable;
    hide Arguments.Read;
  }

  /** The environment is what was asked for under the same condition, if all its entries are variables, and
      in no other case. */
  lemma EnvironmentArrives(presets: Settings, jd: JobDescription, rm: ResourceManager, contexts: seq<Context>,
                           d: Dialect, macros: string -> string)
    requires jd.environment.Some? && jd.environment.value != []
    requires Undisturbed(presets + AdaptorSettings(jd, rm, contexts), "environment")
    ensures var entries := jd.environment.value;
            var used := Used(ReadSetting(presets + AdaptorSettings(jd, rm, contexts), "environment"), d, macros);
            var variables := forall e | e in entries :: IsVariable(e);
            && (ListCanArrive(entries, d) && variables ==> EnvironmentArrived(used, entries))
            && (Tame(macros) ==> (EnvironmentArrived(used, entries) <==> ListCanArrive(entries, d) && variables))
  {
    hide *;
    var m, entries := presets + AdaptorSettings(jd, rm, contexts), jd.environment.value;
    EnvironmentSetting(jd, rm, contexts);
    FormatKeeps(entries);
    ListTextIs(entries);
    SettingArrives(presets, jd, rm, contexts, "environment");
    NextIs(m, "environment");
    JoinedIs(m["environment"], None);
    ListArrives(ReadSetting(m, "environment"), entries, d, macros);
    VariablesArrive(Used(ReadSetting(m, "environment"), d, macros), entries);
  }

  // ----- Files -----

  /** The files that are to be sent, and those that are to be fetched. */
  function Sent(ts: seq<Transfer>): seq<string> {
    if ts == [] then []
    else Sent(ts[..|ts| - 1]) +
         (var t := ts[|ts| - 1]; if t.Transfer? && t.direction.CopyLocalRemote? then [t.left] else [])
  }

  function Fetched(ts: seq<Transfer>): seq<string> {
    if ts == [] then []
    else Fetched(ts[..|ts| - 1]) +
         (var t := ts[|ts| - 1]; if t.Transfer? && t.direction.CopyRemoteLocal? then [t.right] else [])
  }

  /** Which files these are, one entry at a time. */
  lemma {:induction false} TransfersAre(u: seq<Transfer>, v: seq<Transfer>, t: Transfer)
    ensures Sent(u + v) == Sent(u) + Sent(v) && Fetched(u + v) == Fetched(u) + Fetched(v)
    ensures Renamed(u + v) == Renamed(u) + Renamed(v)
    ensures Sent([t]) == if t.Transfer? && t.direction.CopyLocalRemote? then [t.left] else []
    ensures Fetched([t]) == if t.Transfer? && t.direction.CopyRemoteLocal? then [t.right] else []
    ensures Renamed([t])
            == if t.Transfer? && t.direction.CopyRemoteLocal? && !t.sameLeaf then [(t.left, t.right)] else []
  {
    assert [t][..0] == [];
    if v == [] {
      assert u + v == u;
    } else {
      assert (u + v)[..|u + v| - 1] == u + v[..|v| - 1];
      TransfersAre(u, v[..|v| - 1], t);
    }
  }

  lemma {:induction false} FilesAreListed(ts: seq<Transfer>)
    ensures InputFiles(ts) == FileLists.Listed(", ", Sent(ts))
    ensures OutputFiles(ts) == FileLists.Listed(" ", Fetched(ts))
  {
    if ts != [] {
      var before, t := ts[..|ts| - 1], ts[|ts| - 1];
      FilesAreListed(before);
      if t.Transfer? {
        FileLists.ListedAppend(", ", Sent(before), t.left);
        FileLists.ListedAppend(" ", Fetched(before), t.right);
      }
      hide FileLists.Listed;
      assert Sent(before) + [] == Sent(before) && Fetched(before) + [] == Fetched(before);
    }
  }

  predicate FilesArrived(used: Option<string>, names: seq<string>, seps: set<char>) {
    used.Some? && FileLists.Names(used.value, seps) == names
  }

  /** The names can be told apart, and the list arrives. */
  predicate FilesCanArrive(glue: string, names: seq<string>, seps: set<char>, d: Dialect) {
    && FileLists.Readable(glue, names, seps) && AllOneLine(names)
    && !HasRef(Trim(FileLists.Listed(glue, names)), d)
  }

  /** What a reader of file names gets from a setting that arrives as it should. */
  lemma FilesArrive(read: Option<string>, glue: string, names: seq<string>, next: Option<string>, seps: set<char>,
                    d: Dialect, macros: string -> string)
    requires FileLists.Glue(glue) && FileLists.Separators(seps) && names != []
    requires var v := FileLists.Listed(glue, names);
             && (next.Some? ==> Open(v))
             && (OneLine(v) && next.Some? ==> Says(next.value))
             && (OneLine(v) ==> read == Some(Trim(Joined(v, next))))
    requires read.Some? ==> OneLine(read.value)
    ensures FilesCanArrive(glue, names, seps, d) && next.None? ==> FilesArrived(Used(read, d, macros), names, seps)
    ensures Tame(macros) && Clear(FileLists.Listed(glue, names), next, d) ==>
              (FilesArrived(Used(read, d, macros), names, seps)
               <==> FilesCanArrive(glue, names, seps, d) && next.None?)
  {
    hide *;
    var v := FileLists.Listed(glue, names);
    FilesCanArriveIs(glue, names, seps, d);
    FilesArrivedIs(Used(read, d, macros), names, seps);
    UsedIs(read, d, macros);
    JoinedIs(v, None);
    FileLists.ListedRoundTrip(glue, names, seps);
    if FilesCanArrive(glue, names, seps, d) {
      FileLists.ListedOneLine(glue, names);
      NothingExpanded(Trim(v), d, macros);
    }
    if Tame(macros) && Clear(v, next, d) && FilesArrived(Used(read, d, macros), names, seps) {
      FilesAsRead(read, glue, names, next, seps, d, macros);
    }
  }

  /** Files that have arrived were not replaced, and nothing was taken in. */
  lemma FilesAsRead(read: Option<string>, glue: string, names: seq<string>, next: Option<string>, seps: set<char>,
                    d: Dialect, macros: string -> string)
    requires FileLists.Glue(glue) && FileLists.Separators(seps) && names != []
    requires var v := FileLists.Listed(glue, names);
             && (next.Some? ==> Open(v))
             && (OneLine(v) && next.Some? ==> Says(next.value))
             && (OneLine(v) ==> read == Some(Trim(Joined(v, next))))
    requires read.Some? && OneLine(read.value)
    requires Tame(macros) && Clear(FileLists.Listed(glue, names), next, d)
    requires FileLists.Names(Expand(read.value, d, macros), seps) == names
    ensures var v := Trim(FileLists.Listed(glue, names));
            && next.None? && AllOneLine(names)
            && !HasRef(v, d) && FileLists.Names(v, seps) == names
  {
    hide *;
    var v, t := FileLists.Listed(glue, names), Expand(read.value, d, macros);
    ExpandedOneLineIs(read.value, d, macros);
    NamesStayOneLine(t, seps);
    FileLists.ListedOneLine(glue, names);
    FileLists.ListParens(glue, names, t, seps);
    NothingReplaced(v, next, d, macros);
    JoinedIs(v, None);
    if next.Some? {
      FileLists.JoinedIsNotTheList(glue, names, next.value, seps);
    }
  }

  lemma FilesCanArriveIs(glue: string, names: seq<string>, seps: set<char>, d: Dialect)
    ensures FilesCanArrive(glue, names, seps, d)
            <==> && FileLists.Readable(glue, names, seps) && AllOneLine(names)
                 && !HasRef(Trim(FileLists.Listed(glue, names)), d)
  {
    hide FileLists.Readable;
    hide AllOneLine;
    hide HasRef;
    hide Trim;
    hide FileLists.Listed;
  }

  lemma FilesArrivedIs(used: Option<string>, names: seq<string>, seps: set<char>)
    ensures FilesArrived(used, names, seps) <==> used.Some? && FileLists.Names(used.value, seps) == names
  {
    hide FileLists.Names;
  }

  lemma UsedIs(read: Option<string>, d: Dialect, macros: string -> string)
    ensures Used(read, d, macros) == if read.None? then None else Some(Expand(read.value, d, macros))
  {
    hide Expand;
  }

  lemma ExpandedOneLineIs(t: string, d: Dialect, macros: string -> string)
    requires Tame(macros) && OneLine(t)
    ensures OneLine(Expand(t, d, macros))
  {
    ExpandedOneLine(t, d, macros);
    hide Expand;
  }

  lemma NamesStayOneLine(t: string, seps: set<char>)
    requires OneLine(t)
    ensures AllOneLine(FileLists.Names(t, seps))
  {
    FileLists.NamesOneLine(t, "", seps);
    hide FileLists.NamesFrom;
  }

  lemma FilesSetting(jd: JobDescription, rm: ResourceManager, contexts: seq<Context>)
    requires jd.fileTransfer.Some?
    ensures var s, ts := AdaptorSettings(jd, rm, contexts), jd.fileTransfer.value;
            && (InputFiles(ts) != "" ==>
                  "transfer_input_files" in s && s["transfer_input_files"] == InputFiles(ts))
            && (OutputFiles(ts) != "" ==>
                  "transfer_output_files" in s && s["transfer_output_files"] == OutputFiles(ts))
  {
    FilesAreTransferred(jd.fileTransfer.value);
    if jd.jobContact.Some? {
      NotifyKeys(jd.jobContact.value);
    }
    var last := SetNonEmpty("requirements", Requirements.Join(RequirementsOf(jd)));
    assert "transfer_input_files" !in last && "transfer_output_files" !in last;
    hide InputFiles;
    hide OutputFiles;
    hide CommandSettings;
    hide Set;
    hide SetVector;
    hide SetNonEmpty;
    hide ProxySettings;
    hide HostSettings;
    hide TransferSettings;
    hide NotifySettings;
    hide RequirementsOf;
    hide Requirements.Join;
    hide Arguments.Format;
  }

  lemma FilesAreTransferred(ts: seq<Transfer>)
    ensures var s := TransferSettings(Some(ts));
            && (InputFiles(ts) != "" ==>
                  "transfer_input_files" in s && s["transfer_input_files"] == InputFiles(ts))
            && (OutputFiles(ts) != "" ==>
                  "transfer_output_files" in s && s["transfer_output_files"] == OutputFiles(ts))
  {
    hide InputFiles;
    hide OutputFiles;
    hide Renamed;
    hide Transfers.RemapText;
  }

  lemma ListedIsThere(glue: string, names: seq<string>)
    requires FileLists.Glue(glue) && names != []
    ensures FileLists.Listed(glue, names) != ""
  {
  }

  /** Condor sends exactly the files of the description if the names can be told apart, have no line break,
      there is no reference to a macro in the list, and it takes no line in; and, unless a macro's value has a
      parenthesis or a line break, or both the line taken in has a parenthesis and what is read a reference,
      only then. */
  lemma SentFilesArrive(presets: Settings, jd: JobDescription, rm: ResourceManager, contexts: seq<Context>,
                        seps: set<char>, d: Dialect, macros: string -> string)
    requires jd.fileTransfer.Some? && Sent(jd.fileTransfer.value) != [] && FileLists.Separators(seps)
    requires Undisturbed(presets + AdaptorSettings(jd, rm, contexts), "transfer_input_files")
    ensures var m, names := presets + AdaptorSettings(jd, rm, contexts), Sent(jd.fileTransfer.value);
            var used := Used(ReadSetting(m, "transfer_input_files"), d, macros);
            var next := Next(m, "transfer_input_files");
            && (FilesCanArrive(", ", names, seps, d) && next.None? ==> FilesArrived(used, names, seps))
            && (Tame(macros) && Clear(InputFiles(jd.fileTransfer.value), next, d) ==>
                  (FilesArrived(used, names, seps) <==> FilesCanArrive(", ", names, seps, d) && next.None?))
  {
    hide *;
    var m, ts := presets + AdaptorSettings(jd, rm, contexts), jd.fileTransfer.value;
    GlueIsGlue();
    FilesAreListed(ts);
    ListedIsThere(", ", Sent(ts));
    FilesSetting(jd, rm, contexts);
    SettingArrives(presets, jd, rm, contexts, "transfer_input_files");
    NextIs(m, "transfer_input_files");
    FilesArrive(ReadSetting(m, "transfer_input_files"), ", ", Sent(ts), Next(m, "transfer_input_files"), seps, d,
                macros);
  }

  /** The same for the files that Condor fetches; a space separates their names only if Condor takes it for
      a separator, and otherwise there may be one file at most. */
  lemma FetchedFilesArrive(presets: Settings, jd: JobDescription, rm: ResourceManager, contexts: seq<Context>,
                           seps: set<char>, d: Dialect, macros: string -> string)
    requires jd.fileTransfer.Some? && Fetched(jd.fileTransfer.value) != [] && FileLists.Separators(seps)
    requires Undisturbed(presets + AdaptorSettings(jd, rm, contexts), "transfer_output_files")
    ensures var m, names := presets + AdaptorSettings(jd, rm, contexts), Fetched(jd.fileTransfer.value);
            var used := Used(ReadSetting(m, "transfer_output_files"), d, macros);
            var next := Next(m, "transfer_output_files");
            && (FilesCanArrive(" ", names, seps, d) && next.None? ==> FilesArrived(used, names, seps))
            && (Tame(macros) && Clear(OutputFiles(jd.fileTransfer.value), next, d) ==>
                  (FilesArrived(used, names, seps) <==> FilesCanArrive(" ", names, seps, d) && next.None?))
  {
    hide *;
    var m, ts := presets + AdaptorSettings(jd, rm, contexts), jd.fileTransfer.value;
    GlueIsGlue();
    FilesAreListed(ts);
    ListedIsThere(" ", Fetched(ts));
    FilesSetting(jd, rm, contexts);
    SettingArrives(presets, jd, rm, contexts, "transfer_output_files");
    NextIs(m, "transfer_output_files");
    FilesArrive(ReadSetting(m, "transfer_output_files"), " ", Fetched(ts), Next(m, "transfer_output_files"), seps, d,
                macros);
  }

  lemma GlueIsGlue()
    ensures FileLists.Glue(", ") && FileLists.Glue(" ")
  {
  }

  // ----- Remaps -----

  /** Condor's reading of the remaps between their double quotes. */
  function ReadQuotedRemaps(value: string): Option<seq<(string, string)>> {
    if |value| < 2 || value[0] != '"' || value[|value| - 1] != '"' then None
    else Transfers.ReadRemaps(value[1..|value| - 1], None, "")
  }

  function Remaps(pairs: seq<(string, string)>): string {
    "\"" + (Transfers.RemapText(pairs) + "\"")
  }

  lemma RemapsAreTransferred(ts: seq<Transfer>)
    requires Renamed(ts) != []
    ensures var s := TransferSettings(Some(ts));
            "transfer_output_remaps" in s && s["transfer_output_remaps"] == Remaps(Renamed(ts))
  {
    RemapTextIsThere(Renamed(ts));
    hide Transfers.RemapText;
    hide InputFiles;
    hide OutputFiles;
    hide Renamed;
    hide SetNonEmpty;
  }

  lemma RemapsSetting(jd: JobDescription, rm: ResourceManager, contexts: seq<Context>)
    requires jd.fileTransfer.Some? && Renamed(jd.fileTransfer.value) != []
    ensures var s := AdaptorSettings(jd, rm, contexts);
            "transfer_output_remaps" in s && s["transfer_output_remaps"] == Remaps(Renamed(jd.fileTransfer.value))
  {
    RemapsAreTransferred(jd.fileTransfer.value);
    if jd.jobContact.Some? {
      NotifyKeys(jd.jobContact.value);
    }
    assert "transfer_output_remaps" !in SetNonEmpty("requirements", Requirements.Join(RequirementsOf(jd)));
    hide Remaps;
    hide Renamed;
    hide CommandSettings;
    hide Set;
    hide SetVector;
    hide SetNonEmpty;
    hide ProxySettings;
    hide HostSettings;
    hide TransferSettings;
    hide NotifySettings;
    hide RequirementsOf;
    hide Requirements.Join;
    hide Arguments.Format;
  }

  lemma RemapTextIsThere(pairs: seq<(string, string)>)
    requires pairs != []
    ensures Transfers.RemapText(pairs) != ""
  {
    hide Transfers.EscapeName;
  }

  lemma RemapsAreQuoted(pairs: seq<(string, string)>)
    ensures var v := Remaps(pairs);
            && v != "" && Trim(v) == v && !Open(v)
            && ReadQuotedRemaps(v) == Transfers.ReadRemaps(Transfers.RemapText(pairs), None, "")
  {
    hide Transfers.RemapText;
    hide Transfers.ReadRemaps;
    var v := Remaps(pairs);
    assert v[0] == '"' && v[|v| - 1] == '"' && v[1..|v| - 1] == Transfers.RemapText(pairs);
    TrimStays(v);
    hide Trim;
  }

  lemma RemapsKeep(pairs: seq<(string, string)>)
    ensures var v := Remaps(pairs); Parens(v) == PairParens(pairs) && (PairsOneLine(pairs) ==> OneLine(v))
  {
    RemapTextKeeps(pairs);
    var text := Transfers.RemapText(pairs);
    Quoted('"', text);
    assert Remaps(pairs) == ['"'] + text + ['"'];
    hide Transfers.RemapText;
    hide Parens;
    hide PairsOneLine;
  }

  lemma QuotedRemapsKeep(value: string)
    ensures var r := ReadQuotedRemaps(value);
            r.Some? ==> PairParens(r.value) == Parens(value) && (OneLine(value) ==> PairsOneLine(r.value))
  {
    hide Transfers.ReadRemaps;
    if ReadQuotedRemaps(value).Some? {
      var inner := value[1..|value| - 1];
      assert value == ['"'] + inner + ['"'];
      RemapsReadKeeps(inner, None, "");
      Quoted('"', inner);
      NothingHasNoParens();
      hide Parens;
    }
  }

  /** Such pairs are read as they were written. */
  predicate RemapsCanArrive(pairs: seq<(string, string)>, d: Dialect) {
    Transfers.Plain(pairs) && PairsOneLine(pairs) && !HasRef(Remaps(pairs), d)
  }

  predicate RemapsArrived(used: Option<string>, pairs: seq<(string, string)>) {
    used.Some? && ReadQuotedRemaps(used.value) == Some(pairs)
  }

  lemma PairsArrive(read: Option<string>, pairs: seq<(string, string)>, d: Dialect, macros: string -> string)
    requires OneLine(Remaps(pairs)) ==> read == Some(Remaps(pairs))
    requires read.Some? ==> OneLine(read.value)
    ensures RemapsCanArrive(pairs, d) ==> RemapsArrived(Used(read, d, macros), pairs)
    ensures Tame(macros) ==> (RemapsArrived(Used(read, d, macros), pairs) <==> RemapsCanArrive(pairs, d))
  {
    var v := Remaps(pairs);
    RemapsAreQuoted(pairs);
    RemapsKeep(pairs);
    hide PairsOneLine;
    hide ReadQuotedRemaps;
    hide Remaps;
    hide HasRef;
    hide Expand;
    hide Parens;
    hide Tame;
    hide Trim;
    hide Transfers.Plain;
    Transfers.RemapsRoundTrip(pairs);
    if Tame(macros) && RemapsArrived(Used(read, d, macros), pairs) {
      QuotedRemapsKeep(Expand(read.value, d, macros));
      ExpandedOneLine(read.value, d, macros);
      Unexpanded(v, d, macros);
    }
    if !HasRef(v, d) {
      NothingExpanded(v, d, macros);
    }
  }

  /** The remaps that Condor reads are the pairs of the description as they were written if no name has a
      backslash or a line break and there is no reference to a macro in what is written; and, unless a macro's
      value has a parenthesis or a line break, only then. */
  lemma RemapsArrive(presets: Settings, jd: JobDescription, rm: ResourceManager, contexts: seq<Context>,
                     d: Dialect, macros: string -> string)
    requires jd.fileTransfer.Some? && Renamed(jd.fileTransfer.value) != []
    requires Undisturbed(presets + AdaptorSettings(jd, rm, contexts), "transfer_output_remaps")
    ensures var read := ReadSetting(presets + AdaptorSettings(jd, rm, contexts), "transfer_output_remaps");
            var used, pairs := Used(read, d, macros), Renamed(jd.fileTransfer.value);
            && (RemapsCanArrive(pairs, d) ==> RemapsArrived(used, pairs))
            && (Tame(macros) ==> (RemapsArrived(used, pairs) <==> RemapsCanArrive(pairs, d)))
  {
    hide *;
    var m, pairs := presets + AdaptorSettings(jd, rm, contexts), Renamed(jd.fileTransfer.value);
    RemapsSetting(jd, rm, contexts);
    RemapsAreQuoted(pairs);
    RemapsKeep(pairs);
    SettingArrives(presets, jd, rm, contexts, "transfer_output_remaps");
    NextIs(m, "transfer_output_remaps");
    JoinedIs(m["transfer_output_remaps"], None);
    PairsArrive(ReadSetting(m, "transfer_output_remaps"), pairs, d, macros);
  }

  // ----- Requirements -----

  lemma RequirementsSetting(jd: JobDescription, rm: ResourceManager, contexts: seq<Context>)
    requires RequirementsOf(jd) != []
    ensures var s := AdaptorSettings(jd, rm, contexts);
            "requirements" in s && s["requirements"] == Requirements.Join(RequirementsOf(jd))
  {
    JoinIsTrimmed(RequirementsOf(jd));
    var last := SetNonEmpty("requirements", Requirements.Join(RequirementsOf(jd)));
    assert "requirements" in last && last["requirements"] == Requirements.Join(RequirementsOf(jd));
    hide CommandSettings;
    hide Set;
    hide SetVector;
    hide SetNonEmpty;
    hide ProxySettings;
    hide HostSettings;
    hide TransferSettings;
    hide NotifySettings;
    hide RequirementsOf;
    hide Requirements.Join;
    hide Arguments.Format;
  }

  lemma {:induction false} JoinEnds(reqs: seq<string>)
    requires reqs != []
    ensures var v := Requirements.Join(reqs); v != "" && v[0] == '(' && v[|v| - 1] == ')'
  {
    if |reqs| > 1 {
      JoinEnds(reqs[1..]);
    }
  }

  lemma JoinIsTrimmed(reqs: seq<string>)
    requires reqs != []
    ensures var v := Requirements.Join(reqs); v != "" && Trim(v) == v && !Open(v)
  {
    JoinEnds(reqs);
    hide Requirements.Join;
    TrimStays(Requirements.Join(reqs));
  }

  /** Such requirements are read as one conjunct each. */
  predicate ConjunctsCanArrive(reqs: seq<string>, d: Dialect) {
    (forall r | r in reqs :: Requirements.SelfContained(r) && OneLine(r)) && !HasRef(Requirements.Join(reqs), d)
  }

  predicate ConjunctsArrived(used: Option<string>, reqs: seq<string>) {
    used.Some? && Requirements.Conjuncts(used.value) == Some(reqs)
  }

  lemma ConjunctsArrive(read: Option<string>, reqs: seq<string>, d: Dialect, macros: string -> string)
    requires reqs != []
    requires OneLine(Requirements.Join(reqs)) ==> read == Some(Requirements.Join(reqs))
    requires read.Some? ==> OneLine(read.value)
    ensures ConjunctsCanArrive(reqs, d) ==> ConjunctsArrived(Used(read, d, macros), reqs)
    ensures Tame(macros) ==> (ConjunctsArrived(Used(read, d, macros), reqs) <==> ConjunctsCanArrive(reqs, d))
  {
    hide Requirements.Join;
    hide Requirements.Conjuncts;
    hide Requirements.SelfContained;
    hide HasRef;
    hide Expand;
    hide Parens;
    hide Tame;
    var v := Requirements.Join(reqs);
    JoinParens(reqs);
    Requirements.JoinRoundTrip(reqs);
    if Tame(macros) && ConjunctsArrived(Used(read, d, macros), reqs) {
      ConjunctsKeep(Expand(read.value, d, macros));
      ExpandedOneLine(read.value, d, macros);
      Unexpanded(v, d, macros);
    }
    if !HasRef(v, d) {
      NothingExpanded(v, d, macros);
    }
  }

  /** The conjuncts that Condor reads are the requirements of the description, as texts, if each of them
      closes its own parentheses and strings and has no line break, and there is no reference to a macro in
      what is written; and, unless a macro's value has a parenthesis or a line break, only then. */
  lemma RequirementsArrive(presets: Settings, jd: JobDescription, rm: ResourceManager, contexts: seq<Context>,
                           d: Dialect, macros: string -> string)
    requires RequirementsOf(jd) != []
    requires Undisturbed(presets + AdaptorSettings(jd, rm, contexts), "requirements")
    ensures var read := ReadSetting(presets + AdaptorSettings(jd, rm, contexts), "requirements");
            var used, reqs := Used(read, d, macros), RequirementsOf(jd);
            && (ConjunctsCanArrive(reqs, d) ==> ConjunctsArrived(used, reqs))
            && (Tame(macros) ==> (ConjunctsArrived(used, reqs) <==> ConjunctsCanArrive(reqs, d)))
  {
    hide *;
    var m, reqs := presets + AdaptorSettings(jd, rm, contexts), RequirementsOf(jd);
    RequirementsSetting(jd, rm, contexts);
    JoinIsTrimmed(reqs);
    SettingArrives(presets, jd, rm, contexts, "requirements");
    NextIs(m, "requirements");
    JoinedIs(m["requirements"], None);
    ConjunctsArrive(ReadSetting(m, "requirements"), reqs, d, macros);
  }

  // ----- What the conjuncts are -----

  /** The first equals sign of an atom is part of an operator that compares. */
  predicate Compares(atom: string) {
    EqualsAtBound(atom);
    var i := EqualsAt(atom);
    && i.Some?
    && (|| (i.value > 0 && atom[i.value - 1] in {'<', '>', '!'})
        || (i.value + 1 < |atom| && atom[i.value + 1] in {'=', '?', '!'}))
  }

  /** A single equals sign between spaces does not. */
  lemma SingleDoesNotCompare(name: string, value: string)
    requires '=' !in name
    ensures !Compares(name + (" = " + value))
  {
    var atom := name + (" = " + value);
    assert atom == (name + " ") + ("=" + (" " + value));
    EqualsAtIs(name + " ", " " + value);
    assert atom[|name|] == ' ' && atom[|name| + 2] == ' ';
  }

  lemma DoubleCompares(name: string, rest: string)
    requires '=' !in name && rest != "" && rest[0] == '='
    ensures Compares(name + ("=" + rest))
  {
    EqualsAtIs(name, rest);
    assert (name + ("=" + rest))[|name| + 1] == rest[0];
  }

  lemma HostIs(h: string)
    ensures Requirements.OneHost(h) == "( Machine " + ("=" + ("= \"" + (h + "\" )")))
  {
  }

  lemma TextGoesOn(u: string, v: string, w: string, t: string)
    ensures (u + (v + w)) + t == u + (v + (w + t))
  {
  }

  lemma HostsStart(hosts: seq<string>) returns (tail: string)
    requires hosts != []
    ensures Requirements.HostsText(hosts) == Requirements.OneHost(hosts[0]) + tail
  {
    hide Requirements.OneHost;
    tail := if |hosts| == 1 then "" else " || " + Requirements.HostsText(hosts[1..]);
  }

  lemma HostsCompare(hosts: seq<string>)
    requires Requirements.HostsText(hosts) != ""
    ensures Compares(Requirements.HostsText(hosts))
  {
    assert hosts != [];
    hide *;
    var tail := HostsStart(hosts);
    HostIs(hosts[0]);
    var v := "= \"" + (hosts[0] + "\" )");
    TextGoesOn("( Machine ", "=", v, tail);
    DoubleCompares("( Machine ", v + tail);
  }

  lemma RequirementsDoNotCompare(name: string, value: Option<string>)
    requires '=' !in name
    ensures forall r | r in Requirement(name, value) :: !Compares(r)
    ensures Requirement(name, value) == [] <==> Unset(value)
  {
    if !Unset(value) {
      SingleDoesNotCompare(name, value.value);
    }
    hide Compares;
  }

  lemma OwnDoNotCompare(jd: JobDescription) returns (own: seq<string>)
    ensures forall r | r in own :: !Compares(r)
    ensures own == [] <==> && Unset(jd.totalCpuCount) && Unset(jd.totalPhysicalMemory)
                           && Unset(jd.cpuArchitecture) && Unset(jd.operatingSystemType)
    ensures var hosts := if jd.candidateHosts.None? then ""
                         else Requirements.HostsText(Requirements.NonEmpty(jd.candidateHosts.value));
            RequirementsOf(jd) == (if hosts == "" then [] else [hosts]) + own
  {
    RequirementsDoNotCompare("cpus", jd.totalCpuCount);
    RequirementsDoNotCompare("memory", jd.totalPhysicalMemory);
    RequirementsDoNotCompare("arch", jd.cpuArchitecture);
    RequirementsDoNotCompare("opsys", jd.operatingSystemType);
    hide Compares;
    hide Requirement;
    hide Unset;
    hide Requirements.HostsText;
    hide Requirements.NonEmpty;
    own := Requirement("cpus", jd.totalCpuCount) + Requirement("memory", jd.totalPhysicalMemory)
           + Requirement("arch", jd.cpuArchitecture) + Requirement("opsys", jd.operatingSystemType);
  }

  lemma NoneButTheFirst(first: seq<string>, own: seq<string>)
    requires (forall r | r in first :: Compares(r)) && forall r | r in own :: !Compares(r)
    ensures (forall r | r in first + own :: Compares(r)) <==> own == []
  {
    hide Compares;
    if own != [] {
      assert own[0] in own && own[0] in first + own;
    }
  }

  /** All the conjuncts are comparisons if and only if there are none but the hosts: the other requirements
      are written with a single equals sign. */
  lemma RequirementsCompare(jd: JobDescription)
    ensures (forall r | r in RequirementsOf(jd) :: Compares(r))
            <==> && Unset(jd.totalCpuCount) && Unset(jd.totalPhysicalMemory)
                 && Unset(jd.cpuArchitecture) && Unset(jd.operatingSystemType)
  {
    hide *;
    var hosts := if jd.candidateHosts.None? then ""
                 else Requirements.HostsText(Requirements.NonEmpty(jd.candidateHosts.value));
    if hosts != "" {
      HostsCompare(Requirements.NonEmpty(jd.candidateHosts.value));
    }
    var own := OwnDoNotCompare(jd);
    NoneButTheFirst(if hosts == "" then [] else [hosts], own);
  }
}
