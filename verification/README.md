# The Condor job adaptor

A Dafny model of the job adaptor in `condor_job/`, which submits jobs to Condor, finds running ones and
follows them all through an XML event log. The modules keep the structure of the sources:

| file | part of the adaptor |
|---|---|
| `Text`, `Entities`, `Grammar`, `ClassAd`, `RecordPrinter` | the ClassAd parser of `classad.hpp`, as ordered choice and greedy star over a text, with the skipper before each token; an independent printer of records |
| `LogReader` | the read loop of `log_processor.hpp`: reads are appended to a buffer, records are cut out of it |
| `Events`, `EventCodes`, `Jobs`, `LogToJobs`, `SampleLog` | what entries mean, event type by event type, and the objects that carry a job: instances, shared data, registry, pools, the adaptor, the processing of entries |
| `Synchronized` | the movable locks of `synchronized.hpp` |
| `JobId`, `Pools` | job identifiers, the listing of jobs, and which job data an identifier leads to |
| `Arguments`, `FileLists`, `Transfers`, `Requirements`, `SubmitFile`, `OneSetting`, `Description` | the submit description, each text against an independent reader of Condor's syntax |
| `Macros`, `MacroFormats`, `Arrivals`, `Renaming`, `SettingNames` | the whole way through the submit file, with Condor's expansion of references, and what becomes of the files that are to be renamed |
| `Protocol*` | the threads: constructors, runners, pollers, waiters, destructors, the log thread, and Condor, as one transition system with the registry lock and one lock per job |

## How it is built

What the sources change in place is a class whose methods are proved against functions: the attribute
map, the read loop and its counter, the job data, the registry, the pools, the locks and the
description. What is promised about whole logs, whole runs and whole texts is proved about those
functions.

The protocol is a transition system. A thread is at a stage, holds locks and may wait for one; a step is
enabled when its thread has the locks that the stage needs, and locking is a step of its own. The locks
are recursive; while a thread sleeps on the condition it holds none. Condor is part of the system: it
gives out each number once and appends entries about numbers that it has given out. All the results in
`ProtocolRuns` hold after every sequence of steps.

Invariants of the protocol are grouped: who holds which lock (`ProtocolLocks`), where threads stand
relative to each other and to instances (`ProtocolPlaces`), what is in the registry (`ProtocolRegistry`),
what has become of the log (`ProtocolLog`), and what instances and waiters see (`ProtocolInstances`).
`ProtocolBytes` replaces the log of entries by the file: Condor prints records, the log thread reads the
file in pieces, and it takes an entry only when its reader has handed it on. Every such run is one of
the protocol, so what holds there holds down to the bytes. `ProtocolAttached` follows a job that was
attached to from the answer of `condor_q` on, `ProtocolWaits` those who wait. `ProtocolStale` is one run, step by
step.

Condor's reader takes the submit file line by line, joins lines at a backslash, leaves comments out, reads
names without regard to case, and replaces references in what it has read: macros `$(name)`, attributes of the
machine `$$(name)` with or without a default, expressions about it `$$([...])`, and calls of functions such as
`$ENV(name)`. A setting is undisturbed if presets and other settings bring nothing into its line and
assign nothing to its name behind it; that is the exact condition for reading a value that stays on its line and
does not end in a backslash. `Arrivals` assumes that, and that a line which is taken in at a backslash is one
with an assignment or the queue command and does not go on itself. Which functions there are and whether macros
may have defaults differs between versions of Condor; both are parameters, and the results hold for any choice.
That something arrives under the conditions of `Arrivals` holds for any values of macros; that it arrives in no other case holds for values that have neither
a parenthesis nor a line break.

## What the code does that one would not expect

- The text that `skip_to_classad` passes over may end in a `<`. If a read ends between the `<` and the
  `c` of an opener, the record is lost. Reading in pieces agrees with reading the whole stream exactly
  if no read ends one byte behind the opening of a record.
- The grammar lists the tags `rt` and `er`, but the single letters are tried first, so a record with
  such a value never parses and, being kept as incomplete, stops the log.
- `waited_for_retry` never leaves zero, so the branch that skips an incomplete record is dead.
- The five passes of entity decoding undo the escaping exactly if the text does not itself contain
  `&apos;`, `&lt;` or `&gt;`.
- A requirement, a host, a remap or an argument is read back exactly under conditions that the code does
  not check: no unbalanced parenthesis or string, no double quote, no backslash, and no empty argument
  or argument in which other white space is neither accompanied by a space nor by a single quote.
- The adaptor writes `Universe` with a capital letter; a preset `universe` comes later in the file and
  takes the setting back. Every other setting of the adaptor is in lower case and wins.
- Final states are not absorbing: a job that is evicted and executes again is running.
- Jobs without an XML log share one pool, whatever their resource manager is, and the pool has the URL of
  the first. Attaching to jobs of two resource managers that have the same ID fails an assertion of
  the registry.
- The first test of sync_wait and sync_cancel is made on the cached state without a lock, so a wait can
  end on a final state that an execution event has overtaken.
- An entry whose event type is not a number throws out of the log thread: nothing behind it is ever
  handled, and with Boost 1.35 or later the exception ends the whole process.
- A setting that ends in a backslash takes in the next line, which nearly always is there, since `queue` is the
  last one; so such a value does not arrive, and the setting in that line is lost.
- The adaptor keeps no references to macros out, so an argument, a variable or a file name with `$(Process)`
  in it is replaced; and no setting with a line break arrives as it was meant.
- The remaps are written as `local=remote`, while Condor looks for the name of the job's file in front: a
  file asked for as `result.txt` comes back as `out.txt`.
- The names of the files to fetch are separated by spaces only.
- CPU count, memory, architecture and system are written with a single equals sign, which compares
  nothing.
- Attaching twice to a job whose log belongs to a pool of another URL fails an assertion.
- Only the instance that runs a job is told that the job is running; it is the only one at that time.

## Model

| member | source | states |
|---|---|---|
| Entities.DecodeInvertsEscape | condor_job/classad.hpp:167-182 | For every text: decoding inverts the escaping of section 4.6 of XML 1.0 if and only if the text spells out none of `&apos;`, `&lt;`, `&gt;`. |
| Entities.DecodeOfEscape | condor_job/classad.hpp:167-182 | For every text, what the passes make of its escaped form: the text with the entities that it spells itself taken up by the last three passes, and by no other. |
| Entities.EscapeIs | condor_job/classad.hpp:167-182 | The escaping that decoding undoes, character by character: the five marks and their entities. |
| Grammar.RecordLocal | condor_job/classad.hpp:319-350 | A record that matches is decided by its own characters: any text that agrees with it up to its end matches in the same way. |
| Grammar.RecordExtension | condor_job/classad.hpp:319-350 | Extension stability and its converse: more text never changes a match, and a record that matches only with more text ends in that text. |
| Grammar.RecordHasNoShorterRecord | condor_job/classad.hpp:319-350 | No proper prefix of a record is a record. |
| Grammar.ElementIsNotBool | condor_job/classad.hpp:330-344 | The two alternatives of a value never compete, so trying the boolean form first loses nothing. |
| Grammar.SkipStops | condor_job/classad.hpp:287-288 | The skipping stops exactly at the first `<c` that has no letter or digit behind it, or at the end of the text. |
| Grammar.PassedOver | condor_job/classad.hpp:287-288 | Text is passed over to its end exactly if every `<c` in it has a letter or digit behind it. |
| ClassAds.ClassAd.SetAttribute | condor_job/classad.hpp:226-234 | Afterwards the attribute stands under the lowered key and nothing else has changed. |
| ClassAds.ClassAd.GetAttribute | condor_job/classad.hpp:236-246 | Finds what is stored under the lowered key, and nothing exactly if there is none. |
| ClassAds.ClassAd.RemoveAttribute | condor_job/classad.hpp:248-251 | Only the key as it is spelled goes away. |
| ClassAds.ClassAd.CommitAttribute | condor_job/classad.hpp:160-186 | Running every row of the entity table over key and text stores the decoded text under the lowered and decoded key. |
| ClassAds.ClassAd.ParseAttributes | condor_job/classad.hpp:319-328 | The star stops where the grammar says, having stored exactly the attributes that it passed, in order. |
| ClassAds.ClassAd.FindAndParse | condor_job/classad.hpp:77-96 | Stops behind the next record with its attributes merged in, or, if the parse fails, at the place from which the text has to be kept with the attributes untouched; in both cases it has begun at the first `<c` without a letter or digit behind it. |
| RecordPrinter.RecordHere | condor_job/classad.hpp:319-350 | A printed record is parsed back wherever it stands and whatever follows it. |
| RecordPrinter.RecordRoundTrip | condor_job/classad.hpp:77-96 | Behind any text in which every `<c` has a letter or digit behind it, a printed record of the readable tags, with empty values in either form, is found and read as it was meant: keys lowered, later duplicates winning. |
| RecordPrinter.UnreadableRecord | condor_job/classad.hpp:338-341 | A record in which any attribute has the tag `rt` or `er` never parses, whatever follows. |
| LogReader.DrainExtended | condor_job/log_processor.hpp:130-159 | Draining an extended buffer delivers what draining the buffer delivers, and goes on from what was kept, except that a `<` dropped at its end is seen after all. |
| LogReader.RunAgrees | condor_job/log_processor.hpp:98-160 | From any drained buffer, the loop over reads agrees with one pass over everything to come if and only if no read ends one byte behind the opening of a record. |
| LogReader.LossIsFinal | condor_job/log_processor.hpp:141-157 | Once a read has lost the first byte of an opener, no later reads make up for it. |
| LogReader.ChunkIndependence | condor_job/log_processor.hpp:98-160 | For every stream and every division into reads: deliveries with their spans and the rest are those of the whole stream if and only if no read ends one byte behind the opening of a record. |
| LogReader.ChunkIndependenceByBytes | condor_job/log_processor.hpp:98-160 | It is enough that no read ends in `<` with `c` as the next byte. |
| LogReader.SplitRecordIsLost | condor_job/classad.hpp:287-288 | The shortest record, cut behind its first byte, is lost without a trace. |
| LogReader.DrainAccounts | condor_job/log_processor.hpp:130-159 | One drain delivers disjoint spans of the stream in order, each of them one whole record with exactly the delivered attributes, and leaves a suffix of the stream. |
| LogReader.RunAccounts | condor_job/log_processor.hpp:98-160 | The same for every division into reads; what is left is empty or starts with an opener that no complete record starts. |
| LogReader.DrainComplete | condor_job/log_processor.hpp:130-159 | Every opener in front of what is left lies in a delivered span: a whole pass overlooks nothing. |
| LogReader.LogRoundTrip | condor_job/log_processor.hpp:98-160 | A log printed from records, with any white space inside them and any text in front of and between them in which every `<c` has a letter or digit behind it, and in any reads of which none ends one byte behind the opening of a record, is handed on as exactly those records, and nothing is left. |
| LogReader.FrameIsPassedOver | condor_job/condor_job.cpp:136-140 | Any record between `<classads>` and `</classads>` is found behind the ten characters of the frame and read as it was meant. |
| LogReader.EmptyJobIsFound | condor_job/condor_job.cpp:136-140 | The frame with an empty record: the record is characters 10 to 17. |
| LogReader.UnreadableRecordBlocks | condor_job/log_processor.hpp:152-157 | A record with an `rt` or `er` value is kept for ever and nothing behind it is delivered. |
| LogReader.LogProcessor.ReadLog | condor_job/log_processor.hpp:71-161 | The loop with its counter hands on and keeps what the functional reading says, and the counter ends at zero. |
| LogReader.LogProcessor.DrainBuffer | condor_job/log_processor.hpp:130-159 | The inner loop terminates because it shortens the buffer, delivers what the functional reading says, and never takes the branch that skips. |
| LogToJobs.LogReachesJobs | condor_job/log_processor.cpp:64-247 | From bytes to jobs, with a registry that stays as it is: whatever reads a printed log arrives in, if none ends one byte behind the opening of a record, each registered job ends in the state of the last of its own records with their attributes merged. |
| SampleLog.JobIsDone | condor_job/test/saga-condor-log.classad:22-39 | From text to job: an entry as it stands in the sample log, in its frame and with any cluster, time and exit code, makes the job of that cluster Done, with the exit code and the time, however the text is read. |
| EventCodes.LastEntryDecides | condor_job/log_processor.cpp:90-237 | Event type by event type, after any log: 0, 1 and 13 leave the job Running, 12 Suspended, 2 and 4 Failed, 9 Canceled, 5 Done, or Failed if the entry names a signal; any other number, or none, leaves it as it was. |
| EventCodes.LastEntrySets | condor_job/log_processor.cpp:112-169 | And attribute by attribute: the finish time from the event time for 2, 4, 5 and 9, exit code and signal for 5, and every other attribute as it was. |
| EventCodes.TargetMeans | condor_job/log_processor.cpp:67-82 | An entry is about the job registered under its cluster, or else about the one under cluster, dot and process. |
| EventCodes.NumbersAreRead | condor_job/log_processor.cpp:64-66 | Every number of 32 bits is read as it was written in decimal, with or without a sign, and no larger one is. |
| EventCodes.NothingElseIsRead | condor_job/log_processor.cpp:64-66 | What is read is digits behind at most one sign. |
| Events.ReplayRefinement | condor_job/log_processor.cpp:90-237 | In any interleaved log a job's final state is that of its own last state-bearing entry, and each attribute that of its own last entry that sets it. |
| Events.ReplayCommutes | condor_job/log_processor.cpp:73-84 | Two logs that agree on the entries of every job have the same outcome. |
| Events.NeighboursCommute | condor_job/log_processor.cpp:73-84 | Neighbouring entries about different jobs can be swapped anywhere in a log. |
| Events.OutcomeIsReplay | condor_job/log_processor.cpp:90-237 | Replaying the whole log and applying only the job's own effects give the same job. |
| Events.FinalIsNotAbsorbing | condor_job/log_processor.cpp:96-124 | An eviction makes the state final; an execution event behind it makes the job running again. |
| Events.EvictedRunsAgain | condor_job/log_processor.cpp:96-124 | Such a log for any registered cluster, with two concrete entries. |
| Events.FiredStates | condor_job/condor_job.hpp:80-114 | A live instance fires its metric on exactly the job's states with consecutive repeats left out and ends up showing the last; an instance without proxy never changes. |
| Events.ChangesDoNotRepeat | condor_job/condor_job.hpp:96-110 | In what is fired no state repeats the one before, and the last one is the last state of all. |
| Events.AttributesAreShown | condor_job/condor_job.hpp:91-98 | After any entry a live instance shows every attribute of its job. |
| Jobs.JobInstance.UpdateState | condor_job/condor_job.hpp:80-114 | Without proxy nothing happens; otherwise the attributes are merged in, the metric fires exactly on a change, and the cache is marked. |
| Jobs.JobInstance.GetState | condor_job/condor_job.hpp:68-78 | Returns the job's state if the cache was marked and the cached one otherwise; the mark is gone. |
| Jobs.JobInstance.IsStateFinal | condor_job/condor_job.hpp:60-66 | True exactly for Done, Canceled and Failed, of the state that get_state would return. |
| Jobs.JobInstance.Join | condor_job/condor_job.cpp:201-207 | The instance is told of the state as it is and is among the job's instances. |
| Jobs.JobInstance.Leave | condor_job/condor_job.cpp:29-34 | The instance, and no other, no longer follows the job and no longer holds its data. |
| Jobs.JobInstance.SetJobId | condor_job/condor_job.cpp:36-54 | With its own assertion and those of the registry as the preconditions: the identifier is shown, and the job is registered under its cluster ID exactly if it has an identifier and neither another instance nor the registry holds its data. |
| Jobs.JobInstance.Submitted | condor_job/condor_job.cpp:304-330 | Running, the cluster ID and the identifier are written, the identifier, which is read back as the pool's URL and the cluster, is shown, the job is registered if nobody else holds its data, and this instance alone is told. |
| Jobs.SharedJobData.RegisterJob | condor_job/shared_job_data.hpp:29-32 | The pool's registry has the job under its cluster ID and is otherwise unchanged. |
| Jobs.SharedJobData.UnregisterJob | condor_job/shared_job_data.hpp:34-37 | The pool's registry has lost exactly that key. |
| Jobs.JobRegistry.RegisterJob | condor_job/job_registry.cpp:40-51 | With both assertions as the precondition, exactly one entry is added. |
| Jobs.JobRegistry.UnregisterJob | condor_job/job_registry.cpp:53-57 | With the assertion as the precondition, exactly one entry goes away. |
| Jobs.JobRegistry.FindJob | condor_job/job_registry.cpp:59-68 | The job under the key, and null exactly if there is none. |
| Jobs.Pool.GetLog | condor_job/pool_data.cpp:23-41 | A pool opens one log and starts one processor, which works on the pool's own registry; later calls change nothing. |
| Jobs.JobAdaptor.GetPool | condor_job/condor_job_adaptor.hpp:134-144 | The pool under the URL, made with the configured log exactly if there was none. |
| Jobs.JobAdaptor.GetPoolForLog | condor_job/condor_job_adaptor.hpp:146-156 | The pool under the log's name, whatever its URL; a new one gets the given URL and log. |
| Jobs.JobAdaptor.FindJob | condor_job/condor_job_adaptor.cpp:128-156 | Collecting the candidates first and asking them with an early exit finds the job of the first pool, in key order, that has the URL and knows the ID. |
| Jobs.EventProcessor.Resolve | condor_job/log_processor.cpp:58-82 | The event type, or that reading it throws, and the job under the cluster, or else under cluster and process. |
| Jobs.EventProcessor.Switch | condor_job/log_processor.cpp:90-237 | State and attributes are changed as the event demands, number by number and attribute by attribute, and not at all for events that are not processed. |
| Jobs.EventProcessor.Notify | condor_job/log_processor.cpp:239-245 | Every instance, in whatever order, is told exactly once, and the waiters are notified once. |
| Jobs.EventProcessor.ProcessLogEntry | condor_job/log_processor.cpp:14-248 | The job that the entry is about, all of its instances and its waiters see the effect; every other job and instance is unchanged; it throws exactly if the event type cannot be read. |
| Jobs.EventProcessor.ProcessLog | condor_job/log_processor.hpp:141-151 | Over a whole log, up to the first entry that throws: jobs are what replaying makes of them, and each instance has been told of each state of its own job. |
| Synchronized.Lock.Acquire | condor_job/synchronized.hpp:24-36 | The new lock owns one more hold of the mutex; among any mutexes and live locks this is the acquiring step, and conservation is kept. |
| Synchronized.Lock.Copy | condor_job/synchronized.hpp:38-42 | Copying moves: the new lock owns what the old one owned, which is empty now; it is the copying step, and conservation is kept. |
| Synchronized.Lock.Assign | condor_job/synchronized.hpp:60-68 | With the assertion as the precondition, assigning moves, and assigning to itself changes nothing; it is the assigning step, and conservation is kept. |
| Synchronized.Lock.Destroy | condor_job/synchronized.hpp:44-58 | Where holds are conserved, the mutex is held, and one hold goes exactly if the lock owns one; it is the destroying step, and conservation is kept. |
| Synchronized.Lock.Release | condor_job/synchronized.hpp:70-73 | The temporary copy and its destruction amount to the releasing step: the lock is empty, one hold has gone exactly if it owned one, and conservation is kept. |
| Synchronized.HoldsAreOwned | condor_job/synchronized.hpp:22-78 | Conservation: after every sequence of operations a mutex is held as often as there are live locks that own it. |
| Synchronized.NeverUnlockedTwice | condor_job/synchronized.hpp:44-73 | Whatever came before, an unlock finds the mutex held and takes exactly one hold. |
| Synchronized.NeverLeaked | condor_job/synchronized.hpp:22-78 | A mutex is free exactly if no live lock owns it. |
| JobIds.SplitIsLongest | condor_job/helper.hpp:30-36 | The greedy match divides an identifier into URL and ID exactly if that is a reading of it and no reading has a longer URL. |
| JobIds.JobIdRoundTrip | condor_job/condor_job.cpp:326-327 | For every non-empty URL and ID, the identifier is read back if and only if the separator does not occur inside the ID with something behind it. |
| JobIds.NumberedIsReadBack | condor_job/condor_job.cpp:326-327 | What sync_run writes, `[url]-[cluster]` with a number for the cluster, is read back as the URL and that number. |
| JobIds.ParseJobIdRoundTrip | condor_job/helper.hpp:27-51 | Parsing such an identifier gives back URL and ID if the engine accepts the URL and it has a scheme and a host, and otherwise says which of these is missing. |
| JobIds.NothingElseIsParsed | condor_job/helper.hpp:27-51 | A text is refused as no identifier exactly if it is not of the form `[url]-[id]` with neither empty. |
| JobIds.ClusterOfIs | condor_job/condor_job_service.cpp:159-164 | A line has a cluster exactly if it is two numbers with a dot between them, and the first is the cluster. |
| JobIds.List | condor_job/condor_job_service.cpp:155-172 | The loop with its set of clusters lists what the specification over the lines lists. |
| JobIds.ProcessesInOrder | condor_job/condor_job_service.cpp:155-172 | The processes in the listing are those of the input, in order and as often. |
| JobIds.EachClusterOnce | condor_job/condor_job_service.cpp:155-172 | Each cluster is listed exactly once, immediately before its first process, and each listed process has its cluster in front of it. |
| JobIds.ListedIsReadBack | condor_job/condor_job_service.cpp:166-170 | Every listed identifier is read back as the URL and the ID that it was made from. |
| Pools.FindJobIs | condor_job/condor_job_adaptor.cpp:128-156 | Nothing is found exactly if no pool of that URL knows the ID; otherwise what one of them has registered. |
| Pools.AttachAssertsExactly | condor_job/job_registry.cpp:45-48 | In any state, attaching fails an assertion if and only if the pool of the log has another URL and knows the ID, and no pool of the right URL does. |
| Pools.SubmitAssertsExactly | condor_job/job_registry.cpp:45-48 | In any state, submitting fails an assertion if and only if nobody shares the data and the pool has a job under the new ID. |
| Pools.CreateNeverAsserts | condor_job/condor_job.cpp:174-199 | Making an instance of a new job fails no assertion in any state. |
| Pools.AttachingTwice | condor_job/condor_job.cpp:103-168 | In any state: attaching to a job whose log belongs to a pool of another URL registers it where it is not found again, and attaching to it once more fails an assertion. |
| Pools.RegisteredOnce | condor_job/condor_job.cpp:51-53 | Data are in a registry exactly if they have an ID, and under that ID in their own pool only. |
| Pools.RunsStayWellFormed | condor_job/condor_job.cpp:83-207 | Over every run with one URL per log: keys are the IDs of their jobs, what has an ID is registered, what has none has one holder, and pools of one URL share no ID. |
| Pools.NoAssertionFails | condor_job/job_registry.cpp:40-51 | In every such run no assertion of register_job ever fails. |
| Pools.AttachingShares | condor_job/condor_job.cpp:89-103 | Whoever attaches by the identifier that sync_run has made, however much later in such a run, holds the very data of that job. |
| Pools.JobsWithoutLogClash | condor_job/condor_job.cpp:152-163 | Two resource managers, one ID, no XML log: a run of four steps after which the second attach fails an assertion. |
| Arguments.MapAttributeVector | condor_job/description.hpp:487-523 | The loop with its replacements makes the text of the specification, and nothing for an empty list. |
| Arguments.ReadFormat | condor_job/description.hpp:500-516 | For every list, what a reader of Condor's new syntax makes of the text: the pieces that the unquoted white space leaves. |
| Arguments.ArgumentsRoundTrip | condor_job/description.hpp:500-516 | That reader gives back exactly the list if and only if each argument is quoted or is a non-empty word. |
| Transfers.RemapsRoundTrip | condor_job/description.hpp:378-389 | The remaps are read back as the original pairs if and only if no name contains a backslash. |
| FileLists.ListedRoundTrip | condor_job/description.hpp:358-395 | A list of file names, with white space around it or without, splits back into its names if and only if they can be told apart and what stands between them separates. |
| Requirements.JoinHosts | condor_job/description.hpp:171-197 | The loop leaves out empty hosts and joins the others. |
| Requirements.JoinRequirements | condor_job/description.hpp:206-220 | The loop joins the requirements, each in parentheses. |
| Requirements.JoinRoundTrip | condor_job/description.hpp:206-220 | The expression splits back into the requirements if and only if each closes its own parentheses and strings. |
| Requirements.HostsRoundTrip | condor_job/description.hpp:171-197 | The hosts are read back without the empty ones if and only if no name contains a double quote, and then they make one self-contained requirement. |
| Requirements.HostsAre | condor_job/description.hpp:171-197 | One host is `( Machine == "name" )`, and several are joined by two vertical bars between spaces.
| Requirements.NonEmptyAre | condor_job/description.hpp:184-190 | Host by host, the empty ones are left out and the others kept in order. |
| Requirements.ConjunctsAre | condor_job/description.hpp:206-220 | One requirement stands in parentheses, and several are joined by ` && `. |
| SubmitFile.Description.Print | condor_job/description.hpp:50-71 | One pass over the map prints the assignments in key order and then the queue command. |
| SubmitFile.EveryEntryOnce | condor_job/description.hpp:50-71 | Every non-empty setting is on exactly one line, there are no other lines, and queue is the last. |
| SubmitFile.ReadRendered | condor_job/description.hpp:50-71 | For every name and regular settings (names that are words and open no comment, values that stay on their line), read without regard to case and with the last assignment winning: the value of the spelling that comes last, and nothing if no spelling has a value. |
| SubmitFile.OpenValueSwallows | condor_job/description.hpp:62-66 | A value that ends in a backslash takes the next line in, and the setting there is not read. |
| SubmitFile.SettingWins | condor_job/description.hpp:443-482 | Among regular settings, a setting of the adaptor is what is read if and only if no preset in a spelling that comes later has another value. |
| SubmitFile.LowerCaseSettingWins | condor_job/description.hpp:443-482 | Among regular settings, one in lower case wins against all presets, because of all spellings the lower-case one comes last. |
| OneSetting.SettingIsRead | condor_job/description.hpp:50-71 | What is read for a setting in lower case that stays on its line and is left undisturbed by all others (only white space comes into its line from lines in front that go on, and no line behind it assigns the name): its value, and if that ends in a backslash and a line follows, with that line in place of the backslash. |
| OneSetting.ArrivesExactly | condor_job/description.hpp:50-71 | For any names and any values of all other settings, line breaks and backslashes included: every tidy value of a setting is what is read for it if and only if the setting is left undisturbed. |
| OneSetting.RegularIsUndisturbed | condor_job/description.hpp:50-71 | Regular presets and settings leave every setting in lower case undisturbed. |
| SubmitFile.UniverseCanBeTakenBack | condor_job/description.hpp:276-296 | The capitalised setting does not: a preset for the universe is what is read. |
| JobDescriptions.SagaToCondor.MapAttribute | condor_job/description.hpp:459-472 | The setting is made exactly if the attribute exists, and nothing else changes. |
| JobDescriptions.SagaToCondor.MapAttributeVector | condor_job/description.hpp:487-523 | The same for lists, unless the list is empty. |
| JobDescriptions.SagaToCondor.ProcessX509Certs | condor_job/description.hpp:241-274 | The last usable proxy of an x509 context is set. |
| JobDescriptions.SagaToCondor.ProcessCondorGHost | condor_job/description.hpp:276-296 | A Condor-G resource sets the grid universe and the resource; any other sets the capitalised universe. |
| JobDescriptions.SagaToCondor.ProcessFileTransfer | condor_job/description.hpp:299-420 | It fails with the error of the first entry that is refused, and then nothing has been set; otherwise the files and remaps of all entries are set. |
| JobDescriptions.SagaToCondor.MapContacts | condor_job/description.hpp:131-150 | The first mail address is set, and nothing if there is none. |
| JobDescriptions.SagaToCondor.MapRequirement | condor_job/description.hpp:422-441 | One requirement is added exactly if the attribute exists and is not empty. |
| JobDescriptions.SagaToCondor.CollectRequirements | condor_job/description.hpp:163-220 | Hosts first and then the four requirements, joined into one setting unless there are none. |
| JobDescriptions.SagaToCondor.Translate | condor_job/description.hpp:80-221 | It fails with the error of the first thing that is refused; otherwise the attributes are the presets with the adaptor's settings laid over them, and the requirements are those of the description. |
| JobDescriptions.AcceptedExactly | condor_job/description.hpp:98-160 | Nothing is refused if and only if there is an executable, the job is not interactive, every file transfer is a copy that Condor can do, and no parallel attribute is set. |
| JobDescriptions.RefusedBecause | condor_job/description.hpp:98-160 | Which error it is: of several reasons, the first one in the order of the source counts. |
| JobDescriptions.TransferRefusedBecause | condor_job/description.hpp:300-395 | Which error a file transfer causes: that of the first entry that cannot be done. |
| SettingNames.Describe | condor_job/condor_job.cpp:262-296 | From description to text: an accepted description is printed over the presets, and its last line is `queue` with the number of processes, or with 1 if there is none. |
| SettingNames.ProxyIsSet | condor_job/description.hpp:241-274 | `x509userproxy` is the proxy of the last x509 context that has one which exists. |
| SettingNames.NoProxyIsSet | condor_job/description.hpp:241-274 | Without such a context it is not set. |
| SettingNames.GridIsSet | condor_job/description.hpp:276-296 | For a Condor-G resource `universe` is `grid` and `grid_resource` is the URL with `gt2 ` in place of the first `condorg://`. |
| SettingNames.VanillaIsSet | condor_job/description.hpp:276-296 | For any other resource `Universe` is `vanilla`, and `universe` is not set. |
| SettingNames.NotifyIsSet | condor_job/description.hpp:131-150 | `notify_user` is what follows `mailto:` in the first contact that begins with it. |
| SettingNames.NobodyIsNotified | condor_job/description.hpp:131-150 | Without such a contact it is not set. |
| SettingNames.RequirementsAre | condor_job/description.hpp:163-204 | The requirements are the hosts, if any, and `cpus`, `memory`, `arch` and `opsys`, each if it is set and not empty, with ` = ` between name and value. |
| JobDescriptions.AdaptorSettingsWin | condor_job/description.hpp:80-221 | Whatever presets there are, for every name that the adaptor sets, save queue and the capitalised universe: Condor reads the adaptor's tidy value if the setting is left undisturbed, regular presets and settings leave it so, and any tidy value would be read only if it is. |
| Arrivals.SettingArrives | condor_job/description.hpp:443-482 | For every name that the adaptor sets, with any presets and other settings that leave it undisturbed: Condor reads the value, with the line that it takes in at a backslash, if it stays on its line, and never reads a value with a line break. |
| Arrivals.ALineFollows | condor_job/description.hpp:123-123 | Unless the number of processes is set to an empty text, every value that ends in a backslash takes a line in. |
| Arrivals.SettingIsUsed | condor_job/description.hpp:443-482 | For every name that the adaptor sets, what Condor uses after expanding references is the value if it has no line break, no white space at its ends and no reference, and takes no line in; and, unless a macro's value has a parenthesis or a line break, or both the line taken in has a parenthesis and what is read a reference, only then. |
| Arrivals.CopiedSettingArrives | condor_job/description.hpp:98-121 | The same for the attributes of the description that are copied: executable, working directory, input, output, error and start time. |
| Arrivals.UnclearMayCoincide | condor_job/description.hpp:62-66 | A concrete value that takes a line in, with a parenthesis there and a reference across both, and that is used as it was meant all the same. |
| Arrivals.ArgumentsArrive | condor_job/description.hpp:487-523 | From description to submit file to a reader that expands references, in any dialect of them: the arguments that the job starts with are those asked for if each survives the quoting and has no line break, and there is no reference in what is written; and, unless a macro's value has a parenthesis or a line break, only then. |
| Arrivals.ReferencesDoNotArrive | condor_job/description.hpp:487-523 | No list with a plain reference to a macro anywhere in an argument meets that condition: the quoting leaves it as it is. |
| Arrivals.EnvironmentArrives | condor_job/description.hpp:100-100 | The same for the environment, which Condor refuses unless every entry is a variable: the condition is the same, and every entry has an equals sign behind a name that is not empty. |
| Arrivals.SentFilesArrive | condor_job/description.hpp:350-409 | Through the submit file, with commas or with commas and spaces as separators: the files that Condor sends are those of the description if each name has no separator, no white space at its ends and no line break, there is no reference in the list, and the list does not end in a backslash with a line behind it; and only then, under the proviso of SettingIsUsed. |
| Arrivals.FetchedFilesArrive | condor_job/description.hpp:395-411 | The same for the files that Condor fetches, and moreover spaces must be separators or there is one file only. |
| Arrivals.TransfersAre | condor_job/description.hpp:350-395 | Entry by entry: the left names of copies to the job are sent, the right names of copies from it are fetched, and those whose last components differ are renamed. |
| Arrivals.RemapsArrive | condor_job/description.hpp:378-389 | Through the submit file, the pairs that Condor reads are those of the description as they were written if no name has a backslash or a line break, and there is no reference in what is written; and, unless a macro's value has a parenthesis or a line break, only then. |
| Renaming.ArrivesAsAskedExactly | condor_job/description.hpp:376-395 | A file that is to be renamed arrives under its local name if and only if the first entry whose local name is the remote name of this one has for its remote name the local name of this one. |
| Renaming.RemoteNamesStay | condor_job/description.hpp:376-395 | If no local name is the remote name of another entry, every file that was to be renamed arrives under its remote name. |
| Renaming.ResultComesBackAsOut | condor_job/description.hpp:376-395 | One file: asked for as result.txt, it comes back as out.txt. |
| Renaming.RenamingIsLost | condor_job/description.hpp:376-413 | The same through the submit file, with the remaps that Condor reads. |
| Arrivals.RequirementsArrive | condor_job/description.hpp:163-220 | Through the submit file, the conjuncts that Condor reads are the texts of the requirements if each closes its own parentheses and strings and has no line break, and there is no reference in what is written; and, unless a macro's value has a parenthesis or a line break, only then. |
| Arrivals.RequirementsCompare | condor_job/description.hpp:171-204 | All conjuncts are comparisons if and only if the description sets none of CPU count, memory, architecture and system: those are written with a single equals sign. |
| ProtocolLocks.FitStays | condor_job/condor_job.cpp:242-330 | In every step threads hold what their stage needs or wait for the one missing lock; the registry stays locked from submission to registration. |
| ProtocolLocks.ExclusiveStays | condor_job/synchronized.hpp:22-83 | No step gives a lock a second owner. |
| ProtocolLocks.WaitsDescend | condor_job/pool_data.cpp:26-38 | Waiting leads to a thread of lower rank, including the wait for the log thread while the registry is locked. |
| ProtocolLocks.NoCycle | condor_job/condor_job.cpp:249-330 | No chain of waiting threads, of any length, returns to its start. |
| ProtocolPlaces.OrderlyStays | condor_job/condor_job.cpp:29-208 | Every step keeps locks, threads, instances and jobs in order: given that no constructor starts next to another one, none is next to another one; one runner per job; and nobody at an instance that is being destroyed. |
| ProtocolRegistry.NotShared | condor_job/condor_job.cpp:51-53 | When a job is about to be registered, the test for unique data succeeds. |
| ProtocolRegistry.WellRegisteredStays | condor_job/condor_job.cpp:103-199 | Every step keeps: keys are IDs of their jobs, what has an ID is registered or about to be, unregistered data have one instance, and no two threads are about to register one ID. |
| ProtocolLog.LookupRecognises | condor_job/log_processor.cpp:67-82 | An entry is found to be about a submitted job exactly if it names the job's cluster. |
| ProtocolLog.RunnersUnseenStay | condor_job/condor_job.cpp:248-329 | Every step keeps: no entry about a job is looked up between its submission and its registration. |
| ProtocolLog.NothingLostStays | condor_job/log_processor.hpp:73-80 | Every step keeps: entries about submitted jobs lie behind the start of reading and have had their effect once and in order, except those not yet read. |
| ProtocolInstances.AgreementsStay | condor_job/condor_job.hpp:68-114 | Every step keeps: each live instance agrees with its job, or is among those that the log thread or the runner, holding the lock, is about to tell. |
| ProtocolInstances.TestSees | condor_job/condor_job.hpp:60-78 | The test of a wait, made with the job locked, sees the state as it is. |
| ProtocolInstances.SleepersStay | condor_job/condor_job.cpp:409-429 | Every step keeps: who sleeps un-notified sleeps on a job that is not final, or the log thread, holding the lock, is about to notify. |
| ProtocolRuns.NoEventIsLost | condor_job/condor_job.cpp:242-330 | In every reachable state, for a submitted job: none of its entries lies before the start of reading, the handled entries are the first of those that can be read, and the job is what the ones about it make of a running job, in order and each once. |
| ProtocolRuns.CaughtUp | condor_job/log_processor.hpp:98-160 | Once the log has been read to its end, or an entry that cannot be read has ended the log thread, a submitted job is what all readable entries about it make of it. |
| ProtocolAttached.TargetNames | condor_job/log_processor.cpp:67-82 | With keys that are the IDs of their jobs, an entry is found to be about a job exactly if it names the job's ID by cluster or by cluster and process, unless it does so by the process and its cluster is registered by itself. |
| ProtocolAttached.AttachedJobFollows | condor_job/condor_job.cpp:103-199 | For a job that was attached to, in every run and at every time after its registration: the entries that have been handled since are the first of the readable ones, and the job is what those that name its ID make, in order and each once, of the state that condor_q has given; all of them, once the log is read to its end or the log thread is dead. The one proviso is that no such entry names a registered cluster. |
| ProtocolAttached.AttachedClusterFollows | condor_job/condor_job.cpp:103-199 | For a job that was attached to by a number, without the proviso. |
| ProtocolBytes.NoRecordIsLost | condor_job/log_processor.hpp:71-161 | The same over the bytes of the file, in every run of Condor printing records, reads of which none ends one byte behind the opening of a record, and steps of all threads: what the reader has handed on are the first records in the file, and a submitted job is what the handled ones among them make of it. |
| ProtocolBytes.RecordsReachJobs | condor_job/log_processor.hpp:71-161 | When everything printed has been read and handled, or an unreadable record has ended the log thread, each submitted job is what the readable records about it make of it. |
| ProtocolRuns.RegistrationHolds | condor_job/job_registry.cpp:40-51 | In every reachable state, whoever registers a job finds the ID unused and the data unshared, and the job is registered afterwards. |
| ProtocolRuns.RegistryIsInjective | condor_job/job_registry.cpp:40-51 | In every reachable state each key is the ID of its job and no job has two keys. |
| ProtocolRuns.CachesAgree | condor_job/condor_job.hpp:68-114 | In every reachable state in which a job is not locked, each live instance that follows it shows its state in the metric and has it cached or knows that the cache is out of date. |
| ProtocolRuns.WaitersAreWoken | condor_job/log_processor.cpp:239-245 | In every reachable state in which a final job is not locked, everyone who sleeps on it at a live instance has been notified. |
| ProtocolRuns.WaitsReturnFinal | condor_job/condor_job.cpp:412-429 | A wait whose test under the lock ends it returns while the state is final, a final state ends it, and a wait without limit ends in no other way. |
| ProtocolRuns.UnlockedTest | condor_job/condor_job.cpp:405-410 | In every reachable state the test that sync_wait makes without a lock ends the wait exactly if the cached state is final; at a live instance that is exactly if the state is final, unless the instance has been told of a change since or is about to be. |
| ProtocolRuns.StaleTest | condor_job/condor_job.cpp:405-410 | Where an execution event is applied after the look at a final state, the unlocked test still ends the wait, with the job running. |
| ProtocolStale.StaleWait | condor_job/condor_job.cpp:405-410 | Such a run from the start, with a concrete entry: a wait without a time limit ends on a failed state while the job is running. |
| ProtocolWaits.WaitersHaveStarted | condor_job/condor_job.cpp:398-407 | In every reachable state whoever waits, waits for a job that has an ID. |
| ProtocolWaits.UntimedWaitGoesOn | condor_job/condor_job.cpp:424-428 | In every reachable state a wait without a limit goes on through every step of any thread until its own test has seen a state that is Done, Canceled or Failed. |
| ProtocolWaits.ExpiredWaitEnds | condor_job/condor_job.cpp:413-423 | A wait with a limit ends with the test behind its expiry, whatever the state is. |
| ProtocolWaits.AskersLook | condor_job/condor_job.hpp:68-78 | In every reachable state, who asks an instance that has been told of a change looks at the job's state with the job locked, and has it cached; who asks another one is answered from the cache. |
| ProtocolWaits.JobsBeginAsNew | condor_job/condor_job.cpp:174-186 | In every reachable state a job without an ID is New and has no attributes, and a submitted one has a number. |
| ProtocolWaits.OnlyNewJobsAreSubmitted | condor_job/condor_job.cpp:232-238 | In every reachable state a job that is about to be submitted is New and has no ID. |
| ProtocolWaits.InstancesBeginAsNew | condor_job/condor_job.cpp:59-64 | A new instance lives, and has New in its metric and in its cache; a job found running has the state that condor_q has given. |
| ProtocolWaits.UnknownJobIsRefused | condor_job/condor_job.cpp:136-139 | Attaching to a job that condor_q does not know fails and leaves no job, instance or registration behind. |
| ProtocolRuns.RegistryBeforeJob | condor_job/condor_job.cpp:249-330 | The order of locks in every reachable state: whoever waits for the registry already owns it or has no job locked, and whoever waits for a job has no other one locked. |
| ProtocolRuns.NoDeadlock | condor_job/condor_job.cpp:249-330 | In no reachable state do threads wait for each other in a circle. |
| ProtocolRuns.SomeoneMoves | condor_job/pool_data.cpp:23-41 | In every reachable state in which a thread waits for a lock, some thread can take a lock or a step of an operation under way. |

## Left out

- Starting Condor's commands, their pipes and their output: they are steps that succeed or fail and give a
  number; the text of the output is not parsed, and the fallback ID "Unknown" is assumed away.
- The system calls of the tail reader, temporary files and the byte size of reads: reads are any
  division of the stream.
- The engine's objects (proxies, metrics, attributes, sessions, URLs): an instance has a liveness flag, a
  metric with the values it has fired and a map of attributes; the metric of a new instance starts at
  New. What the engine makes of a URL is a parameter; URLs are taken as already validated.
- User callbacks that run while a metric fires.
- Real time: a timed wait may expire at any step, and a sleeping log thread simply takes no step.
- Two threads in sync_run on one instance, which the source marks as unsolved.
- ProtocolAttached.AttachedJobFollows: events that fall between condor_q and the registration of a job that was
  found running are not applied to it, and nothing is promised about them.
- The threads of the protocol are modelled on values, not on the classes of `Jobs`: the interleaving of
  steps is what matters there. The model has one pool; pools share no lock.
- The wait in sync_cancel is the one of sync_wait; with no time to wait, it is a poll.
- The order in which the instances of a job are told: it is that of their addresses, and any order is
  allowed for.
- Memory: job data that nobody holds any more stay in the model; the destructor of the registry is not
  modelled.
- Whether files exist, are directories or share a name, and which proxies are usable, are parts of the
  input.
- Backslashes inside the strings of a requirements expression: the reader takes a string to end at the next
  double quote.
- Log messages, the mapping from ClassAds back to descriptions, Condor's numeric job states, checks of the
  resource manager's URL, suspending and resuming, configuration files and build scripts: single branches
  or configuration.
- SubmitFile.SettingWins: is about regular settings, as SubmitFile.ReadRendered is; for presets with any names and
  values, OneSetting.ArrivesExactly covers the settings in lower case.
- Arrivals.SettingIsUsed: where a value takes in a line with a parenthesis and what is read has a reference, only
  one direction is stated; see Arrivals.UnclearMayCoincide.
- What references stand for: values of macros are any texts and stand for what Condor makes of them in the end.
- Checks that Condor makes of an environment, other than that every entry is a variable.
- Constructors that run at the same time: that none starts while another one is at work is assumed, as a guard
  (`MayConstruct`). Two that attach to one ID at once would both find no job and both register one.
- Attaching to an ID that Condor has not given out yet when the constructor begins: the job could be submitted
  in between, and then it would be registered twice.
- LogToJobs.LogReachesJobs: is about a registry that does not change while the log is read; with jobs
  that are registered meanwhile, see ProtocolBytes.RecordsReachJobs.
- Condor prints a record as a whole.
- Temporary references to job data, such as that of the log thread, when the data are tested for being
  unshared: data that are not registered yet are found by nobody.
- Pools.AttachingShares: assumes that every key of the pool map stands for one URL; where that fails, the
  failing run is Pools.JobsWithoutLogClash.
- ProtocolRuns.WaitersAreWoken: is about instances whose proxy lives; an instance whose proxy has gone is
  no longer told anything.
