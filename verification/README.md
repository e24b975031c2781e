# Verified models of the Assemblywright developer connection and Windows front end

Dafny models of the parts of Assemblywright whose correctness is hardest to see from the code, with
machine-checked proofs of what they promise. `dafny verify dfyconfig.toml` checks the whole project.

**The connection supervisor** (`Supervision`, `SupervisionSafety`, `SupervisionResponses`, `SupervisionProgress`,
`SupervisorProgram`). `supervise` in `scripts/developer-connection.py` is a state machine over its calls: a step is one call together with any
answer the environment can give it (locks, sockets, HTTP status, the three-valued absence probe, polls,
clock readings, the stop flag, exceptions, a kill). An independent observer folds over the calls alone and
says which next call each law allows:

- a master or runner is started only under the singleton lock and the shared maintenance window, when no
  earlier one of its kind is alive; a runner only just after an absence probe answered exactly true or the
  supervisor's own runner channel was seen to exit, and at least 5 seconds after the previous start of the
  session;
- the window is never held while sleeping through maintenance, health or backoff, nor asked for twice, and
  it is given back on every path;
- children are terminated only in the handler or on stop; the supervisor gives up a link only on a dead
  socket or a stop;
- "connected" is published only on a fresh authenticated status, "needs attention" only after eight
  failures, "stopped" only with no child alive, no window held and a stop requested;
- after k failures in a row the next attempt comes no sooner than the sum of the first k backoffs.

`SupervisionSafety.EveryCallIsAdmitted` proves that every call of every run is allowed. `SupervisionResponses` says
which call is *demanded*: a reader that remembers the latest two calls, how far the supervisor has come and what it
has counted and timed knows the next call of every run (`EveryCallResponds`), unless the process is killed or a call
inside the try block raises, and those are exactly the calls that may (`FailsExactly`). So a runner that is needed is
started: after the supervisor's own runner exited, or a probe answered exactly true, the clock is read, five
seconds after the latest stamp the window is asked for, and when it is granted a runner is started
(`StartsInTurn`; `StartsAtOnce` while a session is opened). Whatever a call is answered, the supervisor goes on
with it (`AnyAnswerIsTaken`).

`SupervisionProgress` proves progress: wherever a run has come, 36 calls with cooperative answers (the window granted, the link live,
the status authenticated, waits over, no exception and no kill; stops, polls, probes and refreshes as they fall)
publish a connection, or "stopped" if a stop was asked for, and such answers always exist.
`SupervisorProgram` is the same function as nested loops that branch on its variables alone, with early
return, breaks and the one handler; each of its calls is proved to be a step of the machine, so the laws hold
of the loops.

**The maintenance lock** (`MaintenanceLock`). Any number of supervisors and launchers
(`scripts/developer-build.py`) interleave on the two lock files. No child starts while a launcher maintains,
and from every world in which none does, some calls of the supervisors bring about the connection that
launchers await. The locks are granted exactly when what everyone has done leaves them free.

**The migration** (`Migration`, `MigrationResponses`, `MigrationProgram`, `AtomicFile`, `JournalFiles`).
The launcher moves a legacy connection over in steps recorded in a journal. Runs follow one another on one disk, any of them cut
by a crash or a power loss between two calls; they never overlap, because a launcher takes all these steps under
the exclusive maintenance lock (`MaintenanceLock.MaintenanceIsExclusive`). Other files in the directory may be
written at any time, by the launcher or the supervisor; the directory flush that ends such a write settles the
journal and the ownership record too, and is the event `OtherWrite`. `Migration` shows a file as what is read now
and everything a power loss may leave; `JournalFiles` proves that whole histories over a directory, its renames, removals and
flushes as `AtomicFile` has them, are histories of `Migration`.

`MigrationResponses` says, by the calls and their answers alone, which call of a launcher must follow: a runner is asked to shut down only after two status replies of which the last shows it
idle, and after an answer that must stop it a run makes no further call. `MigrationProgram` is the launcher's code,
with the journal as a mutable field and a loop over the forwards, proved to take only steps of the machine.

The laws with durability ("no forward is cancelled before the shutdown is *durably* confirmed", "ownership
is recorded only with the complete journal *durable*") are false of one case, and `Migration.DurableExactly`
says which, by the calls alone: a run that resumes a journal meets them if and only if the rename that first
set `shutdown`, or first completed the journal, was followed by a directory flush, its own or another file's, or by a
power loss before the journal was read. They fail when the process is killed between that rename and the flush.
`Migration.UnsoundIsReachable` shows such a run cancel a forward, and a power loss after which the journal says
that nothing was shut down. The laws without durability hold always.

**Windows command lines** (`CommandLine`). `Quote` and `Join` against a reader that follows Microsoft's
documented rules, under both conventions for `""` inside quotes.

**Bounded buffers** (`Buffers`). `BoundedLog` and `BoundedCapture` over UTF-16 units, with UTF-8 lengths as
section 3 of RFC 3629 and surrogate pairs as section 2 of RFC 2781 give them; an unpaired surrogate counts
three bytes.

**Snapshots of a growing log** (`Snapshot`), **drive paths** (`DrivePath`), **project paths**
(`ProjectPath`), and **the Assembly Line** (`Jobs`, `AssemblyLine`, `AssemblyLineLaws`, `AssemblyLineDocument`): a
parser that ignores a torn tail, two Windows path normal forms, and the feature queue, its objects changed in place.
`AssemblyLineLaws` states every operation by statuses and fields, and follows one feature through any run: once
completed it keeps its whole entry until it is removed.

Two statements one might expect are false and are answered exactly. The configuration accepts remote roots
with doubled separators, and then `expected_workspace_root` yields nothing and any unusable reply matches it
(`DrivePath.ExpectedRootExactly`, `DrivePath.WorkspaceBinding`, `DrivePath.DoubledSeparatorHasNoRoot`).
Retry does not count pending features, so a retry on a full line makes a line that Save refuses
(`AssemblyLine.LoadableExactly`, `AssemblyLine.RetryMayOverfill`).

## Model

| member | source | states |
|---|---|---|
| SupervisionSafety.EveryCallIsAdmitted | scripts/developer-connection.py:537-695 | Every call of every run is allowed by every law listed above: starts only under window and singleton lock, licensed and spaced; at most one child of a kind; publications truthful; backoff waited out |
| SupervisionSafety.AtMostOneChild | scripts/developer-connection.py:552-594 | At most one master and one runner alive in any run, and both references None, no child alive, whenever the body of the outer loop begins |
| SupervisionSafety.HealthLoopStep | scripts/developer-connection.py:628-670 | No status, probe, poll, refresh or lock answer leaves the connected loop, and no call in it terminates a child |
| SupervisionSafety.HealthLoopGoesOn | scripts/developer-connection.py:628-670 | However long statuses fail, the connected loop goes on and stops no child until a stop, a dead socket, an exception or a kill |
| SupervisionSafety.BackoffTotals | scripts/developer-connection.py:28-29 | The waits of k failures total 2^k - 1 up to five and 31 + 30(k - 5) from there |
| SupervisionSafety.Reach | scripts/developer-connection.py:537-695 | The machine's variables agree with what the observer has seen after every run |
| SupervisionResponses.EveryCallResponds | scripts/developer-connection.py:537-695 | Every call of every run is the one that the calls and answers before it demand, unless it is a kill or a failing call inside the try block |
| SupervisionResponses.StartsInTurn | scripts/developer-connection.py:524-534 | After the supervisor's own runner exited in the connected loop, or a probe answered exactly true there or while waiting: the clock is read; 5 seconds or more after the session's latest stamp (its opening, the announcement or a start) the window is asked for; granted, a runner is started; refused, reconnecting is published for its own runner, the round is reported for one of nobody's, and before the announcement the wait goes on |
| SupervisionResponses.StartsAtOnce | scripts/developer-connection.py:583-586 | While a session is opened a runner is started next exactly when the probe answered exactly true |
| SupervisionResponses.MissingIsTimed | scripts/developer-connection.py:638-650 | A runner found missing makes the supervisor read the clock |
| SupervisionResponses.MissingIsAskedFor | scripts/developer-connection.py:660-668 | Five seconds after the latest stamp it then asks for the window |
| SupervisionResponses.GrantedIsStarted | scripts/developer-connection.py:524-534 | Granted, it starts a runner; refused, it does what the start site demands |
| SupervisionResponses.FailsExactly | scripts/developer-connection.py:563-671 | A call may raise what the handler catches exactly if it is one of those inside the try block that can fail |
| SupervisionResponses.AnyAnswerIsTaken | scripts/developer-connection.py:537-695 | Whatever answer within the clock's, the stop flag's and the exit's laws the environment gives to a call, the supervisor goes on with it |
| SupervisionResponses.RunIsRemembered | scripts/developer-connection.py:537-695 | What the reader remembers of any run describes where the machine stands |
| SupervisionProgress.RunArrives | scripts/developer-connection.py:554-695 | From wherever a run has come, some calls of its own publish a connection, or "stopped" if it was asked to stop |
| SupervisionProgress.CooperationArrives | scripts/developer-connection.py:554-695 | After any run of a serving supervisor, every 36 calls with cooperative answers publish a connection among them, or "stopped" if a stop was or is asked for |
| SupervisionProgress.CooperativeRunArrives | scripts/developer-connection.py:554-695 | The same with the number of calls that remain at each call site |
| SupervisionProgress.CallsLead | scripts/developer-connection.py:554-695 | At every call site a cooperative answer arrives or leaves fewer calls |
| SupervisionProgress.HelpExists | scripts/developer-connection.py:554-695 | At every call site a cooperative answer exists that asks for no stop and that the locks cannot refuse |
| SupervisionProgress.RunIsReferenced | scripts/developer-connection.py:563-684 | Whatever is polled was started, and an owned runner always was |
| SupervisorProgram.Invocation.Supervise | scripts/developer-connection.py:537-695 | The nested loops make only calls of the machine, all admitted; exit code 2 exactly when the singleton lock was refused, 0 exactly when "stopped" was published |
| SupervisorProgram.Invocation.CallsAreAdmitted | scripts/developer-connection.py:537-695 | At any point of the program the calls made so far are a run of the machine and are all admitted |
| SupervisorProgram.LinkedIsRun | scripts/developer-connection.py:537-695 | A chain of machine steps is one of its runs |
| SupervisorProgram.Invocation.Connect | scripts/developer-connection.py:564-580 | From validation to a link found live, every call is the machine's; otherwise an exception reaches the handler or the process is killed |
| SupervisorProgram.Invocation.AwaitMaster | scripts/developer-connection.py:574-578 | The loop's calls are the machine's until the link is checked a last time, an exception or a kill |
| SupervisorProgram.Invocation.OpenSession | scripts/developer-connection.py:581-599 | At most one process is started; on return without exception or kill no window is held, and an authenticated session is told from one that must wait |
| SupervisorProgram.Invocation.AwaitStatus | scripts/developer-connection.py:600-620 | The loop's calls, replacements included, are the machine's until status or stop leaves it, an exception or a kill; the master is not touched |
| SupervisorProgram.Invocation.AnnounceConnected | scripts/developer-connection.py:621-627 | A stop breaks out of the outer loop; otherwise the connected loop is entered with no attempts and no failures counted, and with an owned runner only if one was started |
| SupervisorProgram.Invocation.StayConnected | scripts/developer-connection.py:628-670 | The loop's calls are the machine's, so those that `SupervisionResponses` demands, replacements included, and leave the master alone; a stop leaves it, otherwise an exception or a kill |
| SupervisorProgram.Invocation.Replace | scripts/developer-connection.py:524-534 | Refused under maintenance, nothing is started and no window is held; otherwise the runner is the same or one new one has been started and the window given back |
| SupervisorProgram.Invocation.Handle | scripts/developer-connection.py:671-677 | Afterwards no window is held, both references are None and one more attempt is counted |
| SupervisorProgram.Invocation.BackOff | scripts/developer-connection.py:678-684 | The loop's calls are the machine's until the deadline or a stop returns to the outer loop, or a kill |
| SupervisorProgram.Invocation.Stop | scripts/developer-connection.py:685-695 | Both children are left ended, the last call publishes "stopped" and the process is done |
| MaintenanceLock.ReachableWorlds | scripts/developer-connection.py:506-550 | In every interleaving the lock files agree with who thinks they hold them |
| MaintenanceLock.NoSpawnDuringMaintenance | scripts/developer-build.py:236-255 | However supervisors and launchers interleave, a child starts only while no launcher maintains, by the one singleton owner, under its shared window |
| MaintenanceLock.MaintenanceIsExclusive | scripts/developer-build.py:236-255 | A maintaining launcher is alone: no other launcher, no window |
| MaintenanceLock.NobodyWaitsHolding | scripts/developer-connection.py:554-562 | Whoever asks, backs off, sleeps between health checks or awaits the connection holds no maintenance lock |
| MaintenanceLock.WaitingCannotDeadlock | scripts/developer-build.py:614 | While none maintains, a supervisor that asks for the window, at the top of the loop or to replace a runner, is granted it; a launcher that asks is granted the lock once no window is open |
| MaintenanceLock.ConnectionComesAbout | scripts/developer-build.py:614 | From every world in which no launcher maintains, whoever awaits the connection, some calls of the supervisors, without a kill and without any launcher acting, publish it |
| MaintenanceLock.WorldFollows | scripts/developer-connection.py:506-534 | While none maintains, the locks refuse none of the serving supervisor's own calls |
| MaintenanceLock.GrantsExactly | scripts/developer-build.py:236-255 | By what everyone has done: the singleton lock is granted unless a supervisor has it, the window unless a launcher maintains, the launcher's lock exactly when no window is open and none maintains |
| MaintenanceLock.LauncherFollows | scripts/developer-build.py:236-255 | A launcher asks until it is granted the lock or gives up, releases it once, and awaits a connection only after completed maintenance |
| Migration.EveryEventIsAdmitted | scripts/developer-build.py:362-398 | Whatever crashes came before: no forward is cancelled before the shutdown was confirmed, flags are set in order, ownership is recorded by a migration only with all three flags and both forwards just seen absent, the journal goes only after durable ownership, a journal begins only on an unowned, journal-free disk |
| Migration.ProgressIsNeverLost | scripts/developer-build.py:362-398 | However far every survivor of the journal has come, no later run, crash or power loss takes it back |
| Migration.OnlyFourCombinations | scripts/developer-build.py:279-290 | Of the eight combinations of flags only four can ever be read or survive |
| Migration.NoSecondMigration | scripts/developer-build.py:401-404 | Ownership, once durable, stays, and no later run begins a journal |
| Migration.SoundExactly | scripts/developer-build.py:293-313 | A resumed run's cancellations and ownership record are durable-safe if and only if the loaded journal's survivors bear it out |
| Migration.DurableExactly | scripts/developer-build.py:293-317 | After any calls, other files' writes, crashes and power losses, a run that resumes a journal keeps every step durable if and only if the rename that first set shutdown or first completed the journal has had a directory flush, by whatever write, or a power loss since |
| Migration.RecordedTells | scripts/developer-build.py:316-317 | That fold over the calls tells exactly whether a loaded journal's survivors bear it out |
| Migration.UnsoundIsReachable | scripts/developer-build.py:388-398 | A reachable run, resumed after a kill between rename and flush, cancels a forward; a power loss then leaves a journal that says nothing was shut down |
| Migration.HelpfulRunArrives | scripts/developer-build.py:563-613 | From any point of the way a cooperative environment brings the run to durable ownership without a journal within a fixed number of its own calls |
| Migration.OneRunRecovers | scripts/developer-build.py:563-613 | From any reachable state between runs, the next cooperative run, whatever other files are written meanwhile, ends in the same durable state as an uninterrupted one: ownership, no journal, nothing to come back |
| Migration.HelpExists | scripts/developer-build.py:563-613 | On the way a cooperative answer always exists |
| Migration.RecoveryExists | scripts/developer-build.py:563-613 | From any reachable state between runs such a cooperative run exists |
| Migration.Kept | scripts/developer-build.py:279-404 | The invariant that the results above start from holds of every state any runs, crashes and power losses lead to |
| MigrationResponses.EveryCallResponds | scripts/developer-build.py:279-613 | After any runs, crashes, power losses and writes of other files, every call of a run is the one that its calls and their answers demand |
| MigrationResponses.ShutdownNeedsIdle | scripts/developer-build.py:193-198 | A shutdown is asked for only after two status replies, neither of them unavailable and the last one idle: no run, chat or publication is active |
| MigrationResponses.EndedMeansOver | scripts/developer-build.py:570-571 | After a token found for an unreachable connection, a refused shutdown or an old runner not certainly absent, the run makes no further call |
| MigrationResponses.AnyAnswerIsTaken | scripts/developer-build.py:279-613 | Whatever answer the environment gives to a call, the run goes on with it or ends |
| MigrationResponses.HistoryFollows | scripts/developer-build.py:279-613 | Over any history what the reader remembers describes where the run stands |
| MigrationProgram.Launcher.Launch | scripts/developer-build.py:509-613 | From any reachable disk every call of the program is a step of the machine and admitted; on success ownership is recorded and no journal is left |
| MigrationProgram.Launcher.Migrate | scripts/developer-build.py:563-595 | Goes on only with no journal left, with ownership if there was one; when it stops, a journal that was there still is |
| MigrationProgram.Launcher.ConfirmShutdown | scripts/developer-build.py:388-398 | Skips a confirmed shutdown; otherwise sets and saves exactly that flag, or stops and leaves the disk alone; its calls are the machine's, so it asks only an idle runner (`MigrationResponses.ShutdownNeedsIdle`) |
| MigrationProgram.Launcher.CancelKnownOldForwards | scripts/developer-build.py:362-385 | Goes on only with both flags set and saved and both forwards verified; the loop keeps a journal on disk throughout |
| MigrationProgram.Launcher.DetachForward | scripts/developer-build.py:368-382 | One pass: a set flag is skipped, a released or absent forward sets and saves exactly its flag, otherwise the journal is saved unchanged |
| MigrationProgram.Launcher.Save | scripts/developer-build.py:316-317 | The saved journal, and nothing older, is what can be read or survive |
| MigrationProgram.Launcher.Complete | scripts/developer-build.py:594-595 | Ownership is durable before the journal is removed |
| MigrationProgram.Launcher.FindOrBegin | scripts/developer-build.py:568-590 | A journal of this session is resumed and one of another stops; without one a migration begins only from a ready status, a live legacy socket, no service and no ownership |
| AtomicFile.FileSystem.AtomicWrite | scripts/developer-connection.py:43-64 | The call is the five steps of `Write` or, if the temporary name exists, none; at every one the target reads, and after a power loss would read, the whole old or the whole new bytes; on return only the new ones; every other file reads the same and stays flushed |
| AtomicFile.FileSystem.Stage | scripts/developer-connection.py:45-58 | While the temporary file is created, written and flushed no other name and no file in use changes |
| AtomicFile.FileSystem.Unlink | scripts/developer-build.py:595 | The name is gone, only what it could already be may come back, and every other file reads the same and stays flushed |
| AtomicFile.PowerLossKeepsOneSurvivor | scripts/developer-connection.py:43-64 | After a power loss a file whose data was flushed reads as one of its survivors |
| AtomicFile.WriteIsSafe | scripts/developer-connection.py:43-64 | Over the five steps of a write the target is safe, and at the end the new content is what survives |
| AtomicFile.WriteSparesOthers | scripts/developer-connection.py:43-64 | Any other name keeps its content and stays flushed at every step |
| AtomicFile.ReplacedIsSafe | scripts/developer-connection.py:59 | The rename adds exactly the new content to what may survive |
| JournalFiles.RenameReplacesJournal | scripts/developer-build.py:316-317 | On the directory the rename is exactly the migration's journal replacement |
| JournalFiles.RenameReplacesOwnership | scripts/developer-connection.py:236-238 | The same for the ownership record |
| JournalFiles.FlushSettles | scripts/developer-connection.py:60-64 | One directory flush settles both files |
| JournalFiles.UnlinkRemovesJournal | scripts/developer-build.py:595 | The unlink removes the journal now and leaves its survivors |
| JournalFiles.StagingIsInvisible | scripts/developer-connection.py:45-58 | Staging a temporary file, and writing any other file up to its rename, changes neither file nor what may survive of it |
| JournalFiles.PowerLossPicksSurvivors | scripts/developer-build.py:293-313 | After a power loss each file is one that could survive, and nothing older can return later |
| JournalFiles.WholeSave | scripts/developer-build.py:316-317 | The five steps of saving the journal are nothing, three times, then the migration's replacement, then its flush |
| JournalFiles.WholeRecord | scripts/developer-connection.py:236-238 | Likewise for the ownership record |
| JournalFiles.WholeOtherWrite | scripts/developer-build.py:426-428 | The whole write of any other file is nothing, four times, then OtherWrite |
| JournalFiles.SaveJournal | scripts/developer-build.py:316-317 | With both files flushed before, saving replaces and settles the migration's journal |
| JournalFiles.RemoveJournal | scripts/developer-build.py:595 | And removing it is the migration's unlink |
| JournalFiles.OnDiskRefines | scripts/developer-build.py:293-317 | Whatever a call, the flush of another file's write or a power loss does to the directory, the migration's disk does |
| JournalFiles.HistoriesRefine | scripts/developer-build.py:279-404 | Every history of runs, crashes, power losses and writes of other files over a directory is one of the migration, which sees that directory |
| CommandLine.Quote | apps/windows/ProcessSupport.cs:41-71 | The loop with its backslash counter writes the quoted form whose reading back is proved |
| CommandLine.Join | apps/windows/ProcessSupport.cs:73-82 | The joined line of the quoted forms, whose reading back is proved |
| CommandLine.CommandLineRoundTrip | apps/windows/ProcessSupport.cs:39-83 | Under either convention the child receives exactly the arguments given, if and only if none contains a NUL |
| CommandLine.JoinedReadsBack | apps/windows/ProcessSupport.cs:73-82 | The reader undoes Join on every list, empty strings, trailing backslashes and quotes included |
| CommandLine.QuotedReadsBack | apps/windows/ProcessSupport.cs:41-71 | One quoted argument reads back whatever follows it |
| CommandLine.JoinIsInjective | apps/windows/ProcessSupport.cs:73-82 | Different lists never share a command line |
| CommandLine.QuotedLength | apps/windows/ProcessSupport.cs:41-71 | Quoting at most doubles the length and adds two |
| CommandLine.QuotedPlainExactly | apps/windows/ProcessSupport.cs:41-45 | Only a non-empty argument without space, tab, line break or quote is written as it is |
| CommandLine.EscapedExactly | apps/windows/ProcessSupport.cs:46-71 | Backslashes are doubled before a quote, which gets one more, and before the end, and kept elsewhere |
| CommandLine.JoinedExactly | apps/windows/ProcessSupport.cs:73-82 | Lists put together are joined by one space |
| Buffers.BoundedLog.Append | apps/windows/ProcessSupport.cs:261-272 | A text that fits is kept whole; otherwise the result comes of passes that each start above the limit and drop exactly an eighth of the units, at least one, and the low half of a pair so split; all that was ever appended is kept if it fits, and if units were lost at least (7 max - 48) / 24 remain |
| Buffers.LogHoldsBoundedSuffix | apps/windows/ProcessSupport.cs:261-272 | Over all append sequences: suffix, limit, and well-formed UTF-16 if every piece is |
| Buffers.TrimmedFits | apps/windows/ProcessSupport.cs:265-270 | Trimming ends within the limit, keeps a suffix and splits no surrogate pair |
| Buffers.TrimmedKeepsEnough | apps/windows/ProcessSupport.cs:265-270 | If units are lost, at least (7 max - 48) / 24 remain |
| Buffers.TrimmedExactly | apps/windows/ProcessSupport.cs:265-270 | Trimming is these passes one after another and no more: a text that fits needs none |
| Buffers.LogKeepsWhatFits | apps/windows/ProcessSupport.cs:261-272 | Over all append sequences, when everything appended fits, the log is all of it |
| Buffers.ByteCountIsUtf8 | apps/windows/ProcessSupport.cs:265 | The byte count is the length of the UTF-8 encoding of the scalars |
| Buffers.PrefixBytes | apps/windows/ProcessSupport.cs:303-304 | A longer stream never has fewer bytes, even when the boundary splits a pair |
| Buffers.BoundedCapture.Append | apps/windows/ProcessSupport.cs:296-311 | Overflowed exactly when the whole stream exceeds the limit; the text is the whole stream or nothing |
| Buffers.CaptureIsChunkIndependent | apps/windows/ProcessSupport.cs:296-311 | Only the concatenation matters, not the chunking |
| Snapshot.ParseSnapshot | scripts/developer-runner-github-setup-e2e.py:54-83 | It raises exactly if a completed record is malformed; otherwise there are as many values as completed records, and value i is what decoding record i yields |
| Snapshot.SnapshotAtCut | scripts/developer-runner-github-setup-e2e.py:64-75 | For every cut, a log yields exactly the records whose newline lies before it, and the whole log yields all |
| Snapshot.ValuesAtCut | scripts/developer-runner-github-setup-e2e.py:64-83 | The values at any cut of a log are the decodings of exactly the records that end before it |
| Snapshot.DecodeAllExactly | scripts/developer-runner-github-setup-e2e.py:77-83 | The loop's outcome, record by record, without the loop |
| Snapshot.EndedExactly | scripts/developer-runner-github-setup-e2e.py:64-75 | Every cut has exactly one number of records that end before it |
| Snapshot.SnapshotsGrow | scripts/developer-runner-github-setup-e2e.py:64-75 | Snapshots of an append-only file form a prefix chain |
| Snapshot.ReadersSeePrefixes | scripts/developer-runner-github-setup-e2e.py:77-83 | A reader that succeeds on a later snapshot succeeded on every earlier one, on a prefix of the values |
| Snapshot.RaisedStays | scripts/developer-runner-github-setup-e2e.py:78-82 | A bad completed record is raised on every later snapshot |
| Splitting.SplitInverts | scripts/developer-runner-github-setup-e2e.py:66 | Splitting undoes terminating records |
| Splitting.SplitDecomposes | scripts/developer-runner-github-setup-e2e.py:66 | The parts hold no separator and put together are the input |
| DrivePath.NormalizeExactly | scripts/developer-connection.py:352-363 | The result is a path exactly when that path is normal and the value is one of its spellings: slash direction, case, trailing separators, one verbatim prefix |
| DrivePath.NormalizeIsIdempotent | scripts/developer-connection.py:352-363 | Normalizing twice changes nothing |
| DrivePath.ExpectedRootExactly | scripts/developer-connection.py:347-349 | For every accepted root the expected workspace exists exactly without doubled separators, and what it is |
| DrivePath.WorkspaceBinding | scripts/developer-connection.py:408-410 | Which reported workspaces match the expected one |
| DrivePath.DoubledSeparatorHasNoRoot | scripts/developer-connection.py:180-182 | An accepted root with a doubled separator has no expected workspace |
| DrivePath.BuiltExactly | scripts/developer-connection.py:352-363 | A drive letter, a colon and parts between separators are accepted exactly when every part is a name of the allowed characters, neither empty nor dots, and give the path in lower case |
| ProjectPath.NormalShape | apps/windows/GitHubControls.cs:71-101 | A normal form is canonical, carries no device or verbatim prefix, and differs from the spelling only in case |
| ProjectPath.NormalizeIsIdempotent | apps/windows/GitHubControls.cs:71-101 | Normalizing twice changes nothing |
| ProjectPath.VerbatimDrive | apps/windows/GitHubControls.cs:76-90 | A verbatim drive path has the normal form of the plain one, accepted or not |
| ProjectPath.VerbatimShare | apps/windows/GitHubControls.cs:79-84 | So has a verbatim share, except one that would itself read as verbatim, which has none |
| ProjectPath.CanonicalFold | apps/windows/GitHubControls.cs:103-153 | Being canonical does not depend on case |
| ProjectPath.ReconciledExactly | apps/windows/GitHubControls.cs:36-50 | Reconciliation accepts every match, and beyond those exactly a later connection that stands on the merge |
| ProjectPath.MatchIgnoresSpelling | apps/windows/GitHubControls.cs:52-69 | Neither match depends on a verbatim spelling of either project |
| ProjectPath.MatchExactly | apps/windows/GitHubControls.cs:36-69 | A publication matches exactly when it succeeded, has the report's run and candidate, the connection's revision, head and base branch, its project and repository up to case, a later completion, the run's branch, a valid pull request and a commit |
| ProjectPath.MatchBinds | apps/windows/GitHubControls.cs:36-50 | One publication matches the reports of one run and candidate, on connections of one revision, head and base branch |
| ProjectPath.DriveExactly | apps/windows/GitHubControls.cs:103-153 | A letter, a colon and parts between separators are canonical exactly when every part is a name: not empty, no forbidden unit, no trailing dot or space, no device |
| ProjectPath.ShareExactly | apps/windows/GitHubControls.cs:103-153 | Two backslashes and two or more parts are canonical exactly when every part is a name |
| ProjectPath.PlainExactly | apps/windows/GitHubControls.cs:71-101 | A path without a prefix has a normal form exactly when it is trimmed, canonical and its own full path up to case, and it is then the full path |
| ProjectPath.PrefixedHasNone | apps/windows/GitHubControls.cs:71-101 | Device paths, and verbatim ones of anything but a drive or a share, have none |
| Jobs.Validate | apps/windows/JobDocument.cs:162-207 | The first error in the source's order; the growing set of seen files finds exactly the duplicates |
| Jobs.ValidateForForm | apps/windows/JobDocument.cs:209-224 | The same with the argument checks |
| Jobs.FilesAccepted | apps/windows/JobDocument.cs:171-185 | Accepted exactly when each file is a normalized relative path outside .git and no two agree up to case |
| Jobs.ArgumentsAccepted | apps/windows/JobDocument.cs:213-222 | Accepted exactly when no argument is empty or broken over lines |
| Jobs.CheckedExactly | apps/windows/JobDocument.cs:162-224 | Path-checked validation is unchecked validation and two existing paths |
| Jobs.AcceptedExactly | apps/windows/JobDocument.cs:162-224 | A job is accepted exactly when none of its fields is at fault, fault by fault with the limits of each |
| Jobs.HeadFaults | apps/windows/JobDocument.cs:162-185 | The first fault among the first fields, in order |
| Jobs.SettingsFaults | apps/windows/JobDocument.cs:186-207 | The first fault among the settings, in order: time, attempts, lengths, providers, efforts |
| Jobs.FileAccepted | apps/windows/JobDocument.cs:171-185 | A file is accepted exactly when it is not empty or rooted, has no colon or backslash, none of its parts between slashes is empty or dots, and the first is not .git up to case |
| Jobs.EffortIsListed | apps/windows/JobDocument.cs:245-252 | The accepted efforts, word by word, or blank |
| AssemblyLine.OperationKeepsSound | apps/windows/GuiState.cs:248-313 | Every operation keeps unique ids, loadable entries and at most one running |
| AssemblyLine.LoadableExactly | apps/windows/GuiState.cs:297-307 | What Load accepts stays acceptable under every operation but a retry on a full line, which Save then refuses |
| AssemblyLine.RetryMayOverfill | apps/windows/GuiState.cs:297-307 | A full line and a failed entry, concretely |
| AssemblyLine.RunsKeepLoadable | apps/windows/GuiState.cs:242-358 | The same over any run of operations |
| AssemblyLine.RecoveryIsIdempotent | apps/windows/GuiState.cs:248-262 | Recovery leaves nothing running and a second one changes nothing |
| AssemblyLine.RunsKeepOrder | apps/windows/GuiState.cs:264-313 | Any run keeps the entries in order of arrival, retried ones in their place |
| AssemblyLine.FirstComeFirstServed | apps/windows/GuiState.cs:292-295 | After any run the first pending entry is the one that arrived first |
| AssemblyLine.LoadedInOrder | apps/windows/GuiState.cs:233-240 | A loaded line is in order of its own identifiers |
| AssemblyLine.NewEntryIsEntry | apps/windows/GuiState.cs:264-290 | What Add creates, Load accepts |
| AssemblyLine.Title | apps/windows/GuiState.cs:350-357 | A title is never blank and never longer than 80 units |
| AssemblyLineLaws.CompletedIsFinal | apps/windows/GuiState.cs:297-313 | Over any run a completed feature keeps its whole entry, run id and all, until it is removed |
| AssemblyLineLaws.FeatureFollows | apps/windows/GuiState.cs:248-313 | One operation later a feature is gone only by its own removal; a running one leaves Running by finishing or recovery alone, and a run id changes by a retry or at the end of its run alone |
| AssemblyLineLaws.RetryReopens | apps/windows/GuiState.cs:297-307 | Retry reopens a failed, cancelled or interrupted entry and changes nothing else |
| AssemblyLineLaws.RecoveryCutsOff | apps/windows/GuiState.cs:248-262 | Recovery interrupts every running entry and changes nothing else |
| AssemblyLineLaws.StartBegins | apps/windows/MainForm.cs:551-564 | Starting begins the first pending entry and changes nothing else |
| AssemblyLineLaws.FinishEnds | apps/windows/MainForm.cs:566-590 | Finishing ends the running entry it names and changes nothing else |
| AssemblyLineLaws.RemovalTakesOut | apps/windows/GuiState.cs:309-313 | Removal takes out exactly the entry it names unless it runs |
| AssemblyLineLaws.ActiveCountExactly | apps/windows/GuiState.cs:266-267 | The count is the number of places that are pending or running |
| AssemblyLineLaws.AddedExactly | apps/windows/GuiState.cs:264-290 | A job is taken exactly when fewer than a hundred features are open and its frozen form is valid; and the entry it becomes, field by field |
| AssemblyLineLaws.TitleExactly | apps/windows/GuiState.cs:350-357 | The title is the first line with something in it, bare, cut to 77 units and three dots when longer than 80 |
| AssemblyLineLaws.TitleParts | apps/windows/GuiState.cs:350-357 | Every text that is not blank has those parts |
| AssemblyLineLaws.BlankTitle | apps/windows/GuiState.cs:350-357 | A blank text is an untitled feature |
| AssemblyLineDocument.Document.Add | apps/windows/GuiState.cs:264-290 | Appends one new object, or refuses and changes nothing |
| AssemblyLineDocument.Document.Remove | apps/windows/GuiState.cs:309-313 | Removes exactly the given object unless it runs or is not listed |
| AssemblyLineDocument.Document.Retry | apps/windows/MainForm.cs:1136 | Retrying the object at a place of the line is the queue's retry there (`AssemblyLineLaws.RetryReopens`), and changes nothing else |
| AssemblyLineDocument.Document.RecoverInterrupted | apps/windows/GuiState.cs:248-262 | Closes every running entry in place and returns how many there were |
| AssemblyLineDocument.Document.FirstPending | apps/windows/GuiState.cs:292-295 | The first pending object, if any |
| AssemblyLineDocument.Document.Validate | apps/windows/GuiState.cs:315-343 | Accepts exactly the loadable lines under schema 1 |
| AssemblyLineDocument.CheckEntries | apps/windows/GuiState.cs:319-342 | The loop with its set and two counters accepts exactly the loadable entries |
| AssemblyLineDocument.CheckEntry | apps/windows/GuiState.cs:321-339 | One entry's first refusal, by its texts, status, frozen job and paths |
| AssemblyLineDocument.Document.OneChanged | apps/windows/GuiState.cs:297-307 | An entry changed through its own reference, as the loop that runs the line changes it, changes one place of the line |
| AssemblyLineDocument.Entry.Retry | apps/windows/GuiState.cs:297-307 | A failed, cancelled or interrupted entry becomes pending, its stage, attempt, result and run id set back and nothing else; any other, a completed one included, is unchanged and answered false |

## Left out

- Supervisor exceptions: the calls that may raise what the handler catches are listed in `Supervision.CanFail`; any other exception (a status body that is not a JSON object, append_log or terminate inside the handler) ends the process and is the event `Crash`, which may come anywhere.
- SupervisionSafety.AtMostOneChild: excludes a failing lock release. One in the `finally` of respawn_runner_if_allowed (scripts/developer-connection.py:533-534) is an OSError that the handler catches while no variable refers to the runner just started, which then goes on beside a later one; one at line 596 is caught too, and the handler tries the release again.
- Supervisor environment: SSH, HTTP, sockets, launchd and PowerShell probes are answers of the environment; call timeouts are not timed, the clock is a monotone whole number of seconds, and what a status message says is not modelled.
- Supervisor program: `SupervisorProgram` takes a number of rounds after which the process is killed; as that number is arbitrary, runs of every length are covered, and termination is not claimed.
- Locks: flock never fails for another reason than the lock being held; it is one shared or exclusive lock and one singleton lock, given back by the kernel when a process ends; the launcher's 20 second limit is an arbitrary decision to give up.
- Migration environment: SSH cancel, port probes and status replies are answers; a journal is its three flags and one number for the session it is bound to, and a malformed or foreign journal stops the run. Commands unrelated to the journal (build, preflight, stop_supervisor, starting the local model) are not steps.
- MigrationProgram.Launcher.Launch: crashes and power losses are steps of `Migration`, which may cut the program after any call; the program text itself shows the uncut run, without writes by other processes between its calls, which `Migration` has at every call.
- AtomicFile.FileSystem.AtomicWrite: file modes, links, directories on the way and a failing system call are not modelled; a directory flush is atomic.
- CommandLine.Quote: a null argument throws before anything is written and is not modelled.
- Buffers.BoundedLog.Append: byte counts beyond 32 bits are not modelled.
- Jobs.Validate: path predicates, file existence and the loopback endpoint rule are parameters; a null string is the empty one, which every check treats alike.
- AssemblyLineDocument.Document.Add: JSON, GUIDs, full paths and the clock are parameters; what is required of them is `AssemblyLine.Reasonable` (a job read back has its repository, a full path is its own full path). A new identifier is assumed never used before.
- AssemblyLineDocument.Document.Validate: a null entry is not modelled; all refusals that come from reading the frozen job are one error.
- AssemblyLine.OperationKeepsSound: that a feature is started only when none is running is taken from the loop in apps/windows/MainForm.cs:551-607, whose other effects are not modelled.
- ProjectPath.NormalizeIsIdempotent: GetFullPath and ordinal case folding are parameters constrained by `ProjectPath.Reasonable`; pull request addresses are an arbitrary predicate.
- The Rust crates, the planning, review and publication machines, chat clients, the Swift package and the forms are not modelled.
