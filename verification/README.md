# Verification model of service-runner

service-runner is a small daemon that forks a service, restarts it by policy, forwards signals to
it, pumps its output into rotated log files and removes its pidfiles when it ends. This project
models the four parts of its C code that carry the hard logic and proves what they are for.

**The supervisor protocol** (`RestartPolicy`, `Supervisor`, `SupervisorInvariant`,
`SupervisorRuns`, `SupervisorRequests`, `SupervisorWaysOut`, `SupervisorDecisions`,
`SupervisorPolling`, `SupervisorScenario`).
`RestartPolicy.Runner` is the code that changes the shared flags: the signal handlers and the
decision after a service process ended. `Supervisor` is the protocol as a state machine whose
events are the steps of the runner (with the outcome of each system call), signal deliveries,
steps of the service process before and after `execv()`, steps of the `stop` command, signals from
anybody else, and a SIGKILL of the runner. A pending signal that is not blocked is delivered
before the runner's next step. `SupervisorInvariant` proves an invariant inductive over all
events, `SupervisorRuns` what follows for all reachable states and all runs, `SupervisorRequests`
what becomes of a restart request and of a SIGCHLD, `SupervisorWaysOut` the ways out of the main
loop and what they leave unanswered, `SupervisorDecisions` the restart decision cause by cause,
`SupervisorPolling` that the poll loop notices the death of the service and reads the log pipe to its
end, and `SupervisorScenario` gives concrete runs.

**The log pump** (`LogPump`, `LogRotation`) is the other half of the poll loop: bytes move from the pipe into
rotated log files, by `splice()` or through a buffer with partial writes. Its code is proved
against a state transition per event, and conservation is proved over every sequence of turns of
the loop with what the service, the signal handler and the runner's own messages do in between.
`LogRotation` says which file is open when and under which name, and so where the output ends up.

**Paths** (`NormPath`, `JoinPath`, `PathLaws`, `AbsPath`, `CommandPaths`). The in-place path
rewriter is proved against split, stack, join; the two passes of the joiner against a reference
join; the ancestor search of `abspath()` against its specification. The laws of normalising and
joining then say what `--chroot` and `--chdir` check and execute. `PathLaws` also fixes the normal
form without the stack: what a name, `.`, `..` and a slash do behind any path.

**The log template language** (`Escapers`, `LogTemplate`, `LogRenderer`, `LogLayouts`,
`LogRecords`, `LogDates`, `LogDirectives`). Validator and renderer are separate programs over one
token language; `LogDirectives` says what each directive prints for templates as they are written.
The four streaming escapers are proved against a per-character map and undone by readers of JSON,
XML, SQL literals and CSV fields; whole records of the built-in templates are read back.

**The help text wrapper** (`Utf8`, `TextLines`, `TextWrap`, `TextMeaning`, `TextHang`, `TextBytes`). The UTF-8 scanner is
proved against the encoding of RFC 3629, the wrapper against a description of lines: what part of
the text each line holds, where it hangs, how wide it may be and why it was broken.
`TextMeaning` states what a reader gets, `TextHang` where continuations hang in terms of the bytes of
the first line, `TextBytes` what the lines of plain text look like.

Code that changes state is imperative here: arrays for buffers, classes for streams, for the
runner's static variables and for the pump, loops with invariants for the loops of the source.

`dafny verify dfyconfig.toml` checks everything.

## Where the code and its documentation differ

The model follows the code.

* `%a` prints the month and `%b` the weekday, locally and for GMT (src/start.c:863-894), against
  src/help.c:79-80. So `%h` never prints the expansion documented in src/help.c:107
  (`LogDates.HttpDateDiffers`), but the one with the two exchanged (`LogDates.HttpDateAsPrinted`).
* src/help.c:114 says of NEVER that an explicit restart request still restarts the service. Under any
  policy, a request that the runner handled is lost in exactly these cases
  (`SupervisorWaysOut.RequestUnanswered`): the service was killed by SIGQUIT, SIGINT or SIGKILL before
  the runner reaped it and the policy is not ALWAYS; `pipe()` or `fork()` failed after the round; or
  the round was aborted because `pidfd_open()` failed. `SupervisorScenario.RestartCanBeLost` and
  `SupervisorScenario.RestartCanBeAborted` are runs of the first and the last kind.
* src/help.c:128 warns of a crash-restart loop if `setrlimit()` fails in the child; the code stops the
  runner instead (`SupervisorRuns.FailedChildIsTheLast`).
* `abspath()` puts even an absolute path behind the working directory if no proper ancestor of it
  exists; the result names the same file exactly if the working directory is the root
  (`AbsPath.PutBehindWorkingDirectory`, `AbsPath.SingleSegmentHasNoCut`).
* JSON strings keep control characters without a short escape as they are, so they are readable
  exactly if there is none (`Escapers.JsonReadsBack`). XML attribute values lose tabs
  (`Escapers.XmlReadKeeps`).
* The wrapper drops indentation of exactly the line width as well as wider one, and takes `+` for a
  list marker too (src/help.c:440, src/help.c:483), against the comment above it.
* A failed `write()` ends the copy of the buffer, and the rest of it is lost. That is the only way to
  lose output that was taken out of the pipe (`LogPump.LossExactly`), and it happens
  (`LogPump.FailedWriteLoses`).
* After opening a new log file the code tests the old descriptor (src/start.c:2274), and with a
  file name pattern it never resets `logrotate_issued` (src/start.c:2257-2270). It takes a new name for
  the current one even if opening the file failed (src/start.c:2297-2299), so neighbouring files of a
  pattern can then have the same name (`LogRotation.FailedOpenRepeatsName`), and only then
  (`LogRotation.PatternChangesNames`).

## Model

| member | source | states |
|---|---|---|
| NormPath.NormPathNoEscape | src/util.c:289-372 | for every path the buffer ends up holding the normal form (split on `/`, drop empty and `.` segments, `..` pops if it can, `.` for nothing) and the terminator, within the allocation |
| NormPath.Rewrite | src/util.c:303-351 | the main loop: the write index never passes the read index, and what is written plus what is unread always mean the same stack; it terminates although the read index can step back |
| NormPath.ParentSegment | src/util.c:305-323 | a `..` segment removes the last written segment, if there is one, with a net advance of the read index |
| NormPath.WalkBack | src/util.c:310-314 | walking back to the previous `/` lands exactly in front of the last written segment; the byte it starts from is a `/` |
| NormPath.CurrentSegment | src/util.c:324-335 | a `.` segment changes nothing; the byte taken back is a `/` |
| NormPath.Separator | src/util.c:336-345 | a run of slashes counts as one, a trailing run as none |
| NormPath.CopySegment | src/util.c:346-350 | any other segment is copied up to the next slash and pushed as it is |
| NormPath.SkipSlashes | src/util.c:307-308 | skipping slashes does not change what the rest of the path means |
| NormPath.CopyToSlash | src/util.c:346-350 | copying stops at the first slash or the end and appends what it passed |
| NormPath.SplitAtSlash | src/util.c:289-372 | splitting distributes over a slash anywhere in a path |
| NormPath.PushAllAppend | src/util.c:289-372 | segments act on the stack one after the other |
| PathLaws.NormalizeKeeps | src/util.c:289-372 | a normal form keeps absoluteness and meaning and has no empty, `.` or `..` segment |
| PathLaws.NormalizeIdempotent | src/util.c:289-372 | normalising twice is normalising once |
| PathLaws.NormalizeFixpoint | src/util.c:289-372 | a path is left alone if and only if it is in normal form |
| PathLaws.StackOfRender | src/util.c:289-372 | reading a rendered path gives back the stack it was rendered from |
| PathLaws.StackOfJoin | src/util.c:209-287 | a joined path means the second path acting on the stack of the first |
| PathLaws.NormalizeJoin | src/start.c:1587-1646 | normalising the directory before joining makes no difference, for all non-empty paths |
| PathLaws.ParentCancels | src/util.c:305-323 | a name and the `..` behind it cancel, whatever is in front of them and behind them |
| PathLaws.DotVanishes | src/util.c:324-345 | a `.` segment, a second slash and a slash at the end change nothing |
| PathLaws.NothingAbove | src/util.c:305-323 | the root is its own parent, and a leading `..` or `.` of a relative path vanishes |
| PathLaws.NameIsKept | src/util.c:346-350 | a name is put behind the normal form of what is in front of it, with one slash |
| PathLaws.SmallNormalForms | src/util.c:352-361 | the normal forms of nothing, `.`, `..` and `/` |
| PathLaws.NormalizePrefix | src/util.c:289-372 | normalising the front of a path first makes no difference, so the laws above settle every path, segment by segment |
| JoinPath.JoinPathv | src/util.c:209-287 | the buffer has exactly the size of the reference join and holds it; it fails exactly if a part is empty or the size does not fit, with EINVAL exactly if an empty part comes before the size is exceeded |
| JoinPath.ComputeSize | src/util.c:215-252 | the first pass, which looks at the previous part, computes the size of the reference join or the first reason to reject |
| JoinPath.FillBuffer | src/util.c:254-282 | the second pass, which looks at the buffer, writes the reference join and ends at its size |
| JoinPath.AppendPart | src/util.c:271-281 | one part of the second pass is one reference join |
| JoinPath.JoinAssociative | src/util.c:209-287 | joining is associative |
| JoinPath.JoinSeam | src/util.c:209-287 | one slash is put at the seam exactly if there is none on either side, and none is taken away |
| JoinPath.JoinAllAppend | src/util.c:209-287 | joining a list is joining its parts in two stages |
| JoinPath.JoinAllNested | src/util.c:209-287 | joining a list is joining the joined rest to its head |
| AbsPath.AbsPath | src/util.c:43-114 | an existing path resolves as `realpath()` says, a missing one to its nearest existing ancestor and the rest below it, or to the working directory and the whole path; both length asserts hold and the scratch string is restored at each step |
| AbsPath.Dirend | src/util.c:16-41 | the last place where a proper ancestor ends, 0 if there is none |
| AbsPath.NearestAncestorExists | src/util.c:66-112 | the two cases for a missing path are exhaustive |
| AbsPath.NearestIsUnique | src/util.c:66-112 | the nearest existing ancestor is the only one |
| AbsPath.DirectoryIsTriedFirst | src/util.c:16-112 | for a path written as directory, slashes, name and slashes: the directory is resolved first and the name put behind it with one slash; if it is missing too, the search goes on as for the directory itself |
| AbsPath.AncestorReplaced | src/util.c:88-104 | only the names of the ancestor are replaced, the names below it are kept |
| AbsPath.PutBehindWorkingDirectory | src/util.c:66-84 | without an existing ancestor the names are those of the working directory and the path; equal to the path's if and only if the working directory is the root |
| AbsPath.SingleSegmentHasNoCut | src/util.c:16-41 | a path directly under the root has no proper ancestor to try |
| CommandPaths.ResolveInChroot | src/start.c:1579-1672 | accepted exactly if the root and the directory in it can be listed and the command in it can be executed; directory and command are normalised behind the new root, the command behind the directory unless absolute; the checked path is the new root followed by the path the child executes |
| CommandPaths.ResolveWorkDir | src/start.c:1587-1626 | the working directory inside the root, and the path listed to check it |
| CommandPaths.ResolveCommand | src/start.c:1628-1657 | the command inside the root, relative to the working directory unless absolute |
| CommandPaths.Join2 | src/util.c:209-287 | joining two paths fails exactly if one is empty |
| CommandPaths.NormalizedDir | src/start.c:1587-1610 | a directory, absolute or not, is normalised to its segments below the root |
| CommandPaths.NormalizedCommand | src/start.c:1628-1646 | a relative command acts on the stack of the directory it is joined to |
| CommandPaths.InsideSpelled | src/start.c:1587-1657 | the stacks the proofs use, as normal forms of the paths as they were given |
| CommandPaths.ExecutedPathIsClean | src/start.c:1628-1672 | the executed path has no empty, `.` or `..` segment left |
| Escapers.PrintJsonString | src/start.c:277-342 | writing runs between `prev` and `ptr` in one go writes the JSON escape of the string, character by character |
| Escapers.PrintXmlString | src/start.c:344-400 | the same for XML references |
| Escapers.PrintSqlString | src/start.c:402-422 | the same for doubled single quotes |
| Escapers.PrintCsvString | src/start.c:424-444 | the same for doubled double quotes |
| Escapers.EscapeAppend | src/start.c:277-444 | escaping distributes over concatenation |
| Escapers.EscapesExactly | src/start.c:277-444 | a string is left as it is if and only if it has none of the special characters of the format, which are listed |
| Escapers.SpecialsSpelled | src/start.c:277-444 | what is written for each of them |
| Escapers.EscapedIsInert | src/start.c:277-400 | JSON output has no angle brackets, line ends or tabs in it, XML output no angle brackets, quotes or line ends |
| Escapers.JsonReadsBack | src/start.c:277-342 | a JSON reader (section 7 of RFC 8259) recovers the string and stops behind it if and only if the only control characters are the five that are escaped |
| Escapers.XmlReadsBack | src/start.c:344-400 | an XML reader recovers the text, in content and in attribute values, if and only if XML 1.0 allows its characters |
| Escapers.XmlReadKeeps | src/start.c:344-400 | what an XML reader recovers is the text itself except for tabs in attribute values |
| Escapers.QuotedReadsBack | src/start.c:402-444 | a reader of doubled quotes passes over escaped text and recovers it |
| Escapers.QuotedFieldReadsBack | src/start.c:402-444 | between quotes (section 2 of RFC 4180) the string is recovered if and only if no further quote follows |
| LogTemplate.IsValidLogTemplate | src/start.c:446-523 | accepts exactly the templates that consist of known tokens and contain a message directive |
| LogTemplate.CheckDirective | src/start.c:450-517 | the nested switch accepts exactly the directives of the token language, stops on their last character and knows which print the message |
| LogTemplate.ValidTemplates | src/start.c:446-523 | accepted means spelled by some sequence of known tokens with a message |
| LogTemplate.ScanSpells | src/start.c:446-523 | tokens spell the template they were scanned from |
| LogTemplate.ScanSpelled | src/start.c:446-523 | known tokens are scanned back from what they spell: the language is unambiguous |
| LogRenderer.PrintLogTemplate | src/start.c:586-913 | for every template, the concatenation of the token meanings and a newline is written |
| LogRenderer.PrintDirective | src/start.c:650-902 | the renderer's own switch prints the meaning of exactly the token the validator's language has there, and moves past it |
| LogRenderer.PrintLocal | src/start.c:660-714 | its cases for local time are exactly the local units, `%t` and `%T` printing date, time and zone together |
| LogRenderer.PrintFormatted | src/start.c:720-734 | its cases for the four formats print the escaped field behind them, or the directive as it was written |
| LogRenderer.PrintHttpDate | src/start.c:760-786 | `%h` prints the parts of an IMF-fixdate in order |
| LogRenderer.SplitOffset | src/start.c:631-641 | sign, hours and minutes of the zone, truncating as C does, print the offset |
| LogRenderer.PrintArg | src/start.c:550-584 | the format argument is printed escaped, or the directive as it was written |
| LogRenderer.PrintGmt | src/start.c:787-882 | the switch behind `%g` has exactly the GMT units as cases and prints their meaning, or the directive as it was written |
| LogRenderer.RenderSpelled | src/start.c:586-913 | what known tokens spell is rendered as their meanings in order, without any fallback |
| LogRenderer.AcceptedShowsMessage | src/start.c:446-523 | what an accepted template prints contains the message, raw or escaped |
| LogRenderer.RenderText | src/start.c:643-649 | text without a percent sign stands for itself |
| LogRenderer.RenderDirective | src/start.c:650-902 | a known directive means the same wherever it stands |
| LogDirectives.ShortDirectives | src/start.c:451-517 | which directives of two characters are accepted, which print the message, and that any other is printed as written |
| LogDirectives.LongDirectives | src/start.c:457-496 | the same for those of three characters, `%g` and the formats |
| LogDirectives.TextsPrinted | src/help.c:90-108 | `%s` and `%f` print message and file name, `%%` a percent sign |
| LogDirectives.JsonPrinted | src/help.c:91-96 | a JSON reader gets the message back from `%js` and the file name from `%jf`, if and only if JSON allows what was left unescaped |
| LogDirectives.XmlPrinted | src/help.c:92-97 | an XML reader gets them back from `%xs` and `%xf`, if and only if XML allows the characters; in an attribute if there is no tab |
| LogDirectives.QuotedPrinted | src/help.c:93-99 | between quotes they are read back from `%qs`, `%qf`, `%cs` and `%cf` |
| LogDirectives.LevelPrinted | src/help.c:101-102 | the words of `%l` and `%L`, the same in every format |
| LogDirectives.NumbersPrinted | src/help.c:73-100 | the digits of `%n` and of the date and time units read back as the number, with the documented width |
| LogDirectives.NamesPrinted | src/start.c:863-894 | `%a` prints the month and `%b` the day of the week, by its first three letters |
| LogDirectives.ZonePrinted | src/start.c:631-641 | sign, hours and minutes of `%z` read back as the offset in whole minutes |
| LogRecords.TemplatesAsWritten | src/service-runner.h:16-31 | the eight layouts that the proofs read columns from are the templates of the header, character by character |
| LogRecords.JsonRecord | src/service-runner.h:16-31 | a reader of a whole JSON record of a release or a debug build recovers all values and stops in front of the brace, if and only if JSON allows the unescaped characters of the message and of the file name |
| LogRecords.XmlRecord | src/service-runner.h:16-31 | the same for XML records up to the closing tag, if and only if XML allows the characters; a debug record loses exactly the tabs of the file name |
| LogRecords.SqlRecord | src/service-runner.h:16-31 | all values of the SQL statements are recovered, whatever message and file name are |
| LogRecords.CsvRecord | src/service-runner.h:16-31 | all values of the CSV records are recovered, whatever message and file name are |
| LogRecords.RecordReadsBack | src/service-runner.h:16-31 | all eight built-in records at once: readable exactly if the format allows the texts, and then recovered but for tabs in an XML attribute |
| LogLayouts.RecordReads | src/start.c:586-913 | by induction over the columns of any well-put template: a reader recovers each value and stops in front of what closes the record, exactly if the format allows the unescaped characters of each |
| LogLayouts.TemplatePrints | src/start.c:586-913 | a template laid out in columns prints its fixed texts and the meanings of its directives in turn |
| LogLayouts.ValueReads | src/start.c:277-444 | one value, quoted, bare or an XML element, is read back up to what follows it |
| LogLayouts.TableWellPut | src/service-runner.h:16-31 | what a table of columns must satisfy to be read back |
| LogLayouts.StampIsPlain | src/start.c:702-714 | a printed time consists of characters no format has to escape, for every clock |
| LogDates.LocalDateTime | src/help.c:103-104 | `%t` and `%T` are equivalent to their documented expansions |
| LogDates.GmtDateTime | src/help.c:105-106 | `%gt` and `%gT` are equivalent to their documented expansions |
| LogDates.HttpDateAsPrinted | src/start.c:760-786 | `%h` is equivalent to the documented expansion with `%ga` and `%gb` exchanged |
| LogDates.HttpDateDiffers | src/help.c:107 | `%h` never prints what its documented expansion prints |
| RestartPolicy.Runner.HandleStopSignal | src/start.c:1203-1229 | clears `running` and forwards the signal, unless there never was a service process |
| RestartPolicy.Runner.HandleRestartSignal | src/start.c:1236-1262 | sets `restart_issued` and sends SIGTERM, unless there never was a service process |
| RestartPolicy.Runner.HandlePending | src/start.c:1203-1267 | the handlers run one after the other on the shared flags |
| RestartPolicy.HandlersCommute | src/start.c:1203-1267 | neither the order nor the number of handler runs matters, only which handlers run |
| SupervisorRequests.SignalledChildIsReaped | src/start.c:2347-2357 | once `handle_child` has set its flag, the next poll is followed by a `waitpid()` that takes exactly the service process, if it has died, with or without a pidfd |
| RestartPolicy.Runner.ServiceEnded | src/start.c:2371-2436 | the nested switches leave `running` set exactly for the causes, policies and requests listed, report a crash exactly for an error status, a core dump or a signal other than 2, 3, 9 and 15, and forget request and PID |
| SupervisorRequests.RequestsRecorded | src/start.c:1236-1245 | a round is decided as one with a restart request exactly if a restart signal was handled during it |
| SupervisorRequests.RequestDecides | src/start.c:2371-2436 | if a restart signal was handled since the last decision, the runner goes on if and only if the policy is ALWAYS or the service was not killed by SIGQUIT, SIGINT or SIGKILL |
| SupervisorRequests.RequestedRoundGoesOn | src/start.c:1957-1982 | and so it does at the loop test, where it goes on to fork again unless `pipe()` fails, or leaves |
| SupervisorWaysOut.RequestUnanswered | src/start.c:1957-2505 | when the runner has left its main loop without a stop signal, a handled restart request was not followed by a fork if and only if the service was killed by SIGQUIT, SIGINT or SIGKILL in that round under another policy than ALWAYS, or `pipe()` or `fork()` failed behind that round, or it came in a round aborted by a failed `pidfd_open()` |
| SupervisorWaysOut.FailuresAreExact | src/start.c:1966-2209 | each failed system call that ends the runner is told from the state it leaves |
| SupervisorWaysOut.ReachableWayOut | src/start.c:1957-2537 | what holds on each way out, in every reachable state |
| SupervisorScenario.RestartCanBeAborted | src/start.c:2167-2208 | a run, under every policy, in which a handled request is lost because `pidfd_open()` failed |
| SupervisorScenario.RestartCanBeLost | src/start.c:2406-2424 | a run in which a restart request is handled, nobody asks for a stop, and the runner removes its pidfiles |
| SupervisorInvariant.InitInv | src/start.c:1881-1905 | the invariant holds when the runner starts, all signals blocked |
| SupervisorInvariant.InvKept | src/start.c:1956-2537 | every event keeps the invariant: the runner's steps, deliveries, the child, the stop command, other signals, SIGKILL |
| SupervisorInvariant.RunInv | src/start.c:1956-2537 | every run keeps it |
| SupervisorInvariant.ReachableInv | src/start.c:1881-2537 | it holds in every reachable state |
| SupervisorInvariant.DecideKept | src/start.c:2371-2505 | the step that decides about another round keeps `running` equal to the fold of the decision rule over all rounds, and the counts of requests and crashes |
| SupervisorInvariant.StopKept | src/stop.c:118-312 | no step of the stop command breaks the invariant |
| SupervisorInvariant.ChildFailsKept | src/start.c:1073-1081 | a child that fails before `execv()` leaves the signal to the runner pending |
| SupervisorRuns.OneServiceProcess | src/start.c:1982-2371 | at most one unreaped service process exists, the one forked last |
| SupervisorRuns.RequestsAreActedOn | src/start.c:1203-1262 | whenever a stop or restart signal can be delivered, `service_pid` is the last fork's PID, so no request is taken for "not running"; the process is alive or a zombie except right behind its reaping and during cleanup |
| SupervisorRuns.CleanExit | src/start.c:2528-2537 | a runner that left through cleanup leaves no service process and neither pidfile |
| SupervisorRuns.CleanForever | src/start.c:1990-2122 | nothing recreates them afterwards |
| SupervisorRuns.StopSucceeded | src/stop.c:118-312 | if `stop` found the runner and returned 0, the runner is gone, and unless it was destroyed by a SIGKILL no service process and no pidfile is left |
| SupervisorScenario.StopCanSucceed | src/stop.c:118-312 | and there is such a run: the service is started, `stop` finds the runner, signals it and sees it go |
| SupervisorRuns.LoopChoice | src/start.c:1957-1982 | the main loop goes on exactly if no stop signal was handled and every round was decided to continue |
| SupervisorRuns.ForksFollowRounds | src/start.c:1957-2436 | each fork after the first follows a round that was decided to continue |
| SupervisorRuns.NeverForksByRequest | src/start.c:2377-2436 | under NEVER the forks are at most one more than the handled restart requests |
| SupervisorRuns.FailureForksByCrash | src/start.c:2377-2436 | under FAILURE each fork after the first follows a crash or a handled restart request |
| SupervisorRuns.ReportsMatchCrashes | src/start.c:2438-2483 | with a reporter it was started once per crash, without one never |
| SupervisorDecisions.DecidedByCause | src/start.c:2376-2436 | under FAILURE an error status, a core dump and a signal other than 2, 3, 9 and 15 restart the service, a normal exit and SIGTERM on request; ALWAYS restarts; NEVER restarts on request unless killed by 2, 3 or 9 |
| SupervisorDecisions.CrashIsFollowedUp | src/start.c:2438-2500 | a crash, and nothing else, starts the reporter, and then the pause if the runner goes on and one is configured |
| SupervisorDecisions.LoopTestByCause | src/start.c:1957-1982 | at the loop test of every reachable state with no stop signal handled the runner forks again if and only if its last round asks for another one, by cause |
| SupervisorDecisions.ForksByCause | src/start.c:1957-2436 | every round that was followed by a fork asked for it |
| SupervisorDecisions.LeftByCause | src/start.c:1957-2436 | a runner that left its loop with no stop signal handled and no failed system call did so because its last round did not |
| SupervisorDecisions.ReportsByCause | src/start.c:2438-2483 | the reporter was started as often as rounds ended in an error status, a core dump or a signal other than 2, 3, 9 and 15 |
| SupervisorPolling.DeadServiceIsNoticed | src/start.c:2218-2357 | whenever the runner polls for a service that has died, its pidfd or SIGCHLD can wake it, and then it reaps the process |
| SupervisorPolling.DrainingBegins | src/start.c:2210-2233 | with a log pipe every round begins by waiting for it |
| SupervisorPolling.PipeKeepsPolling | src/start.c:2233-2344 | along every run, the runner stays in the poll loop as long as the pipe has not been hung up, whatever becomes of the service |
| SupervisorRuns.AtMostOneMoreFork | src/start.c:1203-1229 | after a stop signal was posted at most one more fork happens in any continuation |
| SupervisorRuns.OneForkCanHappen | src/start.c:1957-1982 | and one can, from every reachable state at the top of the loop with `running` set: a signal that is blocked there comes too late for the next fork |
| SupervisorScenario.StopCanComeLate | src/start.c:1956-1982 | there is such a state, and the bound is met from it |
| SupervisorRuns.NoForkAfterStop | src/start.c:1203-1229 | once the handler cleared `running` nothing forks any more |
| SupervisorRuns.AllowanceBoundsForks | src/start.c:1956-2537 | the number of forks still possible after a stop signal is bounded along every run by where the runner is when it comes |
| SupervisorRuns.ToldRunnerForksNoMore | src/start.c:1073-1081 | a runner told of a premature exit never forks again, even under ALWAYS |
| SupervisorRuns.FailedChildIsTheLast | src/start.c:1992-2122 | a child that fails before `execv()` and reaches the runner with its signal is the last one forked |
| LogPump.Conservation | src/start.c:2235-2350 | after any sequence of turns of the poll loop, service output, messages and signals, the log files in the order of rotation and the pipe hold what was given in order and without repetition, all of it if and only if no turn lost bytes, and else all but as many as the turns lost |
| LogPump.LossExactly | src/start.c:2306-2333 | a turn loses bytes if and only if a `write()` failed in a copy through the buffer |
| LogPump.LostExactly | src/start.c:2319-2332 | a copy loses bytes if and only if one of its `write()` calls failed |
| LogPump.FailedWriteLoses | src/start.c:2326-2328 | the failing input: a chunk of which a part is written before `write()` fails; the rest is gone from the pipe and not in the file |
| LogPump.RunSettles | src/start.c:2235-2350 | along every run what was taken out of the pipe is in the files in order, but for the bytes lost |
| LogPump.TurnWrites | src/start.c:2246-2345 | one turn appends the front of the pipe to the log files, without the bytes it loses, whichever file is open |
| LogPump.RotationKeeps | src/start.c:2250-2301 | rotation keeps the output and its order |
| LogPump.SubsequenceLength | src/start.c:2246-2345 | a subsequence of full length is the whole: that nothing is lost means that nothing is missing |
| LogPump.Pump.PollLoop | src/start.c:2235-2350 | the loop runs its turns to the state the transitions say, and then holds all output if and only if no `write()` failed |
| LogPump.Pump.OnPoll | src/start.c:2246-2345 | one turn: rotation, moving log data, leaving, end of the pipe's events |
| LogPump.Pump.Rotate | src/start.c:2250-2301 | another file is opened exactly if the name changed or a rotation was issued, and the flag is reset only without a pattern |
| LogPump.Pump.Reopen | src/start.c:2272-2301 | the old file keeps its content, the new one starts empty; if opening fails nothing moves |
| LogPump.Pump.Take | src/start.c:2302-2339 | which bytes leave the pipe, which of them reach the file, and when the loop is left |
| LogPump.Pump.CopyThroughBuffer | src/start.c:2306-2333 | reading into the buffer and writing from a moving offset appends exactly the bytes in front of the first failed `write()`, through partial and interrupted writes |
| LogPump.Pump.Append | src/start.c:2304 | bytes appended to a file extend its service output |
| LogPump.Pump.Log | src/start.c:915-916 | the runner's own messages in the file do not disturb the service output |
| LogPump.ServiceBytesTagged | src/start.c:2304 | appending service bytes to a file appends them to its service output |
| LogRotation.OpensUnderNewName | src/start.c:2250-2301 | with a pattern another file is opened if and only if there is output or a rotation was asked for and the formatted name differs from the last one; then that is the name |
| LogRotation.ReopensOnRequest | src/start.c:2266-2270 | without one the same name is opened again if and only if a rotation was asked for, once |
| LogRotation.MovesWhatTheCallsSay | src/start.c:2302-2344 | how many bytes leave the pipe and how many reach the files, from the answers of `splice()`, `read()` and `write()`; when the loop is left and when the pipe is done with |
| LogRotation.OutputUnderItsName | src/start.c:2250-2333 | output that a turn writes is, after any further events, in a file opened under the name the pattern gave at that turn |
| LogRotation.PathNamesTheOpenFile | src/start.c:2286-2299 | along every run the open descriptor belongs to the file the path names |
| LogRotation.FilesGrow | src/start.c:2272-2333 | along every run files keep their names and contents; only the last one grows |
| LogRotation.PatternChangesNames | src/start.c:2261-2263 | along every run in which no file fails to open, neighbouring files of a pattern differ in name |
| LogRotation.FailedOpenRepeatsName | src/start.c:2272-2299 | and the run in which one does and they do not |
| LogRotation.OneNameWithoutPattern | src/start.c:2266-2270 | without a pattern all files have the same name |
| LogRotation.ReadToTheEnd | src/start.c:2312-2344 | along every run the loop is left if and only if a `read()` failed, and the pipe is read until the first hangup |
| Utf8.DecodeEncoded | src/help.c:207-293 | the decoding steps read back what RFC 3629 (section 3) writes for any scalar value, whatever follows |
| Utf8.DecodeAll | src/help.c:207-293 | valid UTF-8 is decoded to the encoded code points in order |
| Utf8.WellFormedIsEncoded | src/help.c:207-293 | the check for valid UTF-8 used below admits nothing but encodings |
| Utf8.EncodedIsWellFormed | src/help.c:207-293 | and all of them |
| Utf8.StandardExamples | src/help.c:207-293 | the encodings are those of the examples of RFC 3629 (section 7) |
| Utf8.DecodeAppend | src/help.c:207-293 | decoding distributes over a split between code points |
| Utf8.NextSized | src/help.c:208-248 | one turn of the sized loop decodes the first code point and never reads past the size |
| Utf8.NextZ | src/help.c:250-293 | one turn of the NUL-terminated loop does the same and never reads past the terminator |
| Utf8.Scan | src/help.c:305-325 | both word searches stop at the first code point of the kind they look for, or at the end |
| Utf8.FindWordEnd | src/help.c:305-314 | the end of the word is the first breaking space |
| Utf8.FindWordStart | src/help.c:316-325 | the next word or newline is the first code point that is no breaking space, or a newline |
| Utf8.ExtentSplits | src/help.c:305-325 | the searches cut between code points, nothing they passed over ends the search and what they found does |
| Utf8.CountGraphemes | src/help.c:328-383 | the count is the total width of the code points |
| Utf8.TextWidthAppend | src/help.c:328-383 | widths add up over a split between code points |
| Utf8.CharacterWidths | src/help.c:328-383 | the width of each character by its encoding: eight for a tab, none for control characters and the listed marks, one otherwise |
| Utf8.BreakingCharacters | src/help.c:295-325 | at which characters a word ends and at which the space behind it ends |
| Utf8.TurnStandsStill | src/help.c:305-325 | in front of anything but a newline byte, a turn of the wrapping loop stands still if and only if the code point decoded there is a newline |
| Utf8.ValidTurnsMove | src/help.c:207 | so it always moves on in valid UTF-8 |
| Utf8.OverlongNewlineStalls | src/help.c:207 | and it stands still at a two-byte spelling of the newline |
| TextWrap.PrintWrappedText | src/help.c:433-521 | for all valid UTF-8 and every width the output is the text laid out in lines: every byte is kept or is dropped space, continuation lines hang as the first line says; for tame text lines are as full as they can be and no wider than they must be; it terminates |
| TextWrap.NextWord | src/help.c:468-519 | the word branch extends the layout by one word, consumes input, and keeps the column equal to the true width of the line |
| TextWrap.FinishWord | src/help.c:478-518 | the same for the part behind the first break |
| TextWrap.NextLine | src/help.c:453-467 | the newline branch ends the line and begins the next one with its indentation |
| TextWrap.BeginLine | src/help.c:434-444 | indentation narrower than the width is printed, other indentation dropped |
| TextWrap.BreakBefore | src/help.c:471-477 | breaks exactly before a word that does not fit on a line that holds more than its hang |
| TextWrap.Rehang | src/help.c:481-500 | the hang moves exactly at list markers, behind marks and behind dots |
| TextWrap.SkipSpace | src/help.c:503-518 | space behind a word is printed, left out before a newline or the end, or replaced by a break |
| TextWrap.IsAllDots | src/help.c:385-397 | true exactly for three or more dots |
| TextWrap.PrintSpaces | src/help.c:399-415 | chunks of 256 add up to the count |
| TextWrap.WordGoesOn | src/help.c:478-518 | after a word the variables describe the line being built, and the line fits unless it is bare but for that word |
| TextWrap.WordBreaks | src/help.c:506-514 | a line broken behind a word had no room for any further word |
| TextWrap.BrokenBefore | src/help.c:471-477 | a line broken before a word had no room for it |
| TextWrap.LineEnded | src/help.c:453-467 | a newline of the text ends the line and the next one hangs from its own indentation |
| TextMeaning.TokensKept | src/help.c:433-521 | with the newlines put in for wrapping read as spaces, the output has exactly the words and newlines of the text, in order |
| TextMeaning.OnlySoftNewlinesDiffer | src/help.c:433-521 | that reading changes nothing but those newlines |
| TextMeaning.EveryLineFits | src/help.c:419-432 | no line of a tame text is wider than the width unless it is indentation and list markers and one word; none was broken before a word that would have fitted |
| TextMeaning.NoNewlineInside | src/help.c:433-521 | the lines of the layout are the lines of the output |
| TextMeaning.HangIsShared | src/help.c:474 | a line that was broken and its continuation have the same hang, and the continuation begins with that many spaces |
| TextMeaning.HangRules | src/help.c:417-432 | continuation lines hang from the last word behind two spaces, a tab or dots, two columns behind a list marker, or under the first word |
| TextMeaning.HangSettles | src/help.c:481-500 | plain words do not move the hang |
| TextHang.HangInBytes | src/help.c:481-500 | for every line of a tame text: continuations hang from the last word that two spaces, a tab and a space, a tab, or three or more dots stand in front of; if there is none, two columns further for each bullet the line begins with |
| TextHang.HangsFromLastAnchor | src/help.c:488-497 | the first of the two cases, for any line whose words and spaces take up room |
| TextHang.HangsBehindBullets | src/help.c:483-486 | the second |
| TextHang.BulletsExist | src/help.c:483-486 | every line begins with some number of bullets, so they are all the cases |
| TextHang.LayoutRoomy | src/help.c:433-521 | all lines of a tame text are such lines |
| TextBytes.LinesInBytes | src/help.c:417-432 | plain text, byte by byte: fewer leading spaces than the width are printed, others not; no line has more bytes than the width unless it is bullets and one word; a line is broken only before a word that would have made it longer |
| TextBytes.PlainWidth | src/help.c:328-337 | every printable character is one column wide, a tab eight |
| TextBytes.PlainWords | src/help.c:295-325 | in plain text, words are what has no space and no newline in it |
| TextMeaning.PlainIsTame | src/help.c:328-383 | printable ASCII, space, tab and newline are valid and tame |

## Left out

* Allocation failure: `malloc()`, `strdup()` and `realloc()` succeed, except that the shrinking `realloc()` of the normaliser may fail.
* Command resolution without a chroot (src/start.c:1673-1717), where the directory is joined even to an absolute command, and the permission checks themselves, which are parameters here.
* The answers of `realpath()` and `getcwd()` are parameters of `AbsPath.AbsPath`; path name length limits are not modelled.
* Escapers.JsonReadsBack: the reader takes no surrogate pairs, which the escaper never writes; characters are code points, not bytes.
* Escapers.XmlReadsBack: the reader does not look for `]]>`, which cannot occur as `>` is always escaped.
* The message is an input of the renderer; messages of 4096 bytes and more, whose buffer the source shadows, are thereby outside the model. So are the broken-down local and GMT times, which need not be of the same instant here; their printing is modelled.
* The text template, whose messages cannot be delimited; its directives are covered.
* Liveness: that a stop signal ends the service. A restarted child can swallow a signal in the inherited handler before `execv()`.
* SIGHUP and its flag in the protocol; it is part of the pump only. Poll and read errors that leave the poll loop with a live child are not events of the protocol either.
* System calls of the runner that fail without a branch of their own, `setpriority()` and the standard I/O setup between the pidfile and the main loop.
* A crash reporter that cannot be started; the start is counted as an attempt.
* PIDs are not reused while the runner lives, and overlapping `start` commands are not modelled: the running check and the pidfile write are not atomic.
* The fallback of `stop` without pidfds, and the SIGKILL it sends to the service on a timeout as a step of its own; a service process may die at any time here.
* LogPump.Pump.OnPoll: the file name pattern, `strftime()`, `dup2()` and the ownership of log files; the outcomes of `splice()`, `read()`, `write()` and `open()` are inputs, and the calls of one copy are as many as end its loop. What is still in the pipe at the end of a round stays there, as reading ends with the first hangup.
* TextWrap.PrintWrappedText: widths are unbounded numbers, not `size_t`; text that is not valid UTF-8 is excluded, as the source says that it is.
* The functions of the wrapper, the normaliser and the renderer with several branches are split into methods for branches or groups of cases, which pass the local variables along; the format argument of the renderer is one method that takes the format.
* `parse_rlimit_params`, option parsing, `logs`, `status`, `restart`, `logrotate` and `main`: plumbing or small decision tables.
