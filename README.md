# Marathon in Dafny

Marathon is the back end of a building-resilience assessment service. A long-running
dispatcher (`scripts/main.py`) polls a job queue that lives in a database. For each
queue row it starts, watches, cancels or cleans up one worker process. Each worker
(`runJob`) unpacks an ESP-r model and runs the estate type's assessment script. It
reports its progress to the dispatcher over a pipe as small integers, and the
dispatcher turns them into the row's `result` code. The assessment scripts use
`esp-query` (`scripts/common/esp-query/esp-query.py`) to pull named facts out of an ESP-r
model: zone names, floor and window surfaces, sensors, CFD domains, air flow networks,
control setpoints, temporal definitions, QA figures, FMUs, visual objects and plant
components.

The model has these modules.

- `CommandLine` (cli.dfy): the argument loop of `main()`. Its result is one of show help,
  refuse (exit 1) or serve with a shared folder, an interval and a debug switch. It also
  covers the pause between dispatch cycles.
- `Dispatch` (dispatch.dfy): one reconciliation maps a row's code and what can be
  observed of its worker onto the code written back and the change to the tables. That
  mapping is the `Expected` decision table, and a cycle is `Cycle`. The `Dispatcher`
  class holds `dict_proc` and `dict_pipe` as two maps with the same keys. Its methods
  spawn, kill and reconcile, and `DispatchCycle` is proved equal to `Cycle`. The pipe
  drain and the zombie wait are loops proved against their specifications.
- `Worker` (worker.dfy): `runJob` as the sequence of values it sends and the status it
  exits with. This covers the archive switch, the criteria vector, the progress
  forwarding loop, the completion tail and every `jobError` code.
- `Protocol` (protocol.dfy): the worker's sends read back by the dispatcher's polls.
- `PyText`, `EspLines` and `Wrappers`: Python string semantics (`strip`, `split`,
  `join`, `int`, `str`, slices, `index`, `remove`, `path.split`). They also give a
  result type that carries Python's exceptions and the script's error exits, and a
  line reader over a file's lines (`readline` and `getLine`).
- `EspTables`, `EspQuery` and `EspRun`: the 43 output names and the prerequisite
  table. `EspQuery` holds the flag setup of the request, `addBlank` and the blanks
  filled in after the scan, and the final report or list of missing outputs. The
  `Query` class holds `lb_outputs` and `ls_outputVals` as arrays. `EspRun` is a whole
  run on those arrays.
- `EspScan`: the scan of the configuration file. It is one step per line, and each
  extraction still looked for runs in the script's order.
- `EspFiles`, `EspSensors`, `EspReports`, `EspNetworks`, `EspObjects` and
  `EspSetpoints`: the readers of the files a configuration file names. These are
  geometry, view factor, CFD domain, Radiance, QA, FMI, air flow and plant network
  files, and `get_zone_setpoints` on the control file.

The behaviours below are modelled as the code does them, even where they look
unintended. The four defects under "## Findings" are the exception: each is modelled as
written in a member of its own, and the rest of the model takes its corrected side (see
"## Left out").

- A cancelled job whose worker is already dead is judged complete only on signal 4,
  and `i_tmp` starts at 0 there (`Protocol.CancelAfterFinishAsWritten`). So the
  cancellation wins even over a pass or fail the worker had already reported.
- A failure to fetch a row's model, estate or preset writes 9 before the row's code is
  looked at.
- A live worker that signalled completion, exited 0, last sent 0 and sent no flag
  during the recheck is logged as an error, yet still ends with code 3.
- `afn_zone_nodes` keeps gluing the first token of every later line onto its value.

## Model

| member | source | states |
|---|---|---|
| CommandLine.ExitCode | scripts/main.py:483-503 | help exits 0, a refused command line exits 1, and only a served one has no exit status |
| CommandLine.Positionals | scripts/main.py:454-491 | at most as many positional arguments as arguments |
| CommandLine.PositionalsAreArguments | scripts/main.py:454-491 | every positional is a non-empty argument that does not start with '-' |
| CommandLine.TrimSlash | scripts/main.py:494 | exactly one trailing '/' is removed from the shared folder; anything else is kept |
| CommandLine.FirstStop | scripts/main.py:454-500 | the first argument from i on that ends the scan (an empty argument, any option but debug, help included, or a second positional that is not a number), and none before it stops; none means no argument from i on stops |
| CommandLine.Meaning | scripts/main.py:449-503 | definition: the first argument that stops the scan decides (empty: refused; help: help; other option: refused as unknown; second positional not a number: refused); with none, one or two positionals serve with the trimmed folder, the interval (15 when absent) and the debug switch, and any other count is refused |
| CommandLine.ParseCommandLine | scripts/main.py:449-503 | the argument loop gives the meaning of the command line |
| CommandLine.ServesIff | scripts/main.py:449-503 | the service starts iff no argument stops the scan and there are 1 or 2 positionals; it serves the trimmed first positional, the parsed interval (15 with one positional), and debug iff some -d/--debug was given |
| CommandLine.SecondIsParsed | scripts/main.py:495-500 | when nothing stops the scan, the second positional reads as a number |
| CommandLine.HelpIff | scripts/main.py:456-483 | help is shown iff a help option comes before every argument that stops the scan |
| CommandLine.SleepFor | scripts/main.py:403-411 | the pause is never negative, stretches a quick cycle to the interval and is 0 for a late one |
| Dispatch.FlagCode | scripts/main.py:787-797 | performance flag 0 gives 3, 1 gives 2 and anything else gives 9 |
| Dispatch.AlivePoll | scripts/main.py:760-820 | definition: a live worker that has sent 0 is killed and written 9 if still alive after the recheck, written 9 if it exited non-zero, and otherwise written the code of its flag (0 when the last send was 0 and no flag followed); without a 0 it is written 10 plus its last progress 1-9, nothing when nothing was drained, and 9 (killed) otherwise |
| Dispatch.DeadPoll | scripts/main.py:821-857 | definition: a dead worker that sent 0 and exited 0 is written the code of its last send (3 for 0, 2 for 1, 9 otherwise); any other dead worker is written 9 |
| Dispatch.CancelDeadPoll | scripts/main.py:908-944 | definition: a cancel request for a dead worker writes the code of its last send only when it sent 4 and exited 0, and 9 otherwise |
| Dispatch.Expected | scripts/main.py:587-954 | definition: one row's write, effect and registration: a failed fetch writes 9; a run request writes 1 and starts a worker unless one is registered; a running code (1, 11-19) writes 8 when the job is marked killed, killing its worker if one is registered, and otherwise restarts an unregistered job or polls a registered one alive or dead; a cancel request writes 8 (terminating a live worker) or the dead poll's code; any other code does nothing |
| Dispatch.Cycle | scripts/main.py:583-954 | definition: the rows in list order, each decided by Expected on the registered set the earlier rows leave, collecting the writes and the jobs whose rows start a worker |
| Dispatch.ExpectedWritesCodes | scripts/main.py:674-954 | every write of a reconciliation is a code the dispatcher owns (1, 2, 3, 8, 9 or a progress code 11-19), so it never sets a row back to 0 or 7 |
| Dispatch.QuietPollIsIdempotent | scripts/main.py:760-820 | polling a live running job with nothing in its pipe writes nothing and keeps the tables |
| Dispatch.CycleWritesCodes | scripts/main.py:584-954 | a cycle writes no more codes than it has rows, each one a code the dispatcher owns |
| Dispatch.StartsOnlyAsked | scripts/main.py:587-747 | a row starts a worker exactly when its job is unregistered, its details were fetched, and it asks to run or, not marked killed, shows a running code |
| Dispatch.CycleStartsAsked | scripts/main.py:583-954 | a cycle starts at most one worker per row, each for a job one of whose rows asks for a worker |
| Dispatch.Del | scripts/main.py:527-528 | `del m[k]` fails (KeyError) iff k is missing; otherwise it removes exactly k |
| Dispatch.AliveDoneAsWrittenCrashes | scripts/main.py:778-809 | as written, a worker still alive after the recheck makes the second deletion raise KeyError; otherwise both entries go |
| Dispatch.AliveAfterExitSignalIsKilled | scripts/main.py:778-783 | a worker still alive after it sent 0 is killed, unregistered and written 9 |
| Dispatch.Drain | scripts/main.py:765-773 | the drain loop ends with the last value received (or the start value), done iff the done mark was received, and every buffered value received |
| Dispatch.AwaitExit | scripts/main.py:892-900 | the wait after terminate gives up as a zombie iff the process outlives 50 checks; at most 51 checks |
| Dispatch.Dispatcher.constructor | scripts/main.py:513-514 | both tables start empty |
| Dispatch.Dispatcher.Spawn | scripts/main.py:699-708 | a new process and pipe are registered under the job in both tables, and one process is started |
| Dispatch.Dispatcher.KillItWithFire | scripts/main.py:520-528 | both entries of the job are deleted and nothing is started |
| Dispatch.Dispatcher.Reconcile | scripts/main.py:587-954 | writes and does what the decision table says, and changes the tables by exactly its registration (keep, register once, unregister both) |
| Dispatch.Dispatcher.DispatchCycle | scripts/main.py:548-954 | with no database connection nothing happens: no write, and the tables, the started workers and the process count stay; otherwise the writes and the registered jobs are those of Cycle, and the workers started are Cycle's, in row order, one new process each |
| Protocol.UndatedJobIsJobError | scripts/main.py:822-857 | as written, the dispatcher reports such an undated job as a job error (9) |
| Protocol.DeadPollReportsOutcome | scripts/main.py:822-857 | a poll of a dead worker that has not yet been seen to finish writes 3 when it exited 0 and its flag script printed 0, 2 when it exited 0 with any other flag, and 9 for any other exit |
| Protocol.SendsBeforeDone | scripts/main.py:241-259 | when every progress value the assessment writes is below 10, everything a worker sends before its 0 is between 1 and 9 |
| Protocol.RunningPollShowsProgress | scripts/main.py:762-820 | a poll of a live worker that has not finished writes 10 plus the last progress value it drained and keeps the worker registered; when every progress value is below 10 that is a running code 11-19 |
| Protocol.AlivePollSeesCompletion | scripts/main.py:774-809 | a poll that drains the worker's 0 and sees it exit 0 within the recheck writes 3 or 2 as its flag script printed 0 or not, and reaps and unregisters it |
| Protocol.CancelAfterFinishAsWritten | scripts/main.py:908-944 | cancelling a job that finished with exit 0 reports 3 or 2 by its flag only when 4 was among the values still buffered, and 9 otherwise |
| Worker.ExitStatus | scripts/main.py:395 | the status read back is in 0..255 and equals a code in that range |
| Worker.ArchiveExt | scripts/main.py:97 | there is no extension (IndexError) iff the name has no '.' |
| Worker.Extractor | scripts/main.py:134-141 | exactly zip, tar, tar.gz and xml archives have an extraction command |
| Worker.ArchiveExtOfName | scripts/main.py:97 | a name `stem.ext` with a dot-free stem gives extension ext |
| Worker.AssessmentArgs | scripts/main.py:207-210 | the nine fixed arguments, then one per criterion, "X" for a missing one |
| Worker.CriteriaRoundTrip | scripts/main.py:210 | the criteria read back from the trailing arguments are the criteria iff no criterion is itself the text X |
| Worker.ReplaceChar | scripts/main.py:200 | every occurrence of the character is replaced and nothing else changes |
| Worker.AssessmentScript | scripts/main.py:200-201 | the script lies in the assessments folder, has the estate type's length after it and holds no space there |
| Worker.JobDir | scripts/main.py:420-422 | the job folder is `jobs/job_<id>` beside the scripts folder |
| Worker.KillMarker | scripts/main.py:728 | the cancellation marker sits inside the job folder |
| Worker.JobDirInjective | scripts/main.py:420-422 | different jobs get different folders |
| Worker.LookAtPrinted | scripts/main.py:247 | a progress file holding `str(n)` and trailing whitespace reads as n |
| Worker.ForwardIncreasing | scripts/main.py:241-259 | the values forwarded are strictly increasing and above the start value |
| Worker.ForwardReadValues | scripts/main.py:241-259 | every value forwarded was read from the progress file |
| Worker.ForwardCrashes | scripts/main.py:241-259 | the loop crashes iff some read of the progress file is not an integer |
| Worker.ProgressOfIncreasing | scripts/main.py:241-259 | the progress sent while the assessment runs is strictly increasing and above 2 |
| Worker.ForwardProgress | scripts/main.py:241-259 | the polling loop sends the forwarded values of its readings |
| Worker.Run | scripts/main.py:59-337 | a job's first send is always 1 |
| Worker.UndatedJobCrashes | scripts/main.py:75-176 | as written, a job whose model is ready but runs without the debug switch sends only 1 and exits 1; the dated job sends 2 next, or exits 12 without its assessment script |
| Worker.DatedJobAsWritten | scripts/main.py:75-176 | with the debug switch the job as written is the modelled job, and the modelled job does not depend on the switch |
| Worker.Expected | scripts/main.py:59-395 | definition: runJob with the progress forwarded from the progress-file readings: setup failures exit with their code after sending 1; then 1, 2 and the progress; a crash of the loop exits 1, a non-zero assessment status exits with it modulo 256, and otherwise the completion (9, 0, flag and exit 0), or exit 18 when the flag or the results cannot be had |
| Worker.RunAsWritten | scripts/main.py:75-176 | definition: as written, a job whose model is ready and that runs without the debug switch sends 1 and exits 1; otherwise it is the modelled job |
| Worker.RunJob | scripts/main.py:59-395 | the sends and exit status of runJob, every jobError an exit with its code |
| Worker.RunCompleted | scripts/main.py:224-330 | a job set up and assessed without error sends 1, 2, its progress and then its completion tail |
| Worker.CompletionTail | scripts/main.py:268-330 | a job exits 0 exactly when its next-to-last send is 0; then the last send is the flag 0 or 1 and no earlier send is 0, and a job that exits otherwise sends no 0 |
| Worker.FlagMeaning | scripts/main.py:268-278 | for a job that exits 0, the last send is 0 exactly when the flag script printed 0 |
| Worker.ExitStatuses | scripts/main.py:345-395 | a worker that receives no SIGTERM exits 0, 1 or one of the jobError codes 11, 12, 13, 14, 16 and 18, or with the assessment's own status taken modulo 256 |
| Worker.ProgressIncreasing | scripts/main.py:224-259 | once setup succeeds, the sends begin with 1, 2 and the progress, strictly increasing from the 2 on |
| Worker.JobCompletionTail | scripts/main.py:59-395 | the whole job's sends have the completion tail |
| PyText.IntToStringInjective | scripts/main.py:657 | distinct job IDs print differently |
| EspLines.At | scripts/common/esp-query/esp-query.py:270 | indexing past the end raises IndexError; otherwise it is the element |
| EspLines.Int | scripts/common/esp-query/esp-query.py:296 | `int()` succeeds exactly on ASCII decimal text (surrounding ASCII whitespace, an optional sign, one or more digits), with ValueError otherwise |
| EspLines.Open | scripts/common/esp-query/esp-query.py:308 | opening a missing file raises FileNotFoundError; otherwise it gives the file's lines |
| EspLines.Reader.ReadLine | scripts/common/esp-query/esp-query.py:15 | the next line, or "" at the end, where the position stays |
| EspLines.Reader.GetLine | scripts/common/esp-query/esp-query.py:13-18 | getLine consumes n lines (fewer at the end) and gives the tokens of the n-th |
| EspLines.GetLineEnd | scripts/common/esp-query/esp-query.py:13-18 | past the end, getLine leaves the reader at the end and gives no tokens |
| EspLines.StepsStop | scripts/common/esp-query/esp-query.py:391-424 | a line loop that breaks ends in a state its breaking passes establish |
| EspLines.StepsKeep | scripts/common/esp-query/esp-query.py:391-424 | a line loop keeps every property each of its passes keeps |
| EspTables.TablesShape | scripts/common/esp-query/esp-query.py:119-147 | one prerequisite list per output, and every prerequisite is itself an output |
| EspTables.NeedsClosed | scripts/common/esp-query/esp-query.py:135-147 | a prerequisite's prerequisites are already listed, so one level of raising flags is enough |
| EspQuery.DisplayOf | scripts/common/esp-query/esp-query.py:226-237 | an output is shown iff the request names it |
| EspQuery.WantedOf | scripts/common/esp-query/esp-query.py:226-237 | an output is looked for iff the request names it or a requested output needs it |
| EspQuery.OrderOf | scripts/common/esp-query/esp-query.py:226-237 | a requested output's slot is its first position in the request; others have 0 |
| EspQuery.DisplayedAreWanted | scripts/common/esp-query/esp-query.py:226-237 | a shown output is always looked for |
| EspQuery.MarkOutputs | scripts/common/esp-query/esp-query.py:226-237 | the setup loop fills the three arrays with the looked-for, shown and order lists |
| EspQuery.MarkIdentifier | scripts/common/esp-query/esp-query.py:231-237 | one round of the setup loop marks one output and raises its prerequisites |
| EspQuery.Raised | scripts/common/esp-query/esp-query.py:234-236 | a flag is set afterwards iff it was set or is in the prerequisites |
| EspQuery.RaiseAll | scripts/common/esp-query/esp-query.py:234-236 | the loop over the prerequisites raises exactly their flags |
| EspQuery.Blank | scripts/common/esp-query/esp-query.py:1109-1112 | addBlank on an output looked for writes `name=entry` and stops looking for it; otherwise nothing changes |
| EspQuery.BlankIdempotent | scripts/common/esp-query/esp-query.py:1109-1112 | a second addBlank of the same output changes nothing |
| EspQuery.BlankAllMeaning | scripts/common/esp-query/esp-query.py:1114-1142 | after a run of addBlank, an output is still looked for iff it was and is not listed; a listed one holds its first entry |
| EspQuery.EarlyFlags | scripts/common/esp-query/esp-query.py:1114-1115 | the first blanks stop the search for ctm_network and number_ctm only |
| EspQuery.AfnFlags | scripts/common/esp-query/esp-query.py:1116-1122 | the air flow blanks clear afn_zone_nodes and afn_zon_nod_nums exactly when afn_zone_nodes is still looked for, and no other flag |
| EspQuery.BlanksKeepPartialNodes | scripts/common/esp-query/esp-query.py:1116-1122 | half-read zone nodes are kept and their numbers left empty |
| EspQuery.ControlFlags | scripts/common/esp-query/esp-query.py:1124 | the control blank clears only zone_setpoints, and only while zone_control is still looked for (no `*ctl` line was met) |
| EspQuery.LateFlags | scripts/common/esp-query/esp-query.py:1125-1142 | the last blanks clear exactly outputs 16, 20-26, 28-33 and 39-42 (zone control, temporal, uncertainty, QA, FMI, building and plant outputs) |
| EspQuery.BlanksLeaveMandatory | scripts/common/esp-query/esp-query.py:1114-1145 | after all the blanks, an output is still missing iff it was looked for and is mandatory, or is zone_setpoints once zone_control is no longer looked for, or is afn_zon_nod_nums once afn_zone_nodes is no longer looked for |
| EspQuery.Flagged | scripts/common/esp-query/esp-query.py:1145-1150 | the outputs still looked for, each once, in ascending order |
| EspQuery.MissingNamesAscending | scripts/common/esp-query/esp-query.py:1145-1150 | the error lists exactly the names still looked for, in index order |
| EspQuery.Slots | scripts/common/esp-query/esp-query.py:1153-1155 | one report slot per requested name |
| EspQuery.LastNamed | scripts/common/esp-query/esp-query.py:1153-1155 | the last output below n with a given name, or none has it |
| EspQuery.SlotsMeaning | scripts/common/esp-query/esp-query.py:1153-1155 | slot k holds the value of the output the k-th request names when that is its first mention, and is empty otherwise |
| EspQuery.Query.constructor | scripts/common/esp-query/esp-query.py:226-239 | the flags of the request and no values |
| EspQuery.Query.Record | scripts/common/esp-query/esp-query.py:268-272 | an output found: its value is written and its flag cleared |
| EspQuery.Query.Update | scripts/common/esp-query/esp-query.py:646-652 | a value replaced while the output is still looked for |
| EspQuery.Query.Clear | scripts/common/esp-query/esp-query.py:1097-1099 | one flag cleared |
| EspQuery.Query.Store | scripts/common/esp-query/esp-query.py:258-1101 | the arrays take a line's flags and values, which only lower flags and write outputs looked for |
| EspQuery.Query.AddBlank | scripts/common/esp-query/esp-query.py:1109-1112 | addBlank on the arrays |
| EspQuery.Query.AddBlanks | scripts/common/esp-query/esp-query.py:1114-1142 | a run of addBlank on the arrays |
| EspQuery.Query.AddAfnBlanks | scripts/common/esp-query/esp-query.py:1116-1122 | the air flow blanks on the arrays |
| EspQuery.Query.AddControlBlank | scripts/common/esp-query/esp-query.py:1124 | the control blank on the arrays |
| EspQuery.Query.FillBlanks | scripts/common/esp-query/esp-query.py:1114-1142 | all blanks on the arrays |
| EspQuery.Query.Finish | scripts/common/esp-query/esp-query.py:1144-1159 | the missing names iff a flag is still set; otherwise the slots joined by blank lines |
| EspRun.CfgLocation | scripts/common/esp-query/esp-query.py:241-243 | the configuration file's folder ("." for none) and its name |
| EspRun.StartState | scripts/common/esp-query/esp-query.py:226-258 | the scan starts with the request's flags, no values and the initial globals, whose object flags are False (the corrected side of the object-flag finding) |
| EspRun.ScanLines | scripts/common/esp-query/esp-query.py:258-1101 | the loop over the configuration lines on the arrays gives the scan's flags, values and failure |
| EspRun.Answer | scripts/common/esp-query/esp-query.py:226-1159 | definition: a missing configuration file or a failed scan is the crash; otherwise the scan's state, with blanks filled, gives the report of the requested outputs or the names still missing |
| EspRun.Run | scripts/common/esp-query/esp-query.py:226-1159 | the array-based run of esp-query gives the answer `Answer` computes from the request, the files and the climate: the crash, the report or the missing names; like `Answer`, it starts with the object flags False and lists every FMU name (the corrected side of two findings) |
| EspScan.StartGlobals | scripts/common/esp-query/esp-query.py:250-258 | the globals before the first line, with the object flags False |
| EspScan.Put | scripts/common/esp-query/esp-query.py:270-271 | an output recorded: flag cleared, value written, nothing else changes |
| EspScan.Set | scripts/common/esp-query/esp-query.py:649-651 | an output's value replaced, still looked for, nothing else changes |
| EspScan.ZoneList | scripts/common/esp-query/esp-query.py:319-324 | a per-zone list is `name=v` at zone 1 and gains `,v` after; the flag clears at the last zone |
| EspScan.ZoneListJoin | scripts/common/esp-query/esp-query.py:319-324 | zone after zone, the list is the name and the zones' entries joined by commas |
| EspScan.EntriesOfList | scripts/common/esp-query/esp-query.py:476-478 | the entries of such a list read back as the zones' entries |
| EspScan.ZoneBlock | scripts/common/esp-query/esp-query.py:349-358 | a per-zone block headed `name:` with one ` zone#k=` line per zone; the flag clears at the last zone |
| EspScan.Known | scripts/common/esp-query/esp-query.py:710 | a global read before its first assignment raises NameError |
| EspScan.Tick | scripts/common/esp-query/esp-query.py:263-264 | counting down the lines changes no flag and no value |
| EspScan.ModelName | scripts/common/esp-query/esp-query.py:266-272 | only model_name changes, and a found value stays |
| EspScan.ModelNameWrites | scripts/common/esp-query/esp-query.py:266-272 | a `*root` line is read iff it has a second token, and model_name is then `model_name=` and that token, no longer looked for |
| EspScan.NumberZones | scripts/common/esp-query/esp-query.py:274-281 | only number_zones and its countdown change |
| EspScan.Description | scripts/common/esp-query/esp-query.py:283-291 | only model_description and its countdown change |
| EspScan.ZoneCounter | scripts/common/esp-query/esp-query.py:293-299 | a `*zon` line passes iff its index is one more than the zones seen, and counts one zone; other lines change nothing |
| EspScan.ZoneNames | scripts/common/esp-query/esp-query.py:301-329 | only zone_names changes |
| EspScan.FloorSurfs | scripts/common/esp-query/esp-query.py:331-360 | only zone_floor_surfs changes |
| EspScan.SensorNames | scripts/common/esp-query/esp-query.py:379-430 | only MRT_sensor_names and the loop's counters change |
| EspScan.SensorFile | scripts/common/esp-query/esp-query.py:368-432 | only the two sensor outputs change |
| EspScan.SensorsNone | scripts/common/esp-query/esp-query.py:434-449 | a zone without a view factor file changes only the two sensor outputs |
| EspScan.Sensors | scripts/common/esp-query/esp-query.py:362-449 | only the two sensor outputs change |
| EspScan.SensorsNoneWrites | scripts/common/esp-query/esp-query.py:434-449 | a zone without a view factor file adds 0 to MRT_sensors and an empty zone line to MRT_sensor_names when that is looked for |
| EspScan.SensorNamesWrites | scripts/common/esp-query/esp-query.py:379-430 | the zone's line of MRT_sensor_names lists, comma-joined, the names read from the view factor file |
| EspScan.SensorFileWrites | scripts/common/esp-query/esp-query.py:368-432 | a zone's `*ivf` line adds the first token of the view factor file's fifth line to MRT_sensors, and the file's sensor names to MRT_sensor_names when that is looked for |
| EspScan.CfdFiles | scripts/common/esp-query/esp-query.py:451-471 | only CFD_domain_files changes |
| EspScan.CfdFilesWrites | scripts/common/esp-query/esp-query.py:451-471 | inside a zone, a `*cfd` line adds the file beside the configuration file to CFD_domain_files, and `*zend` an empty entry; each succeeds iff the zone total (and the file name) can be read |
| EspScan.CfdDomains | scripts/common/esp-query/esp-query.py:473-490 | only CFD_domains changes |
| EspScan.CfdContaminants | scripts/common/esp-query/esp-query.py:492-521 | only CFD_contaminants changes |
| EspScan.Viewpoints | scripts/common/esp-query/esp-query.py:523-543 | only rad_viewpoints changes |
| EspScan.Scene | scripts/common/esp-query/esp-query.py:545-555 | only rad_scene changes |
| EspScan.Numerals | scripts/common/esp-query/esp-query.py:581-598 | the surface numbers as text, in order |
| EspScan.Windows | scripts/common/esp-query/esp-query.py:557-603 | only zone_win_surfs changes |
| EspScan.AfnNetwork | scripts/common/esp-query/esp-query.py:605-622 | only afn_network changes |
| EspScan.AfnNetworkWrites | scripts/common/esp-query/esp-query.py:605-622 | after `*cnn`, a `0` line gives an empty afn_network, `1` or `3` the network type, and the line after it the value |
| EspScan.Keyword | scripts/common/esp-query/esp-query.py:624-629 | the first line keyed so records its second token; other lines change nothing |
| EspScan.CtmCount | scripts/common/esp-query/esp-query.py:631-640 | only number_ctm changes |
| EspScan.CtmCountWrites | scripts/common/esp-query/esp-query.py:631-640 | once ctm_network is known, number_ctm is read iff its file exists beside the configuration file and has a fifth data line, and is then that line's first token |
| EspScan.ZoneNodes | scripts/common/esp-query/esp-query.py:642-652 | only afn_zone_nodes and the network position change |
| EspScan.ZoneNodesWrites | scripts/common/esp-query/esp-query.py:642-652 | the line after the network file starts afn_zone_nodes with its first token, and the first token of every later line is glued on, the output staying looked for |
| EspScan.NodeNumbers | scripts/common/esp-query/esp-query.py:654-694 | only the value of afn_zon_nod_nums changes, and no flag |
| EspScan.ZoneControl | scripts/common/esp-query/esp-query.py:696-702 | a `*ctl` line records `zone_control=1` and the control file |
| EspScan.Setpoints | scripts/common/esp-query/esp-query.py:705-714 | only zone_setpoints changes |
| EspScan.Tdfa | scripts/common/esp-query/esp-query.py:716-722 | only tdfa_file changes |
| EspScan.TdfaWrites | scripts/common/esp-query/esp-query.py:716-722 | a `*tdf` line is read iff it has a second token; tdfa_file is then that token and the file to read is beside the configuration file |
| EspScan.TdfaField | scripts/common/esp-query/esp-query.py:724-762 | once the file is known, the field is the right token of its third line |
| EspScan.Weather | scripts/common/esp-query/esp-query.py:779-795 | only weather_file changes, and a `*stdclm` line fails as the climate lookup does |
| EspScan.WeatherWrites | scripts/common/esp-query/esp-query.py:779-795 | weather_file records the `*clm` file, or for `*stdclm` that file inside the climate folder |
| EspScan.QaFile | scripts/common/esp-query/esp-query.py:797-803 | only QA_report changes |
| EspScan.QaFileWrites | scripts/common/esp-query/esp-query.py:797-803 | a `*contents` line is read iff it has a second token; QA_report is then that token and the report to read is beside the configuration file |
| EspScan.QaField | scripts/common/esp-query/esp-query.py:805-860 | only the QA figure changes |
| EspScan.FmiFile | scripts/common/esp-query/esp-query.py:862-868 | only FMI_config_file changes |
| EspScan.FmiFileWrites | scripts/common/esp-query/esp-query.py:862-868 | a `*FMI` line is read iff it has a second token; FMI_config_file is then that token and the file to read is beside the configuration file |
| EspScan.FmuNames | scripts/common/esp-query/esp-query.py:870-885 | FMU_names is done at the first line after the configuration file is known |
| EspScan.FmuNamesWrites | scripts/common/esp-query/esp-query.py:870-885 | once the FMI file is known, the pass succeeds iff the file exists and its names can be read, and FMU_names is then the value read from that file |
| EspScan.ObjectZone | scripts/common/esp-query/esp-query.py:902-907 | a zone's count changes only that object output, only by lowering its flag and writing it while looked for, and lowers the zone's object flag |
| EspScan.Objects | scripts/common/esp-query/esp-query.py:887-1045 | only the object count changes; an unassigned object flag raises NameError |
| EspScan.ObjectZoneWrites | scripts/common/esp-query/esp-query.py:902-907 | the zone's entry joins the object count's per-zone list whenever the zone total can be read |
| EspScan.ObjectsWrites | scripts/common/esp-query/esp-query.py:887-1045 | inside a zone, a `*geo` line adds the geometry file's count of objects named after the word, and `*zend` before it adds 0 |
| EspScan.Building | scripts/common/esp-query/esp-query.py:1047-1052 | `* Building` records `is_building=1` |
| EspScan.PlantNetwork | scripts/common/esp-query/esp-query.py:1054-1063 | only plant_network changes |
| EspScan.PlantNetworkWrites | scripts/common/esp-query/esp-query.py:1054-1063 | the line after `* Plant` gives plant_network, its first token's path beside the configuration file, which the plant passes then read |
| EspScan.PlantComponents | scripts/common/esp-query/esp-query.py:1065-1101 | only the two plant outputs change |
| EspScan.PlantWithin | scripts/common/esp-query/esp-query.py:1065-1101 | a plant output not looked for keeps its value |
| EspScan.Pass | scripts/common/esp-query/esp-query.py:301-1101 | no later pass touches the first outputs, the zone count or the countdown |
| EspScan.Rest | scripts/common/esp-query/esp-query.py:301-1101 | likewise for all the later passes of a line |
| EspScan.LineStep | scripts/common/esp-query/esp-query.py:258-1101 | a line with no tokens raises IndexError; a line that passes only lowers flags and writes outputs looked for, counts one zone iff it is a `*zon` line, and such a line carries the next zone index |
| EspScan.ScanFrom | scripts/common/esp-query/esp-query.py:258-1101 | the scan only lowers flags, never overwrites a found value and never writes an output that is not looked for |
| EspScan.FoldWithin | scripts/common/esp-query/esp-query.py:258-1101 | a line loop whose steps keep that frame keeps it |
| EspScan.ZoneIndices | scripts/common/esp-query/esp-query.py:293-299 | a scan that gets through numbers its zones 1, 2, 3 in order |
| EspScan.NumberZonesRead | scripts/common/esp-query/esp-query.py:274-281 | number_zones is the first token of the second line after `* Building`, and stays |
| EspScan.DescriptionRead | scripts/common/esp-query/esp-query.py:283-291 | model_description is the next line's tokens joined by spaces, and stays |
| EspScan.StartGlobalsAsWritten | scripts/common/esp-query/esp-query.py:250-258 | the globals as the script sets them, the object flags unassigned |
| EspScan.ToiletsAsWrittenFail | scripts/common/esp-query/esp-query.py:887-918 | as written, a request for number_toilets fails with NameError at the first line that is not a zone line |
| EspScan.ToiletsBeforeZones | scripts/common/esp-query/esp-query.py:887-918 | with the flags initialised, such a line leaves the count alone and the scan goes on |
| EspFiles.Uncommented | scripts/common/esp-query/esp-query.py:341 | a line stripped of its comment holds no '#' |
| EspFiles.FirstDataIndex | scripts/common/esp-query/esp-query.py:309-314 | the first non-empty line from k on that is not a comment, all before it comments; when there is none, every data line lies after an empty line (the end of file for readline) |
| EspFiles.ZoneNameSkipsComments | scripts/common/esp-query/esp-query.py:309-314 | comment lines at the head of a geometry file do not change its zone name |
| EspFiles.ZoneName | scripts/common/esp-query/esp-query.py:305-326 | definition: the first line that is neither a comment nor empty is the header: the third comma field of a `*Geometry` line or the second word of a `GEN` line is the zone name, stripped; with no such line, or one missing that field, IndexError, and a header of another kind is the bad-format exit |
| EspFiles.ReadZoneName | scripts/common/esp-query/esp-query.py:305-326 | the readline loop gives the zone name of the file |
| EspFiles.Seek | scripts/common/esp-query/esp-query.py:339-347 | the first line from k on with the prefix, every line before it non-empty and without it; when there is none, every line with the prefix lies after an empty line (the end of file for readline) |
| EspFiles.SeekLine | scripts/common/esp-query/esp-query.py:564-572 | the readline loop finds the line iff it is there and stops just after it |
| EspFiles.BaseListRoundTrip | scripts/common/esp-query/esp-query.py:336-356 | a `*base_list` line written for some floor surfaces reads back as those surfaces joined by commas |
| EspFiles.FloorSurfaces | scripts/common/esp-query/esp-query.py:336-356 | definition: the first `*base_list` line's comma fields give the surfaces ("0" for none, IndexError with fewer than two); without one the script exits with both the missing-list and the bad-format messages |
| EspFiles.ReadFloorSurfaces | scripts/common/esp-query/esp-query.py:336-356 | the seek and the field loop give the floor surfaces of the file |
| EspFiles.RunEnd | scripts/common/esp-query/esp-query.py:574-598 | the end of the contiguous run of lines with the prefix from k on |
| EspFiles.NumberedMeaning | scripts/common/esp-query/esp-query.py:574-598 | the surface numbers already listed stay; surface t of the `*surf` run gets number n + (t - k) and is listed iff the window test accepts it; every new number lies in the run |
| EspFiles.WindowSurfaces | scripts/common/esp-query/esp-query.py:561-596 | definition: the `*surf` lines from the first one, numbered from 1, listing those the window test accepts (not OPAQUE and EXTERIOR in the eighth and ninth fields, IndexError when a field is missing); without one the script exits with both messages |
| EspFiles.ReadWindowSurfaces | scripts/common/esp-query/esp-query.py:561-596 | the seek and the loop give the window surfaces of the file |
| EspSensors.Tick | scripts/common/esp-query/esp-query.py:393-398 | a positive countdown falls by one and switches its reading on when it reaches 0; a countdown that is not positive stays as it is |
| EspSensors.MrtLine | scripts/common/esp-query/esp-query.py:391-424 | one line moves the reader on by one line and adds at most one name; when it breaks the loop, there are as many names as sensors |
| EspSensors.MrtStops | scripts/common/esp-query/esp-query.py:391-424 | when the loop breaks it has as many names as the file's sensor count |
| EspSensors.MrtNames | scripts/common/esp-query/esp-query.py:391-424 | definition: the view factor file's lines in order from the start state, each a MrtLine step, until one breaks or fails |
| EspSensors.ReadMrtNames | scripts/common/esp-query/esp-query.py:391-424 | the for loop gives the sensor names of the view factor file |
| EspSensors.DomainCode | scripts/common/esp-query/esp-query.py:480-488 | each zone's CFD code is 0, 1 or 2, and a zone without a domain file gets 0 |
| EspSensors.EachMeaning | scripts/common/esp-query/esp-query.py:477-489 | a per-entry loop succeeds iff every entry does, with one result per entry in order |
| EspSensors.DomainCodesMeaning | scripts/common/esp-query/esp-query.py:477-489 | the CFD codes are one per zone, each that zone's code |
| EspSensors.JoinEach | scripts/common/esp-query/esp-query.py:477-489 | the loop writes the head and the entries' results joined by commas |
| EspSensors.DomainCodes | scripts/common/esp-query/esp-query.py:477-489 | definition: DomainCode of each domain file entry in order; the first failure ends the loop |
| EspSensors.ReadDomainCodes | scripts/common/esp-query/esp-query.py:477-489 | the loop over the domain files gives the CFD_domains value |
| EspSensors.ContaminantsRead | scripts/common/esp-query/esp-query.py:504-518 | reading the lines that follow `*contaminants(`, each line's first token a name, gives the names joined by commas |
| EspSensors.ReadContaminants | scripts/common/esp-query/esp-query.py:504-518 | the loop over one domain file gives its contaminants |
| EspSensors.ReadZoneContaminants | scripts/common/esp-query/esp-query.py:500-519 | the contaminants of one zone |
| EspSensors.WriteZoneLines | scripts/common/esp-query/esp-query.py:496-520 | the loop writes one `zone#k=` line per zone after the head |
| EspSensors.ContaminantsValue | scripts/common/esp-query/esp-query.py:496-520 | definition: the `CFD_contaminants:` head, then one `  zone#k=` line per zone holding its contaminants (empty without a domain file) |
| EspSensors.ReadContaminantLines | scripts/common/esp-query/esp-query.py:496-520 | the loop over the zones gives the CFD_contaminants value |
| EspReports.TaggedValue | scripts/common/esp-query/esp-query.py:528-531 | the value is read iff the file exists and its n-th line has at least two tokens, the first being the tag; the value is the second token; a line with another first token fails the script's assertion |
| EspReports.KeyedFrom | scripts/common/esp-query/esp-query.py:534-541 | the keyed values collected extend those before, one per line at most |
| EspReports.KeyedSource | scripts/common/esp-query/esp-query.py:534-541 | every value collected is the second token of a keyed line |
| EspReports.ReadKeyed | scripts/common/esp-query/esp-query.py:534-541 | the loop gives the rad_viewpoints value |
| EspReports.FmuValueAsWritten | scripts/common/esp-query/esp-query.py:874-885 | definition: as written: with no `*FileName` line the value stays, one line gives `FMU_names=a`, and more give `FMU_names,` and the last name |
| EspReports.FmuValue | scripts/common/esp-query/esp-query.py:874-885 | definition: corrected: every `*FileName` name after `FMU_names=`, comma separated; with none the value stays |
| EspReports.FmuNamesAsWrittenLosesNames | scripts/common/esp-query/esp-query.py:874-885 | as written, two FMUs a and b give `FMU_names,b` |
| EspReports.FmuValueRoundTrip | scripts/common/esp-query/esp-query.py:874-885 | corrected, the value after '=' is the FMU names joined by commas, and splits back into them |
| EspReports.QaTableRead | scripts/common/esp-query/esp-query.py:807-860 | after the header row and the zone rows, the `all` row gives the figure in the column, and the zone rows' entries are collected when asked |
| EspReports.QaFigures | scripts/common/esp-query/esp-query.py:807-860 | definition: after the zone table's header, the zone rows' third tokens (when collected) and the column's token of the `all` row; none without that row |
| EspReports.ReadQa | scripts/common/esp-query/esp-query.py:807-860 | the loop over the QA report gives its figures |
| EspNetworks.Slot | scripts/common/esp-query/esp-query.py:667 | the position of a zone node in the list |
| EspNetworks.AfnNodesAllFound | scripts/common/esp-query/esp-query.py:654-694 | for distinct zone names, a reading that finds the numbers gives one per zone node, none of them 0 |
| EspNetworks.ReadTableNodes | scripts/common/esp-query/esp-query.py:664-680 | the loop over a type 1 network gives its node numbers |
| EspNetworks.ReadNodeLines | scripts/common/esp-query/esp-query.py:681-692 | the loop over a type 3 network gives its node numbers |
| EspNetworks.AfnNodeNumbers | scripts/common/esp-query/esp-query.py:656-694 | definition: type 1 reads the node table after its header, type 3 the `*node` lines, any other type nothing; the numbers are given only when the loop breaks, which it does once every zone node has been found |
| EspNetworks.ReadAfnNodes | scripts/common/esp-query/esp-query.py:656-694 | the whole reading of afn_zon_nod_nums |
| EspNetworks.PlantLine | scripts/common/esp-query/esp-query.py:1073-1100 | a line never writes a plant output that is not looked for; a break comes with every component listed |
| EspNetworks.PlantStops | scripts/common/esp-query/esp-query.py:1073-1100 | when the loop breaks, both plant outputs are done and the count matches the components seen |
| EspNetworks.PlantKeepsNumbers | scripts/common/esp-query/esp-query.py:1087-1091 | the component numbers are never written when not looked for |
| EspNetworks.PlantKeepsNames | scripts/common/esp-query/esp-query.py:1092-1096 | the component names are never written when not looked for |
| EspNetworks.PlantScan | scripts/common/esp-query/esp-query.py:1073-1100 | definition: the plant lines in order, each updating the component numbers and names until both are done |
| EspNetworks.ReadPlant | scripts/common/esp-query/esp-query.py:1073-1100 | the loop over the plant network file gives its components |
| EspObjects.IsObject | scripts/common/esp-query/esp-query.py:897-901 | a line counts iff it is a `*vobject` whose name holds the word; a nameless one raises IndexError |
| EspObjects.CountWhereOk | scripts/common/esp-query/esp-query.py:897-901 | a count succeeds iff every line can be judged |
| EspObjects.CountWhereAppend | scripts/common/esp-query/esp-query.py:897-901 | counting two pieces adds their counts |
| EspObjects.Count | scripts/common/esp-query/esp-query.py:897-901 | the loop gives the count of the file |
| EspObjects.EarlierFailure | scripts/common/esp-query/esp-query.py:897-901 | a failure on a prefix is the failure of the whole file |
| EspObjects.ObjectCount | scripts/common/esp-query/esp-query.py:893-901 | definition: the number of lines IsObject accepts for the word, failing at the first line it cannot judge |
| EspObjects.CountObjects | scripts/common/esp-query/esp-query.py:893-901 | the number of visual objects named after the word |
| EspSetpoints.DayTypesOf | scripts/common/esp-query/esp-query.py:42-52 | day type flag 0 follows the calendar, 1 is one day type for all days, anything else exits with the unrecognised-flag error |
| EspSetpoints.PeriodReads | scripts/common/esp-query/esp-query.py:69-103 | a period of an unknown control type writes only its head and moves three lines on; type 2 writes its control lines and moves two lines on; type 11 adds `n/a` setpoints; type 1 adds the heating and cooling setpoints, the fifth and sixth tokens of its third line |
| EspSetpoints.DayTypesFlag | scripts/common/esp-query/esp-query.py:39-53 | the day type flag on a function's sixth line chooses the calendar's day types (0), one day type for all days (1) or the error exit (anything else) |
| EspSetpoints.SetpointsHeader | scripts/common/esp-query/esp-query.py:24-37 | a reading that succeeds found `* Building` and a number of functions after it, and its text begins with the header and that count |
| EspSetpoints.FunctionsDeclaredAt | scripts/common/esp-query/esp-query.py:35-37 | the number of functions is read iff line p0 + 1 begins with an integer, and is that integer |
| EspSetpoints.FunctionsExtend | scripts/common/esp-query/esp-query.py:39-103 | the functions loop only appends to the text |
| EspSetpoints.ReadPeriods | scripts/common/esp-query/esp-query.py:69-103 | the period loop gives the periods' text and cursor |
| EspSetpoints.ReadDayTypes | scripts/common/esp-query/esp-query.py:55-103 | the day type loop gives the day types' text and cursor |
| EspSetpoints.ReadFunctions | scripts/common/esp-query/esp-query.py:39-103 | the function loop gives the functions' text and cursor |
| EspSetpoints.ReadAfterHeader | scripts/common/esp-query/esp-query.py:35-109 | the part after `* Building` |
| EspSetpoints.ZoneSetpoints | scripts/common/esp-query/esp-query.py:24-109 | definition: with no `* Building` line the search never ends (`Hangs`); otherwise the header, the day types, the functions and the mapping read after that line |
| EspSetpoints.ReadZoneSetpoints | scripts/common/esp-query/esp-query.py:24-109 | get_zone_setpoints on the control file |

## Left out

- The database: connecting, querying, committing and the credential file are not modelled. Each queue row and its fetched details are inputs; a failed fetch is a flag that leads to code 9.
- Processes and pipes at the operating-system level: `Process`, `Pipe`, `kill`, `terminate`, signal handlers, `prctl` and `setproctitle`. A worker is observed through a `Probe` record (alive, exit code, buffered values, liveness after the recheck), and a job is run as a function of its inputs.
- Time: `sleep` and `time` are not modelled; `SleepFor` takes the cycle's duration as an input.
- File-system work in `runJob`: copying, unpacking, `glob`, `mv`, `rmtree`, `awk`, the LaTeX preamble and the result upload. Each step's success is a field of the job record.
- `jobError` and `printError`: the log writing and stderr are dropped; a `jobError` is an exit with its code.
- `runFakeJob`, a debug-only stand-in for `runJob`.
- Non-integer pipe values: the pipe carries ints only.
- The argparse command line of esp-query, its help text, the datetime header and the output file: a run takes the request, the configuration path and the files.
- `open()`: files are a map from path to lines. A missing path raises FileNotFoundError.
- `~/.esprc`: the climate folder it names is an input, which may be a failure.
- `float()` on the interval argument is an input function; the interval is a real.
- Commented-out code (the md5 check and others).
- Python exceptions are values (`Raised`), and error exits are values (`ErrorExit`) that carry the text written to stderr. The script stops with them. No traceback is modelled, nor the `print(ls_line)` to stdout that get_zone_setpoints makes before its error exit (scripts/common/esp-query/esp-query.py:51).
- EspQuery.Query.Store: the arrays take a whole line's new flags and values at once, where the script writes each entry as it goes.
- EspScan.ModelName, EspScan.ZoneNames, EspScan.FloorSurfs, EspScan.Sensors, EspScan.CfdFiles, EspScan.CfdDomains, EspScan.CfdContaminants, EspScan.Viewpoints, EspScan.Scene, EspScan.Windows, EspScan.AfnNetwork, EspScan.CtmCount, EspScan.ZoneNodes, EspScan.NodeNumbers, EspScan.Setpoints, EspScan.Tdfa, EspScan.QaFile, EspScan.QaField, EspScan.FmiFile, EspScan.PlantNetwork and EspScan.PlantComponents state only which outputs a pass may change. For EspScan.ModelName, EspScan.CfdFiles, EspScan.AfnNetwork, EspScan.ZoneNodes, EspScan.CtmCount, EspScan.Tdfa, EspScan.QaFile, EspScan.FmiFile and EspScan.PlantNetwork, which record a token of the line, the values are stated by the lemma of the same name with `Writes` added. EspScan.Sensors runs the sensor passes, whose values EspScan.SensorFileWrites, EspScan.SensorNamesWrites and EspScan.SensorsNoneWrites state. The others take their values from a reader (EspFiles.ZoneName, EspFiles.FloorSurfaces, EspFiles.WindowSurfaces, EspSensors.DomainCodes, EspSensors.ContaminantsValue, EspReports.KeyedFrom, EspReports.TaggedValue, EspReports.QaFigures, EspNetworks.AfnNodeNumbers, EspNetworks.PlantScan, EspSetpoints.ZoneSetpoints), whose results are stated there; no lemma states that the pass writes the reader's result.
- EspScan.SensorNames, EspScan.SensorFile, EspScan.SensorsNone, EspScan.Weather, EspScan.FmuNames, EspScan.ObjectZone and EspScan.Objects state in their own contracts only which outputs they may change. The values they write are stated by EspScan.SensorNamesWrites, EspScan.SensorFileWrites, EspScan.SensorsNoneWrites, EspScan.WeatherWrites, EspScan.FmuNamesWrites, EspScan.ObjectZoneWrites and EspScan.ObjectsWrites.
- EspScan.Pass and EspScan.Rest state only the frame of the passes, not what each writes.
- EspSensors.MrtLine states the line count, the number of names and the count at a break, not which name a line adds; EspSensors.ReadMrtNames ties the loop to MrtNames, whose names EspScan.SensorNamesWrites places in the output.
- EspSensors.MrtStops states only the number of names at a break, not which names.
- EspNetworks.PlantLine and EspNetworks.PlantStops state the flags and the component count, not the text of the component lists.
- EspReports.KeyedFrom states only the shape of the collected list; EspReports.KeyedSource says where each value comes from.
- Worker.Run, Worker.Expected and Worker.RunJob take the corrected side of the undated-job finding: a job is dated whether or not the debug switch is on, so it goes on to its assessment. Worker.RunAsWritten and Worker.UndatedJobCrashes model the crash. Worker.RunCompleted, Worker.ProgressIncreasing and the Protocol lemmas are about the corrected job.
- Dispatch.Expected, Dispatch.AlivePoll and Dispatch.Dispatcher.Reconcile take the corrected side of the double-deletion finding: a worker still alive after the recheck is unregistered once. Dispatch.AliveDoneAsWrittenCrashes models the KeyError.
- EspRun.Run and EspRun.StartState (through EspScan.StartGlobals) take the corrected side of the object-flag finding: b_toilet and the other object flags start False. EspScan.StartGlobalsAsWritten and EspScan.ToiletsAsWrittenFail model the NameError.
- EspScan.FmuNames and so EspRun.Run take the corrected side of the FMU-names finding: FMU_names lists every FMU (EspReports.FmuValue). EspReports.FmuValueAsWritten and EspReports.FmuNamesAsWrittenLosesNames model the lost names.
- Protocol.SendsBeforeDone and Protocol.RunningPollShowsProgress assume every progress value the assessment writes is below 10. The source forwards any integer the progress file holds (scripts/main.py:247-250), so a script that writes 12 makes the dispatcher write 22.
- EspLines.Int and PyText.ParseInt (with PyText.IsSpace): whitespace is the ASCII whitespace only, and `int()` takes an optional sign and ASCII digits only. Python's `int()` also accepts `_` between digits (`int("1_0")` is 10), non-ASCII digits and Unicode whitespace (`strip()` removes U+00A0); the model refuses or keeps these.
- Worker.RunJob and Worker.ExitStatuses: the SIGTERM handler (scripts/main.py:85-88) is not modelled. A worker that receives SIGTERM exits 15 through jobError, but the model's statuses are those of a worker that receives no signal.
- Worker.Run states only the first send; the rest is stated by Worker.RunCompleted, Worker.CompletionTail and Worker.ProgressIncreasing.
- EspSetpoints.FunctionsExtend states only that the functions loop appends to the text; EspSetpoints.PeriodReads and EspSetpoints.DayTypesFlag say what a period and a day type write.
- `get_zone_setpoints` with no `* Building` line keeps reading "" forever; the model gives `Hangs` rather than looping.

## Findings

| source | as written | input that shows it | evidently intended | confidence | as-written member | corrected member |
|---|---|---|---|---|---|---|
| scripts/common/esp-query/esp-query.py:876-884 | the second and later FMU names replace the value with `FMU_names,<name>` (the value is built from the output name instead of itself) | an FMI file with two `*FileName` lines a and b gives `FMU_names,b` | `FMU_names=a,b` | not executed | EspReports.FmuNamesAsWrittenLosesNames | EspReports.FmuValueRoundTrip |
| scripts/common/esp-query/esp-query.py:250-258 | b_toilet, b_urinal, b_shower, b_printer and b_photocopy are read before any assignment | a request for number_toilets on a configuration file whose first line is not a `*zon` line raises NameError | the flags start False, so lines before the first zone are skipped | not executed | EspScan.ToiletsAsWrittenFail | EspScan.ToiletsBeforeZones |
| scripts/main.py:778-809 | a worker still alive after the recheck is killed with killItWithFire, which deletes both entries, and then the same entries are deleted again | a live worker that has sent 0 and is still alive half a second later: the second `del dict_proc[s_jobID]` raises KeyError and stops the dispatcher | kill the worker, unregister it once, write 9 | not executed | Dispatch.AliveDoneAsWrittenCrashes | Dispatch.AliveAfterExitSignalIsKilled |
| scripts/main.py:75-176 | `curDateTime` is assigned only under `if b_debug:` (line 77) and again at line 315, so it is local to runJob, and line 175 reads it whatever the switch | a job whose model has one cfg file, run without -d: line 175 raises UnboundLocalError, the worker has sent only 1 and exits 1, and the dispatcher writes 9 | every job is dated, so it goes on to its assessment script | not executed | Worker.UndatedJobCrashes | Worker.Run |
