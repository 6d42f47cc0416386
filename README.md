# OctoPrint-BambuPrinter: the virtual printer, in Dafny

OctoPrint-BambuPrinter lets OctoPrint drive a Bambu Lab printer as if it
were a serial G-code printer. This project models the plugin's core and
proves properties of that model:

- the printer's file inventory. A scan of the printer's storage becomes
  records with a DOS short name, an alias map from short name to file
  name, and a data map from file name to record. The inventory also
  answers lookups by name and by allowed suffix, keeps the selected file,
  and handles deletion (`file_list.dfy`).
- the G-code dispatch registry. Registration puts a handler in one of two
  tables according to its number of required arguments. Dispatch prefers
  the table of handlers that take the command line. A code can be shown
  with its documentation (`gcode_executor.dfy`).
- the virtual printer (`printer.dfy`):
  - the queue of requested states and the worker round that applies one;
  - the switch between the Idle, Printing and Paused states;
  - the print job, refreshed from the device's report and the inventory;
  - the serial commands M23, M24, M25, M26, M30, M118 and M524.
- the printing state (flag, worker thread, worker loop, pause and cancel),
  the paused state (flag, status timer, resume) and the idle state's start
  command (`printer.dfy`, `print_command.dfy`).

The pure helpers live in `printer_commands.dfy`: the state a reported
`gcode_state` asks for, the job record, the SD status line, and the
argument parsers of M23, M30 and M118. Python's string and path semantics
live in `text.dfy` and `paths.dfy`: `str.lower` on ASCII text, `str.isspace`,
`split`/`strip`/`find`, `int` formatting, and `PurePosixPath` parsing,
`name`, `suffixes` and `as_posix`. `wrappers.dfy` holds `Option` and
`Result`.

Several things the printer gets from outside are inputs to the model:

- the network client becomes the device's last report (`device`), a
  `connected` flag, and a boolean per publish saying whether the printer
  accepted it;
- a storage scan becomes a `Listing`, either a transport error or the
  root and `cache/` listings of (path, optional size, modification time);
- OctoPrint's short-name helper and timestamp conversion are function
  parameters of the inventory;
- the serial link becomes the sequence `sent` of lines sent to OctoPrint;
- published commands are collected in `published`.

The worker thread of the printing state runs as a loop over the device
reports that arrive during its three-second sleeps.

## Model

| member | source | states |
|---|---|---|
| Text.Lower | octoprint_bambu_printer/printer/remote_sd_card_file_list.py:25 | lower-casing keeps the length, leaves no ASCII capital, and changes a character only by lowering an ASCII capital |
| Text.SplitJoin | octoprint_bambu_printer/printer/remote_sd_card_file_list.py:28 | splitting a join on a separator that no part contains gives the parts back |
| Text.IntRoundTrip | octoprint_bambu_printer/printer/bambu_virtual_printer.py:460 | the decimal text of any integer reads back to that integer |
| Text.IndexOf | octoprint_bambu_printer/printer/bambu_virtual_printer.py:367 | the leftmost place from `start` where the pattern occurs, none before it; `None` exactly when it occurs nowhere |
| Paths.Parse | octoprint_bambu_printer/printer/remote_sd_card_file_list.py:74 | a parsed path is well formed (only non-empty, non-`.` components without `/`), and is absolute iff the text starts with `/` |
| Paths.ParseAsPosix | octoprint_bambu_printer/printer/states/idle_state.py:41 | `as_posix` of a parsed path parses back to the same path |
| Paths.AsPosix | octoprint_bambu_printer/printer/states/idle_state.py:41 | the text of a well-formed path is non-empty, starts with `/` iff the path is absolute, and is `.` iff the path is relative with no component |
| Paths.NameOf | octoprint_bambu_printer/printer/remote_sd_card_file_list.py:100 | `Path(s).name` is empty or a single component |
| Paths.NameOfName | octoprint_bambu_printer/printer/remote_sd_card_file_list.py:132-133 | taking the name of a name changes nothing |
| Paths.NameOfJoin | octoprint_bambu_printer/printer/remote_sd_card_file_list.py:61 | the name of a joined relative path is its last component |
| Paths.Suffixes | octoprint_bambu_printer/printer/remote_sd_card_file_list.py:124 | every suffix is a dot followed by text without a dot |
| Paths.SuffixesOf | octoprint_bambu_printer/printer/remote_sd_card_file_list.py:124 | a dot-free stem followed by extensions has exactly `.ext` for each extension as suffixes |
| FileList.FileName | octoprint_bambu_printer/printer/remote_sd_card_file_list.py:23-25 | `file_name` has the length of the path's name, has no capital, and is empty or one component |
| FileList.LogInfo | octoprint_bambu_printer/printer/remote_sd_card_file_list.py:27-28 | the log line starts with the short name and a space, ends with the quoted file name, and is exactly as long as its four fields, three spaces and two quotes |
| FileList.LogInfoFields | octoprint_bambu_printer/printer/remote_sd_card_file_list.py:27-28 | split on spaces, the log line gives the short name, the size (read back as the number) and the timestamp as its first three fields |
| FileList.FileNameOfEntry | octoprint_bambu_printer/printer/remote_sd_card_file_list.py:61 | a record's file name is the lower-cased last component of its entry |
| FileList.RecordFor | octoprint_bambu_printer/printer/remote_sd_card_file_list.py:61-68 | a record has the parsed path, the remote size or 0 when there is none, the lower-cased short name derived from the file name and the given names, and the converted timestamp |
| FileList.LongNamesBefore | octoprint_bambu_printer/printer/remote_sd_card_file_list.py:73-78 | defines the names entry k is given: the k lower-cased long names of entries 0..k-1 |
| FileList.LongNameScan | octoprint_bambu_printer/printer/remote_sd_card_file_list.py:70-78 | defines the scan as written; it yields one record per entry, in order |
| FileList.ScanFtpFileList | octoprint_bambu_printer/printer/remote_sd_card_file_list.py:70-78 | the scan loop as written yields exactly the long-name scan |
| FileList.ShortNameScan | octoprint_bambu_printer/printer/remote_sd_card_file_list.py:70-78 | the corrected scan yields one record per entry, in order |
| FileList.ShortNameScanAt | octoprint_bambu_printer/printer/remote_sd_card_file_list.py:73-78 | in the corrected scan, record k gets its short name from the short names of records 0..k-1 |
| FileList.ScanFtpFileListByShortName | octoprint_bambu_printer/printer/remote_sd_card_file_list.py:70-78 | the corrected scan loop yields exactly the corrected scan |
| FileList.ShortNamesDistinct | octoprint_bambu_printer/printer/remote_sd_card_file_list.py:62 | with a short-name helper that avoids the names it is given, the corrected scan's short names are pairwise distinct |
| FileList.TildeDosNameAvoidsGiven | octoprint_bambu_printer/printer/remote_sd_card_file_list.py:62 | the sample short-name helper never returns a name it was given |
| FileList.LongNameScanRepeatsShortName | octoprint_bambu_printer/printer/remote_sd_card_file_list.py:78 | a root file and a `cache/` file sharing their first six characters get the same short name as written, and different ones in the corrected scan |
| FileList.BuildMap | octoprint_bambu_printer/printer/remote_sd_card_file_list.py:114-117 | the keys of a dict comprehension are exactly the keys of the elements |
| FileList.BuildMapLastWins | octoprint_bambu_printer/printer/remote_sd_card_file_list.py:114-117 | an element with no later element of the same key defines that key's entry |
| FileList.BuildMapFrom | octoprint_bambu_printer/printer/remote_sd_card_file_list.py:114-117 | every entry comes from an element with that key |
| FileList.AliasMap | octoprint_bambu_printer/printer/remote_sd_card_file_list.py:114-116 | the alias map's keys are exactly the records' short names, and each maps to the file name of a record with that short name |
| FileList.DataMap | octoprint_bambu_printer/printer/remote_sd_card_file_list.py:117 | the data map's keys are exactly the records' file names, and each maps to one of the records, whose file name it is |
| FileList.Resolve | octoprint_bambu_printer/printer/remote_sd_card_file_list.py:100-101 | the lookup key is the alias target when the lower-cased base name is an alias key, and that name itself otherwise |
| FileList.Lookup | octoprint_bambu_printer/printer/remote_sd_card_file_list.py:96-105 | a lookup finds something iff the name, after alias substitution, is a data key, and then finds that entry |
| FileList.LookupAliasTransparent | octoprint_bambu_printer/printer/remote_sd_card_file_list.py:99-103 | a short name and the file name it aliases find the same record, unless the file name is itself an alias of another file |
| FileList.AliasOfScanned | octoprint_bambu_printer/printer/remote_sd_card_file_list.py:114-116 | with distinct short names, each record's short name maps to its file name |
| FileList.DataOfScanned | octoprint_bambu_printer/printer/remote_sd_card_file_list.py:117 | each record's file name is a data key whose record has that file name |
| FileList.ResolveDosName | octoprint_bambu_printer/printer/remote_sd_card_file_list.py:100-101 | a record's short name resolves to its file name |
| FileList.ResolveFileName | octoprint_bambu_printer/printer/remote_sd_card_file_list.py:100-101 | a file name that is not another file's alias resolves to itself |
| FileList.LookupAfterScan | octoprint_bambu_printer/printer/remote_sd_card_file_list.py:96-117 | after a scan, a record's short name finds a record with the same file name, and so does the file name unless it is another file's alias |
| FileList.LookupFindsScanned | octoprint_bambu_printer/printer/remote_sd_card_file_list.py:103 | whatever a lookup finds is one of the scanned records |
| FileList.ProjectNameSuffixes | octoprint_bambu_printer/printer/remote_sd_card_file_list.py:124 | `stem.gcode.3mf` has the suffixes `.gcode` and `.3mf` |
| FileList.AnyAllowedExists | octoprint_bambu_printer/printer/remote_sd_card_file_list.py:124 | the suffix test holds iff some suffix of the path is in the allowed list |
| FileList.ProjectFileSuffixes | octoprint_bambu_printer/printer/remote_sd_card_file_list.py:119-126 | a `.gcode.3mf` project in any directory is accepted through `.3mf`, and the compound `.gcode.3mf` is never one of its suffixes |
| FileList.RemoteSDCardFileList.constructor | octoprint_bambu_printer/printer/remote_sd_card_file_list.py:36-40 | the inventory starts with empty caches and no selection |
| FileList.RemoteSDCardFileList.GetFileData | octoprint_bambu_printer/printer/remote_sd_card_file_list.py:96-105 | a lookup hits iff the resolved name is cached, and then returns a cached record |
| FileList.RemoteSDCardFileList.UpdateExistingFilesInfo | octoprint_bambu_printer/printer/remote_sd_card_file_list.py:83-117 | a failed scan leaves both caches unchanged; a successful one scans the root listing then the `cache/` listing (a missing listing counting as empty) and sets the alias cache to the short-name map and the data cache to the file-name map of the scanned records |
| FileList.RemoteSDCardFileList.GetDataBySuffix | octoprint_bambu_printer/printer/remote_sd_card_file_list.py:119-126 | a record is returned iff the lookup hits and one of its path's single suffixes is allowed, and it is the lookup's record |
| FileList.RemoteSDCardFileList.SelectFile | octoprint_bambu_printer/printer/remote_sd_card_file_list.py:128-149 | a miss returns false and keeps the selection; a hit returns true and selects the record, except that with `check_already_open` the same path stays selected |
| FileList.RemoteSDCardFileList.DeleteFile | octoprint_bambu_printer/printer/remote_sd_card_file_list.py:151-166 | a delete is asked for iff the name resolves, for the record's POSIX path; nothing in the inventory changes |
| FileList.RemoteSDCardFileList.RemoveFileSelection | octoprint_bambu_printer/printer/states/printing_state.py:30 | the selection is cleared |
| GCodes.GCodeWithInfo | octoprint_bambu_printer/gcode_executor.py:313-314 | the text is the code, ` (`, its documentation, `)` |
| GCodes.LastDocumentationWins | octoprint_bambu_printer/gcode_executor.py:25-30 | a repeated documentation key keeps its last entry |
| GCodes.UndocumentedCode | octoprint_bambu_printer/gcode_executor.py:314 | any code missing from the documentation table shows as the code followed by ` (Info not specified)` |
| GCodes.Route | octoprint_bambu_printer/gcode_executor.py:301-311 | a code in the data table calls that handler with the line; else one in the no-data table calls that handler; else nothing is called |
| GCodes.RouteAfterDataRegistration | octoprint_bambu_printer/gcode_executor.py:283-290 | after registering a code in the data table, it dispatches there whatever the other table holds; other codes dispatch as before |
| GCodes.RouteAfterNoDataRegistration | octoprint_bambu_printer/gcode_executor.py:294-299 | after registering a code in the no-data table, it dispatches there only if the data table lacks it; other codes dispatch as before |
| GCodes.GCodeExecutor.constructor | octoprint_bambu_printer/gcode_executor.py:258-264 | both tables start empty |
| GCodes.GCodeExecutor.Contains | octoprint_bambu_printer/gcode_executor.py:266-267 | a code is in the executor iff either table holds it, which is exactly when dispatching it calls a handler |
| GCodes.GCodeExecutor.Execute | octoprint_bambu_printer/gcode_executor.py:301-311 | a handler is called iff the code is in the executor (either table), the data table's handler when it holds the code |
| GCodes.GCodeExecutor.Register | octoprint_bambu_printer/gcode_executor.py:279-292 | one required argument stores in the no-data table, two in the data table, overwriting and returning the handler; any other count fails with the message and changes neither table |
| GCodes.GCodeExecutor.RegisterNoData | octoprint_bambu_printer/gcode_executor.py:294-299 | always stores in the no-data table and returns the handler |
| GCodes.RegisterPrinterCardHandlers | octoprint_bambu_printer/printer/bambu_virtual_printer.py:307-344 | M23, M26, M27 and M30 are set in the data table to their handlers, other entries kept; the no-data table is unchanged |
| GCodes.RegisterPrinterReportHandlers | octoprint_bambu_printer/printer/bambu_virtual_printer.py:346-407 | M105, M115, M117, M118 and M220 are set in the data table to their handlers, other entries kept; the no-data table is unchanged |
| GCodes.RegisterPrinterNoDataHandlers | octoprint_bambu_printer/printer/bambu_virtual_printer.py:424-454 | M112, M20, M24, M25 and M524 are set in the no-data table to their handlers, other entries kept; the data table is unchanged |
| GCodes.PrinterExecutor | octoprint_bambu_printer/printer/bambu_virtual_printer.py:49 | the printer's tables hold exactly those codes; M524 dispatches without the line, M26 with it |
| PrinterCommands.RequestedState | octoprint_bambu_printer/printer/bambu_virtual_printer.py:160-171 | IDLE, FINISH and FAILED request Idle, RUNNING requests Printing, PAUSE requests Paused, each iff |
| PrinterCommands.RequestedStateCases | octoprint_bambu_printer/printer/bambu_virtual_printer.py:160-171 | exactly five reports request a state, and every state can be requested |
| PrinterCommands.JobFor | octoprint_bambu_printer/printer/bambu_virtual_printer.py:135-146 | a job exists iff the lookup hit, holds that record, and has the reported percentage as progress |
| PrinterCommands.StatusLine | octoprint_bambu_printer/printer/bambu_virtual_printer.py:456-463 | without a job the line is `Not SD printing`; with one it starts with `SD printing byte ` |
| PrinterCommands.StatusLineFields | octoprint_bambu_printer/printer/bambu_virtual_printer.py:460 | after the prefix, the status line reads back as the byte position and the file size around its one slash |
| PrinterCommands.SecondField | octoprint_bambu_printer/printer/bambu_virtual_printer.py:309 | an argument is non-empty and neither starts nor ends with white space |
| PrinterCommands.SecondFieldOf | octoprint_bambu_printer/printer/bambu_virtual_printer.py:342 | a word, white space and an argument give back the whole argument, inner white space included |
| PrinterCommands.SecondFieldMissing | octoprint_bambu_printer/printer/bambu_virtual_printer.py:309 | a command word alone, with white space before or after it, has no argument (the `IndexError` case) |
| PrinterCommands.ParameterAt | octoprint_bambu_printer/printer/bambu_virtual_printer.py:367 | a parameter takes up some of the text exactly when one is recognised |
| PrinterCommands.UpToNewline | octoprint_bambu_printer/printer/bambu_virtual_printer.py:367 | `.*` matches the longest prefix without a line break |
| PrinterCommands.M118Output | octoprint_bambu_printer/printer/bambu_virtual_printer.py:366-369 | a command without `M118 ` gives the unrecognised-parameters message |
| PrinterCommands.M118Action | octoprint_bambu_printer/printer/bambu_virtual_printer.py:367-376 | a line whose first `M118 ` is followed by `A1`, white space and text sends `//text`, whatever precedes the keyword |
| PrinterCommands.M118Echo | octoprint_bambu_printer/printer/bambu_virtual_printer.py:367-378 | a line whose first `M118 ` is followed by `E1`, white space and text sends `echo:text`, whatever precedes the keyword |
| PrinterCommands.M118Port | octoprint_bambu_printer/printer/bambu_virtual_printer.py:367-380 | a line whose first `M118 ` is followed by `Pn` with n one of 0, 1, 2, white space and text sends the text alone, whatever precedes the keyword |
| PrinterCommands.M118Plain | octoprint_bambu_printer/printer/bambu_virtual_printer.py:367-380 | a line whose first `M118 ` is followed by text without a parameter sends the text unchanged, whatever precedes the keyword |
| PrintCommands.RootAsWrittenIgnoresDeviceType | octoprint_bambu_printer/printer/states/idle_state.py:24-28 | as written, the root is `file:///sdcard/` for every setting |
| PrintCommands.FilesystemRoot | octoprint_bambu_printer/printer/states/idle_state.py:24-28 | corrected: the root is `file:///mnt/sdcard/` iff the device type is X1 or X1C, else `file:///sdcard/` |
| PrintCommands.PrintCommandFor | octoprint_bambu_printer/printer/states/idle_state.py:23-54 | the constant fields, `subtask_name` the file name, `file` the POSIX path, `url` the corrected root plus `file`, and the six options copied from the settings of the same names |
| PrintCommands.PrintCommandLocatesFile | octoprint_bambu_printer/printer/states/idle_state.py:40-42 | `file` parses back to the record's path, `url` is that path under the root, `subtask_name` is the lower-cased name of `file` |
| VirtualPrinter.Requests | octoprint_bambu_printer/printer/bambu_virtual_printer.py:160-171 | a run of reports adds at most one request per report |
| VirtualPrinter.RequestsNamedByReports | octoprint_bambu_printer/printer/bambu_virtual_printer.py:160-171 | every request is the state some report names, and reports that all name a state add one request each |
| VirtualPrinter.RequestsAppend | octoprint_bambu_printer/printer/bambu_virtual_printer.py:120-121 | two runs of reports request what each requests, in order |
| VirtualPrinter.DoneIsNoRoundLine | octoprint_bambu_printer/printer/states/printing_state.py:52-53 | a round of the worker loop never sends `Done printing file` |
| VirtualPrinter.DoneOnlyAtEnd | octoprint_bambu_printer/printer/states/printing_state.py:46-62 | in what the worker sends, `Done printing file` occurs iff the print completed, and nowhere but last |
| VirtualPrinter.FinalizeBeforeInit | octoprint_bambu_printer/printer/bambu_virtual_printer.py:519-528 | leaving Printing with a live worker whose job is at 100 percent or more for Paused sends `Done printing file` right before `// action:paused`, and requests Idle |
| VirtualPrinter.PrintingState.constructor | octoprint_bambu_printer/printer/states/printing_state.py:23-26 | not printing, no worker |
| VirtualPrinter.PrintingState.UpdatePrintJobInfo | octoprint_bambu_printer/printer/states/printing_state.py:64-76 | a miss clears only the state's own attribute and leaves the printer's job; a hit sets the printer's job to the record with the reported progress |
| VirtualPrinter.PrintingState.StartWorkerThread | octoprint_bambu_printer/printer/states/printing_state.py:40-44 | a worker is started, and the flag set, only when none is recorded |
| VirtualPrinter.PrintingState.Init | octoprint_bambu_printer/printer/states/printing_state.py:28-32 | the flag is set, the selection cleared, the job refreshed, and a worker started unless one is recorded |
| VirtualPrinter.PrintingState.FinishPrint | octoprint_bambu_printer/printer/states/printing_state.py:95-102 | `Done printing file` is sent iff there is a job (after the property's refresh) and Idle is requested |
| VirtualPrinter.PrintingState.WorkerTail | octoprint_bambu_printer/printer/states/printing_state.py:56-62 | without a job nothing is requested; at 100 percent or more the print is finished and Idle requested; otherwise nothing, which after the loop can only happen once the flag is cleared |
| VirtualPrinter.PrintingState.Finalize | octoprint_bambu_printer/printer/states/printing_state.py:34-38 | only a live worker is stopped (flag cleared, tail run, worker forgotten); otherwise nothing changes |
| VirtualPrinter.PrintingState.ContinuePrinting | octoprint_bambu_printer/printer/states/printing_state.py:47-51 | the loop goes on iff printing and the job property yields a job below 100 percent; the flag is checked first |
| VirtualPrinter.PrintingState.WorkerRound | octoprint_bambu_printer/printer/states/printing_state.py:52-53 | a pass sets the job to the one built from a lookup hit (else keeps it), sends exactly the status line of that job, keeps the selection, and forgets the own job only on a miss |
| VirtualPrinter.PrintingState.SleepAndTest | octoprint_bambu_printer/printer/states/printing_state.py:47-54 | the report becomes the device state and its request is queued; then the loop test reads the job property, sending `ok` and selecting the file only when a missing job is refreshed; it goes on iff printing below 100 percent |
| VirtualPrinter.PrintingState.WorkerCycle | octoprint_bambu_printer/printer/states/printing_state.py:47-54 | a pass and a sleep: the device state is the report, its request is queued, and exactly the status line of the pass's job and then the refresh's `ok` (if any) are sent; job and selection are those of the pass followed by the refresh |
| VirtualPrinter.PrintingState.WorkerLoop | octoprint_bambu_printer/printer/states/printing_state.py:47-54 | the loop stops only when its condition fails or the reports run out; the queue gains exactly the requests of the reports seen; only worker lines are sent |
| VirtualPrinter.PrintingState.RunWorker | octoprint_bambu_printer/printer/states/printing_state.py:46-62 | the worker ends finished at 100 percent or more (Idle requested), without a job, or stopped because the flag was cleared; the queue gains only the reports' requests; `Done printing file` is sent iff it finished, exactly once and last, and otherwise only worker-round lines are sent |
| VirtualPrinter.PrintingState.PausePrint | octoprint_bambu_printer/printer/states/printing_state.py:78-84 | nothing when disconnected; otherwise the pause is published and Paused requested iff it was accepted |
| VirtualPrinter.PrintingState.CancelPrint | octoprint_bambu_printer/printer/states/printing_state.py:86-93 | nothing when disconnected; otherwise the stop is published, and only if accepted the print is finished and Idle requested twice |
| VirtualPrinter.PausedState.constructor | octoprint_bambu_printer/printer/states/paused_state.py:19-21 | the paused flag starts cleared |
| VirtualPrinter.PausedState.SendPaused | octoprint_bambu_printer/printer/states/paused_state.py:34-45 | a status timer is started iff the job property yields a job |
| VirtualPrinter.PausedState.Init | octoprint_bambu_printer/printer/states/paused_state.py:23-28 | the flag ends set, `// action:paused` is always sent first, then the status timer starts if there is a job |
| VirtualPrinter.PausedState.Finalize | octoprint_bambu_printer/printer/states/paused_state.py:30-32 | the flag ends cleared |
| VirtualPrinter.PausedState.Resume | octoprint_bambu_printer/printer/states/paused_state.py:47-53 | nothing when disconnected; otherwise the resume is published and Printing requested iff it was accepted |
| VirtualPrinter.BambuVirtualPrinter.constructor | octoprint_bambu_printer/printer/bambu_virtual_printer.py:62-74 | the printer starts Idle with an empty queue and no job |
| VirtualPrinter.BambuVirtualPrinter.PropertyJob | octoprint_bambu_printer/printer/bambu_virtual_printer.py:114-118 | the job property yields a job iff one is stored or the lookup of the reported file hits; a stored job is returned as is, a refreshed one holds the hit record and the reported progress |
| VirtualPrinter.BambuVirtualPrinter.PropertyLines | octoprint_bambu_printer/printer/bambu_virtual_printer.py:114-118 | reading the job property sends `ok` iff no job is stored and the refresh finds one, and nothing otherwise |
| VirtualPrinter.BambuVirtualPrinter.PropertySelection | octoprint_bambu_printer/printer/bambu_virtual_printer.py:114-118 | reading the job property changes the selection only when it sends `ok`, and then selects the looked-up record |
| VirtualPrinter.BambuVirtualPrinter.ChangeState | octoprint_bambu_printer/printer/bambu_virtual_printer.py:120-121 | a state change only appends the request to the queue |
| VirtualPrinter.BambuVirtualPrinter.SendIO | octoprint_bambu_printer/printer/bambu_virtual_printer.py:295-296 | the line is appended to what was sent |
| VirtualPrinter.BambuVirtualPrinter.SendOk | octoprint_bambu_printer/printer/bambu_virtual_printer.py:298-299 | `ok` is appended to what was sent |
| VirtualPrinter.BambuVirtualPrinter.Publish | octoprint_bambu_printer/printer/states/printing_state.py:80 | the command is recorded and the printer's answer returned |
| VirtualPrinter.BambuVirtualPrinter.UpdatePrintJobInfo | octoprint_bambu_printer/printer/bambu_virtual_printer.py:129-146 | the job is none on a `.3mf`/`.gcode.3mf` miss, with nothing sent or selected; on a hit the file is selected, `ok` sent, and the job holds the record with the reported progress |
| VirtualPrinter.BambuVirtualPrinter.GetCurrentPrintJob | octoprint_bambu_printer/printer/bambu_virtual_printer.py:114-118 | a stored job is returned unchanged; only a missing job is refreshed; a missing result means the lookup missed |
| VirtualPrinter.BambuVirtualPrinter.ReportPrintJobStatus | octoprint_bambu_printer/printer/bambu_virtual_printer.py:456-463 | the status line of the job property is sent, after the `ok` its refresh may send; nothing else is sent |
| VirtualPrinter.BambuVirtualPrinter.UpdatePrinterInfo | octoprint_bambu_printer/printer/bambu_virtual_printer.py:148-171 | the report becomes the device state and its requested state, if any, is queued |
| VirtualPrinter.BambuVirtualPrinter.SelectSdFile | octoprint_bambu_printer/printer/bambu_virtual_printer.py:307-310 | without an argument the command fails; otherwise it succeeds iff the argument resolves, and then selects that record |
| VirtualPrinter.BambuVirtualPrinter.DeleteSdFile | octoprint_bambu_printer/printer/bambu_virtual_printer.py:340-344 | without an argument the command fails; otherwise it is handled, and a delete of the record's path is asked for iff the argument resolves |
| VirtualPrinter.BambuVirtualPrinter.SerialPrint | octoprint_bambu_printer/printer/bambu_virtual_printer.py:365-381 | the parsed M118 line is sent and the command is handled |
| VirtualPrinter.BambuVirtualPrinter.CancelPrint | octoprint_bambu_printer/printer/bambu_virtual_printer.py:451-454 | handled; outside printing or disconnected nothing changes; while printing and connected the stop is published; if accepted the job and selection become those the job property leaves, its `ok` (if any) then `Done printing file` (iff there is a job) are sent, and Idle is requested twice; if refused nothing else changes |
| VirtualPrinter.BambuVirtualPrinter.SetSdPosition | octoprint_bambu_printer/printer/bambu_virtual_printer.py:312-319 | handled; any M26 but exactly `M26 S0` sends `M26 disabled for Bambu` and changes nothing else; `M26 S0` has exactly the effect of cancelling while printing and connected (stop published; if accepted the job property's refresh, `Done printing file` iff there is a job, Idle requested twice), and none otherwise |
| VirtualPrinter.BambuVirtualPrinter.IdleStartNewPrint | octoprint_bambu_printer/printer/states/idle_state.py:10-21 | without a selection nothing is published; otherwise the start command for the selected file is published whatever the connection; no state is ever requested |
| VirtualPrinter.BambuVirtualPrinter.StartPrint | octoprint_bambu_printer/printer/bambu_virtual_printer.py:441-444 | handled; Idle starts the selected file, Paused resumes, Printing does nothing |
| VirtualPrinter.BambuVirtualPrinter.PausePrint | octoprint_bambu_printer/printer/bambu_virtual_printer.py:446-449 | handled; only a connected printing state publishes a pause, requesting Paused iff accepted |
| VirtualPrinter.BambuVirtualPrinter.FinalizeCurrent | octoprint_bambu_printer/printer/bambu_virtual_printer.py:526 | leaving Paused clears its flag; leaving Printing stops a live worker (flag cleared, worker forgotten) and runs its tail: the job property's refresh (its `ok`, job and selection), then `Done printing file` and an Idle request iff the job is at 100 percent or more; leaving Idle, or Printing without a live worker, changes no job, selection, line or request |
| VirtualPrinter.BambuVirtualPrinter.InitCurrent | octoprint_bambu_printer/printer/bambu_virtual_printer.py:528 | entering Printing sets its flag, starts a worker unless one is recorded, clears the selection and sets the job from a lookup hit (else keeps it), sending nothing; entering Paused sets its flag, sends `// action:paused` then the job property's `ok` (if any), with the property's job and selection; entering Idle changes nothing |
| VirtualPrinter.BambuVirtualPrinter.EnterState | octoprint_bambu_printer/printer/bambu_virtual_printer.py:527-528 | the new state becomes current and its `init` has exactly the effect `InitCurrent` states, computed from the job, selection, lookup and report before the switch |
| VirtualPrinter.BambuVirtualPrinter.TriggerChangeState | octoprint_bambu_printer/printer/bambu_virtual_printer.py:519-528 | the same state changes nothing; otherwise the old state's `finalize` effect (lines, requests, job, selection) is followed by the new state's `init` effect on the job and selection finalize left, the new state becomes current, and the state flags and worker end as each step states |
| VirtualPrinter.BambuVirtualPrinter.ProcessNextStateChange | octoprint_bambu_printer/printer/bambu_virtual_printer.py:511-528 | an empty queue changes nothing; otherwise the oldest request becomes the current state and leaves the queue; if it is already current nothing else changes; else the old state's `finalize` effect (lines, requests appended after the rest of the queue, job, selection) is followed by the new state's `init` effect |

## Left out

- Threads, `queue.Queue` timeouts, `RepeatedTimer` and `time.sleep`: the worker thread of the printing state is a loop over the device reports seen during its sleeps, and joining it runs the rest of its loop at once. The state queue is a sequence drained one request per round, and the paused state's status timer is a counter of timers started. Interleavings of the worker with the serial handlers are not modelled.
- The network client (connection, MQTT, HMS errors, `get_device`) and the FTPS transport are not modelled: they become the inputs described above.
- `VirtualPrinter.BambuVirtualPrinter.UpdatePrinterInfo`: the temperature telemetry it also copies (floating point) is not modelled.
- M20, M27, M105, M115, M117, M220 and M112 are registered but their handlers are not modelled. They produce output from floating-point telemetry, timers (M27 uses an undefined `_sdstatus_reporter`) or the network. The same holds for `_process_gcode_serial_command`, `_reset`, prompts and the serial plumbing.
- `inspect.signature` argument counting: the number of required arguments is an input to `GCodes.GCodeExecutor.Register`. Only a sample of the documentation table is modelled, with its repeated G29 and G34 keys.
- `a_printer_state.py`, `print_job.py` and `file_system/file_info.py` are not part of this model. Idle's `init`/`finalize` and the states' default `start_new_print`/`pause_print`/`cancel_print` are taken to do nothing. A job's byte position is a function parameter.
- OctoPrint's `get_dos_filename` and `unix_timestamp_to_m20_timestamp` are parameters of the inventory. No property of short names is assumed except where a lemma requires it (`AvoidsGiven`).
- `VirtualPrinter.PrintingState.UpdatePrintJobInfo`: on a hit it writes the printer's job field. The code assigns to `current_print_job`, a property without a setter (bambu_virtual_printer.py:114-118), which Python refuses with an `AttributeError`; the model follows the evident intent instead.
- `VirtualPrinter.PrintingState.Finalize`: modelled as written. A worker that ended on its own stays recorded, so on the next entry to Printing `StartWorkerThread` starts no worker.
- `FileList.RemoteSDCardFileList.UpdateExistingFilesInfo`: the refresh uses the corrected scan (see Findings). The as-written scan is `FileList.ScanFtpFileList`.
- Suffix matching follows the code: only single suffixes of the path are compared, so `.gcode.3mf` in the allowed list never matches by itself (`FileList.ProjectFileSuffixes`).
- `FileList.RemoteSDCardFileList.DeleteFile` returns the path it would ask the transport to delete. Transport failures are swallowed in the code and have no effect in the model.
- Logging is not modelled.
- `FileList.RemoteSDCardFileList.RemoveFileSelection`: `RemoteSDCardFileList` defines no `remove_file_selection`, so the call at printing_state.py:30 raises `AttributeError`. The model follows the evident intent and clears the inventory's selection.
- `VirtualPrinter.PrintingState.Init`: as written it raises `AttributeError` at printing_state.py:30, after setting the flag and before the job refresh and the worker start. The model follows the evident intent and goes on to clear the selection, refresh the job and start the worker.
- `VirtualPrinter.BambuVirtualPrinter.InitCurrent`: entering Printing inherits the `AttributeError` at printing_state.py:30 that `VirtualPrinter.PrintingState.Init` does not model.
- `VirtualPrinter.BambuVirtualPrinter.EnterState`: entering Printing inherits the same unmodelled `AttributeError`.
- `VirtualPrinter.BambuVirtualPrinter.TriggerChangeState`: a switch to Printing, as written, raises out of `init` with the current state already switched, and the exception ends `_printer_worker` (bambu_virtual_printer.py:511-517 catches only `queue.Empty`). The model completes the switch instead.
- `VirtualPrinter.BambuVirtualPrinter.ProcessNextStateChange`: inherits the unmodelled `AttributeError` of a switch to Printing, and so does not model the end of the state-machine thread.
- `VirtualPrinter.BambuVirtualPrinter.IdleStartNewPrint`: `BambuVirtualPrinter` defines no `selected_file`, so idle_state.py:11 raises `AttributeError` before anything is published. The model follows the evident intent and reads the inventory's selection (`selected_file` of `RemoteSDCardFileList`).
- `VirtualPrinter.BambuVirtualPrinter.StartPrint`: from Idle it inherits the unmodelled `AttributeError` at idle_state.py:11.
- `Text.Lower`: lower-cases ASCII capitals only. Python's `str.lower` also maps non-ASCII capitals, and some of them to several characters (`İ` becomes two), which the model does not capture; `FileList.FileName` and every lookup key inherit this.
- `FileList.FileName`: lower-cases with `Text.Lower`, so names with non-ASCII capitals keep them.
- `PrintCommands.PrintCommandFor`: the `url` uses the corrected root `PrintCommands.FilesystemRoot` (see Findings). As written the root is always `file:///sdcard/` (`PrintCommands.RootAsWrittenIgnoresDeviceType`), so for X1 and X1C printers the code publishes a different `url`.
- `VirtualPrinter.BambuVirtualPrinter.IdleStartNewPrint`: publishes `PrintCommands.PrintCommandFor`, so its `url` uses the corrected root, not the as-written `file:///sdcard/`.
- `VirtualPrinter.BambuVirtualPrinter.StartPrint`: from Idle it publishes `PrintCommands.PrintCommandFor`, so its `url` uses the corrected root, not the as-written `file:///sdcard/`.
- `VirtualPrinter.PrintingState.WorkerRound`: on a lookup hit the pass's `update_print_job_info` raises `AttributeError` at printing_state.py:76 (the printer's `current_print_job` property has no setter) and ends the worker thread before the status line is sent; the model follows the evident intent, sets the job and sends the status line.
- `VirtualPrinter.PrintingState.WorkerCycle`: inherits the unmodelled `AttributeError` of its pass at printing_state.py:76 on a lookup hit.
- `VirtualPrinter.PrintingState.WorkerLoop`: inherits the unmodelled `AttributeError` at printing_state.py:76; as written the first round with a lookup hit ends the worker thread.
- `VirtualPrinter.PrintingState.RunWorker`: inherits the unmodelled `AttributeError` at printing_state.py:76; as written a round with a lookup hit ends the thread with that exception, in none of the outcomes Completed, AbortedNoJob or Stopped.
- `Paths.AsPosix`: `PurePosixPath` keeps exactly two leading slashes as a root of its own (`//a` prints as `//a` and differs from `/a`); the model parses any run of leading slashes as `/`, so `Paths.Parse` maps `//a` to `/a` and `Paths.AsPosix` prints it so. The listing entries the inventory parses are relative, so no modelled path has that root.
- `Paths.Parse`: any run of leading slashes gives the root `/`; the separate `//` root of `PurePosixPath` is not modelled (see `Paths.AsPosix`).
- `VirtualPrinter.PrintingState.WorkerLoop`: across several rounds only the shape of what is sent (status lines and `ok`s) and the requests queued are stated; the job, selection and lines of each round are stated one round at a time, by `VirtualPrinter.PrintingState.WorkerCycle`.

## Findings

| source | as written | input that shows it | evidently intended | confidence | as-written member | corrected member |
|---|---|---|---|---|---|---|
| octoprint_bambu_printer/printer/remote_sd_card_file_list.py:78 | the long file name of each record is appended to the names the short-name helper must avoid, but the helper compares its candidate short names against that list | a root file `abcdefghi.3mf` and a cached file `abcdefxyz.3mf`, with a helper that returns `abcdef~1.3mf` unless that name is given: both records get `abcdef~1.3mf`, and the alias map loses one of them | append the record's short name, so each short name differs from all earlier ones | not executed | FileList.LongNameScanRepeatsShortName | FileList.ShortNamesDistinct |
| octoprint_bambu_printer/printer/states/idle_state.py:26 | the device type is read with `get_boolean` and then looked for in `["X1", "X1C"]`; a boolean or `None` is never in a list of strings | any settings, e.g. device type `X1C`: the url starts with `file:///sdcard/` | read the device type as a string, so X1 and X1C print from `file:///mnt/sdcard/` | not executed | PrintCommands.RootAsWrittenIgnoresDeviceType | PrintCommands.FilesystemRoot |
