/** The printer's pure helpers: the three states, the device's last
    report, the state a reported `gcode_state` asks for, the print job,
    the SD status line, and the argument parsers of the serial commands
    M23, M30 and M118. */
module PrinterCommands {
  import opened Wrappers
  import opened Text
  import opened FileList

  /** The printer's states; the printer owns one object per state, so a
      state is known by its kind. */
  datatype StateKind = Idle | Printing | Paused

  /** What the printer client last received about the current print job. */
  datatype DeviceSnapshot = DeviceSnapshot(subtaskName: string, printPercentage: int, gcodeState: string)

  /** The state `_update_printer_info` requests for a reported
      `gcode_state`, if any. */
  function RequestedState(gcodeState: string): (r: Option<StateKind>)
    ensures r == Some(Idle) <==> gcodeState in {"IDLE", "FINISH", "FAILED"}
    ensures r == Some(Printing) <==> gcodeState == "RUNNING"
    ensures r == Some(Paused) <==> gcodeState == "PAUSE"
  {
    if gcodeState == "IDLE" || gcodeState == "FINISH" || gcodeState == "FAILED" then Some(Idle)
    else if gcodeState == "RUNNING" then Some(Printing)
    else if gcodeState == "PAUSE" then Some(Paused)
    else None
  }

  /** Every state can be requested, and only five reports request one. */
  lemma {:induction false} RequestedStateCases(gcodeState: string)
    ensures RequestedState(gcodeState).Some? <==> gcodeState in {"IDLE", "FINISH", "FAILED", "RUNNING", "PAUSE"}
    ensures exists g :: RequestedState(g) == Some(Idle)
    ensures exists g :: RequestedState(g) == Some(Printing)
    ensures exists g :: RequestedState(g) == Some(Paused)
  {
    assert RequestedState("IDLE") == Some(Idle);
    assert RequestedState("RUNNING") == Some(Printing);
    assert RequestedState("PAUSE") == Some(Paused);
  }

  /** A print job: the project file and the progress in percent. */
  datatype PrintJob = PrintJob(fileInfo: FileInfo, progress: int)

  /** The suffixes a project file is looked up with. */
  const ProjectSuffixes: seq<string> := [".3mf", ".gcode.3mf"]

  /** The job a refresh builds from a suffix lookup and the device's
      report: none on a miss, else the record with the reported progress. */
  function JobFor(hit: Option<FileInfo>, device: DeviceSnapshot): (job: Option<PrintJob>)
    ensures job.Some? <==> hit.Some?
    ensures job.Some? ==> job.value.fileInfo == hit.value && job.value.progress == device.printPercentage
  {
    if hit.None? then None else Some(PrintJob(hit.value, device.printPercentage))
  }

  const NotPrintingLine: string := "Not SD printing"
  const StatusPrefix: string := "SD printing byte "

  /** The line `report_print_job_status` sends: the byte position and the
      file size, or that nothing is printing. */
  function StatusLine(job: Option<PrintJob>, filePosition: PrintJob -> int): (r: string)
    ensures job.None? <==> r == NotPrintingLine
    ensures job.Some? ==> |r| > |StatusPrefix| && r[..|StatusPrefix|] == StatusPrefix
  {
    if job.Some? then StatusPrefix + IntToString(filePosition(job.value)) + "/" + IntToString(job.value.fileInfo.size)
    else NotPrintingLine
  }

  lemma {:induction false} NoSlashInInt(i: int)
    ensures '/' !in IntToString(i)
  {
    var s := IntToString(i);
    if i < 0 {
      assert s == ['-'] + s[1..];
    }
  }

  /** The status line reads back: after the prefix come the position and
      the size, separated by the one slash of the line. */
  lemma {:induction false} StatusLineFields(job: Option<PrintJob>, filePosition: PrintJob -> int)
    requires job.Some?
    ensures var fields := Split(StatusLine(job, filePosition)[|StatusPrefix|..], '/');
      |fields| == 2 &&
      |fields[0]| >= 1 && (forall i :: (if fields[0][0] == '-' then 1 else 0) <= i < |fields[0]| ==> IsDigit(fields[0][i])) &&
      |fields[1]| >= 1 && (forall i :: (if fields[1][0] == '-' then 1 else 0) <= i < |fields[1]| ==> IsDigit(fields[1][i])) &&
      IntValue(fields[0]) == filePosition(job.value) && IntValue(fields[1]) == job.value.fileInfo.size
  {
    var a := IntToString(filePosition(job.value));
    var b := IntToString(job.value.fileInfo.size);
    NoSlashInInt(filePosition(job.value));
    NoSlashInInt(job.value.fileInfo.size);
    assert StatusLine(job, filePosition)[|StatusPrefix|..] == Join([a, b], '/');
    SplitJoin([a, b], '/');
    IntRoundTrip(filePosition(job.value));
    IntRoundTrip(job.value.fileInfo.size);
  }

  /** `data.split(maxsplit=1)[1].strip()`, the argument of M23 and M30:
      everything after the first white-space-separated word, stripped;
      `None` where the command has no second word (an `IndexError`). */
  function SecondField(data: string): (r: Option<string>)
    ensures r.Some? ==> r.value != [] && !IsSpace(r.value[0]) && !IsSpace(r.value[|r.value| - 1])
  {
    var t := TrimStart(data);
    var rest := TrimStart(t[TokenEnd(t)..]);
    if rest == [] then None else Some(TrimEnd(rest))
  }

  /** A command word, white space, then an argument that neither starts
      nor ends with white space: the argument comes back whole, inner
      white space included. */
  lemma {:induction false} SecondFieldOf(cmd: string, gap: string, arg: string)
    requires cmd != [] && forall i :: 0 <= i < |cmd| ==> !IsSpace(cmd[i])
    requires gap != [] && forall i :: 0 <= i < |gap| ==> IsSpace(gap[i])
    requires arg != [] && !IsSpace(arg[0]) && !IsSpace(arg[|arg| - 1])
    ensures SecondField(cmd + gap + arg) == Some(arg)
  {
    var data := cmd + gap + arg;
    assert data[0] == cmd[0];
    assert TrimStart(data) == data;
    assert data == cmd + (gap + arg);
    TokenEndOf(cmd, gap + arg);
    assert data[|cmd|..] == gap + arg;
    TrimStartOf(gap, arg);
    assert TrimEnd(arg) == arg;
  }

  /** A command word alone, white space around it allowed, has no
      argument. */
  lemma {:induction false} SecondFieldMissing(lead: string, cmd: string, tail: string)
    requires forall i :: 0 <= i < |lead| ==> IsSpace(lead[i])
    requires forall i :: 0 <= i < |cmd| ==> !IsSpace(cmd[i])
    requires forall i :: 0 <= i < |tail| ==> IsSpace(tail[i])
    ensures SecondField(lead + cmd + tail) == None
  {
    var data := lead + cmd + tail;
    if cmd == [] {
      assert data == (lead + tail) + [];
      TrimStartOf(lead + tail, []);
    } else {
      assert data == lead + (cmd + tail);
      TrimStartOf(lead, cmd + tail);
      WordAloneHasNoSecondField(cmd, tail);
    }
  }

  lemma {:induction false} WordAloneHasNoSecondField(cmd: string, tail: string)
    requires cmd != [] && forall i :: 0 <= i < |cmd| ==> !IsSpace(cmd[i])
    requires forall i :: 0 <= i < |tail| ==> IsSpace(tail[i])
    ensures TrimStart(cmd + tail) == cmd + tail
    ensures SecondField(cmd + tail) == None
  {
    var t := cmd + tail;
    assert t[0] == cmd[0];
    TokenEndOf(cmd, tail);
    assert t[|cmd|..] == tail + [];
    TrimStartOf(tail, []);
  }



  lemma {:induction false} TokenEndOf(word: string, rest: string)
    requires forall i :: 0 <= i < |word| ==> !IsSpace(word[i])
    requires rest == [] || IsSpace(rest[0])
    ensures TokenEnd(word + rest) == |word|
  {
    if word != [] {
      assert (word + rest)[1..] == word[1..] + rest;
      TokenEndOf(word[1..], rest);
    } else {
      assert word + rest == rest;
    }
  }

  lemma {:induction false} TrimStartOf(gap: string, rest: string)
    requires forall i :: 0 <= i < |gap| ==> IsSpace(gap[i])
    requires rest == [] || !IsSpace(rest[0])
    ensures TrimStart(gap + rest) == rest
  {
    if gap != [] {
      assert (gap + rest)[1..] == gap[1..] + rest;
      TrimStartOf(gap[1..], rest);
    } else {
      assert gap + rest == rest;
    }
  }

  /** The optional M118 parameter, which only counts when white space
      follows it. */
  datatype M118Parameter = ActionParameter | EchoParameter | PortParameter | NoParameter

  /** The parameter at the start of `s` and the length it takes up,
      the white-space character after it included. */
  function ParameterAt(s: string): (r: (M118Parameter, nat))
    ensures r.1 <= |s|
    ensures r.0 == NoParameter <==> r.1 == 0
  {
    if |s| >= 3 && s[..2] == "A1" && IsSpace(s[2]) then (ActionParameter, 3)
    else if |s| >= 3 && s[..2] == "E1" && IsSpace(s[2]) then (EchoParameter, 3)
    else if |s| >= 4 && s[..2] == "Pn" && s[2] in "012" && IsSpace(s[3]) then (PortParameter, 4)
    else (NoParameter, 0)
  }

  /** The longest prefix without a line break (what `.*` matches). */
  function UpToNewline(s: string): (r: string)
    ensures |r| <= |s| && r == s[..|r|] && '\n' !in r
    ensures |r| < |s| ==> s[|r|] == '\n'
  {
    if s == [] || s[0] == '\n' then [] else [s[0]] + UpToNewline(s[1..])
  }

  lemma {:induction false} UpToNewlineOf(s: string)
    requires '\n' !in s
    ensures UpToNewline(s) == s
  {
    if s != [] {
      UpToNewlineOf(s[1..]);
    }
  }

  const M118Keyword: string := "M118 "
  const M118Unrecognized: string := "Unrecognized command parameters for M118"

  /** The line the M118 handler sends: the first `M118 ` of the command
      starts the match; the text runs to the end of the line; a parameter
      `A1` prefixes `//`, `E1` prefixes `echo:`. */
  function M118Output(data: string): (r: string)
    ensures IndexOf(data, M118Keyword, 0).None? ==> r == M118Unrecognized
  {
    var at := IndexOf(data, M118Keyword, 0);
    if at.None? then M118Unrecognized
    else
      var rest := data[at.value + |M118Keyword|..];
      var (parameter, skip) := ParameterAt(rest);
      var text := UpToNewline(rest[skip..]);
      match parameter
      case ActionParameter => "//" + text
      case EchoParameter => "echo:" + text
      case _ => text
  }

  /** The match starts at the first `M118 `: at the end of a prefix that
      holds no earlier one. */
  predicate KeywordFirstAfter(prefix: string)
  {
    forall j :: 0 <= j < |prefix| ==> !OccursAt(prefix + M118Keyword, M118Keyword, j)
  }

  lemma {:induction false} KeywordAfter(prefix: string, rest: string)
    requires KeywordFirstAfter(prefix)
    ensures IndexOf(prefix + M118Keyword + rest, M118Keyword, 0) == Some(|prefix|)
    ensures (prefix + M118Keyword + rest)[|prefix| + |M118Keyword|..] == rest
  {
    var s := prefix + M118Keyword;
    assert OccursAt(s, M118Keyword, |prefix|);
    IndexOfFirst(s, M118Keyword, 0, |prefix|);
    IndexOfExtend(s, rest, M118Keyword, 0);
  }

  /** `M118 A1 text` sends `//text`; the match starts at the first `M118 `. */
  lemma {:induction false} M118Action(prefix: string, gap: char, text: string)
    requires KeywordFirstAfter(prefix) && IsSpace(gap) && '\n' !in text
    ensures M118Output(prefix + M118Keyword + "A1" + [gap] + text) == "//" + text
  {
    var rest := "A1" + [gap] + text;
    assert prefix + M118Keyword + "A1" + [gap] + text == prefix + M118Keyword + rest;
    KeywordAfter(prefix, rest);
    assert rest[..2] == "A1" && rest[3..] == text;
    UpToNewlineOf(text);
  }

  /** `M118 E1 text` sends `echo:text`; the match starts at the first `M118 `. */
  lemma {:induction false} M118Echo(prefix: string, gap: char, text: string)
    requires KeywordFirstAfter(prefix) && IsSpace(gap) && '\n' !in text
    ensures M118Output(prefix + M118Keyword + "E1" + [gap] + text) == "echo:" + text
  {
    var rest := "E1" + [gap] + text;
    assert prefix + M118Keyword + "E1" + [gap] + text == prefix + M118Keyword + rest;
    KeywordAfter(prefix, rest);
    assert rest[..2] == "E1" && rest[3..] == text;
    UpToNewlineOf(text);
  }

  /** `M118 Pn text` (n one of 0, 1, 2) sends the text alone; the match
      starts at the first `M118 `. */
  lemma {:induction false} M118Port(prefix: string, d: char, gap: char, text: string)
    requires KeywordFirstAfter(prefix) && d in "012" && IsSpace(gap) && '\n' !in text
    ensures M118Output(prefix + M118Keyword + "Pn" + [d] + [gap] + text) == text
  {
    var rest := "Pn" + [d] + [gap] + text;
    assert prefix + M118Keyword + "Pn" + [d] + [gap] + text == prefix + M118Keyword + rest;
    KeywordAfter(prefix, rest);
    assert rest[..2] == "Pn" && rest[..2] != "A1" && rest[..2] != "E1";
    assert rest[2] == d && rest[3] == gap && rest[4..] == text;
    UpToNewlineOf(text);
  }

  /** `M118 text` with no parameter sends the text unchanged; the match
      starts at the first `M118 `. */
  lemma {:induction false} M118Plain(prefix: string, text: string)
    requires KeywordFirstAfter(prefix) && '\n' !in text && ParameterAt(text).0 == NoParameter
    ensures M118Output(prefix + M118Keyword + text) == text
  {
    KeywordAfter(prefix, text);
    UpToNewlineOf(text);
  }
}
