/** The virtual printer OctoPrint talks to over its serial interface: the
    state machine driven by a queue of requested states, the print job
    refreshed from the device's report and the file inventory, the
    serial-command handlers, and the behaviour of the printing, paused and
    idle states. The network client is reduced to the device's last
    report, a `connected` flag and, per publish, whether the printer
    accepted it; the printing worker thread is run step by step over the
    device reports it sees between two rounds. */
module VirtualPrinter {
  import opened Wrappers
  import opened Text
  import opened Paths
  import opened FileList
  import opened GCodes
  import opened PrinterCommands
  import opened PrintCommands

  /** A line sent to OctoPrint over the serial link. */
  datatype SerialLine = Line(text: string) | Ok

  /** A command published to the printer. */
  datatype Published = ProjectFile(command: PrintCommand) | PauseCommand | ResumeCommand | StopCommand

  /** The printing state's worker thread: none recorded, alive, or
      recorded but finished. */
  datatype Worker = NoWorker | Alive | Exited

  /** How a run of the worker thread ended, or that it is still sleeping
      when the reports run out. */
  datatype WorkerOutcome = Completed | AbortedNoJob | Stopped | StillRunning

  const DoneLine: string := "Done printing file"
  const PausedAction: string := "// action:paused"
  const M26Disabled: string := "M26 disabled for Bambu"
  const CancelCommand: string := "M26 S0"

  /** The lines one round of the printing worker may send: the `ok` of a
      refresh and the status lines. The end line is not among them. */
  predicate IsRoundLine(l: SerialLine)
  {
    l == Ok || l == Line(NotPrintingLine) ||
    (l.Line? && |l.text| > |StatusPrefix| && l.text[..|StatusPrefix|] == StatusPrefix)
  }

  predicate RoundLines(ls: seq<SerialLine>)
  {
    forall i :: 0 <= i < |ls| ==> IsRoundLine(ls[i])
  }

  /** `after` is `before` followed by round lines only. */
  predicate AddsRoundLines(before: seq<SerialLine>, after: seq<SerialLine>)
  {
    |before| <= |after| && after[..|before|] == before && RoundLines(after[|before|..])
  }

  /** `Done printing file` is no round line, so round lines never report
      the end of a print. */
  lemma {:induction false} DoneIsNoRoundLine(before: seq<SerialLine>, after: seq<SerialLine>)
    requires AddsRoundLines(before, after)
    ensures Line(DoneLine) !in after[|before|..]
  {
    assert !IsRoundLine(Line(DoneLine)) by {
      assert DoneLine[0] != NotPrintingLine[0] && DoneLine[0] != StatusPrefix[0];
    }
  }

  /** `after` is `before` followed by round lines and, when `done`, the
      end line last. */
  predicate AddsWorkerLines(before: seq<SerialLine>, after: seq<SerialLine>, done: bool)
  {
    if done then
      |before| < |after| && after[|after| - 1] == Line(DoneLine) && AddsRoundLines(before, after[..|after| - 1])
    else AddsRoundLines(before, after)
  }

  /** A worker reports the end of a print once at most: exactly when
      `done`, and only as its last line. */
  lemma {:induction false} DoneOnlyAtEnd(before: seq<SerialLine>, after: seq<SerialLine>, done: bool)
    requires AddsWorkerLines(before, after, done)
    ensures Line(DoneLine) in after[|before|..] <==> done
    ensures forall i :: |before| <= i < |after| - 1 ==> after[i] != Line(DoneLine)
  {
    if done {
      var front := after[..|after| - 1];
      DoneIsNoRoundLine(before, front);
      assert after[|before|..] == front[|before|..] + [Line(DoneLine)];
      forall i | |before| <= i < |after| - 1
        ensures after[i] != Line(DoneLine)
      {
        assert after[i] == front[|before|..][i - |before|];
      }
    } else {
      DoneIsNoRoundLine(before, after);
      forall i | |before| <= i < |after| - 1
        ensures after[i] != Line(DoneLine)
      {
        assert after[i] == after[|before|..][i - |before|];
      }
    }
  }

  /** A refresh's lines, then the end line when `done`. */
  lemma {:induction false} RefreshThenDone(before: seq<SerialLine>, refresh: seq<SerialLine>, done: bool, after: seq<SerialLine>)
    requires refresh == [] || refresh == [Ok]
    requires after == before + refresh + (if done then [Line(DoneLine)] else [])
    ensures AddsWorkerLines(before, after, done)
  {
    if done {
      assert after[..|after| - 1] == before + refresh;
    }
    AddsLines(before, refresh, before + refresh);
  }

  lemma {:induction false} AddsWorkerLinesTrans(a: seq<SerialLine>, b: seq<SerialLine>, c: seq<SerialLine>, done: bool)
    requires AddsRoundLines(a, b) && AddsWorkerLines(b, c, done)
    ensures AddsWorkerLines(a, c, done)
  {
    if done {
      var front := c[..|c| - 1];
      assert front[..|b|] == b;
      AddsRoundLinesTrans(a, b, front);
    } else {
      AddsRoundLinesTrans(a, b, c);
    }
  }

  lemma {:induction false} AddsLines(before: seq<SerialLine>, added: seq<SerialLine>, after: seq<SerialLine>)
    requires after == before + added && RoundLines(added)
    ensures AddsRoundLines(before, after)
  {
    assert after[|before|..] == added;
  }

  /** What `report_print_job_status` sends: the property's lines, then
      the status line. */
  lemma {:induction false} StatusLinesAreRoundLines(lines: seq<SerialLine>, job: Option<PrintJob>, filePosition: PrintJob -> int)
    requires lines == [] || lines == [Ok]
    ensures RoundLines(lines + [Line(StatusLine(job, filePosition))])
  {
  }

  lemma {:induction false} AddsRoundLinesTrans(a: seq<SerialLine>, b: seq<SerialLine>, c: seq<SerialLine>)
    requires AddsRoundLines(a, b) && AddsRoundLines(b, c)
    ensures AddsRoundLines(a, c)
  {
    assert c[|a|..] == b[|a|..] + c[|b|..];
  }

  /** The job a refresh of the printing state leaves on the printer: the
      job built from the lookup `hit` on a hit, otherwise the job as it
      was. */
  function RoundJob(job: Option<PrintJob>, hit: Option<FileInfo>, device: DeviceSnapshot): Option<PrintJob>
  {
    if hit.Some? then JobFor(hit, device) else job
  }

  /** What reading `current_print_job` yields: the stored job, or else the
      job a refresh builds from the lookup `hit`. */
  function RefreshJob(job: Option<PrintJob>, hit: Option<FileInfo>, device: DeviceSnapshot): Option<PrintJob>
  {
    if job.Some? then job else JobFor(hit, device)
  }

  /** The lines reading `current_print_job` sends: an `ok` when a refresh
      selects the project file. */
  function RefreshLines(job: Option<PrintJob>, hit: Option<FileInfo>): seq<SerialLine>
  {
    if job.None? && hit.Some? then [Ok] else []
  }

  /** The selection after reading `current_print_job`: the project file
      when a refresh selects it. */
  function RefreshSelection(job: Option<PrintJob>, hit: Option<FileInfo>, selection: Option<FileInfo>): Option<FileInfo>
  {
    if job.None? && hit.Some? then hit else selection
  }

  /** What a step of the state machine does to the printer: the job and
      the selection it leaves, and the lines and requests it appends. */
  datatype Effect = Effect(job: Option<PrintJob>, selection: Option<FileInfo>, lines: seq<SerialLine>, requests: seq<StateKind>)

  /** `finalize` of `state`: only the printing state with a live worker
      does anything; it runs the worker's tail (the flag is already
      cleared), which finishes a print at 100 percent. */
  function FinalizeEffect(state: StateKind, worker: Worker, job: Option<PrintJob>, hit: Option<FileInfo>,
                          device: DeviceSnapshot, selection: Option<FileInfo>): Effect
  {
    if state == Printing && worker == Alive then
      var j := RefreshJob(job, hit, device);
      var done := j.Some? && j.value.progress >= 100;
      Effect(j, RefreshSelection(job, hit, selection),
             RefreshLines(job, hit) + (if done then [Line(DoneLine)] else []), if done then [Idle] else [])
    else Effect(job, selection, [], [])
  }

  /** `init` of `state`: printing drops the selection and refreshes the
      job; paused announces the pause and reads the job property; idle
      does nothing. */
  function InitEffect(state: StateKind, job: Option<PrintJob>, hit: Option<FileInfo>,
                      device: DeviceSnapshot, selection: Option<FileInfo>): Effect
  {
    match state
    case Printing => Effect(RoundJob(job, hit, device), None, [], [])
    case Paused => Effect(RefreshJob(job, hit, device), RefreshSelection(job, hit, selection),
                          [Line(PausedAction)] + RefreshLines(job, hit), [])
    case Idle => Effect(job, selection, [], [])
  }

  /** Leaving a print that reached 100 percent for the paused state: the
      end line comes before the pause announcement, and Idle is
      requested. */
  lemma {:induction false} FinalizeBeforeInit(job: Option<PrintJob>, hit: Option<FileInfo>, device: DeviceSnapshot,
                                              selection: Option<FileInfo>)
    requires RefreshJob(job, hit, device).Some? && RefreshJob(job, hit, device).value.progress >= 100
    ensures var f := FinalizeEffect(Printing, Alive, job, hit, device, selection);
      var i := InitEffect(Paused, f.job, hit, device, f.selection);
      var ls := f.lines + i.lines;
      |ls| >= 2 && ls[|ls| - 2..] == [Line(DoneLine), Line(PausedAction)] && f.requests == [Idle]
  {
    var f := FinalizeEffect(Printing, Alive, job, hit, device, selection);
    var i := InitEffect(Paused, f.job, hit, device, f.selection);
    assert i.lines == [Line(PausedAction)];
    var ls := f.lines + i.lines;
    assert ls[|ls| - 2..] == [ls[|ls| - 2], ls[|ls| - 1]];
  }

  /** The requests a sequence of device reports adds to the state queue,
      oldest first. */
  function Requests(reports: seq<DeviceSnapshot>): (r: seq<StateKind>)
    ensures |r| <= |reports|
  {
    if reports == [] then []
    else
      var s := RequestedState(reports[|reports| - 1].gcodeState);
      Requests(reports[..|reports| - 1]) + (if s.Some? then [s.value] else [])
  }

  /** Every request is the state some report names, and when every report
      names a state there is one request per report. */
  lemma {:induction false} RequestsNamedByReports(reports: seq<DeviceSnapshot>)
    ensures forall i :: 0 <= i < |Requests(reports)| ==>
      exists j :: 0 <= j < |reports| && RequestedState(reports[j].gcodeState) == Some(Requests(reports)[i])
    ensures (forall j :: 0 <= j < |reports| ==> RequestedState(reports[j].gcodeState).Some?) ==>
      |Requests(reports)| == |reports|
  {
    if reports == [] {
      assert Requests(reports) == [];
    } else {
      var front := reports[..|reports| - 1];
      RequestsNamedByReports(front);
      var r, rf := Requests(reports), Requests(front);
      var last := RequestedState(reports[|reports| - 1].gcodeState);
      assert r == rf + (if last.Some? then [last.value] else []);
      forall i | 0 <= i < |r|
        ensures exists j :: 0 <= j < |reports| && RequestedState(reports[j].gcodeState) == Some(r[i])
      {
        if i < |rf| {
          var j :| 0 <= j < |front| && RequestedState(front[j].gcodeState) == Some(rf[i]);
          assert front[j] == reports[j] && r[i] == rf[i];
        } else {
          assert last == Some(r[i]);
        }
      }
      if forall j :: 0 <= j < |reports| ==> RequestedState(reports[j].gcodeState).Some? {
        assert forall j :: 0 <= j < |front| ==> front[j] == reports[j];
        assert last.Some?;
      }
    }
  }

  /** The reports of two stretches request what each requests, in order. */
  lemma {:induction false} RequestsAppend(a: seq<DeviceSnapshot>, b: seq<DeviceSnapshot>)
    ensures Requests(a + b) == Requests(a) + Requests(b)
  {
    if b == [] {
      assert a + b == a;
    } else {
      var front := b[..|b| - 1];
      assert (a + b)[..|a + b| - 1] == a + front;
      assert (a + b)[|a + b| - 1] == b[|b| - 1];
      RequestsAppend(a, front);
    }
  }

  /** A queue holding the requests of the first `k` reports, with the
      next report's requests appended. */
  lemma {:induction false} QueueSnoc(start: seq<StateKind>, queue: seq<StateKind>, reports: seq<DeviceSnapshot>, k: nat)
    requires k < |reports| && queue == start + Requests(reports[..k])
    ensures queue + Requests([reports[k]]) == start + Requests(reports[..k + 1])
  {
    RequestsSnoc(reports, k);
  }

  lemma {:induction false} RequestsSnoc(reports: seq<DeviceSnapshot>, k: nat)
    requires k < |reports|
    ensures Requests(reports[..k + 1]) == Requests(reports[..k]) + Requests([reports[k]])
  {
    assert reports[..k + 1] == reports[..k] + [reports[k]];
    RequestsAppend(reports[..k], [reports[k]]);
  }

  /** The printing state: the printing flag, the recorded worker, and the
      state's own job attribute (written only when a refresh misses). */
  class PrintingState {
    var isPrinting: bool
    var worker: Worker
    var ownJob: Option<PrintJob>

    constructor ()
      ensures !isPrinting && worker == NoWorker && ownJob == None
    {
      isPrinting, worker, ownJob := false, NoWorker, None;
    }

    /** `update_print_job_info` of the printing state: on a miss it writes
        its own attribute and leaves the printer's job alone; on a hit it
        sets the printer's job. */
    method UpdatePrintJobInfo(p: BambuVirtualPrinter)
      modifies this`ownJob, p`currentPrintJob
      ensures p.ProjectHit().None? ==> ownJob == None && p.currentPrintJob == old(p.currentPrintJob)
      ensures p.ProjectHit().Some? ==> p.currentPrintJob == JobFor(p.ProjectHit(), p.device) && ownJob == old(ownJob)
    {
      var hit := p.fileSystem.GetDataBySuffix(p.device.subtaskName, ProjectSuffixes);
      if hit.None? {
        ownJob := None;
        return;
      }
      p.currentPrintJob := Some(PrintJob(hit.value, p.device.printPercentage));
    }

    /** `_start_worker_thread`: starts a worker only when none is recorded. */
    method StartWorkerThread()
      modifies this`isPrinting, this`worker
      ensures old(worker) == NoWorker ==> isPrinting && worker == Alive
      ensures old(worker) != NoWorker ==> isPrinting == old(isPrinting) && worker == old(worker)
    {
      if worker == NoWorker {
        isPrinting := true;
        worker := Alive;
      }
    }

    /** `init`: sets the flag, drops the selection, refreshes the job, then
        starts a worker unless one is recorded. */
    method Init(p: BambuVirtualPrinter)
      modifies this`isPrinting, this`worker, this`ownJob, p`currentPrintJob, p.fileSystem`selected
      ensures isPrinting
      ensures p.fileSystem.selected == None
      ensures old(worker) == NoWorker ==> worker == Alive
      ensures old(worker) != NoWorker ==> worker == old(worker)
      ensures p.ProjectHit().None? ==> ownJob == None && p.currentPrintJob == old(p.currentPrintJob)
      ensures p.ProjectHit().Some? ==> p.currentPrintJob == JobFor(p.ProjectHit(), p.device) && ownJob == old(ownJob)
    {
      ghost var hit := p.ProjectHit();
      isPrinting := true;
      p.fileSystem.RemoveFileSelection();
      assert p.ProjectHit() == hit;
      UpdatePrintJobInfo(p);
      ghost var job, own := p.currentPrintJob, ownJob;
      assert hit.None? ==> own == None && job == old(p.currentPrintJob);
      assert hit.Some? ==> job == JobFor(hit, p.device) && own == old(ownJob);
      StartWorkerThread();
      assert p.currentPrintJob == job && ownJob == own && p.ProjectHit() == hit;
    }

    /** `_finish_print`: reports the end when there is a job (reading the
        job property, which refreshes a missing job) and requests Idle. */
    method FinishPrint(p: BambuVirtualPrinter)
      modifies p`currentPrintJob, p`sent, p`stateQueue, p.fileSystem`selected
      ensures p.currentPrintJob == old(p.PropertyJob())
      ensures p.sent == old(p.sent) + old(p.PropertyLines()) + (if old(p.PropertyJob()).Some? then [Line(DoneLine)] else [])
      ensures p.fileSystem.selected == old(p.PropertySelection())
      ensures p.stateQueue == old(p.stateQueue) + [Idle]
    {
      var job := p.GetCurrentPrintJob();
      if job.Some? {
        p.SendIO(DoneLine);
      }
      p.ChangeState(Idle);
    }

    /** The part of the worker after its loop: nothing without a job, the
        end of the print at 100 percent, otherwise nothing (the flag was
        cleared). */
    method WorkerTail(p: BambuVirtualPrinter) returns (outcome: WorkerOutcome)
      requires isPrinting ==> p.currentPrintJob.None? || p.currentPrintJob.value.progress >= 100
      requires isPrinting && p.currentPrintJob.None? ==> p.ProjectHit().None?
      modifies p`currentPrintJob, p`sent, p`stateQueue, p.fileSystem`selected
      ensures outcome != StillRunning
      ensures outcome == Stopped ==> !isPrinting
      ensures p.currentPrintJob == old(p.PropertyJob())
      ensures outcome == AbortedNoJob <==> p.currentPrintJob.None?
      ensures outcome == Completed <==> p.currentPrintJob.Some? && p.currentPrintJob.value.progress >= 100
      ensures p.fileSystem.selected == old(p.PropertySelection())
      ensures p.sent == old(p.sent) + old(p.PropertyLines()) + (if outcome == Completed then [Line(DoneLine)] else [])
      ensures p.stateQueue == old(p.stateQueue) + (if outcome == Completed then [Idle] else [])
      ensures AddsWorkerLines(old(p.sent), p.sent, outcome == Completed)
    {
      ghost var refresh := p.PropertyLines();
      ghost var property := p.PropertyJob();
      assert isPrinting ==> property.None? || property.value.progress >= 100;
      var job := p.GetCurrentPrintJob();
      assert job == property;
      if job.None? {
        outcome := AbortedNoJob;
      } else if job.value.progress >= 100 {
        assert p.PropertyJob() == job && p.PropertyLines() == [] && p.PropertySelection() == p.fileSystem.selected;
        FinishPrint(p);
        outcome := Completed;
      } else {
        outcome := Stopped;
      }
      RefreshThenDone(old(p.sent), refresh, outcome == Completed, p.sent);
    }

    /** `finalize`: only a live worker is stopped: the flag is cleared, the
        worker runs its tail (the join), and is forgotten. A worker that
        already finished stays recorded. */
    method Finalize(p: BambuVirtualPrinter)
      modifies this`isPrinting, this`worker, p`currentPrintJob, p`sent, p`stateQueue, p.fileSystem`selected
      ensures old(worker) != Alive ==>
        isPrinting == old(isPrinting) && worker == old(worker) && p.currentPrintJob == old(p.currentPrintJob) &&
        p.sent == old(p.sent) && p.stateQueue == old(p.stateQueue) && p.fileSystem.selected == old(p.fileSystem.selected)
      ensures old(worker) == Alive ==> !isPrinting && worker == NoWorker
      ensures old(worker) == Alive ==>
        var job := old(p.PropertyJob());
        var done := job.Some? && job.value.progress >= 100;
        p.currentPrintJob == job && p.fileSystem.selected == old(p.PropertySelection()) &&
        p.sent == old(p.sent) + old(p.PropertyLines()) + (if done then [Line(DoneLine)] else []) &&
        p.stateQueue == old(p.stateQueue) + (if done then [Idle] else [])
    {
      if worker == Alive {
        isPrinting := false;
        var outcome := WorkerTail(p);
        worker := NoWorker;
      }
    }

    /** The loop condition of the worker: the flag, then the job property
        (which refreshes a missing job), then its progress. */
    method ContinuePrinting(p: BambuVirtualPrinter) returns (go: bool)
      modifies p`currentPrintJob, p`sent, p.fileSystem`selected
      ensures go <==> isPrinting && p.currentPrintJob.Some? && p.currentPrintJob.value.progress < 100
      ensures !isPrinting ==>
        p.currentPrintJob == old(p.currentPrintJob) && p.sent == old(p.sent) && p.fileSystem.selected == old(p.fileSystem.selected)
      ensures isPrinting ==>
        p.currentPrintJob == old(p.PropertyJob()) && p.sent == old(p.sent) + old(p.PropertyLines()) &&
        p.fileSystem.selected == old(p.PropertySelection()) &&
        (p.currentPrintJob.None? ==> p.ProjectHit().None?)
      ensures AddsRoundLines(old(p.sent), p.sent)
    {
      if !isPrinting {
        return false;
      }
      ghost var lines := p.PropertyLines();
      assert RoundLines(lines);
      var job := p.GetCurrentPrintJob();
      go := job.Some? && job.value.progress < 100;
      AddsLines(old(p.sent), lines, p.sent);
    }

    /** One pass of the worker's loop: refresh the job, report its status.
        The refresh leaves a job or a miss, so the status report reads the
        job as it is and sends only the status line. */
    method WorkerRound(p: BambuVirtualPrinter)
      modifies this`ownJob, p`currentPrintJob, p`sent, p.fileSystem`selected
      ensures p.currentPrintJob == RoundJob(old(p.currentPrintJob), old(p.ProjectHit()), old(p.device))
      ensures p.sent == old(p.sent) + [Line(StatusLine(p.currentPrintJob, p.filePosition))]
      ensures p.fileSystem.selected == old(p.fileSystem.selected)
      ensures ownJob == (if old(p.ProjectHit()).None? then None else old(ownJob))
      ensures AddsRoundLines(old(p.sent), p.sent)
    {
      UpdatePrintJobInfo(p);
      assert p.PropertyJob() == p.currentPrintJob && p.PropertyLines() == [] &&
        p.PropertySelection() == p.fileSystem.selected;
      p.ReportPrintJobStatus();
    }

    /** The sleep of the worker's loop, during which the device reports
        `report`, and the loop condition, which reads the job property
        under the new report while printing. */
    method SleepAndTest(p: BambuVirtualPrinter, report: DeviceSnapshot) returns (go: bool)
      modifies p`currentPrintJob, p`sent, p`stateQueue, p`device, p.fileSystem`selected
      ensures p.device == report
      ensures go <==> isPrinting && p.currentPrintJob.Some? && p.currentPrintJob.value.progress < 100
      ensures isPrinting ==> (p.currentPrintJob.None? ==> p.ProjectHit().None?)
      ensures var job, hit := old(p.currentPrintJob), p.ProjectHit();
        p.sent == old(p.sent) + (if isPrinting then RefreshLines(job, hit) else []) &&
        p.currentPrintJob == (if isPrinting then RefreshJob(job, hit, report) else job) &&
        p.fileSystem.selected == (if isPrinting then RefreshSelection(job, hit, old(p.fileSystem.selected)) else old(p.fileSystem.selected))
      ensures p.stateQueue == old(p.stateQueue) + Requests([report])
      ensures AddsRoundLines(old(p.sent), p.sent)
    {
      p.UpdatePrinterInfo(report);
      ghost var hit := p.ProjectHit();
      go := ContinuePrinting(p);
      assert p.ProjectHit() == hit;
    }

    /** A pass of the worker's loop, then the sleep and the loop
        condition. */
    method WorkerCycle(p: BambuVirtualPrinter, report: DeviceSnapshot) returns (go: bool)
      modifies this`ownJob, p`currentPrintJob, p`sent, p`stateQueue, p`device, p.fileSystem`selected
      ensures p.device == report
      ensures go <==> isPrinting && p.currentPrintJob.Some? && p.currentPrintJob.value.progress < 100
      ensures isPrinting ==> (p.currentPrintJob.None? ==> p.ProjectHit().None?)
      ensures var job := RoundJob(old(p.currentPrintJob), old(p.ProjectHit()), old(p.device));
        var hit := p.ProjectHit();
        p.sent == old(p.sent) + [Line(StatusLine(job, p.filePosition))] + (if isPrinting then RefreshLines(job, hit) else []) &&
        p.currentPrintJob == (if isPrinting then RefreshJob(job, hit, report) else job) &&
        p.fileSystem.selected == (if isPrinting then RefreshSelection(job, hit, old(p.fileSystem.selected)) else old(p.fileSystem.selected))
      ensures p.stateQueue == old(p.stateQueue) + Requests([report])
      ensures AddsRoundLines(old(p.sent), p.sent)
    {
      WorkerRound(p);
      ghost var before := p.sent;
      go := SleepAndTest(p, report);
      AddsRoundLinesTrans(old(p.sent), before, p.sent);
    }

    /** The loop of `_printing_worker` over the device reports that arrive
        during its sleeps: while printing with a job below 100 percent,
        refresh the job, report the status, sleep, and test again. It stops
        when the condition fails (`go` false) or the reports run out. */
    method WorkerLoop(p: BambuVirtualPrinter, reports: seq<DeviceSnapshot>) returns (go: bool, consumed: nat)
      modifies this`ownJob, p`currentPrintJob, p`sent, p`stateQueue, p`device, p.fileSystem`selected
      ensures consumed <= |reports| && (go ==> consumed == |reports|)
      ensures go <==> isPrinting && p.currentPrintJob.Some? && p.currentPrintJob.value.progress < 100
      ensures isPrinting ==> (p.currentPrintJob.None? ==> p.ProjectHit().None?)
      ensures p.stateQueue == old(p.stateQueue) + Requests(reports[..consumed])
      ensures AddsRoundLines(old(p.sent), p.sent)
    {
      consumed := 0;
      go := ContinuePrinting(p);
      while go && consumed < |reports|
        invariant consumed <= |reports|
        invariant go <==> isPrinting && p.currentPrintJob.Some? && p.currentPrintJob.value.progress < 100
        invariant isPrinting ==> (p.currentPrintJob.None? ==> p.ProjectHit().None?)
        invariant p.stateQueue == old(p.stateQueue) + Requests(reports[..consumed])
        invariant AddsRoundLines(old(p.sent), p.sent)
        decreases |reports| - consumed
      {
        ghost var before, queue := p.sent, p.stateQueue;
        go := WorkerCycle(p, reports[consumed]);
        AddsRoundLinesTrans(old(p.sent), before, p.sent);
        QueueSnoc(old(p.stateQueue), queue, reports, consumed);
        consumed := consumed + 1;
      }
    }

    /** `_printing_worker`, run over the device reports that arrive during
        its sleeps. It ends at 100 percent by finishing the print, without
        a job by doing nothing, and when the reports run out it is still
        sleeping. Its lines are round lines, with the end line last exactly
        when it completes. */
    method RunWorker(p: BambuVirtualPrinter, reports: seq<DeviceSnapshot>) returns (outcome: WorkerOutcome, consumed: nat)
      modifies this`ownJob, this`worker, p`currentPrintJob, p`sent, p`stateQueue, p`device, p.fileSystem`selected
      ensures consumed <= |reports|
      ensures outcome == StillRunning ==> consumed == |reports| && worker == old(worker)
      ensures outcome != StillRunning ==> worker == Exited
      ensures outcome == Completed ==> p.currentPrintJob.Some? && p.currentPrintJob.value.progress >= 100
      ensures outcome == AbortedNoJob ==> p.currentPrintJob.None?
      ensures outcome == Stopped ==> !isPrinting
      ensures p.stateQueue == old(p.stateQueue) + Requests(reports[..consumed]) + (if outcome == Completed then [Idle] else [])
      ensures AddsWorkerLines(old(p.sent), p.sent, outcome == Completed)
      ensures outcome == Completed ==> |p.sent| > 0 && p.sent[|p.sent| - 1] == Line(DoneLine)
      ensures Line(DoneLine) in p.sent[|old(p.sent)|..] <==> outcome == Completed
      ensures forall i :: |old(p.sent)| <= i < |p.sent| - 1 ==> p.sent[i] != Line(DoneLine)
    {
      var go;
      go, consumed := WorkerLoop(p, reports);
      ghost var before := p.sent;
      if go {
        WorkerRound(p);
        AddsRoundLinesTrans(old(p.sent), before, p.sent);
        outcome := StillRunning;
      } else {
        outcome := WorkerTail(p);
        AddsWorkerLinesTrans(old(p.sent), before, p.sent, outcome == Completed);
        worker := Exited;
      }
      DoneOnlyAtEnd(old(p.sent), p.sent, outcome == Completed);
    }

    /** `pause_print`: when connected, publishes a pause and requests the
        paused state if the printer accepted it. */
    method PausePrint(p: BambuVirtualPrinter, accepted: bool)
      modifies p`published, p`stateQueue
      ensures !p.connected ==> p.published == old(p.published) && p.stateQueue == old(p.stateQueue)
      ensures p.connected ==> p.published == old(p.published) + [PauseCommand]
      ensures p.connected ==> p.stateQueue == old(p.stateQueue) + (if accepted then [Paused] else [])
    {
      if p.connected {
        var ok := p.Publish(PauseCommand, accepted);
        if ok {
          p.ChangeState(Paused);
        }
      }
    }

    /** `cancel_print`: when connected, publishes a stop; if the printer
        accepted it, finishes the print and requests Idle once more. */
    method CancelPrint(p: BambuVirtualPrinter, accepted: bool)
      modifies p`published, p`currentPrintJob, p`sent, p`stateQueue, p.fileSystem`selected
      ensures !p.connected ==>
        p.published == old(p.published) && p.currentPrintJob == old(p.currentPrintJob) && p.sent == old(p.sent) &&
        p.stateQueue == old(p.stateQueue) && p.fileSystem.selected == old(p.fileSystem.selected)
      ensures p.connected ==> p.published == old(p.published) + [StopCommand]
      ensures p.connected && !accepted ==>
        p.currentPrintJob == old(p.currentPrintJob) && p.sent == old(p.sent) &&
        p.stateQueue == old(p.stateQueue) && p.fileSystem.selected == old(p.fileSystem.selected)
      ensures p.connected && accepted ==>
        p.currentPrintJob == old(p.PropertyJob()) && p.fileSystem.selected == old(p.PropertySelection()) &&
        p.sent == old(p.sent) + old(p.PropertyLines()) + (if old(p.PropertyJob()).Some? then [Line(DoneLine)] else []) &&
        p.stateQueue == old(p.stateQueue) + [Idle, Idle]
    {
      if p.connected {
        var ok := p.Publish(StopCommand, accepted);
        if ok {
          FinishPrint(p);
          p.ChangeState(Idle);
        }
      }
    }
  }

  /** The paused state: the paused flag, and how many status timers it
      started (each reports the job every three seconds while the flag is
      set). */
  class PausedState {
    var pausedLock: bool
    var statusTimers: nat

    constructor ()
      ensures !pausedLock && statusTimers == 0
    {
      pausedLock, statusTimers := false, 0;
    }

    /** `_sendPaused`: starts a status timer only when there is a job (the
        job property refreshes a missing job first). */
    method SendPaused(p: BambuVirtualPrinter)
      modifies this`statusTimers, p`currentPrintJob, p`sent, p.fileSystem`selected
      ensures statusTimers == old(statusTimers) + (if old(p.PropertyJob()).Some? then 1 else 0)
      ensures p.currentPrintJob == old(p.PropertyJob())
      ensures p.sent == old(p.sent) + old(p.PropertyLines())
      ensures p.fileSystem.selected == old(p.PropertySelection())
    {
      var job := p.GetCurrentPrintJob();
      if job.None? {
        return;
      }
      statusTimers := statusTimers + 1;
    }

    /** `init`: sets the flag, announces the pause, then starts the status
        timer. */
    method Init(p: BambuVirtualPrinter)
      modifies this`pausedLock, this`statusTimers, p`currentPrintJob, p`sent, p.fileSystem`selected
      ensures pausedLock
      ensures p.sent == old(p.sent) + [Line(PausedAction)] + old(p.PropertyLines())
      ensures statusTimers == old(statusTimers) + (if old(p.PropertyJob()).Some? then 1 else 0)
      ensures p.currentPrintJob == old(p.PropertyJob())
      ensures p.fileSystem.selected == old(p.PropertySelection())
    {
      if !pausedLock {
        pausedLock := true;
      }
      p.SendIO(PausedAction);
      SendPaused(p);
    }

    /** `finalize`: clears the flag, which stops the status timer. */
    method Finalize()
      modifies this`pausedLock
      ensures !pausedLock
    {
      if pausedLock {
        pausedLock := false;
      }
    }

    /** `start_new_print` while paused (resume): when connected, publishes
        a resume and requests printing if the printer accepted it. */
    method Resume(p: BambuVirtualPrinter, accepted: bool)
      modifies p`published, p`stateQueue
      ensures !p.connected ==> p.published == old(p.published) && p.stateQueue == old(p.stateQueue)
      ensures p.connected ==> p.published == old(p.published) + [ResumeCommand]
      ensures p.connected ==> p.stateQueue == old(p.stateQueue) + (if accepted then [Printing] else [])
    {
      if p.connected {
        var ok := p.Publish(ResumeCommand, accepted);
        if ok {
          p.ChangeState(Printing);
        }
      }
    }
  }

  /** `BambuVirtualPrinter`. */
  class BambuVirtualPrinter {
    const fileSystem: RemoteSDCardFileList
    const printing: PrintingState
    const paused: PausedState
    const executor: GCodeExecutor
    const settings: Settings
    /** The job's byte position, computed by the print job type. */
    const filePosition: PrintJob -> int
    var currentState: StateKind
    var stateQueue: seq<StateKind>
    var currentPrintJob: Option<PrintJob>
    var device: DeviceSnapshot
    var connected: bool
    var sent: seq<SerialLine>
    var published: seq<Published>

    /** A new printer starts idle, with nothing queued and no job. */
    constructor (fileSystem: RemoteSDCardFileList, settings: Settings, filePosition: PrintJob -> int,
                 device: DeviceSnapshot, connected: bool)
      ensures currentState == Idle && stateQueue == [] && currentPrintJob == None
      ensures sent == [] && published == []
      ensures this.fileSystem == fileSystem && this.device == device && this.connected == connected
      ensures fresh(printing) && fresh(paused) && fresh(executor)
      ensures !printing.isPrinting && printing.worker == NoWorker && !paused.pausedLock
      ensures executor.Execute("M524") == NoData(Handler("cancel_print"))
    {
      this.fileSystem := fileSystem;
      this.settings := settings;
      this.filePosition := filePosition;
      this.device := device;
      this.connected := connected;
      var e := PrinterExecutor();
      printing := new PrintingState();
      paused := new PausedState();
      executor := e;
      currentState := Idle;
      stateQueue := [];
      currentPrintJob := None;
      sent := [];
      published := [];
    }

    /** The project file the device's current task names, if any. */
    function ProjectHit(): Option<FileInfo>
      reads this`device, fileSystem`aliasCache, fileSystem`dataCache
    {
      fileSystem.GetDataBySuffix(device.subtaskName, ProjectSuffixes)
    }

    /** What `current_print_job` yields: the stored job, or else the job a
        refresh builds. There is one exactly when a job is stored or the
        task names a project file. */
    function PropertyJob(): (r: Option<PrintJob>)
      reads this`currentPrintJob, this`device, fileSystem`aliasCache, fileSystem`dataCache
      ensures r.Some? <==> currentPrintJob.Some? || ProjectHit().Some?
      ensures currentPrintJob.Some? ==> r == currentPrintJob
      ensures currentPrintJob.None? && r.Some? ==>
        r.value.fileInfo == ProjectHit().value && r.value.progress == device.printPercentage
    {
      RefreshJob(currentPrintJob, ProjectHit(), device)
    }

    /** The lines reading `current_print_job` sends: an `ok` when a refresh
        selects the project file, so at most one line and never one while a
        job is stored. */
    function PropertyLines(): (r: seq<SerialLine>)
      reads this`currentPrintJob, this`device, fileSystem`aliasCache, fileSystem`dataCache
      ensures r == [] || r == [Ok]
      ensures currentPrintJob.Some? ==> r == []
      ensures r == [Ok] <==> currentPrintJob.None? && PropertyJob().Some?
    {
      RefreshLines(currentPrintJob, ProjectHit())
    }

    /** The selection after reading `current_print_job`: it changes only
        when a refresh selects the project file, which the task's name then
        looks up. */
    function PropertySelection(): (r: Option<FileInfo>)
      reads this`currentPrintJob, this`device, fileSystem`aliasCache, fileSystem`dataCache, fileSystem`selected
      ensures r != fileSystem.selected ==> PropertyLines() == [Ok]
      ensures PropertyLines() == [Ok] ==> r == fileSystem.GetFileData(device.subtaskName) && r.Some?
    {
      RefreshSelection(currentPrintJob, ProjectHit(), fileSystem.selected)
    }

    /** What `finalize` of the current state does to the job, the
        selection, the lines and the requests. */
    function FinalizeNow(): Effect
      reads this`currentState, printing`worker, this`currentPrintJob, this`device,
            fileSystem`aliasCache, fileSystem`dataCache, fileSystem`selected
    {
      FinalizeEffect(currentState, printing.worker, currentPrintJob, ProjectHit(), device, fileSystem.selected)
    }

    /** `change_state`: only queues the request. */
    method ChangeState(s: StateKind)
      modifies this`stateQueue
      ensures stateQueue == old(stateQueue) + [s]
    {
      stateQueue := stateQueue + [s];
    }

    method SendIO(text: string)
      modifies this`sent
      ensures sent == old(sent) + [Line(text)]
    {
      sent := sent + [Line(text)];
    }

    method SendOk()
      modifies this`sent
      ensures sent == old(sent) + [Ok]
    {
      sent := sent + [Ok];
    }

    /** Publishes a command; `accepted` is the printer client's answer. */
    method Publish(c: Published, accepted: bool) returns (ok: bool)
      modifies this`published
      ensures published == old(published) + [c] && ok == accepted
    {
      published := published + [c];
      ok := accepted;
    }

    /** `update_print_job_info` of the printer: no job when the device's
        task names no project file; otherwise selects the file (sending
        `ok`) and builds the job with the reported progress. */
    method UpdatePrintJobInfo()
      modifies this`currentPrintJob, this`sent, fileSystem`selected
      ensures currentPrintJob == JobFor(ProjectHit(), device)
      ensures ProjectHit().None? ==> sent == old(sent) && fileSystem.selected == old(fileSystem.selected)
      ensures ProjectHit().Some? ==> sent == old(sent) + [Ok] && fileSystem.selected == fileSystem.GetFileData(device.subtaskName)
    {
      var hit := fileSystem.GetDataBySuffix(device.subtaskName, ProjectSuffixes);
      if hit.None? {
        currentPrintJob := None;
        return;
      }
      ghost var data := fileSystem.GetFileData(device.subtaskName);
      assert data.Some?;
      var selected := fileSystem.SelectFile(device.subtaskName, false);
      assert selected && fileSystem.selected == data;
      assert ProjectHit() == hit;
      if selected {
        SendOk();
      }
      currentPrintJob := Some(PrintJob(hit.value, device.printPercentage));
    }

    /** `current_print_job`: refreshes only when there is no job. */
    method GetCurrentPrintJob() returns (job: Option<PrintJob>)
      modifies this`currentPrintJob, this`sent, fileSystem`selected
      ensures job == currentPrintJob == old(PropertyJob())
      ensures sent == old(sent) + old(PropertyLines())
      ensures fileSystem.selected == old(PropertySelection())
      ensures job.None? ==> ProjectHit().None?
    {
      if currentPrintJob.None? {
        ghost var hit := ProjectHit();
        ghost var selection := PropertySelection();
        assert PropertyJob() == JobFor(hit, device) && PropertyLines() == (if hit.Some? then [Ok] else []);
        UpdatePrintJobInfo();
        assert ProjectHit() == hit;
        assert fileSystem.selected == selection;
      }
      job := currentPrintJob;
    }

    /** `report_print_job_status`. */
    method ReportPrintJobStatus()
      modifies this`currentPrintJob, this`sent, fileSystem`selected
      ensures currentPrintJob == old(PropertyJob())
      ensures sent == old(sent) + old(PropertyLines()) + [Line(StatusLine(old(PropertyJob()), filePosition))]
      ensures fileSystem.selected == old(PropertySelection())
      ensures AddsRoundLines(old(sent), sent)
    {
      ghost var lines := PropertyLines();
      ghost var before := sent;
      var job := GetCurrentPrintJob();
      var status := StatusLine(job, filePosition);
      SendIO(status);
      assert sent == before + (lines + [Line(status)]);
      StatusLinesAreRoundLines(lines, job, filePosition);
      AddsLines(before, lines + [Line(status)], sent);
    }

    /** `_update_printer_info` on a device report: the report becomes the
        device's state and the state it names is requested. */
    method UpdatePrinterInfo(d: DeviceSnapshot)
      modifies this`device, this`stateQueue
      ensures device == d
      ensures stateQueue == old(stateQueue) + Requests([d])
    {
      device := d;
      assert [d][..0] == [];
      var s := RequestedState(d.gcodeState);
      if s.Some? {
        ChangeState(s.value);
      }
    }

    /** M23: selects the file named by the command's argument; a command
        without an argument fails (`None`). */
    method SelectSdFile(data: string) returns (r: Option<bool>)
      modifies fileSystem`selected
      ensures r.None? <==> SecondField(data).None?
      ensures r.Some? ==> (r.value <==> fileSystem.GetFileData(SecondField(data).value).Some?)
      ensures (r.Some? && r.value) ==> fileSystem.selected == fileSystem.GetFileData(SecondField(data).value)
      ensures (r.None? || !r.value) ==> fileSystem.selected == old(fileSystem.selected)
    {
      var name := SecondField(data);
      if name.None? {
        return None;
      }
      var ok := fileSystem.SelectFile(name.value, false);
      r := Some(ok);
    }

    /** M30: deletes the file named by the argument and reports the command
        handled; returns the remote path it asked to delete. */
    method DeleteSdFile(data: string) returns (r: Option<bool>, request: Option<string>)
      ensures r.None? <==> SecondField(data).None?
      ensures r.Some? ==> r.value
      ensures r.None? ==> request.None?
      ensures r.Some? ==>
        var hit := fileSystem.GetFileData(SecondField(data).value);
        (request.Some? <==> hit.Some?) && (hit.Some? ==> request.value == AsPosix(hit.value.path))
    {
      var name := SecondField(data);
      if name.None? {
        return None, None;
      }
      request := fileSystem.DeleteFile(name.value);
      r := Some(true);
    }

    /** M118: sends the parsed text and reports the command handled. */
    method SerialPrint(data: string) returns (r: bool)
      modifies this`sent
      ensures r
      ensures sent == old(sent) + [Line(M118Output(data))]
    {
      SendIO(M118Output(data));
      r := true;
    }

    /** M524: the current state's `cancel_print` (no effect outside
        printing). */
    method CancelPrint(accepted: bool) returns (r: bool)
      modifies this`published, this`currentPrintJob, this`sent, this`stateQueue, fileSystem`selected
      ensures r
      ensures currentState != Printing ==>
        published == old(published) && currentPrintJob == old(currentPrintJob) && sent == old(sent) &&
        stateQueue == old(stateQueue) && fileSystem.selected == old(fileSystem.selected)
      ensures currentState == Printing && !connected ==>
        published == old(published) && currentPrintJob == old(currentPrintJob) && sent == old(sent) &&
        stateQueue == old(stateQueue) && fileSystem.selected == old(fileSystem.selected)
      ensures currentState == Printing && connected ==> published == old(published) + [StopCommand]
      ensures currentState == Printing && connected && !accepted ==>
        currentPrintJob == old(currentPrintJob) && sent == old(sent) &&
        stateQueue == old(stateQueue) && fileSystem.selected == old(fileSystem.selected)
      ensures currentState == Printing && connected && accepted ==>
        currentPrintJob == old(PropertyJob()) && fileSystem.selected == old(PropertySelection()) &&
        sent == old(sent) + old(PropertyLines()) + (if old(PropertyJob()).Some? then [Line(DoneLine)] else []) &&
        stateQueue == old(stateQueue) + [Idle, Idle]
    {
      if currentState == Printing {
        printing.CancelPrint(this, accepted);
      }
      r := true;
    }

    /** M26: only the exact command `M26 S0` cancels; any other position
        is refused with a message. Reports the command handled. */
    method SetSdPosition(data: string, accepted: bool) returns (r: bool)
      modifies this`published, this`currentPrintJob, this`sent, this`stateQueue, fileSystem`selected
      ensures r
      ensures data != CancelCommand ==>
        sent == old(sent) + [Line(M26Disabled)] && published == old(published) &&
        currentPrintJob == old(currentPrintJob) && stateQueue == old(stateQueue) && fileSystem.selected == old(fileSystem.selected)
      ensures data == CancelCommand && (currentState != Printing || !connected) ==>
        published == old(published) && currentPrintJob == old(currentPrintJob) && sent == old(sent) &&
        stateQueue == old(stateQueue) && fileSystem.selected == old(fileSystem.selected)
      ensures data == CancelCommand && currentState == Printing && connected ==> published == old(published) + [StopCommand]
      ensures data == CancelCommand && currentState == Printing && connected && !accepted ==>
        currentPrintJob == old(currentPrintJob) && sent == old(sent) &&
        stateQueue == old(stateQueue) && fileSystem.selected == old(fileSystem.selected)
      ensures data == CancelCommand && currentState == Printing && connected && accepted ==>
        currentPrintJob == old(PropertyJob()) && fileSystem.selected == old(PropertySelection()) &&
        sent == old(sent) + old(PropertyLines()) + (if old(PropertyJob()).Some? then [Line(DoneLine)] else []) &&
        stateQueue == old(stateQueue) + [Idle, Idle]
    {
      if data == CancelCommand {
        r := CancelPrint(accepted);
      } else {
        SendIO(M26Disabled);
        r := true;
      }
    }

    /** `start_new_print` of the idle state: with a selected file, publishes
        the start command for it, whatever the connection; never requests a
        state change. */
    method IdleStartNewPrint(accepted: bool)
      modifies this`published
      ensures fileSystem.selected.None? ==> published == old(published)
      ensures fileSystem.selected.Some? ==>
        published == old(published) + [ProjectFile(PrintCommandFor(settings, fileSystem.selected.value))]
      ensures stateQueue == old(stateQueue)
    {
      var selected := fileSystem.selected;
      if selected.None? {
        return;
      }
      var command := PrintCommandFor(settings, selected.value);
      var ok := Publish(ProjectFile(command), accepted);
    }

    /** M24: the current state's `start_new_print` (none while printing). */
    method StartPrint(accepted: bool) returns (r: bool)
      modifies this`published, this`stateQueue
      ensures r
      ensures currentState == Printing ==> published == old(published) && stateQueue == old(stateQueue)
      ensures currentState == Idle ==> stateQueue == old(stateQueue)
      ensures currentState == Idle ==>
        published == old(published) + (if fileSystem.selected.Some? then [ProjectFile(PrintCommandFor(settings, fileSystem.selected.value))] else [])
      ensures currentState == Paused && connected ==>
        published == old(published) + [ResumeCommand] && stateQueue == old(stateQueue) + (if accepted then [Printing] else [])
      ensures currentState == Paused && !connected ==> published == old(published) && stateQueue == old(stateQueue)
    {
      if currentState == Idle {
        IdleStartNewPrint(accepted);
      } else if currentState == Paused {
        paused.Resume(this, accepted);
      }
      r := true;
    }

    /** M25: the current state's `pause_print` (none outside printing). */
    method PausePrint(accepted: bool) returns (r: bool)
      modifies this`published, this`stateQueue
      ensures r
      ensures currentState != Printing || !connected ==> published == old(published) && stateQueue == old(stateQueue)
      ensures currentState == Printing && connected ==>
        published == old(published) + [PauseCommand] && stateQueue == old(stateQueue) + (if accepted then [Paused] else [])
    {
      if currentState == Printing {
        printing.PausePrint(this, accepted);
      }
      r := true;
    }

    /** The `finalize` of the current state (the idle state's is empty). */
    method FinalizeCurrent()
      modifies this`currentPrintJob, this`sent, this`stateQueue, fileSystem`selected,
               printing`isPrinting, printing`worker, paused`pausedLock
      ensures currentState == Paused ==> !paused.pausedLock
      ensures currentState == Printing ==> printing.worker != Alive
      ensures currentState == Printing && old(printing.worker) == Alive ==> !printing.isPrinting && printing.worker == NoWorker
      ensures currentState == Printing && old(printing.worker) != Alive ==> printing.worker == old(printing.worker)
      ensures currentState != Paused ==> paused.pausedLock == old(paused.pausedLock)
      ensures currentState != Printing ==> printing.isPrinting == old(printing.isPrinting) && printing.worker == old(printing.worker)
      ensures currentPrintJob == old(FinalizeNow()).job && fileSystem.selected == old(FinalizeNow()).selection
      ensures sent == old(sent) + old(FinalizeNow()).lines
      ensures stateQueue == old(stateQueue) + old(FinalizeNow()).requests
    {
      ghost var f := FinalizeNow();
      if currentState == Printing {
        ghost var job, lines, selection := PropertyJob(), PropertyLines(), PropertySelection();
        ghost var done := job.Some? && job.value.progress >= 100;
        assert printing.worker == Alive ==>
          f == Effect(job, selection, lines + (if done then [Line(DoneLine)] else []), if done then [Idle] else []);
        printing.Finalize(this);
      } else if currentState == Paused {
        paused.Finalize();
      }
    }

    /** The `init` of the current state (the idle state's is empty). */
    method InitCurrent()
      modifies this`currentPrintJob, this`sent, fileSystem`selected, printing`isPrinting, printing`worker, printing`ownJob,
               paused`pausedLock, paused`statusTimers
      ensures currentState == Paused ==> paused.pausedLock
      ensures currentState == Printing ==> printing.isPrinting
      ensures currentState == Printing && old(printing.worker) == NoWorker ==> printing.worker == Alive
      ensures currentState == Printing && old(printing.worker) != NoWorker ==> printing.worker == old(printing.worker)
      ensures currentState != Paused ==> paused.pausedLock == old(paused.pausedLock)
      ensures currentState != Printing ==> printing.isPrinting == old(printing.isPrinting) && printing.worker == old(printing.worker)
      ensures currentState == Printing ==>
        currentPrintJob == RoundJob(old(currentPrintJob), old(ProjectHit()), old(device)) &&
        fileSystem.selected == None && sent == old(sent)
      ensures currentState == Paused ==>
        currentPrintJob == old(PropertyJob()) && fileSystem.selected == old(PropertySelection()) &&
        sent == old(sent) + [Line(PausedAction)] + old(PropertyLines())
      ensures currentState == Idle ==>
        currentPrintJob == old(currentPrintJob) && fileSystem.selected == old(fileSystem.selected) && sent == old(sent)
    {
      if currentState == Printing {
        ghost var hit := ProjectHit();
        printing.Init(this);
        assert hit == ProjectHit();
      } else if currentState == Paused {
        paused.Init(this);
      }
    }

    /** The switch to `s` and its `init`: the job, the selection and the
        lines as the init of `s` leaves them. */
    method EnterState(s: StateKind)
      modifies this`currentState, this`currentPrintJob, this`sent, fileSystem`selected,
               printing`isPrinting, printing`worker, printing`ownJob, paused`pausedLock, paused`statusTimers
      ensures currentState == s
      ensures var i := InitEffect(s, old(currentPrintJob), old(ProjectHit()), old(device), old(fileSystem.selected));
        currentPrintJob == i.job && fileSystem.selected == i.selection && sent == old(sent) + i.lines
      ensures s == Paused ==> paused.pausedLock
      ensures s == Printing ==> printing.isPrinting
      ensures s == Printing && old(printing.worker) == NoWorker ==> printing.worker == Alive
      ensures s == Printing && old(printing.worker) != NoWorker ==> printing.worker == old(printing.worker)
      ensures s != Paused ==> paused.pausedLock == old(paused.pausedLock)
      ensures s != Printing ==> printing.isPrinting == old(printing.isPrinting) && printing.worker == old(printing.worker)
    {
      ghost var lines := PropertyLines();
      currentState := s;
      InitCurrent();
      if s == Paused {
        assert sent == old(sent) + ([Line(PausedAction)] + lines);
      }
    }

    /** `_trigger_change_state`: nothing when the state is the current one;
        otherwise the old state is finalized, the state switched, and the
        new state initialized, in that order: the finalize's lines come
        before the init's, and only the finalize requests a state. */
    method TriggerChangeState(s: StateKind)
      modifies this`currentState, this`currentPrintJob, this`sent, this`stateQueue, fileSystem`selected,
               printing`isPrinting, printing`worker, printing`ownJob, paused`pausedLock, paused`statusTimers
      ensures s == old(currentState) ==>
        sent == old(sent) && stateQueue == old(stateQueue) && currentPrintJob == old(currentPrintJob) &&
        fileSystem.selected == old(fileSystem.selected) && unchanged(printing) && unchanged(paused)
      ensures currentState == s
      ensures s != old(currentState) ==>
        var f := old(FinalizeNow());
        var i := InitEffect(s, f.job, old(ProjectHit()), old(device), f.selection);
        currentPrintJob == i.job && fileSystem.selected == i.selection &&
        sent == old(sent) + f.lines + i.lines && stateQueue == old(stateQueue) + f.requests
      ensures s != old(currentState) && old(currentState) == Paused ==> !paused.pausedLock
      ensures s != old(currentState) && old(currentState) == Printing ==> printing.worker != Alive
      ensures s != old(currentState) && old(currentState) == Printing && old(printing.worker) == Alive ==>
        !printing.isPrinting && printing.worker == NoWorker
      ensures s != old(currentState) && s == Paused ==> paused.pausedLock
      ensures s != old(currentState) && s == Printing ==> printing.isPrinting
      ensures s != old(currentState) && s == Printing && old(printing.worker) == NoWorker ==> printing.worker == Alive
      ensures s != old(currentState) && s == Printing && old(printing.worker) == Exited ==> printing.worker == Exited
    {
      if currentState == s {
        return;
      }
      ghost var hit, device0 := ProjectHit(), device;
      FinalizeCurrent();
      assert ProjectHit() == hit && device == device0;
      EnterState(s);
    }

    /** One round of `_printer_worker`: takes the oldest request, if any,
        and applies it. */
    method ProcessNextStateChange()
      modifies this`currentState, this`currentPrintJob, this`sent, this`stateQueue, fileSystem`selected,
               printing`isPrinting, printing`worker, printing`ownJob, paused`pausedLock, paused`statusTimers
      ensures old(stateQueue) == [] ==>
        currentState == old(currentState) && stateQueue == [] && sent == old(sent) &&
        currentPrintJob == old(currentPrintJob) && fileSystem.selected == old(fileSystem.selected) &&
        unchanged(printing) && unchanged(paused)
      ensures old(stateQueue) != [] ==> currentState == old(stateQueue)[0]
      ensures old(stateQueue) != [] && old(stateQueue)[0] == old(currentState) ==>
        stateQueue == old(stateQueue)[1..] && sent == old(sent) &&
        currentPrintJob == old(currentPrintJob) && fileSystem.selected == old(fileSystem.selected)
      ensures old(stateQueue) != [] && old(stateQueue)[0] != old(currentState) ==>
        var f := old(FinalizeNow());
        var i := InitEffect(old(stateQueue)[0], f.job, old(ProjectHit()), old(device), f.selection);
        stateQueue == old(stateQueue)[1..] + f.requests && sent == old(sent) + f.lines + i.lines &&
        currentPrintJob == i.job && fileSystem.selected == i.selection
    {
      if stateQueue == [] {
        return;
      }
      var next := stateQueue[0];
      stateQueue := stateQueue[1..];
      TriggerChangeState(next);
    }
  }
}
