/** The G-code dispatch registry: two handler tables filled by
    registration according to the handler's number of required arguments,
    and a dispatch rule that prefers the table of handlers taking the
    command line. */
module GCodes {
  import opened Wrappers
  import opened Text

  /** A registered handler, named after the printer operation it runs. */
  datatype Handler = Handler(name: string)

  /** What `execute` does for a code: call a handler with the printer and
      the command line, call one with the printer only, or nothing (the
      code is then reported as handled). */
  datatype Call = WithData(handler: Handler) | NoData(handler: Handler) | Ignored

  /** Some entries of the documentation table. A repeated key keeps its
      last entry, so the entries of each repeated key stay in their
      original order; the order of distinct keys does not matter. */
  const Documentation: map<string, string> := map[
    "G0" := "Linear Move",
    "G28" := "Auto Home",
    "M20" := "List SD Card",
    "M23" := "Select SD file",
    "M24" := "Start or Resume SD print",
    "M25" := "Pause SD print",
    "M26" := "Set SD position",
    "M27" := "Report SD print status",
    "M30" := "Delete SD file",
    "M105" := "Report Temperatures",
    "M112" := "Full Shutdown",
    "M115" := "Firmware Info",
    "M117" := "Set LCD Message",
    "M118" := "Serial print",
    "M220" := "Set Feedrate Percentage",
    "M524" := "Abort SD print",
    "G34" := "Z Steppers Auto-Alignment",
    "G34" := "Mechanical Gantry Calibration",
    "G29" := "Bed Leveling",
    "G29" := "Bed Leveling (3-Point)",
    "G29" := "Bed Leveling (Linear)",
    "G29" := "Bed Leveling (Manual)",
    "G29" := "Bed Leveling (Bilinear)",
    "G29" := "Bed Leveling (Unified)"
  ]

  /** `GCODE_DOCUMENTATION.get(gcode, 'Info not specified')`. */
  function DocOf(gcode: string): string
  {
    if gcode in Documentation then Documentation[gcode] else "Info not specified"
  }

  /** `_gcode_with_info`: `<code> (<documentation>)`. */
  function GCodeWithInfo(gcode: string): (r: string)
    ensures |r| == |gcode| + |DocOf(gcode)| + 3
    ensures r[..|gcode| + 2] == gcode + " (" && r[|r| - 1] == ')'
    ensures r[|gcode| + 2..|r| - 1] == DocOf(gcode)
  {
    gcode + " (" + DocOf(gcode) + ")"
  }

  /** A repeated key keeps its last entry. */
  lemma {:induction false} LastDocumentationWins()
    ensures DocOf("G29") == "Bed Leveling (Unified)"
  {
  }

  /** An undocumented code gets the fallback text. */
  lemma {:induction false} UndocumentedCode(gcode: string)
    requires gcode !in Documentation
    ensures GCodeWithInfo(gcode) == gcode + " (Info not specified)"
  {
  }

  /** The dispatch rule of `execute` over the two tables. */
  function Route(handlers: map<string, Handler>, handlersNoData: map<string, Handler>, gcode: string): (c: Call)
    ensures c != Ignored <==> gcode in handlers || gcode in handlersNoData
    ensures c.WithData? ==> gcode in handlers && c.handler == handlers[gcode]
    ensures c.NoData? ==> gcode !in handlers && gcode in handlersNoData && c.handler == handlersNoData[gcode]
  {
    if gcode in handlers then WithData(handlers[gcode])
    else if gcode in handlersNoData then NoData(handlersNoData[gcode])
    else Ignored
  }

  /** A code registered in the data table is dispatched there, whatever
      the no-data table holds. */
  lemma {:induction false} RouteAfterDataRegistration(handlers: map<string, Handler>, handlersNoData: map<string, Handler>,
                                   gcode: string, h: Handler, other: string)
    ensures Route(handlers[gcode := h], handlersNoData, gcode) == WithData(h)
    ensures other != gcode ==> Route(handlers[gcode := h], handlersNoData, other) == Route(handlers, handlersNoData, other)
  {
  }

  /** A code registered in the no-data table is dispatched there only if
      the data table does not hold it. */
  lemma {:induction false} RouteAfterNoDataRegistration(handlers: map<string, Handler>, handlersNoData: map<string, Handler>,
                                     gcode: string, h: Handler, other: string)
    ensures Route(handlers, handlersNoData[gcode := h], gcode) ==
      (if gcode in handlers then WithData(handlers[gcode]) else NoData(h))
    ensures other != gcode ==> Route(handlers, handlersNoData[gcode := h], other) == Route(handlers, handlersNoData, other)
  {
  }

  /** The message of the error `register` raises. */
  function ArityError(requiredCount: nat): string
  {
    "Cannot register function with " + NatToString(requiredCount) + " required parameters"
  }

  /** `GCodeExecutor`: the two handler tables. */
  class GCodeExecutor {
    var handlers: map<string, Handler>
    var handlersNoData: map<string, Handler>

    constructor ()
      ensures handlers == map[] && handlersNoData == map[]
    {
      handlers, handlersNoData := map[], map[];
    }

    /** `gcode in executor`. */
    predicate Contains(gcode: string): (r: bool)
      reads this
      ensures r <==> Route(handlers, handlersNoData, gcode) != Ignored
      ensures r <==> gcode in handlers.Keys + handlersNoData.Keys
    {
      gcode in handlers || gcode in handlersNoData
    }

    /** `execute`: the call made for `gcode`. */
    function Execute(gcode: string): (c: Call)
      reads this
      ensures c != Ignored <==> Contains(gcode)
      ensures c.WithData? ==> gcode in handlers && c.handler == handlers[gcode]
      ensures c.NoData? ==> gcode !in handlers && gcode in handlersNoData && c.handler == handlersNoData[gcode]
    {
      Route(handlers, handlersNoData, gcode)
    }

    /** `register(gcode)` applied to a handler with `requiredCount`
        required arguments (the bound object counts as one): one goes to
        the no-data table, two to the data table, any other number is
        refused and changes nothing. The handler is handed back unchanged. */
    method Register(gcode: string, h: Handler, requiredCount: nat) returns (r: Result<Handler, string>)
      modifies this
      ensures requiredCount == 1 ==> r == Success(h) && handlersNoData == old(handlersNoData)[gcode := h] && handlers == old(handlers)
      ensures requiredCount == 2 ==> r == Success(h) && handlers == old(handlers)[gcode := h] && handlersNoData == old(handlersNoData)
      ensures requiredCount != 1 && requiredCount != 2 ==>
        r == Failure(ArityError(requiredCount)) && handlers == old(handlers) && handlersNoData == old(handlersNoData)
    {
      if requiredCount == 1 {
        handlersNoData := handlersNoData[gcode := h];
      } else if requiredCount == 2 {
        handlers := handlers[gcode := h];
      } else {
        return Failure(ArityError(requiredCount));
      }
      r := Success(h);
    }

    /** `register_no_data(gcode)`: always the no-data table. */
    method RegisterNoData(gcode: string, h: Handler) returns (r: Handler)
      modifies this
      ensures r == h
      ensures handlersNoData == old(handlersNoData)[gcode := h] && handlers == old(handlers)
    {
      handlersNoData := handlersNoData[gcode := h];
      r := h;
    }
  }

  /** The printer's SD-card handlers that take the command line. */
  method RegisterPrinterCardHandlers(e: GCodeExecutor)
    modifies e
    ensures e.handlers == old(e.handlers)["M23" := Handler("select_sd_file")]["M26" := Handler("set_sd_position")]
      ["M27" := Handler("report_sd_print_status")]["M30" := Handler("delete_sd_file")]
    ensures e.handlersNoData == old(e.handlersNoData)
  {
    var r;
    r := e.Register("M23", Handler("select_sd_file"), 2);
    r := e.Register("M26", Handler("set_sd_position"), 2);
    r := e.Register("M27", Handler("report_sd_print_status"), 2);
    r := e.Register("M30", Handler("delete_sd_file"), 2);
  }

  /** The printer's reporting handlers that take the command line. */
  method RegisterPrinterReportHandlers(e: GCodeExecutor)
    modifies e
    ensures e.handlers == old(e.handlers)["M105" := Handler("report_temperatures")]["M115" := Handler("report_firmware_info")]
      ["M117" := Handler("get_lcd_message")]["M118" := Handler("serial_print")]["M220" := Handler("set_feedrate_percent")]
    ensures e.handlersNoData == old(e.handlersNoData)
  {
    var r;
    r := e.Register("M105", Handler("report_temperatures"), 2);
    r := e.Register("M115", Handler("report_firmware_info"), 2);
    r := e.Register("M117", Handler("get_lcd_message"), 2);
    r := e.Register("M118", Handler("serial_print"), 2);
    r := e.Register("M220", Handler("set_feedrate_percent"), 2);
  }

  /** The printer's handlers that take no command line. The abort handler
      is registered with `register`, but takes only the printer, so it
      lands in the no-data table. */
  method RegisterPrinterNoDataHandlers(e: GCodeExecutor)
    modifies e
    ensures e.handlersNoData == old(e.handlersNoData)["M112" := Handler("shutdown")]["M20" := Handler("list_sd")]
      ["M24" := Handler("start_print")]["M25" := Handler("pause_print")]["M524" := Handler("cancel_print")]
    ensures e.handlers == old(e.handlers)
  {
    var h, r;
    h := e.RegisterNoData("M112", Handler("shutdown"));
    h := e.RegisterNoData("M20", Handler("list_sd"));
    h := e.RegisterNoData("M24", Handler("start_print"));
    h := e.RegisterNoData("M25", Handler("pause_print"));
    r := e.Register("M524", Handler("cancel_print"), 1);
  }

  /** The executor the printer class builds. */
  method PrinterExecutor() returns (e: GCodeExecutor)
    ensures fresh(e)
    ensures e.handlers.Keys == {"M23", "M26", "M27", "M30", "M105", "M115", "M117", "M118", "M220"}
    ensures e.handlersNoData.Keys == {"M112", "M20", "M24", "M25", "M524"}
    ensures e.Execute("M524") == NoData(Handler("cancel_print"))
    ensures e.Execute("M26") == WithData(Handler("set_sd_position"))
  {
    e := new GCodeExecutor();
    RegisterPrinterCardHandlers(e);
    RegisterPrinterReportHandlers(e);
    RegisterPrinterNoDataHandlers(e);
    assert "M524" !in e.handlers;
  }
}
