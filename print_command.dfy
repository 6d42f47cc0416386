/** The command the idle state publishes to start printing the selected
    project file, built from the plugin settings and the file's record. */
module PrintCommands {
  import opened Wrappers
  import opened Text
  import opened Paths
  import opened FileList

  /** The plugin settings the command reads: the raw device type, and
      `get_boolean` for any key (a flag, or `None` where no boolean can be
      read). */
  datatype Settings = Settings(deviceType: string, boolean: string -> Option<bool>)

  /** A Python value, for comparisons across types. */
  datatype PyValue = PyNone | PyBool(b: bool) | PyStr(s: string)

  function OfBoolean(v: Option<bool>): PyValue
  {
    if v.Some? then PyBool(v.value) else PyNone
  }

  /** `v in options` for a list of strings: only a string equal to an
      element is in it. */
  predicate InStrings(v: PyValue, options: seq<string>)
  {
    v.PyStr? && v.s in options
  }

  const MntRoot: string := "file:///mnt/sdcard/"
  const SdRoot: string := "file:///sdcard/"
  const X1Types: seq<string> := ["X1", "X1C"]

  /** The storage root as written: the device type is read as a boolean
      and then looked for among the X1 type names. */
  function FilesystemRootAsWritten(settings: Settings): string
  {
    if InStrings(OfBoolean(settings.boolean("device_type")), X1Types) then MntRoot else SdRoot
  }

  /** As written, the X1 root is never chosen: a boolean or `None` is
      never among strings, so even an X1C prints from `file:///sdcard/`. */
  lemma {:induction false} RootAsWrittenIgnoresDeviceType(settings: Settings)
    ensures FilesystemRootAsWritten(settings) == SdRoot
  {
  }

  /** The storage root read from the device type's string value: the X1
      family stores under `/mnt/sdcard/`, every other model under
      `/sdcard/`. */
  function FilesystemRoot(settings: Settings): (root: string)
    ensures root == MntRoot <==> settings.deviceType in X1Types
    ensures root == SdRoot <==> settings.deviceType !in X1Types
  {
    if settings.deviceType in X1Types then MntRoot else SdRoot
  }

  /** The `print` object of the start command. */
  datatype PrintCommand = PrintCommand(
    sequenceId: int, command: string, param: string, md5: string,
    profileId: string, projectId: string, subtaskId: string, taskId: string,
    subtaskName: string, file: string, url: string,
    timelapse: Option<bool>, bedLeveling: Option<bool>, flowCali: Option<bool>,
    vibrationCali: Option<bool>, layerInspect: Option<bool>, useAms: Option<bool>)

  /** `_get_print_command_for_file`. */
  function PrintCommandFor(settings: Settings, f: FileInfo): (c: PrintCommand)
    ensures c.sequenceId == 0 && c.command == "project_file" && c.param == "Metadata/plate_1.gcode" && c.md5 == ""
    ensures c.profileId == "0" && c.projectId == "0" && c.subtaskId == "0" && c.taskId == "0"
    ensures c.subtaskName == f.FileName()
    ensures c.file == AsPosix(f.path)
    ensures c.url == FilesystemRoot(settings) + c.file
    ensures c.timelapse == settings.boolean("timelapse") && c.bedLeveling == settings.boolean("bed_leveling")
    ensures c.flowCali == settings.boolean("flow_cali") && c.vibrationCali == settings.boolean("vibration_cali")
    ensures c.layerInspect == settings.boolean("layer_inspect") && c.useAms == settings.boolean("use_ams")
  {
    var file := AsPosix(f.path);
    PrintCommand(0, "project_file", "Metadata/plate_1.gcode", "",
                 "0", "0", "0", "0",
                 f.FileName(), file, FilesystemRoot(settings) + file,
                 settings.boolean("timelapse"), settings.boolean("bed_leveling"), settings.boolean("flow_cali"),
                 settings.boolean("vibration_cali"), settings.boolean("layer_inspect"), settings.boolean("use_ams"))
  }

  /** The command names the record's file: its `file` field parses back to
      the record's path, `url` is that path under the storage root, and
      `subtask_name` is the lower-cased name of that path. */
  lemma {:induction false} PrintCommandLocatesFile(settings: Settings, f: FileInfo)
    requires WellFormed(f.path)
    ensures var c := PrintCommandFor(settings, f);
      Parse(c.file) == f.path &&
      |c.url| >= |FilesystemRoot(settings)| && c.url[..|FilesystemRoot(settings)|] == FilesystemRoot(settings) &&
      Parse(c.url[|FilesystemRoot(settings)|..]) == f.path &&
      c.subtaskName == Lower(Name(Parse(c.file)))
  {
    var c := PrintCommandFor(settings, f);
    ParseAsPosix(f.path);
    assert c.url[|FilesystemRoot(settings)|..] == c.file;
  }
}
