/**
 * The collector's log record (class Log of UndisReportCollector/Log.cs):
 * the constructor merges a DSC report and its optional status data into the
 * record's fields, and Flush decides whether the record is written and
 * builds the line and the daily file name it would be appended to.
 *
 * The ambient inputs of the source are parameters here: the configured log
 * level setting, whether the logs folder exists, and the clock readings,
 * already formatted (`now` for the field initialiser, `today` for the file
 * name, the report's end time for the line).
 */
module ReportLog {

  import opened Wrappers
  import opened Text

  // ---------------------------------------------------------------------------
  // Inputs: the fields of DSCReport, StatusData and Resource that the log reads.
  // Strings the source never null-checks are plain strings (a null one renders
  // as "" in the source's concatenations, exactly like an empty one).

  datatype Resource = Resource(instanceName: string, error: Option<string>)

  datatype DscReport = DscReport(
    jobId: string,
    operationType: string,
    refreshMode: string,
    status: Option<string>,
    rebootRequested: bool,
    endTime: string)

  datatype StatusData = StatusData(
    durationInSeconds: int,
    numberOfResources: int,
    hostname: string,
    error: Option<string>,
    resourcesInDesiredState: Option<seq<Resource>>,
    resourcesNotInDesiredState: Option<seq<Resource>>)

  // ---------------------------------------------------------------------------
  // Levels: LevelEnum, its integer values and its names.

  datatype Level = Undifined | Critical | Error | Warn | Info | Verbose

  /** The enum's integer value: UNDIFINED = 0 up to VERBOSE = 5. */
  function Rank(level: Level): nat {
    match level
    case Undifined => 0
    case Critical => 1
    case Error => 2
    case Warn => 3
    case Info => 4
    case Verbose => 5
  }

  function Name(level: Level): string {
    match level
    case Undifined => "UNDIFINED"
    case Critical => "CRITICAL"
    case Error => "ERROR"
    case Warn => "WARN"
    case Info => "INFO"
    case Verbose => "VERBOSE"
  }

  /** The level whose name is exactly `s` (case-sensitive), if any: Enum.IsDefined and Enum.Parse on a name. */
  function ParseName(s: string): (r: Option<Level>)
    ensures r.Some? ==> Name(r.value) == s
    ensures r.None? ==> forall level :: Name(level) != s
  {
    if s == "UNDIFINED" then Some(Undifined)
    else if s == "CRITICAL" then Some(Critical)
    else if s == "ERROR" then Some(Error)
    else if s == "WARN" then Some(Warn)
    else if s == "INFO" then Some(Info)
    else if s == "VERBOSE" then Some(Verbose)
    else None
  }

  /** The name of the level with integer value `rank`, if any: Enum.GetName. */
  function NameAt(rank: int): (r: Option<string>)
    ensures forall level :: Rank(level) == rank ==> r == Some(Name(level))
    ensures (rank < 0 || rank > 5) ==> r.None?
  {
    if rank == 0 then Some("UNDIFINED")
    else if rank == 1 then Some("CRITICAL")
    else if rank == 2 then Some("ERROR")
    else if rank == 3 then Some("WARN")
    else if rank == 4 then Some("INFO")
    else if rank == 5 then Some("VERBOSE")
    else None
  }

  /**
   * The minimum level configured by the level setting: INFO when it is
   * absent, the level named by its upper-cased text when there is one,
   * INFO otherwise. Parsing never fails.
   */
  function ConfigLevel(setting: Option<string>): (r: nat)
    ensures setting.None? ==> r == Rank(Info)
    ensures forall level :: setting.Some? && ToUpper(setting.value) == Name(level) ==> r == Rank(level)
    ensures setting.Some? && (forall level :: ToUpper(setting.value) != Name(level)) ==> r == Rank(Info)
  {
    match setting
    case None => Rank(Info)
    case Some(s) =>
      match ParseName(ToUpper(s))
      case Some(level) => Rank(level)
      case None => Rank(Info)
  }

  /** The level of a record with status `status` (a case-sensitive match on two values). */
  function Severity(status: Option<string>): Level {
    if status == Some("InProgress") then Verbose
    else if status == Some("Failed") then Error
    else Info
  }

  // ---------------------------------------------------------------------------
  // The record the constructor builds.

  /** The values of the fields of a Log object. */
  datatype LogRecord = LogRecord(
    timestamp: string,
    jobId: Option<string>,
    operationType: Option<string>,
    refreshMode: Option<string>,
    status: Option<string>,
    rebootRequested: bool,
    compliant: bool,
    durationInSeconds: int,
    numberOfResources: int,
    resourcesInDesiredState: string,
    resourcesNotInDesiredState: string,
    error: string,
    hostname: Option<string>)

  /** The fields' initial values; the timestamp is the clock reading at construction. */
  function Initial(now: string): LogRecord {
    LogRecord(now, None, None, None, None, false, true, 0, 0, "", "", "", None)
  }

  function Names(resources: seq<Resource>): (r: seq<string>)
    ensures |r| == |resources|
  {
    seq(|resources|, i requires 0 <= i < |resources| => resources[i].instanceName)
  }

  /** A resource list as the constructor renders it: each name appended, after ", " when the text is non-empty. */
  function NameList(resources: seq<Resource>): string {
    Accumulate("", ", ", Names(resources))
  }

  /** The line a resource with an error adds to the error text: its name, a space, the error in double quotes. */
  function ErrorEntry(resource: Resource): string
    requires resource.error.Some?
  {
    resource.instanceName + " \"" + resource.error.value + "\""
  }

  /** The error text after one more resource: its line appended, after "\r\n" when the text is non-empty, if it has an error. */
  function AddError(error: string, resource: Resource): string {
    if resource.error.Some? then Append(error, "\r\n", ErrorEntry(resource)) else error
  }

  /** The error text: the base error, then the line of each resource that has an error. */
  function ErrorText(base: string, resources: seq<Resource>): string {
    if resources == [] then base
    else AddError(ErrorText(base, resources[..|resources| - 1]), resources[|resources| - 1])
  }

  predicate NoErrors(resources: seq<Resource>) {
    forall i :: 0 <= i < |resources| ==> resources[i].error.None?
  }

  /** The error lines of the resources that carry an error, in order. */
  function ErrorEntries(resources: seq<Resource>): (r: seq<string>)
    ensures NoneEmpty(r) && |r| <= |resources|
    ensures r == [] <==> NoErrors(resources)
  {
    if resources == [] then []
    else
      var init, last := resources[..|resources| - 1], resources[|resources| - 1];
      assert forall i :: 0 <= i < |init| ==> init[i] == resources[i];
      if last.error.Some? then ErrorEntries(init) + [ErrorEntry(last)] else ErrorEntries(init)
  }

  /** The status of a report: its own, or "InProgress" when it has none. */
  function ReportStatus(report: DscReport): string {
    report.status.GetOr("InProgress")
  }

  /** The resources in the desired state are fewer than the resources the run counted. */
  predicate MissingResources(data: StatusData) {
    data.resourcesInDesiredState.Some? && |data.resourcesInDesiredState.value| < data.numberOfResources
  }

  /** The record a Log object holds once constructed from `report` and `data`. */
  function Build(now: string, report: Option<DscReport>, data: Option<StatusData>): LogRecord {
    if report.None? then Initial(now)
    else
      var r := report.value;
      if data.None? then
        LogRecord(r.endTime, Some(r.jobId), Some(r.operationType), Some(r.refreshMode), Some(ReportStatus(r)),
                  r.rebootRequested, true, 0, 0, "", "", "", None)
      else
        var d := data.value;
        LogRecord(r.endTime, Some(r.jobId), Some(r.operationType), Some(r.refreshMode), Some(ReportStatus(r)),
                  r.rebootRequested, !MissingResources(d), d.durationInSeconds, d.numberOfResources,
                  NameList(d.resourcesInDesiredState.GetOr([])), NameList(d.resourcesNotInDesiredState.GetOr([])),
                  ErrorText(d.error.GetOr(""), d.resourcesNotInDesiredState.GetOr([])), Some(d.hostname))
  }

  // ---------------------------------------------------------------------------
  // The line Flush writes.

  datatype Entry = Entry(fileName: string, line: string)

  function FileName(today: string): string {
    "DSCReports_" + today + ".log"
  }

  /** A missing (null) text renders as the empty string. */
  function Rendered(s: Option<string>): string {
    s.GetOr("")
  }

  /**
   * The log line of a record at a level: the timestamp text, the level's
   * name, then each field as " Key=value" in a fixed order, the two
   * resource lists and the error between single quotes, nothing escaped.
   */
  function Line(rec: LogRecord, level: Level): string {
    rec.timestamp + Name(level)
    + (" Hostname=" + Rendered(rec.hostname) + " OperationType=" + Rendered(rec.operationType)
       + " Status=" + Rendered(rec.status) + " RefreshMode=" + Rendered(rec.refreshMode)
       + " Compliant=" + BoolToString(rec.compliant))
    + (" RebootRequested=" + BoolToString(rec.rebootRequested)
       + " DurationInSeconds=" + IntToString(rec.durationInSeconds)
       + " NumberOfResources=" + IntToString(rec.numberOfResources) + " JobId=" + Rendered(rec.jobId))
    + (" ResourcesInDesiredState='" + rec.resourcesInDesiredState + "'"
       + " ResourcesNotInDesiredState='" + rec.resourcesNotInDesiredState + "'")
    + (" Error='" + rec.error + "'")
  }

  /** What flushing `rec` produces: the file name and the line, or nothing. */
  function Emit(rec: LogRecord, setting: Option<string>, folderExists: bool, today: string): Option<Entry> {
    var level := Severity(rec.status);
    if folderExists && Rank(level) <= ConfigLevel(setting) then Some(Entry(FileName(today), Line(rec, level)))
    else None
  }

  // ---------------------------------------------------------------------------

  class Log {
    var timestamp: string
    var jobId: Option<string>
    var operationType: Option<string>
    var refreshMode: Option<string>
    var status: Option<string>
    var rebootRequested: bool
    var compliant: bool
    var durationInSeconds: int
    var numberOfResources: int
    var resourcesInDesiredState: string
    var resourcesNotInDesiredState: string
    var error: string
    var hostname: Option<string>

    /** The fields' values as one record. */
    ghost function Record(): LogRecord
      reads this
    {
      LogRecord(timestamp, jobId, operationType, refreshMode, status, rebootRequested, compliant,
                durationInSeconds, numberOfResources, resourcesInDesiredState,
                resourcesNotInDesiredState, error, hostname)
    }

    constructor (now: string, dscReport: Option<DscReport>, statusData: Option<StatusData>)
      ensures Record() == Build(now, dscReport, statusData)
    {
      // The fields' initial values, held in locals while the object is built.
      var timestamp, jobId, operationType, refreshMode, status := now, None, None, None, None;
      var rebootRequested, compliant := false, true;
      var durationInSeconds, numberOfResources := 0, 0;
      var resourcesInDesiredState, resourcesNotInDesiredState, error := "", "", "";
      var hostname := None;

      if dscReport.Some? {
        var report := dscReport.value;
        if report.status.None? {
          status := Some("InProgress");
        } else {
          status := Some(report.status.value);
        }
        jobId := Some(report.jobId);
        operationType := Some(report.operationType);
        refreshMode := Some(report.refreshMode);
        rebootRequested := report.rebootRequested;
        timestamp := report.endTime;

        if statusData.Some? {
          var data := statusData.value;
          durationInSeconds := data.durationInSeconds;
          numberOfResources := data.numberOfResources;
          hostname := Some(data.hostname);
          if data.error.Some? {
            error := data.error.value;
          }

          if data.resourcesInDesiredState.Some? {
            var resources := data.resourcesInDesiredState.value;
            for i := 0 to |resources|
              invariant resourcesInDesiredState == NameList(resources[..i])
            {
              assert Names(resources[..i + 1])[..i] == Names(resources[..i]);
              if resourcesInDesiredState != "" {
                resourcesInDesiredState := resourcesInDesiredState + ", ";
              }
              resourcesInDesiredState := resourcesInDesiredState + resources[i].instanceName;
            }
            assert resources[..|resources|] == resources;
            if |resources| < numberOfResources {
              compliant := false;
            }
          }

          if data.resourcesNotInDesiredState.Some? {
            var resources := data.resourcesNotInDesiredState.value;
            ghost var base := error;
            for i := 0 to |resources|
              invariant resourcesNotInDesiredState == NameList(resources[..i])
              invariant error == ErrorText(base, resources[..i])
            {
              assert resources[..i + 1][..i] == resources[..i];
              assert Names(resources[..i + 1])[..i] == Names(resources[..i]);
              if resourcesNotInDesiredState != "" {
                resourcesNotInDesiredState := resourcesNotInDesiredState + ", ";
              }
              resourcesNotInDesiredState := resourcesNotInDesiredState + resources[i].instanceName;
              if resources[i].error.Some? {
                if error != "" {
                  error := error + "\r\n";
                }
                error := error + (resources[i].instanceName + " \"" + resources[i].error.value + "\"");
              }
            }
            assert resources[..|resources|] == resources;
          }
        }
      }

      this.timestamp, this.jobId, this.operationType, this.refreshMode := timestamp, jobId, operationType, refreshMode;
      this.status, this.rebootRequested, this.compliant := status, rebootRequested, compliant;
      this.durationInSeconds, this.numberOfResources := durationInSeconds, numberOfResources;
      this.resourcesInDesiredState, this.resourcesNotInDesiredState := resourcesInDesiredState, resourcesNotInDesiredState;
      this.error, this.hostname := error, hostname;
    }

    /**
     * The line this record would append to today's log file, and that
     * file's name; None when the folder is missing or the record's level is
     * below the configured one.
     */
    method Flush(setting: Option<string>, folderExists: bool, today: string) returns (entry: Option<Entry>)
      ensures entry.Some? <==> folderExists && Rank(Severity(status)) <= ConfigLevel(setting)
      ensures entry == Emit(Record(), setting, folderExists, today)
    {
      var configLogLevel := Rank(Info);
      var logLevel := Rank(Info);

      if setting.Some? {
        var parsed := ParseName(ToUpper(setting.value));
        if parsed.Some? {
          configLogLevel := Rank(parsed.value);
        }
      }

      if status == Some("InProgress") {
        logLevel := Rank(Verbose);
      } else if status == Some("Failed") {
        logLevel := Rank(Error);
      }

      assert configLogLevel == ConfigLevel(setting);
      assert logLevel == Rank(Severity(status));
      if folderExists && logLevel <= configLogLevel {
        var fileName := "DSCReports_" + today + ".log";

        var logLine := "";
        logLine := logLine + timestamp;
        assert logLine == timestamp;
        logLine := logLine + Rendered(NameAt(logLevel));
        logLine := logLine + (" Hostname=" + Rendered(hostname) + " OperationType=" + Rendered(operationType)
                   + " Status=" + Rendered(status) + " RefreshMode=" + Rendered(refreshMode)
                   + " Compliant=" + BoolToString(compliant));
        logLine := logLine + (" RebootRequested=" + BoolToString(rebootRequested)
                   + " DurationInSeconds=" + IntToString(durationInSeconds)
                   + " NumberOfResources=" + IntToString(numberOfResources) + " JobId=" + Rendered(jobId));
        logLine := logLine + (" ResourcesInDesiredState='" + resourcesInDesiredState + "'"
                   + " ResourcesNotInDesiredState='" + resourcesNotInDesiredState + "'");
        logLine := logLine + (" Error='" + error + "'");

        entry := Some(Entry(fileName, logLine));
      } else {
        entry := None;
      }
    }
  }

}
