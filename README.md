# UndisReportCollector log record, in Dafny

This project models the class `Log` of the UndisReportCollector service. A
`Log` object turns one DSC (Desired State Configuration) report, and the
optional status data that comes with it, into a single log line. The line is
appended to a daily log file.

- The constructor copies the report's fields and sets the status to
  `"InProgress"` when the report has none. It joins the names of the
  resources in and not in the desired state with `", "`. It clears the
  compliance flag when fewer resources are in the desired state than the run
  counted. It builds an error text from the status data's error and the
  per-resource errors, separated by `"\r\n"`.
- `Flush` derives a level from the status: VERBOSE for `"InProgress"`,
  ERROR for `"Failed"`, INFO otherwise. It parses the configured minimum
  level, upper-cased, and falls back to INFO. When the logs folder exists
  and the record's level is within the configured one, it builds the line
  and the file name `DSCReports_<date>.log`.

Files:

- `wrappers.dfy`: `Option`, which stands for the references the code
  null-checks.
- `text.dfy`: the string pieces. These are appending with a separator only
  after a non-empty text, the reference join that this is compared with,
  ASCII upper-casing, and decimal and boolean rendering.
- `log.dfy`: the input records (`DscReport`, `StatusData`, `Resource`), the
  level enum, the class `Log` with its constructor and `Flush`, and the pure
  functions that specify them. `Build` gives the record the constructor
  leaves in the fields. `Emit` gives what `Flush` returns.
- `log_properties.dfy`: lemmas about `Build` and `Emit`.

The ambient inputs are parameters:

- the `UndisLogLevel` setting is `setting: Option<string>`;
- `Directory.Exists(LogsFolder)` is `folderExists`;
- `DateTime.Now`, already formatted, is `now` (for the field initialiser) and
  `today` (for the file name);
- the report's `EndTime`, already formatted as the line's timestamp text, is
  `DscReport.endTime`.

`Flush` returns the file name and the line it would append, or `None` when
it writes nothing. `Entry.line` is the text of the line without the line
terminator that `WriteLine` adds after it (Log.cs:157).

Behaviour taken from the code:

- The error separator is `"\r\n"` (Log.cs:98).
- A null report still gives an object. Its fields keep their initial
  values, including a null status, and `Flush` then logs it at INFO
  (Log.cs:13-25, 35, 125-133).
- The level enum starts with `UNDIFINED = 0` (Log.cs:26). A setting of
  `"undifined"` therefore suppresses every line.
- The status is copied without any check on its value (Log.cs:44).
- Compliance looks only at the length of the list of resources in the
  desired state (Log.cs:77-80).

## Model

| member | source | states |
|---|---|---|
| ReportLog.Log.constructor | UndisReportCollector/Log.cs:33-107 | the object's fields afterwards are exactly `Build(now, dscReport, statusData)`. Its two loops keep the invariant that the list text is the names so far, appended with ", " only after a non-empty text, and that the error text is the base error followed by the lines of the resources so far |
| ReportLog.Log.Flush | UndisReportCollector/Log.cs:112-150 | returns an entry iff the folder exists and the status's level rank is at most the configured level; the entry is `Emit` of the object's record: file name `DSCReports_<today>.log`, line = timestamp, level name, then the twelve fields in the source's order |
| ReportLog.ParseName | UndisReportCollector/Log.cs:26 | a string parses to a level exactly when it is that level's name, case-sensitively (Enum.IsDefined and Enum.Parse); otherwise no level has that name |
| ReportLog.NameAt | UndisReportCollector/Log.cs:145 | the name of the level whose value is the given integer, none outside 0..5 (Enum.GetName) |
| ReportLog.ConfigLevel | UndisReportCollector/Log.cs:114-123 | INFO (4) when the setting is absent, the level named by the upper-cased setting when there is one (UNDIFINED = 0 included), INFO otherwise; parsing never fails |
| ReportLog.ErrorEntries | UndisReportCollector/Log.cs:94-102 | every error line is non-empty, and there are none exactly when no resource carries an error |
| LogProperties.ReportFieldsCopied | UndisReportCollector/Log.cs:35-52 | with a report, the status is "InProgress" when the report has none and the report's own status otherwise; job id, operation type, refresh mode, reboot flag and end time are copied unconditionally |
| LogProperties.NoReportKeepsDefaults | UndisReportCollector/Log.cs:13-25 | without a report every field keeps its initial value (status null), whatever the status data |
| LogProperties.NoStatusDataKeepsDetailDefaults | UndisReportCollector/Log.cs:19-25 | without status data: duration 0, resource count 0, both lists "", error "", hostname null, compliant |
| LogProperties.CompliantUnlessResourcesMissing | UndisReportCollector/Log.cs:66-81 | compliant is false iff report and status data are present, the in-desired-state list is present and its length is strictly less than the resource count |
| LogProperties.ComplianceIgnoresNotInDesiredState | UndisReportCollector/Log.cs:77-81 | replacing the not-in-desired-state list by anything never changes compliant |
| LogProperties.NameListIsJoin | UndisReportCollector/Log.cs:66-76 | the list text is the names joined by ", " once leading empty names are dropped; when no name is empty it is exactly their join, with no leading or trailing separator |
| LogProperties.ErrorTextAccumulates | UndisReportCollector/Log.cs:85-103 | the error text is the base error with each resource's error line appended in order, using the separator "\r\n" |
| LogProperties.ErrorTextIsJoin | UndisReportCollector/Log.cs:61-102 | the error text is the base error (if non-empty) followed by one `name "error"` line per resource with an error, in order, joined by "\r\n" |
| LogProperties.ErrorTextUnchanged | UndisReportCollector/Log.cs:94-102 | the error text equals the base error iff no resource carries an error (resources with a null error leave it unchanged) |
| LogProperties.ResourceListExample | UndisReportCollector/Log.cs:68-76 | resources A and B are listed as "A, B" |
| LogProperties.ErrorTextExample | UndisReportCollector/Log.cs:96-101 | base error "base" and resource X with error "bad" give `base\r\nX "bad"` |
| LogProperties.EmitGate | UndisReportCollector/Log.cs:135-138 | a line is produced iff the folder exists and the status's level rank is at most the configured level, and it goes to `DSCReports_<today>.log` |
| LogProperties.LevelThreshold | UndisReportCollector/Log.cs:125-135 | which configured levels let which statuses through: VERBOSE all, INFO all but "InProgress", WARN and ERROR only "Failed", CRITICAL and UNDIFINED none |
| LogProperties.DefaultLevelGate | UndisReportCollector/Log.cs:114-135 | with no level configured, a line is produced iff the folder exists and the status is not "InProgress" |
| LogProperties.UndifinedSuppressesAll | UndisReportCollector/Log.cs:119-121 | the setting "undifined" parses to 0 and no record is ever written |
| LogProperties.UnknownSettingIsInfo | UndisReportCollector/Log.cs:117-123 | the setting "debug" falls back to INFO (the general fallback is the third clause of ConfigLevel's contract) |
| LogProperties.SeverityRanks | UndisReportCollector/Log.cs:115-133 | the record's level is VERBOSE (5) for status "InProgress", ERROR (2) for "Failed", and INFO (4) for every other status and for a null one; the match is case-sensitive ("failed" gives INFO) |
| LogProperties.NoReportFlushedAtInfo | UndisReportCollector/Log.cs:125-135 | a record built without a report is gated and written at INFO, with the line of the initial record |
| LogProperties.FileNameDeterminesDate | UndisReportCollector/Log.cs:138 | two flushes use the same file iff they happen on the same date text |
| LogProperties.LineFraming | UndisReportCollector/Log.cs:142-150 | the line starts with the timestamp text and the level name, and ends with ` Error='<error>'` with the error unescaped |
| Text.AccumulateIsJoin | UndisReportCollector/Log.cs:70-75 | appending items one by one with a separator only after a non-empty text equals the reference join: from "" of the items without their leading empty ones, from a non-empty start of the start followed by the items |
| Text.AccumulateUnchanged | UndisReportCollector/Log.cs:96-101 | appending non-empty items leaves the text unchanged iff there are none |
| Text.IntToStringRoundTrip | UndisReportCollector/Log.cs:148 | the decimal rendering of an integer used for the duration and resource count reads back as that integer |

## Left out

- The `ConfigurationManager.AppSettings` lookups (Log.cs:31, 117-121) are
  configuration I/O. The level setting is a parameter. The `LogsFolder`
  path is not modelled; only whether it exists is.
- `Directory.Exists`, `Path.Combine` and the `StreamWriter` append with its
  swallowed exception (Log.cs:135, 139, 152-164) are file system effects.
  `Flush` returns the file name and line that would be appended. Write
  failures are not modelled because the code discards them.
- `DateTime.Now` and the `ToString("yyyy-MM-dd HH:mm:ss ")` and
  `ToString("yyyyMMdd")` formatting (Log.cs:13, 52, 138, 143) depend on the
  clock and the culture. They are opaque, already formatted strings.
- ReportLog.ConfigLevel: upper-casing is the ASCII rule that maps a-z to
  A-Z and leaves every other character unchanged. .NET's `ToUpper` also maps
  some non-ASCII letters to ASCII ones (dotless ı to I, long ſ to S), and a
  culture such as Turkish maps i differently. A setting such as "crıtıcal"
  therefore selects CRITICAL in the code but INFO in the model.
- ReportLog.Log.Flush: booleans render as "True"/"False" and integers as
  invariant-culture decimals with a leading "-". This assumes the .NET
  defaults, not a culture-specific rendering.
- ReportLog.Log.constructor: the field values are computed in local
  variables and assigned to the fields once at the end, instead of each
  field being updated in place. Nothing can observe the object while it is
  being built, so the final state is the same.
- The classes `DSCReport`, `StatusData` and `Resource` are not part of this
  model. Only the fields the code reads are modelled. Strings the code never
  null-checks (job id, host name, instance name and others) are plain
  strings: in the code's concatenations a null one renders like "".
- A null element inside a resource array makes the code throw a
  NullReferenceException. That case is not modelled.
- 32-bit integers: the duration and resource count are only copied and
  compared, never computed with, so no wrap-around can happen. Unbounded
  integers give the same results.
