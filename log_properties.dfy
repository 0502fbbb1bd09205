/**
 * What the constructor and Flush of the collector's Log promise, stated
 * over the record the constructor builds (Build) and what flushing it
 * produces (Emit).
 */
module LogProperties {

  import opened Wrappers
  import opened Text
  import opened ReportLog

  // ---------------------------------------------------------------------------
  // Record building

  /** With a report, the status defaults to "InProgress" and the report's fields are copied as they are. */
  lemma ReportFieldsCopied(now: string, report: DscReport, data: Option<StatusData>)
    ensures var rec := Build(now, Some(report), data);
      && rec.status == (if report.status.None? then Some("InProgress") else report.status)
      && rec.jobId == Some(report.jobId)
      && rec.operationType == Some(report.operationType)
      && rec.refreshMode == Some(report.refreshMode)
      && rec.rebootRequested == report.rebootRequested
      && rec.timestamp == report.endTime
  {
  }

  /** Without a report every field keeps its initial value, whatever the status data. */
  lemma NoReportKeepsDefaults(now: string, data: Option<StatusData>)
    ensures Build(now, None, data) == Initial(now)
    ensures Build(now, None, data).status.None?
  {
  }

  /** Without status data the detail fields keep their initial values. */
  lemma NoStatusDataKeepsDetailDefaults(now: string, report: DscReport)
    ensures var rec := Build(now, Some(report), None);
      && rec.durationInSeconds == 0 && rec.numberOfResources == 0
      && rec.resourcesInDesiredState == "" && rec.resourcesNotInDesiredState == ""
      && rec.error == "" && rec.hostname.None? && rec.compliant
  {
  }

  /**
   * The record is non-compliant exactly when there is a report and status
   * data whose list of resources in the desired state is present and
   * shorter than its resource count.
   */
  lemma CompliantUnlessResourcesMissing(now: string, report: Option<DscReport>, data: Option<StatusData>)
    ensures !Build(now, report, data).compliant <==>
      report.Some? && data.Some? && data.value.resourcesInDesiredState.Some?
      && |data.value.resourcesInDesiredState.value| < data.value.numberOfResources
  {
  }

  /** The resources not in the desired state never affect compliance. */
  lemma ComplianceIgnoresNotInDesiredState(
    now: string, report: Option<DscReport>, data: StatusData, others: Option<seq<Resource>>)
    ensures Build(now, report, Some(data)).compliant ==
            Build(now, report, Some(data.(resourcesNotInDesiredState := others))).compliant
  {
  }

  /**
   * A resource list is the names joined by ", ", leading empty names
   * dropped; when no name is empty, it is exactly the join, with no
   * separator before the first name or after the last.
   */
  lemma NameListIsJoin(resources: seq<Resource>)
    ensures NameList(resources) == Join(", ", DropLeadingEmpty(Names(resources)))
    ensures NoneEmpty(Names(resources)) ==> NameList(resources) == Join(", ", Names(resources))
  {
    AccumulateIsJoin("", ", ", Names(resources));
  }

  /** The error text is the base error followed by the error lines, appended one by one. */
  lemma {:induction false} ErrorTextAccumulates(base: string, resources: seq<Resource>)
    ensures ErrorText(base, resources) == Accumulate(base, "\r\n", ErrorEntries(resources))
  {
    if resources != [] {
      var init, last := resources[..|resources| - 1], resources[|resources| - 1];
      ErrorTextAccumulates(base, init);
      if last.error.Some? {
        var entries := ErrorEntries(init) + [ErrorEntry(last)];
        assert entries[..|entries| - 1] == ErrorEntries(init);
      }
    }
  }

  /**
   * The error text is the base error (when non-empty) and one line
   * `name "error"` per resource that has an error, in order, joined by
   * "\r\n".
   */
  lemma ErrorTextIsJoin(base: string, resources: seq<Resource>)
    ensures ErrorText(base, resources) ==
              Join("\r\n", (if base == "" then [] else [base]) + ErrorEntries(resources))
  {
    var entries := ErrorEntries(resources);
    ErrorTextAccumulates(base, resources);
    AccumulateIsJoin(base, "\r\n", entries);
    assert DropLeadingEmpty(entries) == entries;
    if base == "" {
      assert [] + entries == entries;
    }
  }

  /** The error text is left as it is exactly when no resource has an error. */
  lemma ErrorTextUnchanged(base: string, resources: seq<Resource>)
    ensures ErrorText(base, resources) == base <==> NoErrors(resources)
  {
    ErrorTextAccumulates(base, resources);
    AccumulateUnchanged(base, "\r\n", ErrorEntries(resources));
  }

  /** Two resources in the desired state named A and B are listed as "A, B". */
  lemma ResourceListExample()
    ensures NameList([Resource("A", None), Resource("B", None)]) == "A, B"
  {
    var names := Names([Resource("A", None), Resource("B", None)]);
    assert names == ["A", "B"];
    assert names[..1] == ["A"];
    assert names[..1][..0] == [];
    assert Accumulate("", ", ", ["A"]) == "A";
    assert Accumulate("", ", ", names) == Append("A", ", ", "B");
  }

  /** A base error "base" and one failing resource X with error "bad" give "base\r\nX \"bad\"". */
  lemma ErrorTextExample()
    ensures ErrorText("base", [Resource("X", Some("bad"))]) == "base\r\nX \"bad\""
  {
    assert [Resource("X", Some("bad"))][..0] == [];
  }

  // ---------------------------------------------------------------------------
  // Flush

  /** Flushing writes a line exactly when the folder exists and the record's level is within the configured one. */
  lemma EmitGate(rec: LogRecord, setting: Option<string>, folderExists: bool, today: string)
    ensures Emit(rec, setting, folderExists, today).Some? <==>
              folderExists && Rank(Severity(rec.status)) <= ConfigLevel(setting)
    ensures Emit(rec, setting, folderExists, today).Some? ==>
              Emit(rec, setting, folderExists, today).value.fileName == FileName(today)
  {
  }

  /** Which statuses each configured level lets through. */
  lemma LevelThreshold(status: Option<string>, configured: Level)
    ensures Rank(Severity(status)) <= Rank(configured) <==>
      || configured == Verbose
      || (configured == Info && status != Some("InProgress"))
      || ((configured == Warn || configured == Error) && status == Some("Failed"))
  {
  }

  /** With no level configured, everything but in-progress records is written when the folder exists. */
  lemma DefaultLevelGate(rec: LogRecord, folderExists: bool, today: string)
    ensures Emit(rec, None, folderExists, today).Some? <==> folderExists && rec.status != Some("InProgress")
  {
  }

  /** A configured level of "undifined" parses to UNDIFINED = 0 and suppresses every line. */
  lemma UndifinedSuppressesAll(rec: LogRecord, folderExists: bool, today: string)
    ensures ConfigLevel(Some("undifined")) == 0
    ensures Emit(rec, Some("undifined"), folderExists, today).None?
  {
    assert ToUpper("undifined") == "UNDIFINED";
  }

  /** The setting "debug", which names no level, falls back to INFO. */
  lemma UnknownSettingIsInfo()
    ensures ConfigLevel(Some("debug")) == Rank(Info)
  {
    assert ToUpper("debug") == "DEBUG";
  }

  /**
   * The level of a record by its status: VERBOSE (5) for "InProgress",
   * ERROR (2) for "Failed", INFO (4) for any other status and for none;
   * the match is case-sensitive.
   */
  lemma SeverityRanks(status: Option<string>)
    ensures status == Some("InProgress") ==> Rank(Severity(status)) == 5
    ensures status == Some("Failed") ==> Rank(Severity(status)) == 2
    ensures status != Some("InProgress") && status != Some("Failed") ==> Rank(Severity(status)) == 4
    ensures Rank(Severity(None)) == 4 && Rank(Severity(Some("failed"))) == 4
  {
  }

  /** A record built without a report has no status, so it is flushed at INFO. */
  lemma NoReportFlushedAtInfo(now: string, data: Option<StatusData>, setting: Option<string>, folderExists: bool, today: string)
    ensures var entry := Emit(Build(now, None, data), setting, folderExists, today);
      && (entry.Some? <==> folderExists && Rank(Info) <= ConfigLevel(setting))
      && (entry.Some? ==> entry.value.line == Line(Initial(now), Info))
  {
  }

  /** The daily file name tells its date apart: two flushes share a file exactly when they share a date. */
  lemma FileNameDeterminesDate(today: string, other: string)
    ensures FileName(today) == FileName(other) <==> today == other
  {
    if FileName(today) == FileName(other) {
      assert |today| == |other|;
      assert today == FileName(today)[11..|FileName(today)| - 4];
      assert other == FileName(other)[11..|FileName(other)| - 4];
    }
  }

  /** The line starts with the timestamp text and the level name, and ends with the error, verbatim, in single quotes. */
  lemma LineFraming(rec: LogRecord, level: Level)
    ensures rec.timestamp + Name(level) <= Line(rec, level)
    ensures var tail := " Error='" + rec.error + "'";
      |tail| <= |Line(rec, level)| && Line(rec, level)[|Line(rec, level)| - |tail|..] == tail
  {
    var head := rec.timestamp + Name(level);
    var tail := " Error='" + rec.error + "'";
    var line := Line(rec, level);
    var middle := line[|head|..|line| - |tail|];
    assert line == head + line[|head|..];
  }
}
