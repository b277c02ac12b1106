/** The logger's test cases, each restated on an in-memory
    disk; each method's postcondition is what the test asserts. `["tmp"]`
    plays the test's temporary directory. */
module Scenarios {
  import opened Options
  import opened Decimal
  import opened Storage
  import opened Versioning
  import opened Records
  import opened FlushPolicy
  import opened ExperimentWriters
  import opened CsvLoggers

  const Tmp: Path := ["tmp"]

  /** `version_0` and `version_1` exist under `tmp/exp`: the next run is version 2. */
  method AutomaticVersioning() returns (v: Version)
    ensures v == Number(2)
  {
    var disk := Disk({[], Tmp, Tmp + ["exp"], Tmp + ["exp", "version_0"], Tmp + ["exp", "version_1"]}, map[]);
    var logger := new CSVLogger(disk, Tmp, Some("exp"), None, DefaultFlushEvery);
    var entries := SubDirs(disk, Tmp + ["exp"]);
    assert IsChild(Tmp + ["exp", "version_0"], Tmp + ["exp"]);
    assert IsChild(Tmp + ["exp", "version_1"], Tmp + ["exp"]);
    assert entries == {"version_0", "version_1"};
    FolderRoundTrip(0);
    FolderRoundTrip(1);
    assert Folder(Number(0)) == "version_0" && Folder(Number(1)) == "version_1";
    v := logger.version;
  }

  /** The same with a relative root `exp` and name `logs`: paths are
      resolved against the top of the in-memory disk, which stands for the
      working directory. */
  method RelativeRootVersioning() returns (v: Version)
    ensures v == Number(2)
  {
    var exp: Path := ["exp"];
    var logs := exp + ["logs"];
    var disk := Disk({[], exp, logs, logs + ["version_0"], logs + ["version_1"]}, map[]);
    var logger := new CSVLogger(disk, exp, Some("logs"), None, DefaultFlushEvery);
    var entries := SubDirs(disk, logs);
    assert IsChild(logs + ["version_0"], logs);
    assert IsChild(logs + ["version_1"], logs);
    assert entries == {"version_0", "version_1"};
    FolderRoundTrip(0);
    FolderRoundTrip(1);
    assert Folder(Number(0)) == "version_0" && Folder(Number(1)) == "version_1";
    v := logger.version;
  }

  /** An explicit version is used even when higher ones exist. */
  method ManualVersioning() returns (v: Version)
    ensures v == Number(1)
  {
    var root := Tmp + ["exp"];
    var disk := Disk({[], Tmp, root, root + ["version_0"], root + ["version_1"], root + ["version_2"]}, map[]);
    var logger := new CSVLogger(disk, root, Some("exp"), Some(Number(1)), DefaultFlushEvery);
    v := logger.version;
  }

  /** A string version names the only folder under `tmp/exp`, and that
      folder holds the metrics file after a save. */
  method NamedVersion() returns (v: Version, experimentListing: set<string>, logListing: set<string>)
    ensures v == Named("2020-02-05-162402")
    ensures experimentListing == {"2020-02-05-162402"}
    ensures logListing == {MetricsFileName}
  {
    var exp := Tmp + ["exp"];
    var logger := SavedWithNamedVersion();
    v := logger.version;
    var dir := logger.LogDirectory();
    DiskAfterSave(logger, exp, {});
    DiskAfterSave(logger, dir, {MetricsFileName});
    experimentListing := ListDir(logger.CurrentDisk(), exp);
    logListing := ListDir(logger.CurrentDisk(), dir);
  }

  /** The logger of the named-version case after one record and a save. */
  method SavedWithNamedVersion() returns (logger: CSVLogger)
    ensures logger.Valid() && logger.experiment.fileExists
    ensures logger.disk == Disk({[], Tmp, Tmp + ["exp"]}, map[]) && logger.rootDir == Tmp
    ensures logger.version == Named("2020-02-05-162402")
    ensures logger.LogDirectory() == Tmp + ["exp", "2020-02-05-162402"]
  {
    var disk := Disk({[], Tmp, Tmp + ["exp"]}, map[]);
    logger := new CSVLogger(disk, Tmp, Some("exp"), Some(Named("2020-02-05-162402")), DefaultFlushEvery);
    logger.LogMetrics(map["a" := IntVal(1), "b" := IntVal(2)], None);
    logger.Save();
  }

  /** With an empty or absent name the log directory is `tmp/version_0`,
      the root stays `tmp`, and the directory holds the metrics file after
      a save. */
  method NoName(name: Option<string>) returns (root: Path, logDir: Path, logListing: set<string>)
    requires name == None || name == Some("")
    ensures root == Tmp
    ensures logDir == Tmp + ["version_0"]
    ensures logListing == {MetricsFileName}
  {
    var logger := SavedWithoutName(name);
    root := logger.rootDir;
    logDir := logger.LogDirectory();
    DiskAfterSave(logger, logDir, {MetricsFileName});
    logListing := ListDir(logger.CurrentDisk(), logDir);
  }

  /** A logger without a name on an empty `tmp`, after one record and a save. */
  method SavedWithoutName(name: Option<string>) returns (logger: CSVLogger)
    requires name == None || name == Some("")
    ensures logger.Valid() && logger.experiment.fileExists
    ensures logger.disk == Disk({[], Tmp}, map[]) && logger.rootDir == Tmp
    ensures logger.LogDirectory() == Tmp + ["version_0"]
  {
    var disk := Disk({[], Tmp}, map[]);
    logger := new CSVLogger(disk, Tmp, name, None, DefaultFlushEvery);
    assert SubDirs(disk, Tmp) == {};
    assert logger.version == Number(0);
    assert logger.LogDirectory() == Tmp + [Folder(Number(0))];
    assert Folder(Number(0)) == "version_0";
    logger.LogMetrics(map["a" := IntVal(1)], None);
    logger.Save();
  }

  /** One record, explicit step or not, then a save: the file has two
      lines, and its header names every metric and the step. */
  method LogMetricsOnce(step: Option<int>) returns (lines: nat, header: set<string>)
    ensures lines == 2
    ensures {"float", "int", "FloatTensor", "IntTensor", StepKey} <= header
  {
    var logger := new CSVLogger(Disk({[], Tmp}, map[]), Tmp, Some(DefaultName), None, DefaultFlushEvery);
    var metrics := map["float" := IntVal(0), "int" := IntVal(1), "FloatTensor" := IntVal(0), "IntTensor" := IntVal(1)];
    ghost var before := logger.experiment.State();
    logger.LogMetrics(metrics, step);
    ghost var st := logger.experiment.State();
    logger.Save();
    OneRecordSaved(metrics, StepFor(step, 0), before, st, logger.experiment.State());
    lines := LineCount(logger.experiment.Table());
    header := ReadCsv(logger.experiment.Table()).0;
  }

  /** One record logged on a fresh writer, saved by the logger on its own
      or not, then saved explicitly: one row, and every key in the header. */
  lemma OneRecordSaved(m: Record, step: int, before: WriterState, st: WriterState, after: WriterState)
    requires before == Fresh()
    requires Saved(Logged(before, m, Some(step)), st) || st == Logged(before, m, Some(step))
    requires Saved(st, after)
    ensures LineCount(TableOf(after)) == 2
    ensures m.Keys + {StepKey} <= Elems(after.header)
  {
    var logged := Logged(before, m, Some(step));
    assert logged.buffer[0] == WithStep(m, step);
    if st == logged {
      SaveAppendsBuffer(logged, after);
    } else {
      SaveAppendsBuffer(logged, st);
    }
  }

  /** Logging hyperparameters fails, always. */
  method LogHyperparamsFails() returns (r: Outcome<LoggerError>)
    ensures r.Fail?
  {
    var logger := new CSVLogger(Disk({[], Tmp}, map[]), Tmp, Some(DefaultName), None, DefaultFlushEvery);
    r := logger.LogHyperparams(map[]);
  }

  /** With N = 2, no save after the first record, exactly one after the second. */
  method FlushNSteps() returns (savesAfterFirst: nat, savesAfterSecond: nat)
    ensures savesAfterFirst == 0 && savesAfterSecond == 1
  {
    var logger := new CSVLogger(Disk({[], Tmp}, map[]), Tmp, Some(DefaultName), None, 2);
    var metrics := map["float" := IntVal(0), "int" := IntVal(1), "FloatTensor" := IntVal(0), "IntTensor" := IntVal(1)];
    logger.LogMetrics(metrics, Some(0));
    savesAfterFirst := logger.saves;
    logger.LogMetrics(metrics, Some(1));
    savesAfterSecond := logger.saves;
  }

  /** The save follows the step value, not the number of calls: with N = 2
      a first record at step 5 is saved at once, and with N = 3 two
      stepless records, a save and a third stepless record leave that
      record buffered at step 0. */
  method FlushFollowsStep() returns (savesAtStepFive: nat, savesAfterRestart: nat, buffered: nat)
    ensures savesAtStepFive == 1
    ensures savesAfterRestart == 1 && buffered == 1
  {
    var first := new CSVLogger(Disk({[], Tmp}, map[]), Tmp, Some(DefaultName), None, 2);
    assert ShouldFlush(5, 2);
    first.LogMetrics(map["test" := IntVal(1)], Some(5));
    savesAtStepFive := first.saves;
    var second := new CSVLogger(Disk({[], Tmp}, map[]), Tmp, Some(DefaultName), None, 3);
    var _, _, _ := FirstAutoRecords(second, map["test" := IntVal(1)]);
    second.Save();
    assert !ShouldFlush(0, 3);
    LogBelowInterval(second, map["test" := IntVal(1)]);
    savesAfterRestart := second.saves;
    buffered := |second.experiment.metrics|;
  }

  /** With N = 2 the buffer holds the first record and is empty after the second. */
  method MetricsResetAfterSave() returns (bufferedAfterFirst: nat, bufferedAfterSecond: nat)
    ensures bufferedAfterFirst > 0 && bufferedAfterSecond == 0
  {
    var logger := new CSVLogger(Disk({[], Tmp}, map[]), Tmp, Some(DefaultName), None, 2);
    logger.LogMetrics(map["test" := IntVal(1)], Some(0));
    bufferedAfterFirst := |logger.experiment.metrics|;
    logger.LogMetrics(map["test" := IntVal(1)], Some(1));
    bufferedAfterSecond := |logger.experiment.metrics|;
  }

  /** Without steps and with N = 3, the records get steps 0, 1 and 2, and
      the save comes with the third, which reaches the file with step 2. */
  method AutomaticStepTracking() returns (first: Scalar, second: Scalar, saves: seq<nat>, thirdRowStep: string)
    ensures first == IntVal(0) && second == IntVal(1)
    ensures saves == [0, 0, 1]
    ensures thirdRowStep == "2"
  {
    var logger := new CSVLogger(Disk({[], Tmp}, map[]), Tmp, Some(DefaultName), None, 3);
    var metrics := map["test" := IntVal(0)];
    first, second, saves := FirstAutoRecords(logger, metrics);
    thirdRowStep := ThirdAutoRecord(logger, metrics);
    saves := saves + [logger.saves];
  }

  /** The first two records without a step on a fresh logger with N = 3:
      they get steps 0 and 1 and nothing is saved. */
  method FirstAutoRecords(logger: CSVLogger, metrics: Record) returns (first: Scalar, second: Scalar, saves: seq<nat>)
    requires logger.Valid() && logger.flushEvery == 3 && logger.saves == 0
    requires logger.experiment.metrics == [] && logger.experiment.rows == []
    modifies logger, logger.experiment
    ensures logger.Valid() && logger.flushEvery == 3 && logger.saves == 0
    ensures logger.experiment.rows == [] && |logger.experiment.metrics| == 2
    ensures first == IntVal(0) && second == IntVal(1) && saves == [0, 0]
  {
    LogBelowInterval(logger, metrics);
    first := logger.experiment.metrics[0][StepKey];
    saves := [logger.saves];
    LogBelowInterval(logger, metrics);
    second := logger.experiment.metrics[1][StepKey];
    saves := saves + [logger.saves];
  }

  /** A stepless record whose step does not complete the interval is only
      buffered. */
  method LogBelowInterval(logger: CSVLogger, metrics: Record)
    requires logger.Valid() && !ShouldFlush(|logger.experiment.metrics|, logger.flushEvery)
    modifies logger, logger.experiment
    ensures logger.Valid() && logger.saves == old(logger.saves)
    ensures logger.experiment.rows == old(logger.experiment.rows)
    ensures logger.experiment.metrics
         == old(logger.experiment.metrics) + [WithStep(metrics, |old(logger.experiment.metrics)|)]
  {
    logger.LogMetrics(metrics, None);
  }

  /** The third record without a step on a logger with N = 3 and two
      buffered records: it gets step 2 and triggers the save. */
  method ThirdAutoRecord(logger: CSVLogger, metrics: Record) returns (step: string)
    requires logger.Valid() && logger.flushEvery == 3
    requires logger.experiment.rows == [] && |logger.experiment.metrics| == 2
    modifies logger, logger.experiment
    ensures logger.saves == old(logger.saves) + 1
    ensures step == "2"
  {
    ghost var before := logger.experiment.State();
    assert ShouldFlush(2, 3);
    logger.LogMetrics(metrics, None);
    ThirdRowStep(before, metrics, logger.experiment.State());
    step := logger.experiment.rows[2][StepKey];
  }

  lemma ThirdRowStep(before: WriterState, metrics: Record, after: WriterState)
    requires before.rows == [] && |before.buffer| == 2
    requires Saved(Logged(before, metrics, Some(2)), after)
    ensures |after.rows| == 3 && StepKey in after.rows[2] && after.rows[2][StepKey] == "2"
  {
    var logged := Logged(before, metrics, Some(2));
    assert logged.buffer[2] == WithStep(metrics, 2);
    SaveAppendsBuffer(logged, after);
    assert after.rows[2][StepKey] == Render(IntVal(2));
  }

  /** Logs one record without a step on a logger with N = 1 and an empty
      buffer: it gets step 0 and is saved at once. */
  method LogAndFlush(logger: CSVLogger, metrics: Record)
    requires logger.Valid() && logger.flushEvery == 1 && logger.experiment.metrics == []
    modifies logger, logger.experiment
    ensures logger.Valid() && logger.experiment.metrics == [] && logger.experiment.fileExists
    ensures Elems(logger.experiment.metricsKeys)
         == Elems(old(logger.experiment.metricsKeys)) + metrics.Keys + {StepKey}
    ensures |logger.experiment.rows| == |old(logger.experiment.rows)| + 1
    ensures forall i :: 0 <= i < |old(logger.experiment.rows)| ==>
              logger.experiment.rows[i] == Pad(old(logger.experiment.rows)[i], logger.experiment.metricsKeys)
    ensures logger.experiment.rows[|old(logger.experiment.rows)|]
         == Pad(RenderRecord(WithStep(metrics, 0)), logger.experiment.metricsKeys)
  {
    ghost var before := logger.experiment.State();
    assert ShouldFlush(0, 1);
    logger.LogMetrics(metrics, None);
    ghost var logged := Logged(before, metrics, Some(0));
    SaveOne(logged, logger.experiment.State(), WithStep(metrics, 0));
  }

  /** A second logger with the same root, name and version picks up the
      file the first one left on the disk. */
  method Resume(logger: CSVLogger) returns (resumed: CSVLogger)
    requires logger.Valid() && MetricsFilesWellFormed(logger.disk) && logger.experiment.fileExists
    ensures fresh(resumed) && fresh(resumed.experiment)
    ensures resumed.Valid() && resumed.flushEvery == logger.flushEvery
    ensures resumed.experiment.State() == Reopened(logger.experiment.Table())
  {
    logger.CurrentDiskWellFormed();
    resumed := new CSVLogger(logger.CurrentDisk(), logger.rootDir, Some(logger.name), Some(logger.version),
                             logger.flushEvery);
    assert resumed.MetricsFile() == logger.MetricsFile();
  }

  /** The first logger of the restart scenario after its first record. */
  method FirstRecord() returns (logger: CSVLogger)
    ensures fresh(logger) && fresh(logger.experiment)
    ensures logger.Valid() && MetricsFilesWellFormed(logger.disk) && logger.flushEvery == 1
    ensures logger.experiment.metrics == [] && logger.experiment.fileExists
    ensures |logger.experiment.rows| == 1 && Elems(logger.experiment.metricsKeys) == {"a", "b", StepKey}
  {
    logger := new CSVLogger(Disk({[], Tmp}, map[]), Tmp, Some("test"), Some(Number(0)), 1);
    LogAndFlush(logger, map["a" := IntVal(1), "b" := IntVal(2)]);
  }

  /** The first logger of the restart scenario after its two records. */
  method FirstRun() returns (logger: CSVLogger)
    ensures logger.Valid() && MetricsFilesWellFormed(logger.disk) && logger.flushEvery == 1
    ensures logger.experiment.fileExists && |logger.experiment.rows| == 2
    ensures Elems(logger.experiment.metricsKeys) == {"a", "b", StepKey}
  {
    logger := FirstRecord();
    LogAndFlush(logger, map["a" := IntVal(3), "b" := IntVal(4)]);
  }

  /** Two records, then a second logger on the same version directory and
      one more record: one header line and three rows, the first two
      unchanged. */
  method AppendMetricsFile() returns (lines: nat, priorRows: seq<Row>, finalRows: seq<Row>)
    ensures lines == 4
    ensures |priorRows| == 2 && |finalRows| == 3 && finalRows[..2] == priorRows
  {
    var logger := FirstRun();
    priorRows := logger.experiment.rows;
    var resumed := ResumeAndLog(logger, map["a" := IntVal(100), "b" := IntVal(200)]);
    lines := LineCount(resumed.experiment.Table());
    finalRows := resumed.experiment.rows;
  }

  /** A second logger on the first one's file, given one record with no
      new key: the earlier rows stay as they were and the record follows. */
  method ResumeAndLog(logger: CSVLogger, metrics: Record) returns (resumed: CSVLogger)
    requires logger.Valid() && MetricsFilesWellFormed(logger.disk) && logger.experiment.fileExists
    requires logger.flushEvery == 1
    requires metrics.Keys + {StepKey} <= Elems(logger.experiment.metricsKeys)
    ensures |resumed.experiment.rows| == |logger.experiment.rows| + 1
    ensures resumed.experiment.rows[..|logger.experiment.rows|] == logger.experiment.rows
  {
    resumed := Resume(logger);
    ghost var header := resumed.experiment.metricsKeys;
    ghost var prior := resumed.experiment.rows;
    assert forall i :: 0 <= i < |prior| ==> prior[i].Keys == Elems(header);
    LogAndFlush(resumed, metrics);
    RowsKept(prior, header, resumed.experiment.metricsKeys, resumed.experiment.rows);
  }

  /** Rows that already have every column of a header with the same names
      are written again unchanged. */
  lemma RowsKept(prior: seq<Row>, header: seq<string>, wide: seq<string>, final: seq<Row>)
    requires |prior| <= |final|
    requires forall i :: 0 <= i < |prior| ==> prior[i].Keys == Elems(header)
    requires Elems(wide) == Elems(header)
    requires forall i :: 0 <= i < |prior| ==> final[i] == Pad(prior[i], wide)
    ensures final[..|prior|] == prior
  {
    forall i | 0 <= i < |prior|
      ensures final[..|prior|][i] == prior[i]
    {
      PadFull(prior[i], wide);
    }
  }

  /** A row written under `header` is `expected` when `expected` has exactly
      the header's columns and the row's values, empty elsewhere. */
  lemma PadIs(row: Row, header: seq<string>, expected: Row)
    requires expected.Keys == Elems(header)
    requires forall k :: k in expected ==> expected[k] == if k in row then row[k] else ""
    ensures Pad(row, header) == expected
  {
  }

  /** The three records of the column scenario and the rows the test expects. */
  const Metrics1: Record := map["a" := IntVal(1), "b" := IntVal(2)]
  const Metrics2: Record := map["a" := IntVal(11), "b" := IntVal(22), "c" := IntVal(33)]
  const Metrics3: Record := map["a" := IntVal(111), "c" := IntVal(333)]
  const Row1: Row := map["step" := "0", "a" := "1", "b" := "2"]
  const Row1Wide: Row := map["step" := "0", "a" := "1", "b" := "2", "c" := ""]
  const Row2: Row := map["step" := "0", "a" := "11", "b" := "22", "c" := "33"]
  const Row3: Row := map["step" := "0", "a" := "111", "b" := "", "c" := "333"]

  lemma FirstRowWritten(header: seq<string>)
    requires Elems(header) == {"step", "a", "b"}
    ensures Pad(RenderRecord(WithStep(Metrics1, 0)), header) == Row1
  {
    PadIs(RenderRecord(WithStep(Metrics1, 0)), header, Row1);
  }

  lemma FirstRowWidened(header: seq<string>)
    requires Elems(header) == {"step", "a", "b", "c"}
    ensures Pad(Row1, header) == Row1Wide
  {
    PadIs(Row1, header, Row1Wide);
  }

  lemma SecondRowWritten(header: seq<string>)
    requires Elems(header) == {"step", "a", "b", "c"}
    ensures Pad(RenderRecord(WithStep(Metrics2, 0)), header) == Row2
  {
    var r := WithStep(Metrics2, 0);
    assert IntToString(11) == "11" && IntToString(22) == "22" && IntToString(33) == "33";
    PadIs(RenderRecord(r), header, Row2);
  }

  lemma ThirdRowWritten(header: seq<string>)
    requires Elems(header) == {"step", "a", "b", "c"}
    ensures Pad(RenderRecord(WithStep(Metrics3, 0)), header) == Row3
  {
    var r := WithStep(Metrics3, 0);
    assert r == map["a" := IntVal(111), "c" := IntVal(333), "step" := IntVal(0)];
    assert IntToString(111) == "111" && IntToString(333) == "333";
    PadIs(RenderRecord(r), header, Row3);
  }

  lemma WideRowsKept(header: seq<string>)
    requires Elems(header) == {"step", "a", "b", "c"}
    ensures Pad(Row1Wide, header) == Row1Wide && Pad(Row2, header) == Row2
  {
    PadIs(Row1Wide, header, Row1Wide);
    PadIs(Row2, header, Row2);
  }

  /** The header after each record of the column scenario. */
  lemma FirstHeader(before: seq<string>, after: seq<string>)
    requires Elems(before) == {}
    requires Elems(after) == Elems(before) + Metrics1.Keys + {StepKey}
    ensures Elems(after) == {"step", "a", "b"}
  {
  }

  lemma SecondHeader(before: seq<string>, after: seq<string>)
    requires Elems(before) == {"step", "a", "b"}
    requires Elems(after) == Elems(before) + Metrics2.Keys + {StepKey}
    ensures Elems(after) == {"step", "a", "b", "c"}
  {
  }

  lemma ThirdHeader(before: seq<string>, after: seq<string>)
    requires Elems(before) == {"step", "a", "b", "c"}
    requires Elems(after) == Elems(before) + Metrics3.Keys + {StepKey}
    ensures Elems(after) == {"step", "a", "b", "c"}
  {
  }

  /** The rows after each record of the column scenario. */
  lemma FirstRows(header: seq<string>, rows: seq<Row>)
    requires Elems(header) == {"step", "a", "b"}
    requires |rows| == 1 && rows[0] == Pad(RenderRecord(WithStep(Metrics1, 0)), header)
    ensures rows == [Row1]
  {
    FirstRowWritten(header);
  }

  lemma SecondRows(header: seq<string>, rows: seq<Row>)
    requires Elems(header) == {"step", "a", "b", "c"}
    requires |rows| == 2 && rows[0] == Pad(Row1, header)
    requires rows[1] == Pad(RenderRecord(WithStep(Metrics2, 0)), header)
    ensures rows == [Row1Wide, Row2]
  {
    FirstRowWidened(header);
    SecondRowWritten(header);
  }

  lemma ThirdRows(header: seq<string>, rows: seq<Row>)
    requires Elems(header) == {"step", "a", "b", "c"}
    requires |rows| == 3 && rows[0] == Pad(Row1Wide, header) && rows[1] == Pad(Row2, header)
    requires rows[2] == Pad(RenderRecord(WithStep(Metrics3, 0)), header)
    ensures rows == [Row1Wide, Row2, Row3]
  {
    WideRowsKept(header);
    ThirdRowWritten(header);
  }

  /** First record of the column scenario: keys `a` and `b`. */
  method ColumnsFirst() returns (logger: CSVLogger)
    ensures fresh(logger) && fresh(logger.experiment)
    ensures logger.Valid() && logger.flushEvery == 1 && logger.experiment.metrics == []
    ensures Elems(logger.experiment.metricsKeys) == {"step", "a", "b"}
    ensures logger.experiment.rows == [Row1]
  {
    logger := new CSVLogger(Disk({[], Tmp}, map[]), Tmp, Some(DefaultName), None, 1);
    ghost var before := logger.experiment.metricsKeys;
    LogAndFlush(logger, Metrics1);
    FirstHeader(before, logger.experiment.metricsKeys);
    FirstRows(logger.experiment.metricsKeys, logger.experiment.rows);
  }

  /** Second record: a new key `c`, so the first row gains an empty cell. */
  method ColumnsSecond(logger: CSVLogger)
    requires logger.Valid() && logger.flushEvery == 1 && logger.experiment.metrics == []
    requires Elems(logger.experiment.metricsKeys) == {"step", "a", "b"}
    requires logger.experiment.rows == [Row1]
    modifies logger, logger.experiment
    ensures logger.Valid() && logger.flushEvery == 1 && logger.experiment.metrics == []
    ensures Elems(logger.experiment.metricsKeys) == {"step", "a", "b", "c"}
    ensures logger.experiment.rows == [Row1Wide, Row2]
  {
    ghost var before, oldRows := logger.experiment.metricsKeys, logger.experiment.rows;
    LogAndFlush(logger, Metrics2);
    SecondHeader(before, logger.experiment.metricsKeys);
    assert logger.experiment.rows[0] == Pad(oldRows[0], logger.experiment.metricsKeys);
    SecondRows(logger.experiment.metricsKeys, logger.experiment.rows);
  }

  /** Third record: key `b` missing, so its cell is empty. */
  method ColumnsThird(logger: CSVLogger)
    requires logger.Valid() && logger.flushEvery == 1 && logger.experiment.metrics == []
    requires Elems(logger.experiment.metricsKeys) == {"step", "a", "b", "c"}
    requires logger.experiment.rows == [Row1Wide, Row2]
    modifies logger, logger.experiment
    ensures logger.Valid() && Elems(logger.experiment.metricsKeys) == {"step", "a", "b", "c"}
    ensures logger.experiment.rows == [Row1Wide, Row2, Row3]
  {
    ghost var before, oldRows := logger.experiment.metricsKeys, logger.experiment.rows;
    LogAndFlush(logger, Metrics3);
    ThirdHeader(before, logger.experiment.metricsKeys);
    assert logger.experiment.rows[0] == Pad(oldRows[0], logger.experiment.metricsKeys);
    assert logger.experiment.rows[1] == Pad(oldRows[1], logger.experiment.metricsKeys);
    ThirdRows(logger.experiment.metricsKeys, logger.experiment.rows);
  }

  /** A new key rewrites the file with a wider header and empty cells in
      the earlier rows; a missing key leaves an empty cell; no row is lost. */
  method AppendColumns()
    returns (header1: set<string>, content1: seq<Row>,
             header2: set<string>, content2: seq<Row>,
             header3: set<string>, content3: seq<Row>)
    ensures header1 == {"step", "a", "b"}
    ensures content1 == [map["step" := "0", "a" := "1", "b" := "2"]]
    ensures header2 == {"step", "a", "b", "c"}
    ensures content2 == [map["step" := "0", "a" := "1", "b" := "2", "c" := ""],
                         map["step" := "0", "a" := "11", "b" := "22", "c" := "33"]]
    ensures header3 == {"step", "a", "b", "c"}
    ensures content3 == [map["step" := "0", "a" := "1", "b" := "2", "c" := ""],
                         map["step" := "0", "a" := "11", "b" := "22", "c" := "33"],
                         map["step" := "0", "a" := "111", "b" := "", "c" := "333"]]
  {
    var logger := ColumnsFirst();
    header1, content1 := ReadCsv(logger.experiment.Table()).0, ReadCsv(logger.experiment.Table()).1;
    ColumnsSecond(logger);
    header2, content2 := ReadCsv(logger.experiment.Table()).0, ReadCsv(logger.experiment.Table()).1;
    ColumnsThird(logger);
    header3, content3 := ReadCsv(logger.experiment.Table()).0, ReadCsv(logger.experiment.Table()).1;
  }

  /** The listings of the logger's disk, for a disk that starts with no
      files and no directories below the root's children. */
  lemma DiskAfterSave(logger: CSVLogger, q: Path, files: set<string>)
    requires logger.Valid() && logger.experiment.fileExists
    requires logger.disk.files == map[]
    requires forall p :: p in logger.disk.dirs ==> |p| <= |logger.rootDir| + 1
    requires |logger.rootDir| < |q|
    requires files == if IsChild(logger.MetricsFile(), q) then {MetricsFileName} else {}
    ensures ListDir(logger.CurrentDisk(), q)
         == (if |q| < |logger.LogDirectory()| && logger.LogDirectory()[..|q|] == q
             then {logger.LogDirectory()[|q|]} else {}) + files
  {
    var d0 := logger.disk;
    var d1 := MakeDirs(d0, logger.rootDir);
    var d2 := MakeDirs(d1, logger.LogDirectory());
    assert SubDirs(d0, q) == {};
    assert FilesIn(d0, q) == {};
    MakeDirsListing(d0, logger.rootDir, q);
    MakeDirsListing(d1, logger.LogDirectory(), q);
    WriteFileListing(d2, logger.MetricsFile(), logger.experiment.Table(), q);
  }
}
