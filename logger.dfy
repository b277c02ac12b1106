/** The CSV logger: resolves the run's version and log directory, owns the
    experiment writer, fills in missing steps and saves on its own every
    `flushEvery` steps. */
module CsvLoggers {
  import opened Options
  import opened Storage
  import opened Versioning
  import opened Records
  import opened FlushPolicy
  import opened ExperimentWriters

  /** The logger's default experiment name and flush interval. */
  const DefaultName: string := "lightning_logs"
  const DefaultFlushEvery: int := 100

  datatype LoggerError = NotImplemented(message: string)

  class CSVLogger {
    /** What the filesystem held when the logger was created. */
    const disk: Disk
    const rootDir: Path
    /** The experiment name; an absent name is the empty one. */
    const name: string
    /** The version of this run, fixed once resolved. */
    const version: Version
    /** Save after every record whose step `s` has `(s + 1) mod flushEvery == 0`. */
    const flushEvery: int
    const experiment: ExperimentWriter
    /** How many times `Save` has run (explicitly or automatically). */
    var saves: nat

    ghost predicate Valid()
      reads this, experiment
    {
      && flushEvery > 0
      && experiment.Valid()
      && experiment.logDir == LogDirectory()
    }

    /** `root/name/version_<n>` or `root/name/<text>`, without `name` when it is empty. */
    function LogDirectory(): Path {
      LogDir(rootDir, name, version)
    }

    function MetricsFile(): Path {
      LogDirectory() + [MetricsFileName]
    }

    /** The filesystem now: the root and the log directory exist, and the
        metrics file holds the writer's table once it has been written. */
    function CurrentDisk(): Disk
      reads this, experiment
    {
      var d := MakeDirs(MakeDirs(disk, rootDir), LogDirectory());
      if experiment.fileExists then WriteFile(d, MetricsFile(), experiment.Table()) else d
    }

    /** Every metrics file on the disk the logger leaves behind is well
        formed, so another logger can resume it. */
    lemma CurrentDiskWellFormed()
      requires Valid() && MetricsFilesWellFormed(disk)
      ensures MetricsFilesWellFormed(CurrentDisk())
      ensures experiment.fileExists ==> CurrentDisk().files[MetricsFile()] == experiment.Table()
    {
    }

    /** Creates a logger under `rootDir`. Without a requested version the
        next free `version_<n>` under `rootDir/name` is taken. A metrics
        file already in the log directory is resumed, not replaced. */
    constructor (disk: Disk, rootDir: Path, name: Option<string>, version: Option<Version>, flushEvery: int)
      requires flushEvery > 0
      requires MetricsFilesWellFormed(disk)
      ensures Valid() && fresh(experiment) && saves == 0
      ensures this.disk == disk && this.rootDir == rootDir && this.flushEvery == flushEvery
      ensures this.name == name.GetOr("")
      ensures Resolves(SubDirs(disk, ExperimentDir(rootDir, this.name)), version, this.version)
      ensures experiment.State()
           == if MetricsFile() in disk.files then Reopened(disk.files[MetricsFile()]) else Fresh()
    {
      var n := name.GetOr("");
      var v: Version;
      if version.Some? {
        v := version.value;
      } else {
        var next := NextVersion(SubDirs(disk, ExperimentDir(rootDir, n)));
        v := Number(next);
      }
      var dir := LogDir(rootDir, n, v);
      var file := dir + [MetricsFileName];
      if file in disk.files {
        experiment := new ExperimentWriter.Reopen(dir, disk.files[file]);
      } else {
        experiment := new ExperimentWriter(dir);
      }
      this.disk := disk;
      this.rootDir := rootDir;
      this.name := n;
      this.version := v;
      this.flushEvery := flushEvery;
      saves := 0;
    }

    /** Records `metrics` at `step` (or at the number of records buffered),
        and saves if that step completes a flush interval. */
    method LogMetrics(metrics: Record, step: Option<int>)
      requires Valid()
      modifies this, experiment
      ensures Valid()
      ensures var s := StepFor(step, |old(experiment.metrics)|);
              var logged := Logged(old(experiment.State()), metrics, Some(s));
              if ShouldFlush(s, flushEvery) then
                Saved(logged, experiment.State()) && saves == old(saves) + 1
              else
                experiment.State() == logged && saves == old(saves)
    {
      var s := StepFor(step, |experiment.metrics|);
      experiment.LogMetrics(metrics, Some(s));
      if ShouldFlush(s, flushEvery) {
        Save();
      }
    }

    /** Writes the buffered records to the metrics file. */
    method Save()
      requires Valid()
      modifies this, experiment
      ensures Valid()
      ensures saves == old(saves) + 1
      ensures Saved(old(experiment.State()), experiment.State())
    {
      saves := saves + 1;
      experiment.Save();
    }

    /** Hyperparameters are not supported: the call always fails. */
    method LogHyperparams(params: map<string, Scalar>) returns (r: Outcome<LoggerError>)
      ensures r.Fail? && r.error.NotImplemented?
    {
      r := Fail(NotImplemented("logging hyperparameters is not supported"));
    }
  }

  /** Logs `k` records without a step from an empty buffer. The buffer and
      the number of saves follow the stepless cycle: after `k` records the
      buffer holds `k mod N` of them and `k / N` saves have happened. */
  method LogStepless(logger: CSVLogger, m: Record, k: nat)
    requires logger.Valid() && logger.experiment.metrics == []
    modifies logger, logger.experiment
    ensures logger.Valid()
    ensures |logger.experiment.metrics| == AutoBuffered(k, logger.flushEvery)
    ensures logger.saves == old(logger.saves) + AutoSaves(k, logger.flushEvery)
    ensures |logger.experiment.metrics| == k % logger.flushEvery
    ensures logger.saves == old(logger.saves) + k / logger.flushEvery
  {
    var i := 0;
    while i < k
      invariant 0 <= i <= k && logger.Valid()
      invariant |logger.experiment.metrics| == AutoBuffered(i, logger.flushEvery)
      invariant logger.saves == old(logger.saves) + AutoSaves(i, logger.flushEvery)
    {
      logger.LogMetrics(m, None);
      i := i + 1;
    }
    AutoStepCycle(k, logger.flushEvery);
  }
}
