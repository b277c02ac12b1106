/** The experiment writer: buffers metric records in memory and saves them
    to the metrics file of its log directory, widening the header when new
    keys appear. */
module ExperimentWriters {
  import opened Options
  import opened Storage
  import opened Records

  class ExperimentWriter {
    /** The directory holding the metrics file. */
    const logDir: Path

    /** Records logged since the last save, oldest first. */
    var metrics: seq<Record>
    /** The columns of the metrics file. */
    var metricsKeys: seq<string>
    /** The data rows of the metrics file, oldest first. */
    var rows: seq<Row>
    /** Whether the metrics file has been written. */
    var fileExists: bool

    function State(): WriterState
      reads this
    {
      WriterState(metrics, metricsKeys, rows, fileExists)
    }

    ghost predicate Valid()
      reads this
    {
      ValidState(State())
    }

    /** The metrics file as it stands. */
    function Table(): CsvTable
      reads this
    {
      TableOf(State())
    }

    /** A writer for a directory that holds no metrics file yet. */
    constructor (logDir: Path)
      ensures this.logDir == logDir
      ensures Valid() && State() == Fresh()
    {
      this.logDir := logDir;
      metrics, metricsKeys, rows, fileExists := [], [], [], false;
    }

    /** A writer resuming an existing metrics file: later saves extend it. */
    constructor Reopen(logDir: Path, existing: CsvTable)
      requires WellFormed(existing)
      ensures this.logDir == logDir
      ensures Valid() && State() == Reopened(existing)
    {
      this.logDir := logDir;
      metrics, metricsKeys, rows, fileExists := [], existing.header, existing.rows, true;
    }

    /** Buffers one record, with its step filled in; nothing is written. */
    method LogMetrics(m: Record, step: Option<int>)
      requires Valid()
      modifies this
      ensures Valid()
      ensures State() == Logged(old(State()), m, step)
    {
      var s := StepFor(step, |metrics|);
      metrics := metrics + [WithStep(m, s)];
    }

    /** Writes the buffered records. With an empty buffer nothing happens.
        Otherwise the keys not yet in the header are added to it; if there
        are such keys and the file exists it is rewritten with the wider
        header; then the buffered records are appended and the buffer is
        emptied. */
    method Save()
      requires Valid()
      modifies this
      ensures Valid()
      ensures Saved(old(State()), State())
    {
      if metrics == [] {
        return;
      }
      ghost var before := State();
      var newKeys := KeysOf(metrics) - Elems(metricsKeys);
      var header := metricsKeys;
      var pending := newKeys;
      while pending != {}
        invariant pending <= newKeys
        invariant NoDup(header)
        invariant Elems(header) == Elems(metricsKeys) + (newKeys - pending)
        decreases pending
      {
        var k :| k in pending;
        header := header + [k];
        pending := pending - {k};
      }
      if newKeys != {} && fileExists {
        rows := PadAll(rows, header);
      } else if fileExists {
        PadAllFull(rows, header);
      } else {
        assert PadAll(rows, header) == [];
      }
      assert rows == PadAll(before.rows, header);
      rows := rows + PadAll(RenderAll(metrics), header);
      metricsKeys := header;
      fileExists := true;
      metrics := [];
      assert Elems(metricsKeys) == Elems(before.header) + KeysOf(before.buffer);
      assert rows == PadAll(before.rows, metricsKeys) + PadAll(RenderAll(before.buffer), metricsKeys);
      assert Saved(before, State());
      SavePreservesValid(before, State());
    }
  }
}
