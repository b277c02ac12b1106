/** Metric records, the rows they become in the metrics file, and the
    abstract state of an experiment writer with the two transitions the
    writer makes: buffering a record and saving the buffer. */
module Records {
  import opened Options
  import opened Decimal
  import opened Storage

  /** A metric value: an integer or a text. */
  datatype Scalar = IntVal(i: int) | Text(s: string)

  /** A buffered record: metric name to value. */
  type Record = map<string, Scalar>

  /** A data row of the file: column name to cell text. */
  type Row = map<string, string>

  /** The reserved column holding each record's step. */
  const StepKey: string := "step"

  /** The text written into a cell for a value. */
  function Render(v: Scalar): string {
    match v
    case IntVal(i) => IntToString(i)
    case Text(s) => s
  }

  function RenderRecord(r: Record): Row {
    map k | k in r :: Render(r[k])
  }

  function RenderAll(buffer: seq<Record>): seq<Row> {
    seq(|buffer|, i requires 0 <= i < |buffer| => RenderRecord(buffer[i]))
  }

  /** A row written under `header`: a cell for every column, empty where the
      row has no value. */
  function Pad(row: Row, header: seq<string>): Row {
    map k | k in header :: if k in row then row[k] else ""
  }

  function PadAll(rows: seq<Row>, header: seq<string>): seq<Row> {
    seq(|rows|, i requires 0 <= i < |rows| => Pad(rows[i], header))
  }

  /** Every key used by some record of the buffer. */
  function KeysOf(buffer: seq<Record>): set<string> {
    set i, k | 0 <= i < |buffer| && k in buffer[i] :: k
  }

  /** The step a record gets: the one given, or else the number of records
      already buffered. */
  function StepFor(step: Option<int>, buffered: nat): int {
    step.GetOr(buffered)
  }

  function WithStep(m: Record, step: int): Record {
    m[StepKey := IntVal(step)]
  }

  /** The writer's state: the buffer, and the metrics file (whether it
      exists, its header, its rows). */
  datatype WriterState = WriterState(
    buffer: seq<Record>,
    header: seq<string>,
    rows: seq<Row>,
    fileExists: bool)

  function TableOf(s: WriterState): CsvTable {
    CsvTable(s.header, s.rows)
  }

  /** The file is well formed, and no file means no header and no rows. */
  predicate ValidState(s: WriterState) {
    && WellFormed(TableOf(s))
    && (!s.fileExists ==> s.header == [] && s.rows == [])
  }

  /** A writer that has just been created for a directory without a metrics file. */
  function Fresh(): WriterState {
    WriterState([], [], [], false)
  }

  /** A writer reopened on an existing metrics file. */
  function Reopened(t: CsvTable): WriterState {
    WriterState([], t.header, t.rows, true)
  }

  /** Buffering a record: the step is filled in and the record appended. */
  function Logged(s: WriterState, m: Record, step: Option<int>): WriterState {
    s.(buffer := s.buffer + [WithStep(m, StepFor(step, |s.buffer|))])
  }

  /** `t` is a state that saving `s` can produce. An empty buffer changes
      nothing. Otherwise the header becomes the old columns together with
      every buffered key (in some order), the rows already in the file are
      re-padded to the new header, the buffered records follow in order,
      padded the same way, and the buffer is emptied. */
  predicate Saved(s: WriterState, t: WriterState) {
    if s.buffer == [] then t == s
    else
      && t.buffer == []
      && t.fileExists
      && NoDup(t.header)
      && Elems(t.header) == Elems(s.header) + KeysOf(s.buffer)
      && t.rows == PadAll(s.rows, t.header) + PadAll(RenderAll(s.buffer), t.header)
  }

  /** Padding a row that already has exactly the header's columns changes nothing. */
  lemma PadFull(row: Row, header: seq<string>)
    requires row.Keys == Elems(header)
    ensures Pad(row, header) == row
  {
  }

  lemma PadAllFull(rows: seq<Row>, header: seq<string>)
    requires forall i :: 0 <= i < |rows| ==> rows[i].Keys == Elems(header)
    ensures PadAll(rows, header) == rows
  {
    forall i | 0 <= i < |rows|
      ensures PadAll(rows, header)[i] == rows[i]
    {
      PadFull(rows[i], header);
    }
  }

  /** A save keeps the file well formed. */
  lemma SavePreservesValid(s: WriterState, t: WriterState)
    requires ValidState(s) && Saved(s, t)
    ensures ValidState(t)
  {
  }

  /** Row `i` of the file after a save: a re-padded old row, or a padded
      buffered record. */
  lemma SavedRowAt(s: WriterState, t: WriterState, i: int)
    requires Saved(s, t) && s.buffer != []
    requires 0 <= i < |s.rows| + |s.buffer|
    ensures |t.rows| == |s.rows| + |s.buffer|
    ensures i < |s.rows| ==> t.rows[i] == Pad(s.rows[i], t.header)
    ensures i >= |s.rows| ==> t.rows[i] == Pad(RenderRecord(s.buffer[i - |s.rows|]), t.header)
  {
    var n := |s.rows|;
    var kept, added := PadAll(s.rows, t.header), PadAll(RenderAll(s.buffer), t.header);
    assert |kept| == n && |added| == |s.buffer| && t.rows == kept + added;
    if i < n {
      assert t.rows[i] == kept[i];
    } else {
      assert t.rows[i] == added[i - n];
    }
  }

  /** A save keeps every row already in the file, in its place and with its
      values, gives it an empty cell for each new column, and removes no
      column. */
  lemma SaveKeepsOldRows(s: WriterState, t: WriterState)
    requires ValidState(s) && Saved(s, t) && s.buffer != []
    ensures Elems(s.header) <= Elems(t.header)
    ensures |t.rows| == |s.rows| + |s.buffer|
    ensures forall i, k :: 0 <= i < |s.rows| && k in s.rows[i] ==> k in t.rows[i] && t.rows[i][k] == s.rows[i][k]
    ensures forall i, k :: 0 <= i < |s.rows| && k in t.header && k !in s.header ==> k in t.rows[i] && t.rows[i][k] == ""
  {
    forall i | 0 <= i < |s.rows|
      ensures t.rows[i] == Pad(s.rows[i], t.header)
    {
      SavedRowAt(s, t, i);
    }
  }

  /** The cell of column `k` when record `r` is written under `header`. */
  lemma PadRecordAt(r: Record, header: seq<string>, k: string)
    requires k in header
    ensures k in Pad(RenderRecord(r), header)
    ensures Pad(RenderRecord(r), header)[k] == if k in r then Render(r[k]) else ""
  {
  }

  /** Cell `k` of the row a save writes for the `j`-th buffered record. */
  lemma SavedCellAt(s: WriterState, t: WriterState, j: int, k: string)
    requires Saved(s, t) && s.buffer != []
    requires 0 <= j < |s.buffer|
    requires k in s.buffer[j] || k in t.header
    ensures |t.rows| == |s.rows| + |s.buffer|
    ensures k in t.header && k in t.rows[|s.rows| + j]
    ensures t.rows[|s.rows| + j][k] == if k in s.buffer[j] then Render(s.buffer[j][k]) else ""
  {
    SavedRowAt(s, t, |s.rows| + j);
    assert k in Elems(t.header);
    PadRecordAt(s.buffer[j], t.header, k);
  }

  /** A save appends the buffered records after the old rows, in buffer
      order, each with its values rendered as text and an empty cell for
      every column it lacks. */
  lemma SaveAppendsBuffer(s: WriterState, t: WriterState)
    requires Saved(s, t) && s.buffer != []
    ensures |t.rows| == |s.rows| + |s.buffer|
    ensures forall j, k :: 0 <= j < |s.buffer| && k in s.buffer[j] ==>
              k in t.header && k in t.rows[|s.rows| + j] && t.rows[|s.rows| + j][k] == Render(s.buffer[j][k])
    ensures forall j, k :: 0 <= j < |s.buffer| && k in t.header && k !in s.buffer[j] ==>
              k in t.rows[|s.rows| + j] && t.rows[|s.rows| + j][k] == ""
  {
    SavedRowAt(s, t, |s.rows|);
    forall j, k | 0 <= j < |s.buffer| && k in s.buffer[j]
      ensures k in t.header && k in t.rows[|s.rows| + j] && t.rows[|s.rows| + j][k] == Render(s.buffer[j][k])
    {
      SavedCellAt(s, t, j, k);
    }
    forall j, k | 0 <= j < |s.buffer| && k in t.header && k !in s.buffer[j]
      ensures k in t.rows[|s.rows| + j] && t.rows[|s.rows| + j][k] == ""
    {
      SavedCellAt(s, t, j, k);
    }
  }

  /** Saving a single buffered record: the header gains the record's keys,
      the old rows are re-padded in place and the record follows them. */
  lemma SaveOne(s: WriterState, t: WriterState, r: Record)
    requires Saved(s, t) && s.buffer == [r]
    ensures Elems(t.header) == Elems(s.header) + r.Keys
    ensures |t.rows| == |s.rows| + 1
    ensures forall i :: 0 <= i < |s.rows| ==> t.rows[i] == Pad(s.rows[i], t.header)
    ensures t.rows[|s.rows|] == Pad(RenderRecord(r), t.header)
  {
    assert KeysOf(s.buffer) == r.Keys by {
      forall k | k in r ensures k in KeysOf(s.buffer) {
        assert k in s.buffer[0];
      }
    }
    SavedRowAt(s, t, |s.rows|);
    forall i | 0 <= i < |s.rows| ensures t.rows[i] == Pad(s.rows[i], t.header) {
      SavedRowAt(s, t, i);
    }
  }

  /** Saving again right after a save changes nothing. */
  lemma SaveIdempotent(s: WriterState, t: WriterState, u: WriterState)
    requires Saved(s, t) && Saved(t, u)
    ensures u == t
  {
  }

  /** Two saves of the same state differ at most in the order of the header. */
  lemma SavedAgree(s: WriterState, t1: WriterState, t2: WriterState)
    requires Saved(s, t1) && Saved(s, t2)
    ensures Elems(t1.header) == Elems(t2.header)
    ensures t1.rows == t2.rows
  {
    if s.buffer != [] {
      SavedRowAt(s, t1, 0);
      SavedRowAt(s, t2, 0);
      forall i | 0 <= i < |t1.rows|
        ensures t1.rows[i] == t2.rows[i]
      {
        SavedRowAt(s, t1, i);
        SavedRowAt(s, t2, i);
      }
    }
  }

  lemma KeysOfConcat(a: seq<Record>, b: seq<Record>)
    ensures KeysOf(a + b) == KeysOf(a) + KeysOf(b)
  {
    var all := a + b;
    forall k | k in KeysOf(all)
      ensures k in KeysOf(a) + KeysOf(b)
    {
      var i :| 0 <= i < |all| && k in all[i];
      if i >= |a| {
        assert all[i] == b[i - |a|];
      } else {
        assert all[i] == a[i];
      }
    }
    forall k | k in KeysOf(a) + KeysOf(b)
      ensures k in KeysOf(all)
    {
      if k in KeysOf(a) {
        var i :| 0 <= i < |a| && k in a[i];
        assert all[i] == a[i];
      } else {
        var i :| 0 <= i < |b| && k in b[i];
        assert all[|a| + i] == b[i];
      }
    }
  }

  /** Padding to `narrow` and then to `wide` equals padding to any header
      with the columns of `wide`, when `narrow` covers the row. */
  lemma PadChain(row: Row, narrow: seq<string>, wide: seq<string>, same: seq<string>)
    requires row.Keys <= Elems(narrow) <= Elems(wide) && Elems(wide) == Elems(same)
    ensures Pad(Pad(row, narrow), wide) == Pad(row, same)
  {
  }

  /** What the `i`-th row of the file is made from when `s` is saved: the
      `i`-th row already in the file, or else a buffered record as text. */
  function SourceRow(s: WriterState, i: int): Row
    requires 0 <= i < |s.rows| + |s.buffer|
  {
    if i < |s.rows| then s.rows[i] else RenderRecord(s.buffer[i - |s.rows|])
  }

  lemma SavedRowIs(s: WriterState, t: WriterState, i: int)
    requires Saved(s, t) && s.buffer != []
    requires 0 <= i < |s.rows| + |s.buffer|
    ensures |t.rows| == |s.rows| + |s.buffer|
    ensures t.rows[i] == Pad(SourceRow(s, i), t.header)
  {
    SavedRowAt(s, t, i);
  }

  /** The rows and buffered records of a valid state use only its header's
      columns and the buffer's keys. */
  lemma SourceRowKeys(s: WriterState, i: int)
    requires ValidState(s)
    requires 0 <= i < |s.rows| + |s.buffer|
    ensures SourceRow(s, i).Keys <= Elems(s.header) + KeysOf(s.buffer)
  {
  }

  /** Row sources of a state whose buffer was extended by `more`. */
  lemma SourceRowAppend(s: WriterState, more: seq<Record>, i: int)
    requires 0 <= i < |s.rows| + |s.buffer| + |more|
    ensures SourceRow(s.(buffer := s.buffer + more), i)
         == if i < |s.rows| + |s.buffer| then SourceRow(s, i)
            else RenderRecord(more[i - |s.rows| - |s.buffer|])
  {
    var b := s.buffer + more;
    if i >= |s.rows| {
      var j := i - |s.rows|;
      if j < |s.buffer| {
        assert b[j] == s.buffer[j];
      } else {
        assert b[j] == more[j - |s.buffer|];
      }
    }
  }

  /** One row of the file, written by two saves or by one. */
  lemma CadenceRow(s: WriterState, more: seq<Record>, th: seq<string>, uh: seq<string>, vh: seq<string>,
                   tRow: Row, uRow: Row, vRow: Row, i: int)
    requires ValidState(s)
    requires 0 <= i < |s.rows| + |s.buffer| + |more|
    requires Elems(th) == Elems(s.header) + KeysOf(s.buffer)
    requires Elems(uh) == Elems(th) + KeysOf(more) && Elems(vh) == Elems(uh)
    requires i < |s.rows| + |s.buffer| ==> tRow == Pad(SourceRow(s, i), th) && uRow == Pad(tRow, uh)
    requires i >= |s.rows| + |s.buffer| ==> uRow == Pad(RenderRecord(more[i - |s.rows| - |s.buffer|]), uh)
    requires vRow == Pad(SourceRow(s.(buffer := s.buffer + more), i), vh)
    ensures uRow == vRow
  {
    SourceRowAppend(s, more, i);
    if i < |s.rows| + |s.buffer| {
      SourceRowKeys(s, i);
      PadChain(SourceRow(s, i), th, uh, vh);
    }
  }

  /** Every row of the file after a save, by where it comes from. */
  lemma SavedRowsAre(s: WriterState, t: WriterState)
    requires Saved(s, t) && s.buffer != []
    ensures |t.rows| == |s.rows| + |s.buffer|
    ensures forall i :: 0 <= i < |t.rows| ==> t.rows[i] == Pad(SourceRow(s, i), t.header)
  {
    SavedRowAt(s, t, 0);
    forall i | 0 <= i < |t.rows|
      ensures t.rows[i] == Pad(SourceRow(s, i), t.header)
    {
      SavedRowIs(s, t, i);
    }
  }

  /** Row `i` of a two-step save and of a one-step save agree. */
  lemma SameRowAt(s: WriterState, more: seq<Record>, tRows: seq<Row>, uRows: seq<Row>, vRows: seq<Row>,
                  th: seq<string>, uh: seq<string>, vh: seq<string>, i: int)
    requires ValidState(s)
    requires Elems(th) == Elems(s.header) + KeysOf(s.buffer)
    requires Elems(uh) == Elems(th) + KeysOf(more) && Elems(vh) == Elems(uh)
    requires |tRows| == |s.rows| + |s.buffer|
    requires |uRows| == |tRows| + |more| && |vRows| == |uRows|
    requires 0 <= i < |uRows|
    requires i < |tRows| ==> tRows[i] == Pad(SourceRow(s, i), th)
    requires uRows[i] == Pad(SourceRow(WriterState(more, th, tRows, true), i), uh)
    requires vRows[i] == Pad(SourceRow(s.(buffer := s.buffer + more), i), vh)
    ensures uRows[i] == vRows[i]
  {
    var n := |tRows|;
    var w := WriterState(more, th, tRows, true);
    if i < n {
      assert SourceRow(w, i) == tRows[i];
      CadenceRow(s, more, th, uh, vh, tRows[i], uRows[i], vRows[i], i);
    } else {
      assert SourceRow(w, i) == RenderRecord(more[i - n]);
      CadenceRow(s, more, th, uh, vh, map[], uRows[i], vRows[i], i);
    }
  }

  /** The rows of a two-step save and of a one-step save agree. */
  lemma SameRows(s: WriterState, more: seq<Record>, tRows: seq<Row>, uRows: seq<Row>, vRows: seq<Row>,
                 th: seq<string>, uh: seq<string>, vh: seq<string>)
    requires ValidState(s)
    requires Elems(th) == Elems(s.header) + KeysOf(s.buffer)
    requires Elems(uh) == Elems(th) + KeysOf(more) && Elems(vh) == Elems(uh)
    requires |tRows| == |s.rows| + |s.buffer|
    requires |uRows| == |tRows| + |more| && |vRows| == |uRows|
    requires forall i :: 0 <= i < |tRows| ==> tRows[i] == Pad(SourceRow(s, i), th)
    requires forall i :: 0 <= i < |uRows| ==> uRows[i] == Pad(SourceRow(WriterState(more, th, tRows, true), i), uh)
    requires forall i :: 0 <= i < |vRows| ==> vRows[i] == Pad(SourceRow(s.(buffer := s.buffer + more), i), vh)
    ensures uRows == vRows
  {
    forall i | 0 <= i < |uRows|
      ensures uRows[i] == vRows[i]
    {
      SameRowAt(s, more, tRows, uRows, vRows, th, uh, vh, i);
    }
  }

  /** How often the buffer is flushed does not change what ends up in the
      file: saving a buffer and then the records that follow gives the same
      columns and the same rows as saving them all at once. */
  lemma FlushCadenceIrrelevant(s: WriterState, more: seq<Record>, t: WriterState, u: WriterState, v: WriterState)
    requires ValidState(s)
    requires Saved(s, t) && Saved(t.(buffer := more), u)
    requires Saved(s.(buffer := s.buffer + more), v)
    ensures Elems(u.header) == Elems(v.header)
    ensures u.rows == v.rows
  {
    if s.buffer == [] {
      assert s.buffer + more == more;
      assert t.(buffer := more) == s.(buffer := s.buffer + more);
      SavedAgree(t.(buffer := more), u, v);
    } else if more == [] {
      assert s.buffer + more == s.buffer;
      assert t.(buffer := more) == t;
      SavedAgree(s, t, v);
    } else {
      var t', s' := t.(buffer := more), s.(buffer := s.buffer + more);
      KeysOfConcat(s.buffer, more);
      SavedRowsAre(s, t);
      SavedRowsAre(t', u);
      SavedRowsAre(s', v);
      SameRows(s, more, t.rows, u.rows, v.rows, t.header, u.header, v.header);
    }
  }
}
