/** An in-memory stand-in for the filesystem the logger writes to: a set of
    directories and a map from file paths to CSV tables. A path is the list
    of its components; the empty list is the filesystem root. */
module Storage {

  type Path = seq<string>

  /** The name of the metrics file inside a log directory. */
  const MetricsFileName: string := "metrics.csv"

  /** The set of keys listed in a header. */
  function Elems(header: seq<string>): set<string> {
    set k | k in header
  }

  predicate NoDup(header: seq<string>) {
    forall i, j :: 0 <= i < j < |header| ==> header[i] != header[j]
  }

  /** A CSV file: its header row and its data rows, each data row read back
      as a mapping from column name to cell text. */
  datatype CsvTable = CsvTable(header: seq<string>, rows: seq<map<string, string>>)

  /** A file as the writer leaves it: distinct column names and every row
      holding a cell (possibly empty) for every column and no other. */
  predicate WellFormed(t: CsvTable) {
    && NoDup(t.header)
    && forall i :: 0 <= i < |t.rows| ==> t.rows[i].Keys == Elems(t.header)
  }

  /** Number of text lines in the file: the header line and one per row. */
  function LineCount(t: CsvTable): nat {
    1 + |t.rows|
  }

  /** What the tests' reader returns: the header as a set and the rows in
      file order. */
  function ReadCsv(t: CsvTable): (set<string>, seq<map<string, string>>) {
    (Elems(t.header), t.rows)
  }

  datatype Disk = Disk(dirs: set<Path>, files: map<Path, CsvTable>)

  /** Every metrics file on the disk is a well-formed table; other files
      may hold anything. */
  predicate MetricsFilesWellFormed(d: Disk) {
    forall f :: f in d.files && |f| > 0 && f[|f| - 1] == MetricsFileName ==> WellFormed(d.files[f])
  }

  /** `os.path.join(p, seg)`: an empty component adds nothing. */
  function Join(p: Path, seg: string): (r: Path)
    ensures seg == "" ==> r == p
    ensures seg != "" ==> |r| == |p| + 1 && r[..|p|] == p && r[|p|] == seg
  {
    if seg == "" then p else p + [seg]
  }

  predicate IsChild(q: Path, p: Path) {
    |q| == |p| + 1 && q[..|p|] == p
  }

  /** `makedirs(p, exist_ok=True)`: `p` and all its ancestors exist afterwards. */
  function MakeDirs(d: Disk, p: Path): Disk {
    d.(dirs := d.dirs + set i | 0 <= i <= |p| :: p[..i])
  }

  /** `write(f, t)`: the file `f` holds `t` afterwards. */
  function WriteFile(d: Disk, f: Path, t: CsvTable): Disk {
    d.(files := d.files[f := t])
  }

  /** The names of the directories directly under `p`. */
  function SubDirs(d: Disk, p: Path): set<string> {
    set q | q in d.dirs && IsChild(q, p) :: q[|p|]
  }

  /** The names of the files directly under `p`. */
  function FilesIn(d: Disk, p: Path): set<string> {
    set q | q in d.files && IsChild(q, p) :: q[|p|]
  }

  /** `os.listdir(p)`, as a set of names. */
  function ListDir(d: Disk, p: Path): set<string> {
    SubDirs(d, p) + FilesIn(d, p)
  }

  /** Creating the directories along `p` adds, under each strict ancestor
      `q` of `p`, exactly the next component of `p`, and nothing elsewhere. */
  lemma MakeDirsListing(d: Disk, p: Path, q: Path)
    ensures SubDirs(MakeDirs(d, p), q)
         == SubDirs(d, q) + (if |q| < |p| && p[..|q|] == q then {p[|q|]} else {})
    ensures FilesIn(MakeDirs(d, p), q) == FilesIn(d, q)
    ensures p in MakeDirs(d, p).dirs && d.dirs <= MakeDirs(d, p).dirs
  {
    var d' := MakeDirs(d, p);
    var added := if |q| < |p| && p[..|q|] == q then {p[|q|]} else {};
    forall s | s in SubDirs(d', q)
      ensures s in SubDirs(d, q) + added
    {
      var r :| r in d'.dirs && IsChild(r, q) && r[|q|] == s;
      if r !in d.dirs {
        var i :| 0 <= i <= |p| && r == p[..i];
        assert i == |q| + 1;
        assert p[..|q|] == r[..|q|];
      }
    }
    if |q| < |p| && p[..|q|] == q {
      var r := p[..|q| + 1];
      assert r in d'.dirs && IsChild(r, q);
    }
    assert p == p[..|p|];
  }

  /** Writing a file adds its name to the listing of its own directory and
      leaves every listing of directories unchanged. */
  lemma WriteFileListing(d: Disk, f: Path, t: CsvTable, q: Path)
    ensures SubDirs(WriteFile(d, f, t), q) == SubDirs(d, q)
    ensures FilesIn(WriteFile(d, f, t), q) == FilesIn(d, q) + (if IsChild(f, q) then {f[|q|]} else {})
  {
    var d' := WriteFile(d, f, t);
    forall s | s in FilesIn(d', q)
      ensures s in FilesIn(d, q) + (if IsChild(f, q) then {f[|q|]} else {})
    {
      var r :| r in d'.files && IsChild(r, q) && r[|q|] == s;
    }
  }
}
