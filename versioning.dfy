/** Choosing the version of a run and the directory it logs into. */
module Versioning {
  import opened Options
  import opened Decimal
  import opened Storage

  /** An integer version (auto-assigned or requested) or a caller-chosen name. */
  datatype Version = Number(n: int) | Named(text: string)

  const VersionPrefix: string := "version_"

  /** The folder of a version: `version_<n>` for a number, the name itself otherwise. */
  function Folder(v: Version): string {
    match v
    case Number(n) => VersionPrefix + IntToString(n)
    case Named(text) => text
  }

  /** A directory name of the form `version_<digits>`. */
  predicate IsVersionDir(entry: string) {
    && |entry| > |VersionPrefix|
    && entry[..|VersionPrefix|] == VersionPrefix
    && IsDigits(entry[|VersionPrefix|..])
  }

  function VersionNumber(entry: string): nat
    requires IsVersionDir(entry)
  {
    ParseDigits(entry[|VersionPrefix|..])
  }

  /** `v` is one more than the largest version found among the entries, or 0
      when none of them is a version directory. */
  ghost predicate IsNextVersion(entries: set<string>, v: nat) {
    && (forall e | e in entries && IsVersionDir(e) :: VersionNumber(e) < v)
    && (v > 0 ==> exists e | e in entries && IsVersionDir(e) :: VersionNumber(e) == v - 1)
  }

  /** Scans the directories under the experiment folder and returns the next
      free version number. */
  method NextVersion(entries: set<string>) returns (v: nat)
    ensures IsNextVersion(entries, v)
  {
    v := 0;
    var pending := entries;
    while pending != {}
      invariant pending <= entries
      invariant forall e | e in entries - pending && IsVersionDir(e) :: VersionNumber(e) < v
      invariant v > 0 ==> exists e | e in entries - pending && IsVersionDir(e) :: VersionNumber(e) == v - 1
      decreases pending
    {
      var e :| e in pending;
      if IsVersionDir(e) && VersionNumber(e) + 1 > v {
        v := VersionNumber(e) + 1;
      }
      pending := pending - {e};
    }
  }

  /** The folder of a non-negative version number is a version directory,
      and reading its number back gives that version. */
  lemma FolderRoundTrip(n: nat)
    ensures IsVersionDir(Folder(Number(n)))
    ensures VersionNumber(Folder(Number(n))) == n
  {
    var f := Folder(Number(n));
    ParseNatToString(n);
    assert f[..|VersionPrefix|] == VersionPrefix;
    assert f[|VersionPrefix|..] == NatToString(n);
  }

  /** An automatically chosen version never reuses an existing folder. */
  lemma NextVersionIsFresh(entries: set<string>, v: nat)
    requires IsNextVersion(entries, v)
    ensures Folder(Number(v)) !in entries
  {
    FolderRoundTrip(v);
  }

  /** The requested version when one is given, an automatic one otherwise. */
  ghost predicate Resolves(entries: set<string>, requested: Option<Version>, v: Version) {
    match requested
    case Some(r) => v == r
    case None => v.Number? && v.n >= 0 && IsNextVersion(entries, v.n)
  }

  /** `root/name` with an empty name contributing nothing. */
  function ExperimentDir(root: Path, name: string): Path {
    Join(root, name)
  }

  /** `root/name/version_<n>` or `root/name/<text>`. */
  function LogDir(root: Path, name: string, v: Version): Path {
    Join(ExperimentDir(root, name), Folder(v))
  }

  /** Without a name the log directory sits straight under the root; with
      one, one level below it. */
  lemma LogDirShape(root: Path, name: string, v: Version)
    requires Folder(v) != ""
    ensures name == "" ==> LogDir(root, name, v) == root + [Folder(v)]
    ensures name != "" ==> LogDir(root, name, v) == root + [name, Folder(v)]
  {
  }
}
