/** Paths and the part of the filesystem the builder consults, as an abstract value. */
module Paths {
  import opened Wrappers

  /** A java.nio.file.Path: whether it is absolute, and its name elements. A root has no
      name elements; the empty path has one, the empty name. */
  datatype Path = Path(absolute: bool, names: seq<string>)

  /** Path.getFileName(): the last name element, or null for a root. */
  function FileName(p: Path): (r: Option<string>)
    ensures r.None? <==> p.names == []
    ensures r.Some? ==> r.value == p.names[|p.names| - 1]
  {
    if p.names == [] then None else Some(p.names[|p.names| - 1])
  }

  predicate EndsWith(s: string, suffix: string) {
    |suffix| <= |s| && s[|s| - |suffix|..] == suffix
  }

  /** The sibling path whose file name is this one's with `ext` appended ("<path><ext>"). */
  function AddExtension(p: Path, ext: string): (r: Path)
    requires p.names != []
    ensures r.absolute == p.absolute && |r.names| == |p.names|
    ensures r.names[..|r.names| - 1] == p.names[..|p.names| - 1]
    ensures FileName(r) == Some(FileName(p).value + ext)
  {
    Path(p.absolute, p.names[..|p.names| - 1] + [p.names[|p.names| - 1] + ext])
  }

  /** What an existing path denotes once links are followed. */
  datatype Kind = RegularFile | Directory | SpecialFile

  /** What Path.toRealPath() does: yields the canonical path, fails because nothing exists
      there, or fails with some other I/O error (a symbolic-link loop among them). */
  datatype RealPathResult = Resolved(canonical: Path) | NoSuchFile | RealPathError

  /** The filesystem as the builder sees it:
      `kinds` the existing paths (links followed), `realPaths` the answers of toRealPath
      (a path absent from it does not resolve), `unopenable` the paths that
      Files.newOutputStream refuses for reasons other than being a directory. */
  datatype FileSystem = FileSystem(
    kinds: map<Path, Kind>,
    realPaths: map<Path, RealPathResult>,
    unopenable: set<Path>)

  function RealPath(fs: FileSystem, p: Path): RealPathResult {
    if p in fs.realPaths then fs.realPaths[p] else NoSuchFile
  }

  /** A canonical path is its own canonical path: a real path holds no links left to follow.
      And a path toRealPath reports missing does not exist either: both follow links. */
  ghost predicate WellFormed(fs: FileSystem) {
    (forall p | p in fs.realPaths && fs.realPaths[p].Resolved? ::
      RealPath(fs, fs.realPaths[p].canonical) == fs.realPaths[p]) &&
    (forall p | p in fs.kinds :: RealPath(fs, p) != NoSuchFile)
  }

  /** The path the fallback inference ends up looking at: the real path when there is one. */
  function Canonical(fs: FileSystem, p: Path): Path {
    match RealPath(fs, p)
    case Resolved(q) => q
    case _ => p
  }

  predicate Exists(fs: FileSystem, p: Path) {
    p in fs.kinds
  }

  predicate IsRegularFile(fs: FileSystem, p: Path) {
    p in fs.kinds && fs.kinds[p] == RegularFile
  }

  predicate IsDirectory(fs: FileSystem, p: Path) {
    p in fs.kinds && fs.kinds[p] == Directory
  }

  /** Files.newOutputStream(p) succeeds: a root names a directory, and a directory cannot be
      opened for writing. */
  predicate CanOpen(fs: FileSystem, p: Path) {
    p.names != [] && !IsDirectory(fs, p) && p !in fs.unopenable
  }
}
