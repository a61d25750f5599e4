/** Inferring an OutputType from a path: determineOutputTypeFromFile with isBCF,
    isCompressedVCF and isVCF. `blockCompressed` stands for
    IOUtil.hasBlockCompressedExtension, whose definition is not part of this model. */
module OutputTypeInference {
  import opened Wrappers
  import opened Paths
  import opened Failures
  import opened OutputTypes

  const VcfExtension := ".vcf"
  const BcfExtension := ".bcf"

  /** Whether a path's file name ends in `ext`; a null path does not, and a root path, whose
      file name is null, throws. */
  function NameEndsWith(path: Option<Path>, ext: string): (r: Result<bool, Failure>)
    ensures path.None? ==> r == Ok(false)
    ensures r.Err? <==> path.Some? && path.value.names == []
    ensures r.Err? ==> r.error == NullPointer
    ensures r == Ok(true) <==> path.Some? && FileName(path.value).Some? && EndsWith(FileName(path.value).value, ext)
  {
    match path
    case None => Ok(false)
    case Some(p) =>
      match FileName(p)
      case None => Err(NullPointer)
      case Some(name) => Ok(EndsWith(name, ext))
  }

  /** isBCF: the ".bcf" test, through NameEndsWith. */
  function IsBcf(path: Option<Path>): Result<bool, Failure> {
    NameEndsWith(path, BcfExtension)
  }

  /** isVCF: the ".vcf" test, through NameEndsWith. */
  function IsVcf(path: Option<Path>): Result<bool, Failure> {
    NameEndsWith(path, VcfExtension)
  }

  /** isCompressedVCF: a null path is not compressed, and it never throws. */
  predicate IsCompressedVcf(blockCompressed: Path -> bool, path: Option<Path>)
    ensures path.None? ==> !IsCompressedVcf(blockCompressed, path)
    ensures path.Some? ==> (IsCompressedVcf(blockCompressed, path) <==> blockCompressed(path.value))
  {
    path.Some? && blockCompressed(path.value)
  }

  /** The last resort: an existing path that is neither a regular file nor a directory (a
      named pipe, a device) is written to as a VCF stream. */
  function ByFileKind(fs: FileSystem, p: Path): (r: OutputType)
    ensures r == VcfStream <==> p in fs.kinds && fs.kinds[p] == SpecialFile
    ensures r != VcfStream ==> r == Unspecified
  {
    if Exists(fs, p) && !IsRegularFile(fs, p) && !IsDirectory(fs, p) then VcfStream else Unspecified
  }

  /** Recursion happens at most once: the real path's own real path is itself. */
  function LinkDepth(fs: FileSystem, path: Option<Path>): nat {
    if path.Some? && RealPath(fs, path.value).Resolved? && RealPath(fs, path.value).canonical != path.value
    then 1 else 0
  }

  /** determineOutputTypeFromFile(Path). */
  function DetermineOutputType(fs: FileSystem, blockCompressed: Path -> bool, path: Option<Path>)
    : (r: Result<OutputType, Failure>)
    requires WellFormed(fs)
    decreases LinkDepth(fs, path)
    ensures r.Ok? ==> r.value != BcfStream
    ensures path.None? ==> r == Err(NullPointer)
    ensures r == Ok(VcfStream) ==>
      path.Some? && Canonical(fs, path.value) in fs.kinds && fs.kinds[Canonical(fs, path.value)] == SpecialFile
    ensures r == Ok(Unspecified) ==>
      path.Some? && !(Canonical(fs, path.value) in fs.kinds && fs.kinds[Canonical(fs, path.value)] == SpecialFile)
  {
    var bcf :- IsBcf(path);
    if bcf then Ok(Bcf)
    else if IsCompressedVcf(blockCompressed, path) then Ok(BlockCompressedVcf)
    else
      // isBCF did not throw, so neither does isVCF
      if IsVcf(path) == Ok(true) then Ok(Vcf)
      else if path.None? then Err(NullPointer)
      else
        var p := path.value;
        match RealPath(fs, p)
        case RealPathError => Err(RealPathFailed(p))
        case NoSuchFile => Ok(ByFileKind(fs, p))
        case Resolved(q) =>
          if q != p then
            assert RealPath(fs, q) == Resolved(q);
            DetermineOutputType(fs, blockCompressed, Some(q))
          else Ok(ByFileKind(fs, p))
  }

  /** The type a file name alone gives, in the order the code tests: ".bcf", then a
      block-compressed extension, then ".vcf". */
  function SuffixType(blockCompressed: Path -> bool, p: Path, name: string): Option<OutputType> {
    if EndsWith(name, BcfExtension) then Some(Bcf)
    else if blockCompressed(p) then Some(BlockCompressedVcf)
    else if EndsWith(name, VcfExtension) then Some(Vcf)
    else None
  }

  /** An independent, non-recursive statement of the inference: the path's own name, then
      its real path's name, then the kind of whatever it resolves to. */
  function ReferenceType(fs: FileSystem, blockCompressed: Path -> bool, p: Path): Result<OutputType, Failure> {
    match FileName(p)
    case None => Err(NullPointer)
    case Some(name) =>
      if SuffixType(blockCompressed, p, name).Some? then Ok(SuffixType(blockCompressed, p, name).value)
      else
        match RealPath(fs, p)
        case RealPathError => Err(RealPathFailed(p))
        case NoSuchFile => Ok(ByFileKind(fs, p))
        case Resolved(q) =>
          match FileName(q)
          case None => Err(NullPointer)
          case Some(realName) => Ok(SuffixType(blockCompressed, q, realName).GetOr(ByFileKind(fs, q)))
  }

  /** The recursive inference follows at most one link and agrees with the reference. */
  lemma {:induction false} InferenceMatchesReference(fs: FileSystem, blockCompressed: Path -> bool, p: Path)
    requires WellFormed(fs)
    ensures DetermineOutputType(fs, blockCompressed, Some(p)) == ReferenceType(fs, blockCompressed, p)
  {
    match RealPath(fs, p)
    case Resolved(q) =>
      assert RealPath(fs, q) == Resolved(q);
    case _ =>
  }

  /** Following a link: a path without a recognised name that resolves elsewhere gets
      exactly the type of its real path. */
  lemma {:induction false} FollowsLink(fs: FileSystem, blockCompressed: Path -> bool, p: Path, q: Path)
    requires WellFormed(fs)
    requires p.names != [] && SuffixType(blockCompressed, p, FileName(p).value).None?
    requires RealPath(fs, p) == Resolved(q)
    ensures DetermineOutputType(fs, blockCompressed, Some(p)) == DetermineOutputType(fs, blockCompressed, Some(q))
  {
    if q != p {
      assert RealPath(fs, q) == Resolved(q);
    }
  }

  /** A recognised name decides the type whatever the filesystem holds. */
  lemma NameDecides(fs: FileSystem, blockCompressed: Path -> bool, p: Path)
    requires WellFormed(fs)
    requires p.names != [] && SuffixType(blockCompressed, p, FileName(p).value).Some?
    ensures DetermineOutputType(fs, blockCompressed, Some(p)) == Ok(SuffixType(blockCompressed, p, FileName(p).value).value)
  {
  }

  /** A path that does not exist and has no recognised name is UNSPECIFIED. */
  lemma MissingUnnamedIsUnspecified(fs: FileSystem, blockCompressed: Path -> bool, p: Path)
    requires WellFormed(fs)
    requires p.names != [] && SuffixType(blockCompressed, p, FileName(p).value).None?
    requires RealPath(fs, p) == NoSuchFile
    ensures DetermineOutputType(fs, blockCompressed, Some(p)) == Ok(Unspecified)
  {
    assert !Exists(fs, p);
  }
}
