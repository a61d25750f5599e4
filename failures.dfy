/** The exceptions the builder throws, one constructor per throw site. */
module Failures {
  import opened Paths

  datatype Failure =
    | NullPointer                   // a null path, or a root path's null file name, is dereferenced
    | RealPathFailed(path: Path)    // toRealPath failed other than with NoSuchFile: RuntimeIOException
    | NotAFileType                  // setOutputFileType with a type outside FILE_TYPES
    | NotWritingToFile              // setOutputFileType when the target is not a path
    | CannotOpen(path: Path)        // Files.newOutputStream failed: RuntimeIOException "File not found"
    | UnspecifiedOutputType         // build with an UNSPECIFIED effective type
    | MissingReferenceDictionary    // build indexing VCF/BCF on the fly without a dictionary
}
