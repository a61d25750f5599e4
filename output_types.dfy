/** The output representations, the writer options, and the FORCE_BCF retyping. */
module OutputTypes {

  datatype OutputType = Unspecified | Vcf | Bcf | BlockCompressedVcf | VcfStream | BcfStream

  const FileTypes: set<OutputType> := {Vcf, Bcf, BlockCompressedVcf}
  const StreamTypes: set<OutputType> := {VcfStream, BcfStream}

  /** The boolean flags of Options. */
  datatype WriterOption =
    | IndexOnTheFly
    | DoNotWriteGenotypes
    | AllowMissingFieldsInHeader
    | ForceBcf
    | UseAsyncIo
    | WriteFullFormatField

  /** DEFAULT_OPTIONS as the class initialiser creates it, and NO_OPTIONS. */
  const InitialDefaultOptions: set<WriterOption> := {IndexOnTheFly}
  const NoOptions: set<WriterOption> := {}

  /** The type `build` assembles: FORCE_BCF turns every file type into BCF and every stream
      type into BCF_STREAM, and otherwise the declared type is kept. The three
      postconditions on kind and the one on the forced range determine the result. */
  function EffectiveType(declared: OutputType, options: set<WriterOption>): (r: OutputType)
    ensures ForceBcf !in options ==> r == declared
    ensures r in FileTypes <==> declared in FileTypes
    ensures r in StreamTypes <==> declared in StreamTypes
    ensures r == Unspecified <==> declared == Unspecified
    ensures ForceBcf in options ==> r in {Unspecified, Bcf, BcfStream}
  {
    if ForceBcf in options then
      if declared in FileTypes then Bcf
      else if declared in StreamTypes then BcfStream
      else assert declared == Unspecified; declared
    else declared
  }
}
