/** What `build()` produces and how it changes the builder: the writer plan (backend,
    byte layers, index creator, asynchronous wrapper) as a value, and BuildSpec, the pure
    statement of `build(OpenOption...)` over a snapshot of the builder's fields. */
module WriterPlans {
  import opened Wrappers
  import opened Paths
  import opened Failures
  import opened OutputTypes

  /** Java's `int`, for the buffer size. */
  newtype int32 = x: int | -0x8000_0000 <= x < 0x8000_0000

  /** A SAMSequenceDictionary, by identity. */
  datatype SequenceDictionary = SequenceDictionary(id: nat)

  /** A caller-supplied OutputStream, by identity. */
  datatype Stream = Stream(id: nat)

  /** An IndexCreator: one the caller supplied, or the TabixIndexCreator(TabixFormat.VCF)
      that `build` makes for block-compressed output, with the dictionary when there is one. */
  datatype IndexCreator = SuppliedCreator(id: nat) | TabixVcfCreator(dict: Option<SequenceDictionary>)

  const Md5Extension := ".md5"

  /** A byte layer wrapped around the sink: IOUtil.maybeBufferOutputStream,
      Md5CalculatingOutputStream with its digest file, BlockCompressedOutputStream with the
      path it is given. */
  datatype Layer = Buffered(size: int32) | Md5Digest(sidecar: Path) | BlockCompressed(path: Option<Path>)

  /** The innermost stream: a file opened by `build`, or the builder's `outStream` field. */
  datatype SinkBase = OpenedFile(path: Path) | CallerStream(stream: Option<Stream>)

  /** A stream and the layers around it, innermost first. */
  datatype Sink = Sink(base: SinkBase, layers: seq<Layer>)

  /** The constructor arguments of the backend writer: VCFWriter or BCF2Writer. A `None`
      creator selects the constructor without an IndexCreator. */
  datatype Writer =
    | VcfWriter(path: Option<Path>, sink: Sink, dict: Option<SequenceDictionary>,
                creator: Option<IndexCreator>, indexOnTheFly: bool, doNotWriteGenotypes: bool,
                allowMissingFieldsInHeader: bool, writeFullFormatField: bool)
    | Bcf2Writer(path: Option<Path>, sink: Sink, dict: Option<SequenceDictionary>,
                 creator: Option<IndexCreator>, indexOnTheFly: bool, doNotWriteGenotypes: bool)

  /** A successful build: the file opened (if any), the backend, and whether it is wrapped in
      an AsyncVariantContextWriter. */
  datatype Plan = Plan(file: Option<Path>, writer: Writer, async: bool)

  /** What `build` returns or throws; a failure records the file already opened, if any. */
  datatype BuildOutcome = Built(plan: Plan) | Failed(failure: Failure, file: Option<Path>)

  function OpenedBy(outcome: BuildOutcome): Option<Path> {
    match outcome
    case Built(plan) => plan.file
    case Failed(_, file) => file
  }

  /** The builder's fields. */
  datatype BuilderState = BuilderState(
    refDict: Option<SequenceDictionary>,
    outType: OutputType,
    outPath: Option<Path>,
    outStream: Option<Stream>,
    idxCreator: Option<IndexCreator>,
    bufferSize: int32,
    createMd5: bool,
    options: set<WriterOption>)

  /** The result of `build` and the builder's fields afterwards. */
  datatype BuildStep = BuildStep(outcome: BuildOutcome, after: BuilderState)

  /** `build` opens the output path for a file type, and for a stream type that has no
      stream (a special file found by inference). */
  predicate OpensFile(s: BuilderState) {
    s.outType in FileTypes || (s.outType in StreamTypes && s.outStream.None?)
  }

  /** Opening the output path: Files.newOutputStream, then a buffer of `bufferSize` bytes
      when it is positive, then an MD5 digest writing to "<path>.md5" when asked for. */
  function OpenFile(fs: FileSystem, outPath: Option<Path>, bufferSize: int32, createMd5: bool)
    : (r: Result<Sink, Failure>)
    ensures r.Ok? <==> outPath.Some? && CanOpen(fs, outPath.value)
    ensures outPath.None? ==> r == Err(NullPointer)
    ensures r.Err? && outPath.Some? ==> r.error == CannotOpen(outPath.value)
    ensures r.Ok? ==> r.value.base == OpenedFile(outPath.value)
    ensures r.Ok? ==> (Buffered(bufferSize) in r.value.layers <==> bufferSize > 0)
    ensures r.Ok? ==> forall l :: l in r.value.layers ==>
      l == Buffered(bufferSize) || (createMd5 && l == Md5Digest(AddExtension(outPath.value, Md5Extension)))
    ensures r.Ok? && createMd5 ==> Md5Digest(AddExtension(outPath.value, Md5Extension)) in r.value.layers
    ensures r.Ok? ==> |r.value.layers| == (if bufferSize > 0 then 1 else 0) + (if createMd5 then 1 else 0)
    ensures r.Ok? && bufferSize > 0 ==> r.value.layers[0] == Buffered(bufferSize)
  {
    match outPath
    case None => Err(NullPointer)
    case Some(p) =>
      if !CanOpen(fs, p) then Err(CannotOpen(p))
      else
        var buffered := if bufferSize > 0 then [Buffered(bufferSize)] else [];
        var digested := if createMd5 then buffered + [Md5Digest(AddExtension(p, Md5Extension))] else buffered;
        Ok(Sink(OpenedFile(p), digested))
  }

  /** createVCFWriter: the builder's dictionary, index creator and four flags go to VCFWriter. */
  function CreateVcfWriter(s: BuilderState, path: Option<Path>, sink: Sink): Writer {
    VcfWriter(path, sink, s.refDict, s.idxCreator,
              IndexOnTheFly in s.options, DoNotWriteGenotypes in s.options,
              AllowMissingFieldsInHeader in s.options, WriteFullFormatField in s.options)
  }

  /** createBCFWriter: BCF2Writer takes the dictionary, the creator and two of the flags. */
  function CreateBcfWriter(s: BuilderState, path: Option<Path>, sink: Sink): Writer {
    Bcf2Writer(path, sink, s.refDict, s.idxCreator,
               IndexOnTheFly in s.options, DoNotWriteGenotypes in s.options)
  }

  /** A finished build: the async wrapper is added exactly when USE_ASYNC_IO is set. */
  function Finish(after: BuilderState, file: Option<Path>, writer: Writer): BuildStep {
    BuildStep(Built(Plan(file, writer, UseAsyncIo in after.options)), after)
  }

  /** The dictionary check of the VCF and BCF cases. */
  predicate NeedsDictionary(s: BuilderState) {
    s.refDict.None? && IndexOnTheFly in s.options
  }

  /** The switch of `build` over the effective type, given the file opened (if any) and
      the stream the writer would get (lines 457-505). */
  function SelectWriter(s: BuilderState, file: Option<Path>, sink: Sink): (r: BuildStep)
    // only the option set and the index creator are ever written; outType is not
    ensures r.after == s.(options := r.after.options, idxCreator := r.after.idxCreator)
    ensures r.after.options ==
      if r.outcome.Built? && EffectiveType(s.outType, s.options) in StreamTypes
      then s.options - {IndexOnTheFly} else s.options
    ensures r.after.idxCreator ==
      if r.outcome.Built? && EffectiveType(s.outType, s.options) == BlockCompressedVcf
      then Some(TabixVcfCreator(s.refDict)) else s.idxCreator
    ensures OpenedBy(r.outcome) == file
    ensures EffectiveType(s.outType, s.options) == Unspecified ==>
      r.outcome == Failed(UnspecifiedOutputType, file)
    ensures r.outcome.Failed? ==> r.outcome.failure in {UnspecifiedOutputType, MissingReferenceDictionary}
    ensures r.outcome.Failed? && r.outcome.failure == MissingReferenceDictionary <==>
      EffectiveType(s.outType, s.options) in {Vcf, Bcf} && NeedsDictionary(s)
    // the backend follows the effective type
    ensures r.outcome.Built? ==>
      (r.outcome.plan.writer.Bcf2Writer? <==> EffectiveType(s.outType, s.options) in {Bcf, BcfStream})
    ensures r.outcome.Built? ==> r.outcome.plan.async == (UseAsyncIo in s.options)
    // the backend sees the dictionary, and the creator and options as this build left them
    ensures r.outcome.Built? ==>
      var w := r.outcome.plan.writer;
      w.dict == s.refDict && w.creator == r.after.idxCreator &&
      (w.indexOnTheFly <==> IndexOnTheFly in r.after.options) &&
      (w.doNotWriteGenotypes <==> DoNotWriteGenotypes in s.options) &&
      (w.VcfWriter? ==>
        (w.allowMissingFieldsInHeader <==> AllowMissingFieldsInHeader in s.options) &&
        (w.writeFullFormatField <==> WriteFullFormatField in s.options))
    // block compression is added, outermost, exactly for block-compressed output
    // a writer is built exactly when neither check fails
    ensures r.outcome.Built? <==>
      EffectiveType(s.outType, s.options) != Unspecified &&
      !(EffectiveType(s.outType, s.options) in {Vcf, Bcf} && NeedsDictionary(s))
    // VCF, BCF and VCF_STREAM write to the stream opened before the switch ...
    ensures r.outcome.Built? && EffectiveType(s.outType, s.options) in {Vcf, Bcf, VcfStream} ==>
      r.outcome.plan.writer.sink == sink
    // ... but BCF_STREAM is handed the outStream field
    ensures r.outcome.Built? && EffectiveType(s.outType, s.options) == BcfStream ==>
      r.outcome.plan.writer.sink == Sink(CallerStream(s.outStream), [])
    ensures r.outcome.Built? && EffectiveType(s.outType, s.options) == BlockCompressedVcf ==>
      r.outcome.plan.writer.sink == Sink(sink.base, sink.layers + [BlockCompressed(s.outPath)]) &&
      r.outcome.plan.writer.creator == Some(TabixVcfCreator(s.refDict))
    // stream output never indexes on the fly and has no path
    ensures r.outcome.Built? && EffectiveType(s.outType, s.options) in StreamTypes ==>
      !r.outcome.plan.writer.indexOnTheFly && r.outcome.plan.writer.path.None?
    ensures r.outcome.Built? && EffectiveType(s.outType, s.options) in FileTypes ==>
      r.outcome.plan.writer.path == s.outPath && r.outcome.plan.writer.sink.base == sink.base
  {
    match EffectiveType(s.outType, s.options)
    case Unspecified => BuildStep(Failed(UnspecifiedOutputType, file), s)
    case Vcf =>
      if NeedsDictionary(s) then BuildStep(Failed(MissingReferenceDictionary, file), s)
      else Finish(s, file, CreateVcfWriter(s, s.outPath, sink))
    case BlockCompressedVcf =>
      var t := s.(idxCreator := Some(TabixVcfCreator(s.refDict)));
      Finish(t, file, CreateVcfWriter(t, s.outPath, Sink(sink.base, sink.layers + [BlockCompressed(s.outPath)])))
    case Bcf =>
      if NeedsDictionary(s) then BuildStep(Failed(MissingReferenceDictionary, file), s)
      else Finish(s, file, CreateBcfWriter(s, s.outPath, sink))
    case VcfStream =>
      var t := s.(options := s.options - {IndexOnTheFly});
      Finish(t, file, CreateVcfWriter(t, None, sink))
    case BcfStream =>
      // the backend gets the outStream field, not the stream opened before the switch
      var t := s.(options := s.options - {IndexOnTheFly});
      Finish(t, file, CreateBcfWriter(t, None, Sink(CallerStream(s.outStream), [])))
  }

  /** build(OpenOption...), as written: open the output when the declared type asks for it,
      then select the writer. */
  function BuildSpec(s: BuilderState, fs: FileSystem): (r: BuildStep)
    // the file is opened exactly for file types and stream types without a stream
    ensures OpenedBy(r.outcome) ==
      if OpensFile(s) && s.outPath.Some? && CanOpen(fs, s.outPath.value) then s.outPath else None
    ensures OpensFile(s) && s.outPath.None? ==> r == BuildStep(Failed(NullPointer, None), s)
    ensures OpensFile(s) && s.outPath.Some? && !CanOpen(fs, s.outPath.value) ==>
      r == BuildStep(Failed(CannotOpen(s.outPath.value), None), s)
    // an unspecified type fails before anything is opened
    ensures EffectiveType(s.outType, s.options) == Unspecified ==>
      r == BuildStep(Failed(UnspecifiedOutputType, None), s)
    // the dictionary check fails only after the file was opened
    ensures r.outcome.Failed? && r.outcome.failure == MissingReferenceDictionary <==>
      EffectiveType(s.outType, s.options) in {Vcf, Bcf} && NeedsDictionary(s) && OpenedBy(r.outcome).Some?
  {
    if OpensFile(s) then
      match OpenFile(fs, s.outPath, s.bufferSize, s.createMd5)
      case Err(e) => BuildStep(Failed(e, None), s)
      case Ok(sink) => SelectWriter(s, s.outPath, sink)
    else SelectWriter(s, None, Sink(CallerStream(s.outStream), []))
  }

  /** The layers of a built writer: buffering and the digest only on the file that was
      opened, as configured; a caller's stream is the builder's own and gets at most block
      compression. */
  lemma BuildLayers(s: BuilderState, fs: FileSystem)
    ensures var r := BuildSpec(s, fs);
      r.outcome.Built? && r.outcome.plan.writer.sink.base.OpenedFile? ==>
        var p := r.outcome.plan.writer.sink.base.path;
        r.outcome.plan.file == Some(p) && p.names != [] &&
        (s.createMd5 <==> Md5Digest(AddExtension(p, Md5Extension)) in r.outcome.plan.writer.sink.layers) &&
        (s.bufferSize > 0 <==> Buffered(s.bufferSize) in r.outcome.plan.writer.sink.layers) &&
        // innermost to outermost: buffer, digest, block compression
        |r.outcome.plan.writer.sink.layers| ==
          (if s.bufferSize > 0 then 1 else 0) + (if s.createMd5 then 1 else 0) +
          (if EffectiveType(s.outType, s.options) == BlockCompressedVcf then 1 else 0) &&
        (s.bufferSize > 0 ==> r.outcome.plan.writer.sink.layers[0] == Buffered(s.bufferSize)) &&
        (EffectiveType(s.outType, s.options) == BlockCompressedVcf ==>
          r.outcome.plan.writer.sink.layers[|r.outcome.plan.writer.sink.layers| - 1] == BlockCompressed(s.outPath))
    ensures var r := BuildSpec(s, fs);
      r.outcome.Built? && r.outcome.plan.writer.sink.base.CallerStream? ==>
        r.outcome.plan.writer.sink.base.stream == s.outStream &&
        forall l :: l in r.outcome.plan.writer.sink.layers ==> l.BlockCompressed?
  {
    if OpensFile(s) {
      match OpenFile(fs, s.outPath, s.bufferSize, s.createMd5)
      case Err(_) =>
      case Ok(sink) =>
        assert BuildSpec(s, fs) == SelectWriter(s, s.outPath, sink);
    } else {
      assert BuildSpec(s, fs) == SelectWriter(s, None, Sink(CallerStream(s.outStream), []));
    }
  }

  /** A second `build` with nothing changed in between yields the same plan and leaves the
      fields as the first left them: the permanent side effects happen on the first call. */
  lemma BuildRepeatable(s: BuilderState, fs: FileSystem)
    ensures BuildSpec(BuildSpec(s, fs).after, fs) == BuildSpec(s, fs)
  {
    var a := BuildSpec(s, fs).after;
    assert OpensFile(a) == OpensFile(s);
    if OpensFile(s) {
      match OpenFile(fs, s.outPath, s.bufferSize, s.createMd5)
      case Err(_) =>
      case Ok(sink) => SelectWriterRepeatable(s, s.outPath, sink);
    } else {
      SelectWriterRepeatable(s, None, Sink(CallerStream(s.outStream), []));
    }
  }

  lemma SelectWriterRepeatable(s: BuilderState, file: Option<Path>, sink: Sink)
    ensures SelectWriter(SelectWriter(s, file, sink).after, file, sink) == SelectWriter(s, file, sink)
  {
    var a := SelectWriter(s, file, sink).after;
    match EffectiveType(s.outType, s.options)
    case Unspecified =>
    case Vcf =>
    case Bcf =>
    case BlockCompressedVcf =>
      assert a == s.(idxCreator := Some(TabixVcfCreator(s.refDict)));
    case VcfStream =>
      assert a.options == s.options - {IndexOnTheFly};
      assert EffectiveType(a.outType, a.options) == VcfStream;
    case BcfStream =>
      assert a.options == s.options - {IndexOnTheFly};
      assert EffectiveType(a.outType, a.options) == BcfStream;
  }

  /** FORCE_BCF on a declared file type builds BCF, and once the option is unset the next
      build sees the declared type again, because outType was never written. */
  lemma ForceBcfDoesNotPersist(s: BuilderState, fs: FileSystem)
    requires ForceBcf in s.options && s.outType in FileTypes
    ensures BuildSpec(s, fs).outcome.Built? ==> BuildSpec(s, fs).outcome.plan.writer.Bcf2Writer?
    ensures var unforced := BuildSpec(s, fs).after.(options := BuildSpec(s, fs).after.options - {ForceBcf});
      unforced.outType == s.outType &&
      EffectiveType(unforced.outType, unforced.options) == s.outType
  {
  }

  /** FORCE_BCF on block-compressed output builds plain BCF: no compression layer, and the
      Tabix creator is not installed. */
  lemma ForceBcfSkipsCompression(s: BuilderState, fs: FileSystem)
    requires ForceBcf in s.options && s.outType == BlockCompressedVcf
    ensures BuildSpec(s, fs).after.idxCreator == s.idxCreator
    ensures BuildSpec(s, fs).outcome.Built? ==>
      var w := BuildSpec(s, fs).outcome.plan.writer;
      w.Bcf2Writer? && forall l :: l in w.sink.layers ==> !l.BlockCompressed?
  {
  }

  /** Index-on-the-fly for stream output is dropped from the builder's own set, so it stays
      dropped for every later build. */
  lemma StreamBuildDropsIndexing(s: BuilderState, fs: FileSystem)
    requires s.outType in StreamTypes && s.outStream.Some? && IndexOnTheFly in s.options
    ensures BuildSpec(s, fs).outcome.Built?
    ensures BuildSpec(s, fs).after.options == s.options - {IndexOnTheFly}
    ensures !BuildSpec(s, fs).outcome.plan.writer.indexOnTheFly
  {
  }

  /** A special file found by inference, built with FORCE_BCF: the file is opened, but the
      BCF writer is handed the builder's null outStream instead. */
  lemma ForcedBcfSpecialFileGetsNullStream(s: BuilderState, fs: FileSystem)
    requires s.outType == VcfStream && s.outStream.None? && ForceBcf in s.options
    requires s.outPath.Some? && CanOpen(fs, s.outPath.value)
    ensures BuildSpec(s, fs).outcome.Built?
    ensures BuildSpec(s, fs).outcome.plan.file == s.outPath
    ensures BuildSpec(s, fs).outcome.plan.writer == CreateBcfWriter(BuildSpec(s, fs).after, None, Sink(CallerStream(None), []))
  {
  }
}
