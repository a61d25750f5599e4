/** VariantContextWriterBuilder: the fluent configuration object and its `build`. The
    process-wide DEFAULT_OPTIONS set is an object of its own that constructors copy. */
module WriterBuilder {
  import opened Wrappers
  import opened Paths
  import opened Failures
  import opened OutputTypes
  import opened OutputTypeInference
  import opened WriterPlans

  /** The static, mutable DEFAULT_OPTIONS set. */
  class DefaultOptions {
    var options: set<WriterOption>

    constructor ()
      ensures options == InitialDefaultOptions
    {
      options := InitialDefaultOptions;
    }

    /** setDefaultOption: affects only builders constructed afterwards. */
    method SetDefaultOption(option: WriterOption)
      modifies this
      ensures options == old(options) + {option}
    {
      options := options + {option};
    }

    /** unsetDefaultOption. */
    method UnsetDefaultOption(option: WriterOption)
      modifies this
      ensures options == old(options) - {option}
    {
      options := options - {option};
    }
  }

  class VariantContextWriterBuilder {
    var refDict: Option<SequenceDictionary>
    var outType: OutputType
    var outPath: Option<Path>
    var outStream: Option<Stream>
    var idxCreator: Option<IndexCreator>
    var bufferSize: int32
    var createMd5: bool
    var options: set<WriterOption>

    /** The fields as a value. */
    function State(): BuilderState
      reads this
    {
      BuilderState(refDict, outType, outPath, outStream, idxCreator, bufferSize, createMd5, options)
    }

    /** At most one output target is set: a path or a stream. */
    ghost predicate Valid()
      reads this
    {
      outPath.None? || outStream.None?
    }

    /** The constructor: Defaults.BUFFER_SIZE, Defaults.CREATE_MD5 and
        Defaults.USE_ASYNC_IO_WRITE_FOR_TRIBBLE are parameters; the option set is a copy of
        the defaults, plus USE_ASYNC_IO when asked. */
    constructor (defaults: DefaultOptions, useAsyncIoWriteForTribble: bool,
                 defaultBufferSize: int32, defaultCreateMd5: bool)
      ensures Valid()
      ensures State() == BuilderState(None, Unspecified, None, None, None, defaultBufferSize, defaultCreateMd5,
                                      defaults.options + (if useAsyncIoWriteForTribble then {UseAsyncIo} else {}))
    {
      refDict, outType, outPath, outStream, idxCreator := None, Unspecified, None, None, None;
      bufferSize, createMd5 := defaultBufferSize, defaultCreateMd5;
      options := defaults.options;
      if useAsyncIoWriteForTribble {
        options := options + {UseAsyncIo};
      }
    }

    method SetReferenceDictionary(dict: Option<SequenceDictionary>)
      requires Valid()
      modifies this
      ensures Valid() && State() == old(State()).(refDict := dict)
    {
      refDict := dict;
    }

    /** setOutputPath: the path replaces any stream, and the type is inferred from it. The
        fields are assigned before the inference runs, so when it throws, the target has
        changed and the type has not. */
    method SetOutputPath(fs: FileSystem, blockCompressed: Path -> bool, path: Option<Path>)
      returns (outcome: Outcome<Failure>)
      requires Valid() && WellFormed(fs)
      modifies this
      ensures Valid()
      ensures var inferred := DetermineOutputType(fs, blockCompressed, path);
        State() == old(State()).(outPath := path, outStream := None,
                                 outType := if inferred.Ok? then inferred.value else old(outType)) &&
        outcome == if inferred.Ok? then Pass else Fail(inferred.error)
    {
      outPath := path;
      outStream := None;
      var inferred := DetermineOutputType(fs, blockCompressed, path);
      if inferred.Err? {
        return Fail(inferred.error);
      }
      outType := inferred.value;
      outcome := Pass;
    }

    /** setOutputFileType: only a file type, and only when the target is a path. */
    method SetOutputFileType(t: OutputType) returns (outcome: Outcome<Failure>)
      requires Valid()
      modifies this
      ensures Valid()
      ensures t !in FileTypes ==> outcome == Fail(NotAFileType) && State() == old(State())
      ensures t in FileTypes && (old(outPath).None? || old(outStream).Some?) ==>
        outcome == Fail(NotWritingToFile) && State() == old(State())
      ensures t in FileTypes && old(outPath).Some? && old(outStream).None? ==>
        outcome == Pass && State() == old(State()).(outType := t)
    {
      if t !in FileTypes {
        return Fail(NotAFileType);
      }
      if outPath.None? || outStream.Some? {
        return Fail(NotWritingToFile);
      }
      outType := t;
      outcome := Pass;
    }

    /** setOutputVCFStream: the stream replaces any path. */
    method SetOutputVcfStream(stream: Option<Stream>)
      requires Valid()
      modifies this
      ensures Valid()
      ensures State() == old(State()).(outStream := stream, outPath := None, outType := VcfStream)
    {
      outStream := stream;
      outPath := None;
      outType := VcfStream;
    }

    /** setOutputBCFStream. */
    method SetOutputBcfStream(stream: Option<Stream>)
      requires Valid()
      modifies this
      ensures Valid()
      ensures State() == old(State()).(outStream := stream, outPath := None, outType := BcfStream)
    {
      outStream := stream;
      outPath := None;
      outType := BcfStream;
    }

    /** setOutputStream: a VCF stream. */
    method SetOutputStream(stream: Option<Stream>)
      requires Valid()
      modifies this
      ensures Valid()
      ensures State() == old(State()).(outStream := stream, outPath := None, outType := VcfStream)
    {
      SetOutputVcfStream(stream);
    }

    method SetIndexCreator(creator: Option<IndexCreator>)
      requires Valid()
      modifies this
      ensures Valid() && State() == old(State()).(idxCreator := creator)
    {
      idxCreator := creator;
    }

    method ClearIndexCreator()
      requires Valid()
      modifies this
      ensures Valid() && State() == old(State()).(idxCreator := None)
    {
      idxCreator := None;
    }

    method SetBuffer(size: int32)
      requires Valid()
      modifies this
      ensures Valid() && State() == old(State()).(bufferSize := size)
    {
      bufferSize := size;
    }

    method UnsetBuffering()
      requires Valid()
      modifies this
      ensures Valid() && State() == old(State()).(bufferSize := 0)
    {
      bufferSize := 0;
    }

    /** setCreateMD5(boolean). */
    method SetCreateMd5To(create: bool)
      requires Valid()
      modifies this
      ensures Valid() && State() == old(State()).(createMd5 := create)
    {
      createMd5 := create;
    }

    /** setCreateMD5(). */
    method SetCreateMd5()
      requires Valid()
      modifies this
      ensures Valid() && State() == old(State()).(createMd5 := true)
    {
      SetCreateMd5To(true);
    }

    method UnsetCreateMd5()
      requires Valid()
      modifies this
      ensures Valid() && State() == old(State()).(createMd5 := false)
    {
      SetCreateMd5To(false);
    }

    /** setOptions: the builder's set is replaced by the given one. */
    method SetOptions(newOptions: set<WriterOption>)
      requires Valid()
      modifies this
      ensures Valid() && State() == old(State()).(options := newOptions)
    {
      options := newOptions;
    }

    method SetOption(option: WriterOption)
      requires Valid()
      modifies this
      ensures Valid() && State() == old(State()).(options := old(options) + {option})
    {
      options := options + {option};
    }

    method UnsetOption(option: WriterOption)
      requires Valid()
      modifies this
      ensures Valid() && State() == old(State()).(options := old(options) - {option})
    {
      options := options - {option};
    }

    /** modifyOption: setOption when `setIt`, unsetOption otherwise. */
    method ModifyOption(option: WriterOption, setIt: bool)
      requires Valid()
      modifies this
      ensures Valid()
      ensures State() == old(State()).(options := if setIt then old(options) + {option} else old(options) - {option})
    {
      if setIt {
        SetOption(option);
      } else {
        UnsetOption(option);
      }
    }

    /** clearOptions: a fresh copy of NO_OPTIONS. */
    method ClearOptions()
      requires Valid()
      modifies this
      ensures Valid() && State() == old(State()).(options := {})
    {
      options := NoOptions;
    }

    method IsOptionSet(option: WriterOption) returns (isSet: bool)
      ensures isSet <==> option in options
    {
      isSet := option in options;
    }

    /** build(OpenOption...): the plan BuildSpec gives, and the fields it leaves behind. */
    method Build(fs: FileSystem) returns (outcome: BuildOutcome)
      requires Valid()
      modifies this
      ensures Valid()
      ensures BuildStep(outcome, State()) == BuildSpec(old(State()), fs)
    {
      var sink := Sink(CallerStream(outStream), []);
      var file: Option<Path> := None;
      // a file type, or a special file whose stream is not open yet
      if outType in FileTypes || (outType in StreamTypes && outStream.None?) {
        var fromFile := OpenFile(fs, outPath, bufferSize, createMd5);
        if fromFile.Err? {
          return Failed(fromFile.error, None);
        }
        sink, file := fromFile.value, outPath;
      }
      outcome := BuildWriter(file, sink);
    }

    /** The switch of `build` over the type to build, with the file already opened. */
    method BuildWriter(file: Option<Path>, sink: Sink) returns (outcome: BuildOutcome)
      requires Valid()
      modifies this
      ensures Valid()
      ensures BuildStep(outcome, State()) == SelectWriter(old(State()), file, sink)
    {
      // FORCE_BCF changes the type built, never outType itself
      var typeToBuild := outType;
      if ForceBcf in options {
        if outType in FileTypes {
          typeToBuild := Bcf;
        } else if outType in StreamTypes {
          typeToBuild := BcfStream;
        }
      }
      assert typeToBuild == EffectiveType(outType, options);

      var writer: Writer;
      match typeToBuild {
        case Unspecified =>
          return Failed(UnspecifiedOutputType, file);
        case Vcf =>
          if refDict.None? && IndexOnTheFly in options {
            return Failed(MissingReferenceDictionary, file);
          }
          writer := CreateVcfWriter(State(), outPath, sink);
        case BlockCompressedVcf =>
          idxCreator := Some(TabixVcfCreator(refDict));
          writer := CreateVcfWriter(State(), outPath, Sink(sink.base, sink.layers + [BlockCompressed(outPath)]));
        case Bcf =>
          if refDict.None? && IndexOnTheFly in options {
            return Failed(MissingReferenceDictionary, file);
          }
          writer := CreateBcfWriter(State(), outPath, sink);
        case VcfStream =>
          if IndexOnTheFly in options {
            options := options - {IndexOnTheFly};
          }
          writer := CreateVcfWriter(State(), None, sink);
        case BcfStream =>
          if IndexOnTheFly in options {
            options := options - {IndexOnTheFly};
          }
          writer := CreateBcfWriter(State(), None, Sink(CallerStream(outStream), []));
      }
      outcome := Built(Plan(file, writer, UseAsyncIo in options));
    }
  }

  /** Changing the defaults leaves every existing builder alone: a builder holds its own
      copy of the set, taken when it was constructed. */
  method DefaultsAreCopied(defaults: DefaultOptions, option: WriterOption, setIt: bool,
                           builder: VariantContextWriterBuilder)
    modifies defaults
    ensures defaults.options == if setIt then old(defaults.options) + {option} else old(defaults.options) - {option}
    ensures builder.State() == old(builder.State())
  {
    if setIt {
      defaults.SetDefaultOption(option);
    } else {
      defaults.UnsetDefaultOption(option);
    }
  }
}
