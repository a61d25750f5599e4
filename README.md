# VariantContextWriterBuilder, modelled in Dafny

This project models the core of htsjdk's `VariantContextWriterBuilder`, the object that
turns accumulated settings into a VCF/BCF writer. It covers three parts:

- **Output-type inference** (`determineOutputTypeFromFile`, `isBCF`, `isCompressedVCF`,
  `isVCF`). A path is classified by its file name first: `.bcf`, then a block-compressed
  extension, then `.vcf`. Failing that, it is classified by its canonical path. Failing
  that, an existing special file (a named pipe or a device) is a VCF stream, and
  everything else is UNSPECIFIED.
- **Builder state and setters.** The builder is a class with the source's fields:
  `outType`, `outPath`, `outStream`, `idxCreator`, `bufferSize`, `createMd5`, `refDict`
  and the option set. Each setter says exactly which fields change. The object invariant
  is that at most one output target is set, a path or a stream.
- **`build()`** as a decision procedure. It works out the effective type under
  FORCE_BCF, whether a file is opened, and which byte layers wrap the stream (buffer, MD5
  digest, block compression). It picks the backend (VCFWriter or BCF2Writer) and the index
  creator, and decides whether the asynchronous wrapper is added. It also raises the error
  conditions and makes the permanent changes to the builder's fields.

Files:

- `paths.dfy`: paths (absolute flag plus name elements, so a root has a null file name)
  and the filesystem as an abstract value. The filesystem maps a path to a kind (regular
  file, directory, special file), gives the answer of `toRealPath`, and lists the paths
  that cannot be opened for writing.
- `failures.dfy`: one constructor per exception the builder throws.
- `output_types.dfy`: `OutputType`, FILE_TYPES and STREAM_TYPES, the options, and the
  FORCE_BCF retyping.
- `output_type_inference.dfy`: the inference itself, and a non-recursive reference
  definition it is proved equal to.
- `writer_plan.dfy`: the plan datatypes and `BuildSpec`, the pure statement of `build`
  over a snapshot of the fields, with the lemmas that relate several builds.
- `writer_builder.dfy`: the `VariantContextWriterBuilder` class, whose `Build` method is
  proved to produce what `BuildSpec` says, and the process-wide DEFAULT_OPTIONS set as a
  class of its own.

The filesystem is a parameter. `toRealPath` is assumed idempotent (`Paths.WellFormed`: a
canonical path is its own canonical path), and a path it reports missing does not
exist, since both follow links. Both hold of real filesystems. Under the first, the
symbolic-link recursion goes at most one level deep, so no fuel is needed. A symbolic-link
cycle is an I/O error from `toRealPath` in Java, and is modelled as `RealPathError`.
`IOUtil.hasBlockCompressedExtension` is not part of this model: it enters as a
parameter `blockCompressed: Path -> bool`. `Defaults.BUFFER_SIZE`, `Defaults.CREATE_MD5`
and `Defaults.USE_ASYNC_IO_WRITE_FOR_TRIBBLE` are constructor parameters.

Behaviour modelled as the code has it:

- The file name is tested for `.bcf` first, then for a block-compressed extension, then
  for `.vcf`. A name the block-compressed test accepts that also ends in `.bcf` is BCF.
- `build` is not free of side effects. For stream types it removes INDEX_ON_THE_FLY from
  the builder's own set, permanently. For block-compressed output it overwrites
  `idxCreator` with a Tabix creator. `BuildRepeatable` shows that a second build then
  gives the same result.
- The output file is opened before the reference-dictionary check. When that check
  throws, the file stays open: `Failed` records the opened path.
- BCF_STREAM hands the backend the `outStream` field, not the stream that was opened. A
  special file built with FORCE_BCF therefore gets a null stream
  (`ForcedBcfSpecialFileGetsNullStream`).
- FORCE_BCF maps BLOCK_COMPRESSED_VCF to BCF, so neither compression nor the Tabix
  creator is applied.
- `setOutputPath` assigns `outPath` and `outStream` before inferring the type. If the
  inference throws (a null path, a root path, an I/O error in `toRealPath`), the target
  has changed and `outType` has not.

## Model

| member | source | states |
|---|---|---|
| OutputTypes.EffectiveType | src/main/java/htsjdk/variant/variantcontext/writer/VariantContextWriterBuilder.java:433-441 | without FORCE_BCF the declared type is built; with it a file type becomes BCF and a stream type becomes BCF_STREAM; the kind (file, stream, unspecified) is always preserved |
| OutputTypeInference.NameEndsWith | src/main/java/htsjdk/variant/variantcontext/writer/VariantContextWriterBuilder.java:561-567 | the test behind `IsBcf` (`isBCF`) and `IsVcf` (`isVCF`): a null path matches no extension; a root path (null file name) throws; otherwise true exactly when the file name ends in the extension |
| OutputTypeInference.IsCompressedVcf | src/main/java/htsjdk/variant/variantcontext/writer/VariantContextWriterBuilder.java:569-574 | a null path is not compressed; otherwise the block-compressed extension test decides, and nothing is thrown |
| OutputTypeInference.ByFileKind | src/main/java/htsjdk/variant/variantcontext/writer/VariantContextWriterBuilder.java:553-557 | VCF_STREAM exactly for an existing path that is neither a regular file nor a directory, UNSPECIFIED otherwise |
| OutputTypeInference.DetermineOutputType | src/main/java/htsjdk/variant/variantcontext/writer/VariantContextWriterBuilder.java:532-559 | never BCF_STREAM; a null path throws; VCF_STREAM only when the canonical path is a special file, UNSPECIFIED only when it is not |
| OutputTypeInference.InferenceMatchesReference | src/main/java/htsjdk/variant/variantcontext/writer/VariantContextWriterBuilder.java:532-558 | the recursive inference equals a non-recursive reference: the path's own name, then its real path's name, then the kind of the file it resolves to (at most one link is followed) |
| OutputTypeInference.FollowsLink | src/main/java/htsjdk/variant/variantcontext/writer/VariantContextWriterBuilder.java:542-546 | a path with no recognised name that resolves to a canonical path gets exactly the canonical path's type |
| OutputTypeInference.NameDecides | src/main/java/htsjdk/variant/variantcontext/writer/VariantContextWriterBuilder.java:533-539 | a recognised name decides the type (`.bcf` before block-compressed before `.vcf`) whatever the filesystem holds |
| OutputTypeInference.MissingUnnamedIsUnspecified | src/main/java/htsjdk/variant/variantcontext/writer/VariantContextWriterBuilder.java:547-557 | a path `toRealPath` reports missing, with no recognised name, is UNSPECIFIED (it cannot exist either, since both tests follow links) |
| WriterPlans.OpenFile | src/main/java/htsjdk/variant/variantcontext/writer/VariantContextWriterBuilder.java:443-455 | opening succeeds exactly for a non-null, openable path (null throws, failure is "File not found"); a buffer layer exactly when the size is positive; an MD5 layer targeting `<path>.md5` exactly when asked; nothing else (the layer count is fixed), buffer innermost |
| WriterPlans.SelectWriter | src/main/java/htsjdk/variant/variantcontext/writer/VariantContextWriterBuilder.java:457-604 | UNSPECIFIED fails; VCF/BCF fail exactly when indexing on the fly without a dictionary, and every other case builds a writer; the backend follows the effective type; VCF, BCF and VCF_STREAM write to the stream opened before the switch, while BCF_STREAM is handed the `outStream` field; block compression is added, outermost, exactly for BLOCK_COMPRESSED_VCF, with the Tabix creator stored; stream output drops INDEX_ON_THE_FLY from the set and has no path; async exactly when USE_ASYNC_IO is set; the backend gets the dictionary, the index creator and INDEX_ON_THE_FLY as this build left them (so the Tabix creator, and no on-the-fly indexing for streams) and the DO_NOT_WRITE_GENOTYPES, ALLOW_MISSING_FIELDS_IN_HEADER and WRITE_FULL_FORMAT_FIELD flags of the set (createVCFWriter/createBCFWriter, 576-604); nothing else in the fields changes |
| WriterPlans.BuildSpec | src/main/java/htsjdk/variant/variantcontext/writer/VariantContextWriterBuilder.java:430-508 | a file is opened exactly for a file type, or a stream type without a stream, with an openable path; an UNSPECIFIED effective type fails with nothing opened; the dictionary error comes after the file was opened; buffer and MD5 layers only on the opened file, as configured |
| WriterPlans.BuildLayers | src/main/java/htsjdk/variant/variantcontext/writer/VariantContextWriterBuilder.java:443-479 | buffering appears exactly when the buffer size is positive and the MD5 digest, targeting `<path>.md5`, exactly when asked, and both only on the file that was opened; the layers run buffer, digest, block compression from innermost out, with nothing else; a caller's stream is used as given, with at most block compression around it |
| WriterPlans.SelectWriterRepeatable | src/main/java/htsjdk/variant/variantcontext/writer/VariantContextWriterBuilder.java:457-505 | the switch, run again on the fields it left, gives the same outcome and fields |
| WriterPlans.BuildRepeatable | src/main/java/htsjdk/variant/variantcontext/writer/VariantContextWriterBuilder.java:471-498 | building again with no change in between gives the same outcome and the same fields |
| WriterPlans.ForceBcfDoesNotPersist | src/main/java/htsjdk/variant/variantcontext/writer/VariantContextWriterBuilder.java:433-441 | FORCE_BCF on a file type builds BCF, and after unsetting it the declared type is built again |
| WriterPlans.ForceBcfSkipsCompression | src/main/java/htsjdk/variant/variantcontext/writer/VariantContextWriterBuilder.java:433-479 | FORCE_BCF on BLOCK_COMPRESSED_VCF builds BCF without a compression layer and leaves the index creator alone |
| WriterPlans.StreamBuildDropsIndexing | src/main/java/htsjdk/variant/variantcontext/writer/VariantContextWriterBuilder.java:486-498 | a stream build with INDEX_ON_THE_FLY succeeds, the writer does not index, and the option is gone from the builder's set |
| WriterPlans.ForcedBcfSpecialFileGetsNullStream | src/main/java/htsjdk/variant/variantcontext/writer/VariantContextWriterBuilder.java:443-501 | for a special-file path forced to BCF, the file is opened but the writer gets the null `outStream` |
| WriterBuilder.DefaultOptions.constructor | src/main/java/htsjdk/variant/variantcontext/writer/VariantContextWriterBuilder.java:109-110 | DEFAULT_OPTIONS starts as {INDEX_ON_THE_FLY} |
| WriterBuilder.DefaultOptions.SetDefaultOption | src/main/java/htsjdk/variant/variantcontext/writer/VariantContextWriterBuilder.java:370-372 | adds exactly the one option to the defaults |
| WriterBuilder.DefaultOptions.UnsetDefaultOption | src/main/java/htsjdk/variant/variantcontext/writer/VariantContextWriterBuilder.java:381-383 | removes exactly the one option from the defaults |
| WriterBuilder.DefaultsAreCopied | src/main/java/htsjdk/variant/variantcontext/writer/VariantContextWriterBuilder.java:133-142 | setting or unsetting a default option leaves every existing builder's fields, its copied option set among them, unchanged |
| WriterBuilder.VariantContextWriterBuilder.constructor | src/main/java/htsjdk/variant/variantcontext/writer/VariantContextWriterBuilder.java:126-142 | no target, UNSPECIFIED, no dictionary or creator, default buffer and MD5 flag, options a copy of the defaults plus USE_ASYNC_IO when the default flag is set |
| WriterBuilder.VariantContextWriterBuilder.SetReferenceDictionary | src/main/java/htsjdk/variant/variantcontext/writer/VariantContextWriterBuilder.java:150-153 | only `refDict` changes |
| WriterBuilder.VariantContextWriterBuilder.SetOutputPath | src/main/java/htsjdk/variant/variantcontext/writer/VariantContextWriterBuilder.java:173-178 | sets the path, clears the stream, and sets the type to the inferred one; if inference throws, the type is unchanged; nothing else changes |
| WriterBuilder.VariantContextWriterBuilder.SetOutputFileType | src/main/java/htsjdk/variant/variantcontext/writer/VariantContextWriterBuilder.java:197-206 | throws with nothing changed for a non-file type, or when there is no path or there is a stream; otherwise only `outType` changes |
| WriterBuilder.VariantContextWriterBuilder.SetOutputVcfStream | src/main/java/htsjdk/variant/variantcontext/writer/VariantContextWriterBuilder.java:215-220 | sets the stream, clears the path, type VCF_STREAM; nothing else changes |
| WriterBuilder.VariantContextWriterBuilder.SetOutputBcfStream | src/main/java/htsjdk/variant/variantcontext/writer/VariantContextWriterBuilder.java:229-234 | sets the stream, clears the path, type BCF_STREAM; nothing else changes |
| WriterBuilder.VariantContextWriterBuilder.SetOutputStream | src/main/java/htsjdk/variant/variantcontext/writer/VariantContextWriterBuilder.java:243-245 | same as the VCF stream setter |
| WriterBuilder.VariantContextWriterBuilder.SetIndexCreator | src/main/java/htsjdk/variant/variantcontext/writer/VariantContextWriterBuilder.java:253-256 | only `idxCreator` changes |
| WriterBuilder.VariantContextWriterBuilder.ClearIndexCreator | src/main/java/htsjdk/variant/variantcontext/writer/VariantContextWriterBuilder.java:263-266 | only `idxCreator` changes, to null |
| WriterBuilder.VariantContextWriterBuilder.SetBuffer | src/main/java/htsjdk/variant/variantcontext/writer/VariantContextWriterBuilder.java:276-279 | only `bufferSize` changes |
| WriterBuilder.VariantContextWriterBuilder.UnsetBuffering | src/main/java/htsjdk/variant/variantcontext/writer/VariantContextWriterBuilder.java:287-290 | only `bufferSize` changes, to 0 |
| WriterBuilder.VariantContextWriterBuilder.SetCreateMd5To | src/main/java/htsjdk/variant/variantcontext/writer/VariantContextWriterBuilder.java:298-301 | only `createMd5` changes |
| WriterBuilder.VariantContextWriterBuilder.SetCreateMd5 | src/main/java/htsjdk/variant/variantcontext/writer/VariantContextWriterBuilder.java:308-310 | only `createMd5` changes, to true |
| WriterBuilder.VariantContextWriterBuilder.UnsetCreateMd5 | src/main/java/htsjdk/variant/variantcontext/writer/VariantContextWriterBuilder.java:317-319 | only `createMd5` changes, to false |
| WriterBuilder.VariantContextWriterBuilder.SetOptions | src/main/java/htsjdk/variant/variantcontext/writer/VariantContextWriterBuilder.java:327-330 | the option set is replaced; nothing else changes |
| WriterBuilder.VariantContextWriterBuilder.SetOption | src/main/java/htsjdk/variant/variantcontext/writer/VariantContextWriterBuilder.java:338-341 | adds exactly the one option |
| WriterBuilder.VariantContextWriterBuilder.UnsetOption | src/main/java/htsjdk/variant/variantcontext/writer/VariantContextWriterBuilder.java:349-352 | removes exactly the one option |
| WriterBuilder.VariantContextWriterBuilder.ModifyOption | src/main/java/htsjdk/variant/variantcontext/writer/VariantContextWriterBuilder.java:360-362 | the same as setting the option when the flag is true, and as unsetting it when false |
| WriterBuilder.VariantContextWriterBuilder.ClearOptions | src/main/java/htsjdk/variant/variantcontext/writer/VariantContextWriterBuilder.java:390-393 | the option set becomes empty |
| WriterBuilder.VariantContextWriterBuilder.IsOptionSet | src/main/java/htsjdk/variant/variantcontext/writer/VariantContextWriterBuilder.java:400-402 | reports membership in the option set |
| WriterBuilder.VariantContextWriterBuilder.Build | src/main/java/htsjdk/variant/variantcontext/writer/VariantContextWriterBuilder.java:430-508 | returns the outcome `BuildSpec` gives for the fields before the call, and leaves the fields `BuildSpec` gives; the at-most-one-target invariant is kept |
| WriterBuilder.VariantContextWriterBuilder.BuildWriter | src/main/java/htsjdk/variant/variantcontext/writer/VariantContextWriterBuilder.java:457-507 | the switch over the type to build, computed under FORCE_BCF without writing `outType`, yields what `SelectWriter` gives and the fields it leaves |

## Left out

- Real I/O: `Files.newOutputStream`, `toRealPath`, `Files.exists/isRegularFile/isDirectory` are answered by the abstract filesystem value. `OpenOption` arguments are not passed through, so `build()` and `build(OpenOption...)` are one operation. Opening a file does not change the filesystem value.
- The bytes written by `BlockCompressedOutputStream`, `Md5CalculatingOutputStream` and `IOUtil.maybeBufferOutputStream`: each is a layer tag. IOUtil.addExtension is taken to append `.md5` to the file name (`Paths.AddExtension`); its source is not part of this model.
- `VCFWriter`, `BCF2Writer` and `TabixIndexCreator` are records of their constructor arguments.
- `AsyncVariantContextWriter`: its queue and background thread are concurrency; the plan records only whether the wrapper is added.
- Logging of the stream-indexing warning.
- The `File` and `String` overloads of `setOutputFile` and `determineOutputTypeFromFile`, which only convert to a `Path`.
- Fluent chaining: setters return nothing instead of `this`.
- SetOptions: a null option set is not modelled. `setOptions(null)` stores null, after which `setOption`, `unsetOption`, `isOptionSet` and `build` throw NullPointerException; the model's option set is a value and is never null.
- Aliasing: `setOptions` stores the caller's `EnumSet` itself, so later changes by the caller would show in the builder. Sets are values here, so the model does not capture this.
- Concurrent mutation of the default option set.
