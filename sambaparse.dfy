/** `SambaParse.run_ingest`: build the `unstructured-ingest` command from the configuration,
    raising on an unsupported source, a local source without a path, a missing API key or an
    unsupported destination; run it; then, when enabled, run the post-processing pass over the
    output directory and return its texts, records and documents. */
module SambaParse {
  import opened Wrappers
  import opened Text
  import opened IngestConfig
  import opened CommandBuilder
  import opened Normalizer

  /** What `run_ingest` raises: a configuration error before the tool runs, the tool's non-zero
      exit status (`check=True`), or an error of the post-processing pass. */
  datatype IngestError =
    | Configuration(reason: ConfigError)
    | CommandFailed(exitCode: int)
    | Processing(failure: ProcessingError)

  /** The keyword arguments `run_ingest` passes to `additional_processing`. */
  function OptionsFor(cfg: Config, additionalMetadata: Option<Record>): Options
  {
    var post := cfg.additionalProcessing;
    Options(post.extendMetadata, additionalMetadata, post.replaceTableText, post.tableTextKey, post.returnLangchainDocs)
  }

  /** Appending a group to the command keeps it the concatenation of the groups appended. */
  lemma Appended<T>(groups: seq<seq<T>>, g: seq<T>, before: seq<T>, after: seq<T>)
    requires before == Concat(groups) && after == before + g
    ensures after == Concat(groups + [g])
  {
    ConcatSplit(groups + [g], |groups|);
    assert (groups + [g])[..|groups|] == groups;
    assert (groups + [g])[|groups| + 1..] == [];
  }

  /** The groups, as the command builder appends them one after the other. */
  lemma GroupsInOrder(cfg: Config, sourceType: string, kind: SourceKind, inputPath: Option<string>, apiKey: Option<string>)
    requires GroupsDefined(cfg, kind, inputPath, apiKey)
    ensures Groups(cfg, sourceType, kind, inputPath, apiKey)
            == [FixedArgs(cfg.processor, sourceType)] + [PartitionArgs(cfg.partitioning)] + [TableArgs(cfg.partitioning)]
               + [SourceArgs(cfg.sources, kind, inputPath)] + [VerboseArgs(cfg.processor)]
               + [RemotePartitionArgs(cfg.partitioning, apiKey)] + [ChunkingArgs(cfg.chunking)]
               + [EmbeddingArgs(cfg.embedding)] + [DestinationArgs(cfg.destination)]
  {
  }

  /** The table-handling options, appended one `if` at a time. */
  method AppendTableOptions(args0: seq<Arg>, p: PartitioningConfig) returns (args: seq<Arg>)
    ensures args == args0 + TableArgs(p)
  {
    args := args0;
    if !p.pdfInferTableStructure {
      args := args + [Opt(PdfInferTableStructure)];
    }
    if |p.skipInferTableTypes| > 0 {
      args := args + [Opt(SkipInferTableTypes), Word(Join(",", p.skipInferTableTypes))];
    }
    if p.flattenMetadata {
      args := args + [Opt(FlattenMetadata)];
    }
  }

  /** The tool, the source type, the processor options, the partitioning options and the table
      options: the part of the command that is always built. */
  method LeadingArgs(cfg: Config, sourceType: string) returns (args: seq<Arg>)
    ensures args == Concat([FixedArgs(cfg.processor, sourceType)] + [PartitionArgs(cfg.partitioning)] + [TableArgs(cfg.partitioning)])
  {
    var proc, p := cfg.processor, cfg.partitioning;
    args := [Word("unstructured-ingest"), Word(sourceType),
             Opt(OutputDir), Word(proc.outputDir),
             Opt(NumProcesses), Word(IntToString(proc.numProcesses))];
    Appended([], FixedArgs(proc, sourceType), [], args);
    ghost var before := args;
    args := args + [Opt(Strategy), Word(p.strategy),
                    Opt(OcrLanguages), Word(Join(",", p.ocrLanguages)),
                    Opt(Encoding), Word(p.encoding),
                    Opt(FieldsInclude), Word(Join(",", p.fieldsInclude)),
                    Opt(MetadataExclude), Word(Join(",", p.metadataExclude)),
                    Opt(MetadataInclude), Word(Join(",", p.metadataInclude))];
    Appended([FixedArgs(proc, sourceType)], PartitionArgs(p), before, args);
    before := args;
    args := AppendTableOptions(args, p);
    Appended([FixedArgs(proc, sourceType)] + [PartitionArgs(p)], TableArgs(p), before, args);
  }

  /** The source connector's options, chosen by the source type; an unknown type and a local
      source without a path raise. */
  method AppendSourceOptions(args0: seq<Arg>, s: SourcesConfig, sourceType: string, inputPath: Option<string>)
    returns (r: Result<seq<Arg>, ConfigError>)
    ensures match ParseSourceType(sourceType)
      case None => r == Failure(UnsupportedSource(sourceType))
      case Some(kind) =>
        if kind == Local && inputPath.None? then r == Failure(MissingInputPath)
        else r == Success(args0 + SourceArgs(s, kind, inputPath))
  {
    var args := args0;
    if sourceType == "local" {
      if inputPath.None? {
        return Failure(MissingInputPath);
      }
      args := args + [Opt(InputPath), Word(Quote(inputPath.value))];
      if s.local.recursive {
        args := args + [Opt(Recursive)];
      }
      assert args == args0 + SourceArgs(s, Local, inputPath);
    } else if sourceType == "confluence" {
      args := args + [Opt(Url), Word(s.confluence.url),
                      Opt(UserEmail), Word(s.confluence.userEmail),
                      Opt(ApiToken), Word(s.confluence.apiToken)];
    } else if sourceType == "github" {
      args := args + [Opt(Url), Word(s.github.url), Opt(GitBranch), Word(s.github.branch)];
    } else if sourceType == "google-drive" {
      args := args + [Opt(DriveId), Word(s.googleDrive.driveId),
                      Opt(ServiceAccountKey), Word(s.googleDrive.serviceAccountKey)];
      if s.googleDrive.recursive {
        args := args + [Opt(Recursive)];
      }
      assert args == args0 + SourceArgs(s, GoogleDrive, inputPath);
    } else {
      return Failure(UnsupportedSource(sourceType));
    }
    r := Success(args);
  }

  /** Remote partitioning needs a non-empty API key. */
  method AppendRemotePartitionOptions(args0: seq<Arg>, p: PartitioningConfig, apiKey: Option<string>)
    returns (r: Result<seq<Arg>, ConfigError>)
    ensures if p.partitionByApi && !ApiKeyPresent(apiKey) then r == Failure(MissingApiKey)
            else r == Success(args0 + RemotePartitionArgs(p, apiKey))
  {
    var args := args0;
    if p.partitionByApi {
      if apiKey.Some? && apiKey.value != "" {
        args := args + [Opt(PartitionByApi), Opt(ApiKey), Word(apiKey.value)];
        args := args + [Opt(PartitionEndpoint), Word(p.partitionEndpoint)];
        assert args == args0 + RemotePartitionArgs(p, apiKey);
      } else {
        return Failure(MissingApiKey);
      }
    } else {
      assert args == args0 + [];
    }
    r := Success(args);
  }

  /** The destination connector, when enabled; an unknown connector type raises. */
  method AppendDestinationOptions(args0: seq<Arg>, d: DestinationConfig) returns (r: Result<seq<Arg>, ConfigError>)
    ensures if d.enabled && ParseBackend(d.kind).None? then r == Failure(UnsupportedDestination(d.kind))
            else r == Success(args0 + DestinationArgs(d))
  {
    var args := args0;
    if d.enabled {
      if d.kind == "chroma" {
        args := args + [Word("chroma"),
                        Opt(Host), Word(d.chroma.host),
                        Opt(Port), Word(IntToString(d.chroma.port)),
                        Opt(CollectionName), Word(d.chroma.collectionName),
                        Opt(Tenant), Word(d.chroma.tenant),
                        Opt(Database), Word(d.chroma.database),
                        Opt(BatchSize), Word(IntToString(d.batchSize))];
        assert args == args0 + DestinationArgs(d);
      } else if d.kind == "qdrant" {
        args := args + [Word("qdrant"),
                        Opt(Location), Word(d.qdrant.location),
                        Opt(CollectionName), Word(d.qdrant.collectionName),
                        Opt(BatchSize), Word(IntToString(d.batchSize))];
        assert args == args0 + DestinationArgs(d);
      } else {
        return Failure(UnsupportedDestination(d.kind));
      }
    } else {
      assert args == args0 + [];
    }
    r := Success(args);
  }

  /** The verbosity, remote partitioning, chunking and embedding options, after those of
      `groups`; a missing API key raises. */
  method AppendProcessingOptions(args0: seq<Arg>, ghost groups: seq<seq<Arg>>, cfg: Config, apiKey: Option<string>)
    returns (r: Result<seq<Arg>, ConfigError>)
    requires args0 == Concat(groups)
    ensures if cfg.partitioning.partitionByApi && !ApiKeyPresent(apiKey) then r == Failure(MissingApiKey)
            else r == Success(Concat(groups + [VerboseArgs(cfg.processor)] + [RemotePartitionArgs(cfg.partitioning, apiKey)]
                                     + [ChunkingArgs(cfg.chunking)] + [EmbeddingArgs(cfg.embedding)]))
  {
    var args := args0;
    var proc, p, c, e := cfg.processor, cfg.partitioning, cfg.chunking, cfg.embedding;
    if proc.verbose {
      args := args + [Opt(Verbose)];
    }
    Appended(groups, VerboseArgs(proc), args0, args);
    ghost var before := args;

    var withRemote := AppendRemotePartitionOptions(args, p, apiKey);
    if withRemote.Failure? {
      return Failure(withRemote.error);
    }
    args := withRemote.value;
    Appended(groups + [VerboseArgs(proc)], RemotePartitionArgs(p, apiKey), before, args);
    before := args;

    if c.enabled {
      args := args + [Opt(ChunkingStrategy), Word(c.strategy),
                      Opt(ChunkMaxCharacters), Word(IntToString(c.chunkMaxCharacters)),
                      Opt(ChunkOverlap), Word(IntToString(c.chunkOverlap))];
    }
    Appended(groups + [VerboseArgs(proc)] + [RemotePartitionArgs(p, apiKey)], ChunkingArgs(c), before, args);
    before := args;

    if e.enabled {
      args := args + [Opt(EmbeddingProvider), Word(e.provider), Opt(EmbeddingModelName), Word(e.modelName)];
    }
    Appended(groups + [VerboseArgs(proc)] + [RemotePartitionArgs(p, apiKey)] + [ChunkingArgs(c)], EmbeddingArgs(e), before, args);
    r := Success(args);
  }

  /** The command as `run_ingest` builds it: one `append` or `extend` at a time, raising where
      Python raises. */
  method AssembleArgs(cfg: Config, sourceType: string, inputPath: Option<string>, apiKey: Option<string>)
    returns (r: Result<seq<Arg>, ConfigError>)
    ensures r == CommandArgs(cfg, sourceType, inputPath, apiKey)
  {
    var args := LeadingArgs(cfg, sourceType);
    ghost var groups := [FixedArgs(cfg.processor, sourceType)] + [PartitionArgs(cfg.partitioning)] + [TableArgs(cfg.partitioning)];
    ghost var before := args;

    var withSource := AppendSourceOptions(args, cfg.sources, sourceType, inputPath);
    if withSource.Failure? {
      return Failure(withSource.error);
    }
    args := withSource.value;
    ghost var kind := ParseSourceType(sourceType).value;
    Appended(groups, SourceArgs(cfg.sources, kind, inputPath), before, args);
    groups := groups + [SourceArgs(cfg.sources, kind, inputPath)];

    var withSettings := AppendProcessingOptions(args, groups, cfg, apiKey);
    if withSettings.Failure? {
      return Failure(withSettings.error);
    }
    args := withSettings.value;
    groups := groups + [VerboseArgs(cfg.processor)] + [RemotePartitionArgs(cfg.partitioning, apiKey)]
              + [ChunkingArgs(cfg.chunking)] + [EmbeddingArgs(cfg.embedding)];
    before := args;

    var withDestination := AppendDestinationOptions(args, cfg.destination);
    if withDestination.Failure? {
      return Failure(withDestination.error);
    }
    args := withDestination.value;
    Appended(groups, DestinationArgs(cfg.destination), before, args);
    GroupsInOrder(cfg, sourceType, kind, inputPath, apiKey);
    r := Success(args);
  }

  /** The shell line `' '.join(command)` loses nothing when no token contains a space: splitting
      it at spaces gives the tokens back. */
  lemma CommandLineSplits(cfg: Config, sourceType: string, inputPath: Option<string>, apiKey: Option<string>)
    requires BuildCommand(cfg, sourceType, inputPath, apiKey).Success?
    requires var cmd := BuildCommand(cfg, sourceType, inputPath, apiKey).value;
      forall i :: 0 <= i < |cmd| ==> ' ' !in cmd[i]
    ensures var cmd := BuildCommand(cfg, sourceType, inputPath, apiKey).value;
      Split(Join(" ", cmd), ' ') == cmd
  {
    CommandPrefix(cfg, sourceType, inputPath, apiKey);
    SplitJoin(BuildCommand(cfg, sourceType, inputPath, apiKey).value, ' ');
  }

  /** `run_ingest`. The API key is the value of `UNSTRUCTURED_API_KEY`, `exitCode` is the status
      with which the tool exits and `listing` is what it leaves at the output path; the method
      returns the clean-up command, the shell line it runs (none when it raises first), and what
      `run_ingest` returns or raises together with the files rewritten by then. */
  method RunIngest(cfg: Config, sourceType: string, inputPath: Option<string>, additionalMetadata: Option<Record>,
                   apiKey: Option<string>, exitCode: int, listing: Listing)
    returns (cleanup: string, commandLine: Option<string>, result: Result<Option<Output>, IngestError>,
             written: seq<JsonFile>)
    ensures cleanup == "rm -rf " + cfg.processor.outputDir
    ensures match BuildCommand(cfg, sourceType, inputPath, apiKey)
      case Failure(e) => commandLine == None && result == Failure(Configuration(e)) && written == []
      case Success(cmd) =>
        && commandLine == Some(Join(" ", cmd))
        && (exitCode != 0 ==> result == Failure(CommandFailed(exitCode)) && written == [])
        && (exitCode == 0 && !cfg.additionalProcessing.enabled ==> result == Success(None) && written == [])
        && (exitCode == 0 && cfg.additionalProcessing.enabled ==>
              var outcome := Outcome(cfg.processor.outputDir, listing, OptionsFor(cfg, additionalMetadata));
              && written == outcome.1
              && (outcome.0.Success? ==> result == Success(Some(outcome.0.value)))
              && (outcome.0.Failure? ==> result == Failure(Processing(outcome.0.error))))
  {
    cleanup := "rm -rf " + cfg.processor.outputDir;
    var assembled := AssembleArgs(cfg, sourceType, inputPath, apiKey);
    if assembled.Failure? {
      return cleanup, None, Failure(Configuration(assembled.error)), [];
    }
    var command := Render(assembled.value);
    commandLine := Some(Join(" ", command));
    if exitCode != 0 {
      return cleanup, commandLine, Failure(CommandFailed(exitCode)), [];
    }
    if !cfg.additionalProcessing.enabled {
      return cleanup, commandLine, Success(None), [];
    }
    var output;
    output, written := AdditionalProcessing(cfg.processor.outputDir, listing, OptionsFor(cfg, additionalMetadata));
    if output.Failure? {
      result := Failure(Processing(output.error));
    } else {
      result := Success(Some(output.value));
    }
  }
}
