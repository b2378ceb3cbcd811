/** The argument list that `SambaParse.run_ingest` hands to the `unstructured-ingest` tool,
    as a function of the configuration, the requested source type, the optional input path
    and the value of the `UNSTRUCTURED_API_KEY` environment variable, or the configuration
    error that `run_ingest` raises instead. */
module CommandBuilder {
  import opened Wrappers
  import opened Text
  import opened IngestConfig

  datatype ConfigError =
    | UnsupportedSource(token: string)
    | MissingInputPath
    | MissingApiKey
    | UnsupportedDestination(kind: string)

  /** `if api_key:` in Python: an unset variable and an empty one are both missing. */
  predicate ApiKeyPresent(apiKey: Option<string>)
  {
    apiKey.Some? && apiKey.value != ""
  }

  /** The input path is wrapped in double quotes, without escaping, for the shell. */
  function Quote(path: string): string
  {
    "\"" + path + "\""
  }

  // ---------------------------------------------------------------------------
  // The command as typed arguments
  // ---------------------------------------------------------------------------

  /** The options `run_ingest` can pass to the tool. */
  datatype Flag =
    | OutputDir | NumProcesses
    | Strategy | OcrLanguages | Encoding | FieldsInclude | MetadataExclude | MetadataInclude
    | PdfInferTableStructure | SkipInferTableTypes | FlattenMetadata
    | InputPath | Recursive | Url | UserEmail | ApiToken | GitBranch | DriveId | ServiceAccountKey
    | Verbose | PartitionByApi | ApiKey | PartitionEndpoint
    | ChunkingStrategy | ChunkMaxCharacters | ChunkOverlap
    | EmbeddingProvider | EmbeddingModelName
    | Host | Port | CollectionName | Tenant | Database | Location | BatchSize

  /** The name under which the tool knows an option. */
  function FlagName(f: Flag): string
  {
    match f
    case OutputDir => "--output-dir"
    case NumProcesses => "--num-processes"
    case Strategy => "--strategy"
    case OcrLanguages => "--ocr-languages"
    case Encoding => "--encoding"
    case FieldsInclude => "--fields-include"
    case MetadataExclude => "--metadata-exclude"
    case MetadataInclude => "--metadata-include"
    case PdfInferTableStructure => "--pdf-infer-table-structure"
    case SkipInferTableTypes => "--skip-infer-table-types"
    case FlattenMetadata => "--flatten-metadata"
    case InputPath => "--input-path"
    case Recursive => "--recursive"
    case Url => "--url"
    case UserEmail => "--user-email"
    case ApiToken => "--api-token"
    case GitBranch => "--git-branch"
    case DriveId => "--drive-id"
    case ServiceAccountKey => "--service-account-key"
    case Verbose => "--verbose"
    case PartitionByApi => "--partition-by-api"
    case ApiKey => "--api-key"
    case PartitionEndpoint => "--partition-endpoint"
    case ChunkingStrategy => "--chunking-strategy"
    case ChunkMaxCharacters => "--chunk-max-characters"
    case ChunkOverlap => "--chunk-overlap"
    case EmbeddingProvider => "--embedding-provider"
    case EmbeddingModelName => "--embedding-model-name"
    case Host => "--host"
    case Port => "--port"
    case CollectionName => "--collection-name"
    case Tenant => "--tenant"
    case Database => "--database"
    case Location => "--location"
    case BatchSize => "--batch-size"
  }

  /** One token of the command: an option, or a word (the tool and connector names, and the
      value that follows each option). */
  datatype Arg = Opt(flag: Flag) | Word(text: string)

  function ArgText(a: Arg): string
  {
    match a
    case Opt(f) => FlagName(f)
    case Word(t) => t
  }

  /** The tokens of a typed command, position by position. */
  function Render(args: seq<Arg>): (tokens: seq<string>)
    ensures |tokens| == |args|
    ensures forall i :: 0 <= i < |args| ==> tokens[i] == ArgText(args[i])
  {
    if |args| == 0 then [] else [ArgText(args[0])] + Render(args[1..])
  }

  lemma RenderSlice(args: seq<Arg>, i: int, j: int)
    requires 0 <= i <= j <= |args|
    ensures Render(args)[i..j] == Render(args[i..j])
  {
  }

  // ---------------------------------------------------------------------------
  // The argument groups, in the order in which they are appended
  // ---------------------------------------------------------------------------

  /** The tool, the source type, the output directory and the process count. */
  function FixedArgs(proc: ProcessorConfig, sourceType: string): seq<Arg>
  {
    [Word("unstructured-ingest"), Word(sourceType),
     Opt(OutputDir), Word(proc.outputDir),
     Opt(NumProcesses), Word(IntToString(proc.numProcesses))]
  }

  /** The six partitioning options, each with its value; lists are comma-joined. */
  function PartitionArgs(p: PartitioningConfig): seq<Arg>
  {
    [Opt(Strategy), Word(p.strategy),
     Opt(OcrLanguages), Word(Join(",", p.ocrLanguages)),
     Opt(Encoding), Word(p.encoding),
     Opt(FieldsInclude), Word(Join(",", p.fieldsInclude)),
     Opt(MetadataExclude), Word(Join(",", p.metadataExclude)),
     Opt(MetadataInclude), Word(Join(",", p.metadataInclude))]
  }

  /** Note the inverted sense of the table-structure option: it is passed when the setting is false. */
  function TableArgs(p: PartitioningConfig): seq<Arg>
  {
    (if !p.pdfInferTableStructure then [Opt(PdfInferTableStructure)] else [])
    + (if |p.skipInferTableTypes| > 0 then [Opt(SkipInferTableTypes), Word(Join(",", p.skipInferTableTypes))] else [])
    + (if p.flattenMetadata then [Opt(FlattenMetadata)] else [])
  }

  /** The options of the selected source connector, and only those. */
  function SourceArgs(s: SourcesConfig, kind: SourceKind, inputPath: Option<string>): seq<Arg>
    requires kind == Local ==> inputPath.Some?
  {
    match kind
    case Local =>
      [Opt(InputPath), Word(Quote(inputPath.value))] + (if s.local.recursive then [Opt(Recursive)] else [])
    case Confluence =>
      [Opt(Url), Word(s.confluence.url), Opt(UserEmail), Word(s.confluence.userEmail),
       Opt(ApiToken), Word(s.confluence.apiToken)]
    case Github =>
      [Opt(Url), Word(s.github.url), Opt(GitBranch), Word(s.github.branch)]
    case GoogleDrive =>
      [Opt(DriveId), Word(s.googleDrive.driveId),
       Opt(ServiceAccountKey), Word(s.googleDrive.serviceAccountKey)]
      + (if s.googleDrive.recursive then [Opt(Recursive)] else [])
  }

  function VerboseArgs(proc: ProcessorConfig): seq<Arg>
  {
    if proc.verbose then [Opt(Verbose)] else []
  }

  /** Remote partitioning passes the key it was given and the endpoint. */
  function RemotePartitionArgs(p: PartitioningConfig, apiKey: Option<string>): seq<Arg>
    requires p.partitionByApi ==> ApiKeyPresent(apiKey)
  {
    if p.partitionByApi then
      [Opt(PartitionByApi), Opt(ApiKey), Word(apiKey.value), Opt(PartitionEndpoint), Word(p.partitionEndpoint)]
    else []
  }

  function ChunkingArgs(c: ChunkingConfig): seq<Arg>
  {
    if c.enabled then
      [Opt(ChunkingStrategy), Word(c.strategy),
       Opt(ChunkMaxCharacters), Word(IntToString(c.chunkMaxCharacters)),
       Opt(ChunkOverlap), Word(IntToString(c.chunkOverlap))]
    else []
  }

  function EmbeddingArgs(e: EmbeddingConfig): seq<Arg>
  {
    if e.enabled then [Opt(EmbeddingProvider), Word(e.provider), Opt(EmbeddingModelName), Word(e.modelName)] else []
  }

  /** An enabled destination opens with its connector name; a disabled one passes nothing. */
  function DestinationArgs(d: DestinationConfig): seq<Arg>
    requires d.enabled ==> ParseBackend(d.kind).Some?
  {
    if d.enabled then BackendArgs(d, ParseBackend(d.kind).value) else []
  }

  /** The destination connector's name, its own options, then the batch size. */
  function BackendArgs(d: DestinationConfig, backend: Backend): seq<Arg>
  {
    match backend
    case Chroma =>
      [Word("chroma"),
       Opt(Host), Word(d.chroma.host),
       Opt(Port), Word(IntToString(d.chroma.port)),
       Opt(CollectionName), Word(d.chroma.collectionName),
       Opt(Tenant), Word(d.chroma.tenant),
       Opt(Database), Word(d.chroma.database),
       Opt(BatchSize), Word(IntToString(d.batchSize))]
    case Qdrant =>
      [Word("qdrant"),
       Opt(Location), Word(d.qdrant.location),
       Opt(CollectionName), Word(d.qdrant.collectionName),
       Opt(BatchSize), Word(IntToString(d.batchSize))]
  }

  /** The option groups of a command are defined once the source kind is known, a local source
      has a path, remote partitioning has a key and an enabled destination has a known backend. */
  predicate GroupsDefined(cfg: Config, kind: SourceKind, inputPath: Option<string>, apiKey: Option<string>)
  {
    && (kind == Local ==> inputPath.Some?)
    && (cfg.partitioning.partitionByApi ==> ApiKeyPresent(apiKey))
    && (cfg.destination.enabled ==> ParseBackend(cfg.destination.kind).Some?)
  }

  /** The nine groups, in the order in which `run_ingest` appends them. */
  function Groups(cfg: Config, sourceType: string, kind: SourceKind, inputPath: Option<string>, apiKey: Option<string>)
    : (groups: seq<seq<Arg>>)
    requires GroupsDefined(cfg, kind, inputPath, apiKey)
    ensures |groups| == 9
  {
    [FixedArgs(cfg.processor, sourceType),
     PartitionArgs(cfg.partitioning),
     TableArgs(cfg.partitioning),
     SourceArgs(cfg.sources, kind, inputPath),
     VerboseArgs(cfg.processor),
     RemotePartitionArgs(cfg.partitioning, apiKey),
     ChunkingArgs(cfg.chunking),
     EmbeddingArgs(cfg.embedding),
     DestinationArgs(cfg.destination)]
  }

  function Concat<T>(groups: seq<seq<T>>): seq<T>
  {
    if |groups| == 0 then [] else groups[0] + Concat(groups[1..])
  }

  /** The typed command `run_ingest` runs, or the error it raises first: an unknown source type
      or a local source without a path, then a missing API key, then an unknown destination. */
  function CommandArgs(cfg: Config, sourceType: string, inputPath: Option<string>, apiKey: Option<string>)
    : Result<seq<Arg>, ConfigError>
  {
    match ParseSourceType(sourceType)
    case None => Failure(UnsupportedSource(sourceType))
    case Some(kind) =>
      if kind == Local && inputPath.None? then Failure(MissingInputPath)
      else if cfg.partitioning.partitionByApi && !ApiKeyPresent(apiKey) then Failure(MissingApiKey)
      else if cfg.destination.enabled && ParseBackend(cfg.destination.kind).None? then
        Failure(UnsupportedDestination(cfg.destination.kind))
      else
        Success(Concat(Groups(cfg, sourceType, kind, inputPath, apiKey)))
  }

  /** The token list handed to the shell. */
  function BuildCommand(cfg: Config, sourceType: string, inputPath: Option<string>, apiKey: Option<string>)
    : Result<seq<string>, ConfigError>
  {
    match CommandArgs(cfg, sourceType, inputPath, apiKey)
    case Success(args) => Success(Render(args))
    case Failure(e) => Failure(e)
  }

  // ---------------------------------------------------------------------------
  // Sequences of groups
  // ---------------------------------------------------------------------------

  lemma {:induction false} ConcatSplit<T>(groups: seq<seq<T>>, k: int)
    requires 0 <= k < |groups|
    ensures Concat(groups) == Concat(groups[..k]) + groups[k] + Concat(groups[k + 1..])
  {
    if k == 0 {
      assert groups[..0] == [];
      assert groups[1..] == groups[k + 1..];
    } else {
      ConcatSplit(groups[1..], k - 1);
      assert groups[1..][..k - 1] == groups[1..k];
      assert groups[1..][k - 1] == groups[k];
      assert groups[1..][k..] == groups[k + 1..];
      assert groups[..k][1..] == groups[1..k];
    }
  }

  lemma {:induction false} InConcat<T>(groups: seq<seq<T>>, x: T)
    ensures x in Concat(groups) <==> exists i :: 0 <= i < |groups| && x in groups[i]
  {
    if |groups| > 0 {
      InConcat(groups[1..], x);
      if x in Concat(groups[1..]) {
        var i :| 0 <= i < |groups| - 1 && x in groups[1..][i];
        assert x in groups[i + 1];
      }
      if exists i :: 0 <= i < |groups| && x in groups[i] {
        var i :| 0 <= i < |groups| && x in groups[i];
        if i > 0 {
          assert x in groups[1..][i - 1];
        }
      }
    }
  }

  /** `run` occurs in `s` starting at position `i`. */
  predicate RunAt<T(==)>(s: seq<T>, run: seq<T>, i: int)
  {
    0 <= i && i + |run| <= |s| && s[i..i + |run|] == run
  }

  /** `run` occurs in `s` as one contiguous group. */
  ghost predicate ContainsRun<T>(s: seq<T>, run: seq<T>)
  {
    exists i :: 0 <= i <= |s| && RunAt(s, run, i)
  }

  lemma RunInConcat<T>(a: seq<T>, run: seq<T>, b: seq<T>)
    ensures ContainsRun(a + run + b, run)
  {
    assert (a + run + b)[|a|..|a| + |run|] == run;
    assert RunAt(a + run + b, run, |a|);
  }

  /** A contiguous run inside one group is a contiguous run of the whole concatenation. */
  lemma RunInGroup<T>(groups: seq<seq<T>>, k: int, run: seq<T>)
    requires 0 <= k < |groups|
    requires ContainsRun(groups[k], run)
    ensures ContainsRun(Concat(groups), run)
  {
    ConcatSplit(groups, k);
    var j :| 0 <= j <= |groups[k]| && RunAt(groups[k], run, j);
    var pre := Concat(groups[..k]);
    var s := Concat(groups);
    assert s == pre + groups[k] + Concat(groups[k + 1..]);
    assert s[|pre| + j..|pre| + j + |run|] == groups[k][j..j + |run|];
    assert RunAt(s, run, |pre| + j);
  }

  /** A group of the typed command is a group of its tokens. */
  lemma RenderRun(args: seq<Arg>, run: seq<Arg>)
    requires ContainsRun(args, run)
    ensures ContainsRun(Render(args), Render(run))
  {
    var i :| 0 <= i <= |args| && RunAt(args, run, i);
    var tokens := Render(args);
    assert tokens[i..i + |run|] == Render(run);
    assert RunAt(tokens, Render(run), i);
  }

  /** An option of the typed command appears under its own name among the tokens. */
  lemma RenderOption(args: seq<Arg>, f: Flag)
    requires Opt(f) in args
    ensures FlagName(f) in Render(args)
  {
    var i :| 0 <= i < |args| && args[i] == Opt(f);
    assert Render(args)[i] == FlagName(f);
  }

  // ---------------------------------------------------------------------------
  // Properties of the command
  // ---------------------------------------------------------------------------

  lemma {:induction false} BuildCommandFailure(cfg: Config, sourceType: string, inputPath: Option<string>, apiKey: Option<string>)
    ensures var r := BuildCommand(cfg, sourceType, inputPath, apiKey);
      && var knownSource := sourceType in {"local", "confluence", "github", "google-drive"};
      && var pathOk := !(sourceType == "local" && inputPath.None?);
      && var keyOk := cfg.partitioning.partitionByApi ==> ApiKeyPresent(apiKey);
      && var destOk := cfg.destination.enabled ==> cfg.destination.kind in {"chroma", "qdrant"};
      && (r.Success? <==> knownSource && pathOk && keyOk && destOk)
      && (!knownSource ==> r == Failure(UnsupportedSource(sourceType)))
      && (knownSource && !pathOk ==> r == Failure(MissingInputPath))
      && (knownSource && pathOk && !keyOk ==> r == Failure(MissingApiKey))
      && (knownSource && pathOk && keyOk && !destOk ==> r == Failure(UnsupportedDestination(cfg.destination.kind)))
  {
  }

  /** The successful command is the concatenation of its groups. */
  lemma CommandGroups(cfg: Config, sourceType: string, inputPath: Option<string>, apiKey: Option<string>)
    requires CommandArgs(cfg, sourceType, inputPath, apiKey).Success?
    ensures var kind := ParseSourceType(sourceType).value;
      && sourceType == SourceToken(kind)
      && GroupsDefined(cfg, kind, inputPath, apiKey)
      && CommandArgs(cfg, sourceType, inputPath, apiKey).value
         == Concat(Groups(cfg, sourceType, kind, inputPath, apiKey))
  {
  }

  /** The group each option belongs to. */
  function GroupOf(f: Flag): nat
  {
    match f
    case OutputDir | NumProcesses => 0
    case Strategy | OcrLanguages | Encoding | FieldsInclude | MetadataExclude | MetadataInclude => 1
    case PdfInferTableStructure | SkipInferTableTypes | FlattenMetadata => 2
    case InputPath | Recursive | Url | UserEmail | ApiToken | GitBranch | DriveId | ServiceAccountKey => 3
    case Verbose => 4
    case PartitionByApi | ApiKey | PartitionEndpoint => 5
    case ChunkingStrategy | ChunkMaxCharacters | ChunkOverlap => 6
    case EmbeddingProvider | EmbeddingModelName => 7
    case Host | Port | CollectionName | Tenant | Database | Location | BatchSize => 8
  }

  /** Group `k` emits only options that belong to group `k`. */
  predicate OwnOptionsOnly(group: seq<Arg>, k: nat)
  {
    forall j :: 0 <= j < |group| && group[j].Opt? ==> GroupOf(group[j].flag) == k
  }

  lemma OwnOptionsEverywhere(groups: seq<seq<Arg>>)
    requires |groups| == 9
    requires OwnOptionsOnly(groups[0], 0) && OwnOptionsOnly(groups[1], 1) && OwnOptionsOnly(groups[2], 2)
    requires OwnOptionsOnly(groups[3], 3) && OwnOptionsOnly(groups[4], 4) && OwnOptionsOnly(groups[5], 5)
    requires OwnOptionsOnly(groups[6], 6) && OwnOptionsOnly(groups[7], 7) && OwnOptionsOnly(groups[8], 8)
    ensures forall i, f :: 0 <= i < |groups| && Opt(f) in groups[i] ==> GroupOf(f) == i
  {
    forall i, f | 0 <= i < |groups| && Opt(f) in groups[i]
      ensures GroupOf(f) == i
    {
      assert OwnOptionsOnly(groups[i], i);
      var j :| 0 <= j < |groups[i]| && groups[i][j] == Opt(f);
    }
  }

  /** No option is emitted by two groups. */
  lemma GroupsKeepTheirOptions(cfg: Config, sourceType: string, kind: SourceKind, inputPath: Option<string>, apiKey: Option<string>)
    requires GroupsDefined(cfg, kind, inputPath, apiKey)
    ensures var groups := Groups(cfg, sourceType, kind, inputPath, apiKey);
      forall i, f :: 0 <= i < |groups| && Opt(f) in groups[i] ==> GroupOf(f) == i
  {
    FixedGroupOptions(cfg.processor, sourceType);
    PartitionGroupOptions(cfg.partitioning);
    TableGroupOptions(cfg.partitioning);
    SourceGroupOptions(cfg.sources, kind, inputPath);
    VerboseGroupOptions(cfg.processor);
    RemotePartitionGroupOptions(cfg.partitioning, apiKey);
    ChunkingGroupOptions(cfg.chunking);
    EmbeddingGroupOptions(cfg.embedding);
    DestinationGroupOptions(cfg.destination);
    OwnOptionsEverywhere(Groups(cfg, sourceType, kind, inputPath, apiKey));
  }

  lemma FixedGroupOptions(proc: ProcessorConfig, sourceType: string)
    ensures OwnOptionsOnly(FixedArgs(proc, sourceType), 0)
  {
  }

  lemma PartitionGroupOptions(p: PartitioningConfig)
    ensures OwnOptionsOnly(PartitionArgs(p), 1)
  {
  }

  lemma TableGroupOptions(p: PartitioningConfig)
    ensures OwnOptionsOnly(TableArgs(p), 2)
  {
  }

  lemma SourceGroupOptions(s: SourcesConfig, kind: SourceKind, inputPath: Option<string>)
    requires kind == Local ==> inputPath.Some?
    ensures OwnOptionsOnly(SourceArgs(s, kind, inputPath), 3)
  {
  }

  lemma VerboseGroupOptions(proc: ProcessorConfig)
    ensures OwnOptionsOnly(VerboseArgs(proc), 4)
  {
  }

  lemma RemotePartitionGroupOptions(p: PartitioningConfig, apiKey: Option<string>)
    requires p.partitionByApi ==> ApiKeyPresent(apiKey)
    ensures OwnOptionsOnly(RemotePartitionArgs(p, apiKey), 5)
  {
  }

  lemma ChunkingGroupOptions(c: ChunkingConfig)
    ensures OwnOptionsOnly(ChunkingArgs(c), 6)
  {
  }

  lemma EmbeddingGroupOptions(e: EmbeddingConfig)
    ensures OwnOptionsOnly(EmbeddingArgs(e), 7)
  {
  }

  lemma DestinationGroupOptions(d: DestinationConfig)
    requires d.enabled ==> ParseBackend(d.kind).Some?
    ensures OwnOptionsOnly(DestinationArgs(d), 8)
  {
    if d.enabled {
      BackendGroupOptions(d, ParseBackend(d.kind).value);
    }
  }

  lemma BackendGroupOptions(d: DestinationConfig, backend: Backend)
    ensures OwnOptionsOnly(BackendArgs(d, backend), 8)
  {
    match backend
    case Chroma => ChromaGroupOptions(d);
    case Qdrant => QdrantGroupOptions(d);
  }

  lemma ChromaGroupOptions(d: DestinationConfig)
    ensures OwnOptionsOnly(BackendArgs(d, Chroma), 8)
  {
  }

  lemma QdrantGroupOptions(d: DestinationConfig)
    ensures OwnOptionsOnly(BackendArgs(d, Qdrant), 8)
  {
  }

  /** An option is in the command exactly when its own group emits it. */
  lemma OptionInItsGroup(cfg: Config, sourceType: string, inputPath: Option<string>, apiKey: Option<string>, f: Flag)
    requires CommandArgs(cfg, sourceType, inputPath, apiKey).Success?
    ensures var groups := Groups(cfg, sourceType, ParseSourceType(sourceType).value, inputPath, apiKey);
      Opt(f) in CommandArgs(cfg, sourceType, inputPath, apiKey).value <==> Opt(f) in groups[GroupOf(f)]
  {
    CommandGroups(cfg, sourceType, inputPath, apiKey);
    var kind := ParseSourceType(sourceType).value;
    GroupsKeepTheirOptions(cfg, sourceType, kind, inputPath, apiKey);
    InConcat(Groups(cfg, sourceType, kind, inputPath, apiKey), Opt(f));
  }

  lemma RenderFixedArgs(proc: ProcessorConfig, sourceType: string)
    ensures Render(FixedArgs(proc, sourceType))
            == ["unstructured-ingest", sourceType, "--output-dir", proc.outputDir,
                "--num-processes", IntToString(proc.numProcesses)]
  {
  }

  lemma RenderPartitionArgs(p: PartitioningConfig)
    ensures Render(PartitionArgs(p))
            == ["--strategy", p.strategy,
                "--ocr-languages", Join(",", p.ocrLanguages),
                "--encoding", p.encoding,
                "--fields-include", Join(",", p.fieldsInclude),
                "--metadata-exclude", Join(",", p.metadataExclude),
                "--metadata-include", Join(",", p.metadataInclude)]
  {
    RenderPartitionWords(p.strategy, Join(",", p.ocrLanguages), p.encoding, Join(",", p.fieldsInclude),
                         Join(",", p.metadataExclude), Join(",", p.metadataInclude));
  }

  /** The partitioning options, each followed by its value, render to their names and values in order. */
  lemma RenderPartitionWords(w1: string, w2: string, w3: string, w4: string, w5: string, w6: string)
    ensures Render([Opt(Strategy), Word(w1), Opt(OcrLanguages), Word(w2), Opt(Encoding), Word(w3),
                    Opt(FieldsInclude), Word(w4), Opt(MetadataExclude), Word(w5), Opt(MetadataInclude), Word(w6)])
            == ["--strategy", w1, "--ocr-languages", w2, "--encoding", w3,
                "--fields-include", w4, "--metadata-exclude", w5, "--metadata-include", w6]
  {
  }

  /** The fixed groups open the typed command. */
  lemma CommandArgsPrefix(cfg: Config, sourceType: string, inputPath: Option<string>, apiKey: Option<string>)
    requires CommandArgs(cfg, sourceType, inputPath, apiKey).Success?
    ensures var args := CommandArgs(cfg, sourceType, inputPath, apiKey).value;
      && |args| >= 18
      && args[..6] == FixedArgs(cfg.processor, sourceType)
      && args[6..18] == PartitionArgs(cfg.partitioning)
  {
    CommandGroups(cfg, sourceType, inputPath, apiKey);
    var groups := Groups(cfg, sourceType, ParseSourceType(sourceType).value, inputPath, apiKey);
    var args := CommandArgs(cfg, sourceType, inputPath, apiKey).value;
    assert args == groups[0] + Concat(groups[1..]);
    assert Concat(groups[1..]) == groups[1] + Concat(groups[2..]);
    assert args == groups[0] + groups[1] + Concat(groups[2..]);
  }

  /** The command always opens with the tool name, the source type, the output directory and
      process count, followed by the six partitioning options in fixed order, lists comma-joined. */
  lemma CommandPrefix(cfg: Config, sourceType: string, inputPath: Option<string>, apiKey: Option<string>)
    requires BuildCommand(cfg, sourceType, inputPath, apiKey).Success?
    ensures var cmd := BuildCommand(cfg, sourceType, inputPath, apiKey).value;
      var p := cfg.partitioning;
      && |cmd| >= 18
      && cmd[..6] == ["unstructured-ingest", sourceType,
                      "--output-dir", cfg.processor.outputDir,
                      "--num-processes", IntToString(cfg.processor.numProcesses)]
      && cmd[6..18] == ["--strategy", p.strategy,
                        "--ocr-languages", Join(",", p.ocrLanguages),
                        "--encoding", p.encoding,
                        "--fields-include", Join(",", p.fieldsInclude),
                        "--metadata-exclude", Join(",", p.metadataExclude),
                        "--metadata-include", Join(",", p.metadataInclude)]
  {
    CommandArgsPrefix(cfg, sourceType, inputPath, apiKey);
    var args := CommandArgs(cfg, sourceType, inputPath, apiKey).value;
    assert BuildCommand(cfg, sourceType, inputPath, apiKey).value == Render(args);
    RenderSlice(args, 0, 6);
    RenderSlice(args, 6, 18);
    RenderFixedArgs(cfg.processor, sourceType);
    RenderPartitionArgs(cfg.partitioning);
  }

  /** `run` is one whole group of a successful command, so the command contains it contiguously. */
  lemma GroupIsContiguous(cfg: Config, sourceType: string, inputPath: Option<string>, apiKey: Option<string>, k: int)
    requires CommandArgs(cfg, sourceType, inputPath, apiKey).Success?
    requires 0 <= k < 9
    ensures var groups := Groups(cfg, sourceType, ParseSourceType(sourceType).value, inputPath, apiKey);
      ContainsRun(CommandArgs(cfg, sourceType, inputPath, apiKey).value, groups[k])
  {
    CommandGroups(cfg, sourceType, inputPath, apiKey);
    var groups := Groups(cfg, sourceType, ParseSourceType(sourceType).value, inputPath, apiKey);
    var run := groups[k];
    assert run == [] + run + [];
    RunInConcat([], run, []);
    RunInGroup(groups, k, run);
  }

  /** Each group's tokens form one contiguous run of the token list that is joined and run. */
  lemma TokenGroupIsContiguous(cfg: Config, sourceType: string, inputPath: Option<string>, apiKey: Option<string>, k: int)
    requires BuildCommand(cfg, sourceType, inputPath, apiKey).Success?
    requires 0 <= k < 9
    ensures var groups := Groups(cfg, sourceType, ParseSourceType(sourceType).value, inputPath, apiKey);
      ContainsRun(BuildCommand(cfg, sourceType, inputPath, apiKey).value, Render(groups[k]))
  {
    GroupIsContiguous(cfg, sourceType, inputPath, apiKey, k);
    var groups := Groups(cfg, sourceType, ParseSourceType(sourceType).value, inputPath, apiKey);
    RenderRun(CommandArgs(cfg, sourceType, inputPath, apiKey).value, groups[k]);
  }

  /** The element types excluded from table inference follow their option, comma-joined. */
  lemma SkipListFollowsOption(cfg: Config, sourceType: string, inputPath: Option<string>, apiKey: Option<string>)
    requires CommandArgs(cfg, sourceType, inputPath, apiKey).Success?
    requires |cfg.partitioning.skipInferTableTypes| > 0
    ensures ContainsRun(CommandArgs(cfg, sourceType, inputPath, apiKey).value,
                        [Opt(SkipInferTableTypes), Word(Join(",", cfg.partitioning.skipInferTableTypes))])
  {
    CommandGroups(cfg, sourceType, inputPath, apiKey);
    var groups := Groups(cfg, sourceType, ParseSourceType(sourceType).value, inputPath, apiKey);
    var p := cfg.partitioning;
    var run := [Opt(SkipInferTableTypes), Word(Join(",", p.skipInferTableTypes))];
    var before := if !p.pdfInferTableStructure then [Opt(PdfInferTableStructure)] else [];
    var after := if p.flattenMetadata then [Opt(FlattenMetadata)] else [];
    assert groups[2] == before + run + after;
    RunInConcat(before, run, after);
    RunInGroup(groups, 2, run);
  }

  /** Each source passes its own settings as one group; `local` wraps its path in double quotes. */
  lemma SourceSettingsContiguous(cfg: Config, sourceType: string, inputPath: Option<string>, apiKey: Option<string>)
    requires CommandArgs(cfg, sourceType, inputPath, apiKey).Success?
    ensures var args := CommandArgs(cfg, sourceType, inputPath, apiKey).value;
      var s := cfg.sources;
      && (sourceType == "local" ==>
            inputPath.Some? && ContainsRun(args, [Opt(InputPath), Word("\"" + inputPath.value + "\"")]))
      && (sourceType == "confluence" ==>
            ContainsRun(args, [Opt(Url), Word(s.confluence.url), Opt(UserEmail), Word(s.confluence.userEmail),
                               Opt(ApiToken), Word(s.confluence.apiToken)]))
      && (sourceType == "github" ==>
            ContainsRun(args, [Opt(Url), Word(s.github.url), Opt(GitBranch), Word(s.github.branch)]))
      && (sourceType == "google-drive" ==>
            ContainsRun(args, [Opt(DriveId), Word(s.googleDrive.driveId),
                               Opt(ServiceAccountKey), Word(s.googleDrive.serviceAccountKey)]))
  {
    CommandGroups(cfg, sourceType, inputPath, apiKey);
    var kind := ParseSourceType(sourceType).value;
    var groups := Groups(cfg, sourceType, kind, inputPath, apiKey);
    var source := groups[3];
    var run := match kind
      case Local => [Opt(InputPath), Word(Quote(inputPath.value))]
      case Confluence => source
      case Github => source
      case GoogleDrive => source[..4];
    assert source == [] + run + source[|run|..];
    RunInConcat([], run, source[|run|..]);
    RunInGroup(groups, 3, run);
  }

  /** With remote partitioning on, the command carries a non-empty key and the endpoint as one group. */
  lemma RemotePartitionContiguous(cfg: Config, sourceType: string, inputPath: Option<string>, apiKey: Option<string>)
    requires CommandArgs(cfg, sourceType, inputPath, apiKey).Success?
    requires cfg.partitioning.partitionByApi
    ensures apiKey.Some? && apiKey.value != ""
    ensures ContainsRun(CommandArgs(cfg, sourceType, inputPath, apiKey).value,
                        [Opt(PartitionByApi), Opt(ApiKey), Word(apiKey.value),
                         Opt(PartitionEndpoint), Word(cfg.partitioning.partitionEndpoint)])
  {
    GroupIsContiguous(cfg, sourceType, inputPath, apiKey, 5);
  }

  /** With chunking enabled, strategy, maximum size and overlap form one group. */
  lemma ChunkingContiguous(cfg: Config, sourceType: string, inputPath: Option<string>, apiKey: Option<string>)
    requires CommandArgs(cfg, sourceType, inputPath, apiKey).Success?
    requires cfg.chunking.enabled
    ensures var c := cfg.chunking;
      ContainsRun(CommandArgs(cfg, sourceType, inputPath, apiKey).value,
                  [Opt(ChunkingStrategy), Word(c.strategy),
                   Opt(ChunkMaxCharacters), Word(IntToString(c.chunkMaxCharacters)),
                   Opt(ChunkOverlap), Word(IntToString(c.chunkOverlap))])
  {
    GroupIsContiguous(cfg, sourceType, inputPath, apiKey, 6);
  }

  /** With embedding enabled, provider and model name form one group. */
  lemma EmbeddingContiguous(cfg: Config, sourceType: string, inputPath: Option<string>, apiKey: Option<string>)
    requires CommandArgs(cfg, sourceType, inputPath, apiKey).Success?
    requires cfg.embedding.enabled
    ensures var e := cfg.embedding;
      ContainsRun(CommandArgs(cfg, sourceType, inputPath, apiKey).value,
                  [Opt(EmbeddingProvider), Word(e.provider), Opt(EmbeddingModelName), Word(e.modelName)])
  {
    GroupIsContiguous(cfg, sourceType, inputPath, apiKey, 7);
  }

  /** The destination group closes the command: the connector name, its own options, then
      `--batch-size`. */
  lemma DestinationTail(cfg: Config, sourceType: string, inputPath: Option<string>, apiKey: Option<string>)
    requires CommandArgs(cfg, sourceType, inputPath, apiKey).Success?
    requires cfg.destination.enabled
    ensures var args := CommandArgs(cfg, sourceType, inputPath, apiKey).value;
      var d := cfg.destination;
      && (d.kind == "chroma" || d.kind == "qdrant")
      && (d.kind == "chroma" ==>
            |args| >= 13
            && args[|args| - 13..] == [Word("chroma"),
                                       Opt(Host), Word(d.chroma.host),
                                       Opt(Port), Word(IntToString(d.chroma.port)),
                                       Opt(CollectionName), Word(d.chroma.collectionName),
                                       Opt(Tenant), Word(d.chroma.tenant),
                                       Opt(Database), Word(d.chroma.database),
                                       Opt(BatchSize), Word(IntToString(d.batchSize))])
      && (d.kind == "qdrant" ==>
            |args| >= 7
            && args[|args| - 7..] == [Word("qdrant"),
                                      Opt(Location), Word(d.qdrant.location),
                                      Opt(CollectionName), Word(d.qdrant.collectionName),
                                      Opt(BatchSize), Word(IntToString(d.batchSize))])
  {
    CommandGroups(cfg, sourceType, inputPath, apiKey);
    var groups := Groups(cfg, sourceType, ParseSourceType(sourceType).value, inputPath, apiKey);
    var args := CommandArgs(cfg, sourceType, inputPath, apiKey).value;
    ConcatSplit(groups, 8);
    assert groups[9..] == [];
    var dest := groups[8];
    assert args == Concat(groups[..8]) + dest;
    assert args[|args| - |dest|..] == dest;
  }

  /** Which options `run_ingest` passes, as a table: each option against the setting that guards it. */
  function OptionExpected(cfg: Config, kind: SourceKind, f: Flag): bool
  {
    var p := cfg.partitioning;
    var s := cfg.sources;
    var d := cfg.destination;
    match f
    case OutputDir | NumProcesses => true
    case Strategy | OcrLanguages | Encoding | FieldsInclude | MetadataExclude | MetadataInclude => true
    case PdfInferTableStructure => !p.pdfInferTableStructure
    case SkipInferTableTypes => |p.skipInferTableTypes| > 0
    case FlattenMetadata => p.flattenMetadata
    case InputPath => kind == Local
    case Recursive => (kind == Local && s.local.recursive) || (kind == GoogleDrive && s.googleDrive.recursive)
    case Url => kind == Confluence || kind == Github
    case UserEmail | ApiToken => kind == Confluence
    case GitBranch => kind == Github
    case DriveId | ServiceAccountKey => kind == GoogleDrive
    case Verbose => cfg.processor.verbose
    case PartitionByApi | ApiKey | PartitionEndpoint => p.partitionByApi
    case ChunkingStrategy | ChunkMaxCharacters | ChunkOverlap => cfg.chunking.enabled
    case EmbeddingProvider | EmbeddingModelName => cfg.embedding.enabled
    case Host | Port | Tenant | Database => d.enabled && ParseBackend(d.kind) == Some(Chroma)
    case Location => d.enabled && ParseBackend(d.kind) == Some(Qdrant)
    case CollectionName | BatchSize => d.enabled
  }

  /** Every option appears in the command exactly when the setting that guards it holds; in
      particular `--pdf-infer-table-structure` appears when that setting is FALSE, and no
      destination option appears with destination connectors disabled. */
  lemma OptionsPresent(cfg: Config, sourceType: string, inputPath: Option<string>, apiKey: Option<string>)
    requires CommandArgs(cfg, sourceType, inputPath, apiKey).Success?
    ensures var kind := ParseSourceType(sourceType).value;
      forall f :: Opt(f) in CommandArgs(cfg, sourceType, inputPath, apiKey).value <==> OptionExpected(cfg, kind, f)
  {
    CommandGroups(cfg, sourceType, inputPath, apiKey);
    var kind := ParseSourceType(sourceType).value;
    var groups := Groups(cfg, sourceType, kind, inputPath, apiKey);
    forall f
      ensures Opt(f) in CommandArgs(cfg, sourceType, inputPath, apiKey).value <==> OptionExpected(cfg, kind, f)
    {
      OptionInItsGroup(cfg, sourceType, inputPath, apiKey, f);
      GroupEmitsExpected(cfg, sourceType, kind, inputPath, apiKey, f);
    }
  }

  /** Every option the table expects appears under its own name in the token list. */
  lemma RenderedOptions(cfg: Config, sourceType: string, inputPath: Option<string>, apiKey: Option<string>)
    requires BuildCommand(cfg, sourceType, inputPath, apiKey).Success?
    ensures var kind := ParseSourceType(sourceType).value;
      forall f :: OptionExpected(cfg, kind, f) ==> FlagName(f) in BuildCommand(cfg, sourceType, inputPath, apiKey).value
  {
    OptionsPresent(cfg, sourceType, inputPath, apiKey);
    var args := CommandArgs(cfg, sourceType, inputPath, apiKey).value;
    forall f | OptionExpected(cfg, ParseSourceType(sourceType).value, f)
      ensures FlagName(f) in Render(args)
    {
      RenderOption(args, f);
    }
  }

  /** The group an option belongs to emits it exactly when the table expects it. */
  lemma GroupEmitsExpected(cfg: Config, sourceType: string, kind: SourceKind, inputPath: Option<string>,
                           apiKey: Option<string>, f: Flag)
    requires GroupsDefined(cfg, kind, inputPath, apiKey)
    ensures Opt(f) in Groups(cfg, sourceType, kind, inputPath, apiKey)[GroupOf(f)] <==> OptionExpected(cfg, kind, f)
  {
    if GroupOf(f) < 2 {
      LeadingGroupEmitsExpected(cfg, sourceType, kind, inputPath, apiKey, f);
    } else if GroupOf(f) < 4 {
      TableOrSourceGroupEmitsExpected(cfg, sourceType, kind, inputPath, apiKey, f);
    } else if GroupOf(f) < 6 {
      MiddleGroupEmitsExpected(cfg, sourceType, kind, inputPath, apiKey, f);
    } else {
      TrailingGroupEmitsExpected(cfg, sourceType, kind, inputPath, apiKey, f);
    }
  }

  lemma LeadingGroupEmitsExpected(cfg: Config, sourceType: string, kind: SourceKind, inputPath: Option<string>,
      apiKey: Option<string>, f: Flag)
    requires GroupsDefined(cfg, kind, inputPath, apiKey)
    requires GroupOf(f) < 2
    ensures Opt(f) in Groups(cfg, sourceType, kind, inputPath, apiKey)[GroupOf(f)] <==> OptionExpected(cfg, kind, f)
  {
    var groups := Groups(cfg, sourceType, kind, inputPath, apiKey);
    if GroupOf(f) == 0 {
      assert groups[0] == FixedArgs(cfg.processor, sourceType);
      FixedEmits(cfg, sourceType, kind, f);
    } else {
      assert groups[1] == PartitionArgs(cfg.partitioning);
      PartitionEmits(cfg, kind, f);
    }
  }

  lemma TableOrSourceGroupEmitsExpected(cfg: Config, sourceType: string, kind: SourceKind, inputPath: Option<string>,
      apiKey: Option<string>, f: Flag)
    requires GroupsDefined(cfg, kind, inputPath, apiKey)
    requires 2 <= GroupOf(f) < 4
    ensures Opt(f) in Groups(cfg, sourceType, kind, inputPath, apiKey)[GroupOf(f)] <==> OptionExpected(cfg, kind, f)
  {
    var groups := Groups(cfg, sourceType, kind, inputPath, apiKey);
    if GroupOf(f) == 2 {
      assert groups[2] == TableArgs(cfg.partitioning);
      TableEmits(cfg, kind, f);
    } else {
      assert groups[3] == SourceArgs(cfg.sources, kind, inputPath);
      SourceEmits(cfg, kind, inputPath, f);
    }
  }

  lemma MiddleGroupEmitsExpected(cfg: Config, sourceType: string, kind: SourceKind, inputPath: Option<string>,
      apiKey: Option<string>, f: Flag)
    requires GroupsDefined(cfg, kind, inputPath, apiKey)
    requires 4 <= GroupOf(f) < 6
    ensures Opt(f) in Groups(cfg, sourceType, kind, inputPath, apiKey)[GroupOf(f)] <==> OptionExpected(cfg, kind, f)
  {
    var groups := Groups(cfg, sourceType, kind, inputPath, apiKey);
    if GroupOf(f) == 4 {
      assert groups[4] == VerboseArgs(cfg.processor);
      VerboseEmits(cfg, kind, f);
    } else {
      assert groups[5] == RemotePartitionArgs(cfg.partitioning, apiKey);
      RemotePartitionEmits(cfg, kind, apiKey, f);
    }
  }

  lemma TrailingGroupEmitsExpected(cfg: Config, sourceType: string, kind: SourceKind, inputPath: Option<string>,
      apiKey: Option<string>, f: Flag)
    requires GroupsDefined(cfg, kind, inputPath, apiKey)
    requires GroupOf(f) >= 6
    ensures Opt(f) in Groups(cfg, sourceType, kind, inputPath, apiKey)[GroupOf(f)] <==> OptionExpected(cfg, kind, f)
  {
    var groups := Groups(cfg, sourceType, kind, inputPath, apiKey);
    match GroupOf(f)
    case 6 =>
      assert groups[6] == ChunkingArgs(cfg.chunking);
      ChunkingEmits(cfg, kind, f);
    case 7 =>
      assert groups[7] == EmbeddingArgs(cfg.embedding);
      EmbeddingEmits(cfg, kind, f);
    case 8 =>
      assert groups[8] == DestinationArgs(cfg.destination);
      DestinationEmits(cfg, kind, f);
  }

  lemma FixedEmits(cfg: Config, sourceType: string, kind: SourceKind, f: Flag)
    requires GroupOf(f) == 0
    ensures Opt(f) in FixedArgs(cfg.processor, sourceType) <==> OptionExpected(cfg, kind, f)
  {
  }

  lemma PartitionEmits(cfg: Config, kind: SourceKind, f: Flag)
    requires GroupOf(f) == 1
    ensures Opt(f) in PartitionArgs(cfg.partitioning) <==> OptionExpected(cfg, kind, f)
  {
  }

  lemma TableEmits(cfg: Config, kind: SourceKind, f: Flag)
    requires GroupOf(f) == 2
    ensures Opt(f) in TableArgs(cfg.partitioning) <==> OptionExpected(cfg, kind, f)
  {
  }

  lemma SourceEmits(cfg: Config, kind: SourceKind, inputPath: Option<string>, f: Flag)
    requires kind == Local ==> inputPath.Some?
    requires GroupOf(f) == 3
    ensures Opt(f) in SourceArgs(cfg.sources, kind, inputPath) <==> OptionExpected(cfg, kind, f)
  {
  }

  lemma VerboseEmits(cfg: Config, kind: SourceKind, f: Flag)
    requires GroupOf(f) == 4
    ensures Opt(f) in VerboseArgs(cfg.processor) <==> OptionExpected(cfg, kind, f)
  {
  }

  lemma RemotePartitionEmits(cfg: Config, kind: SourceKind, apiKey: Option<string>, f: Flag)
    requires cfg.partitioning.partitionByApi ==> ApiKeyPresent(apiKey)
    requires GroupOf(f) == 5
    ensures Opt(f) in RemotePartitionArgs(cfg.partitioning, apiKey) <==> OptionExpected(cfg, kind, f)
  {
  }

  lemma ChunkingEmits(cfg: Config, kind: SourceKind, f: Flag)
    requires GroupOf(f) == 6
    ensures Opt(f) in ChunkingArgs(cfg.chunking) <==> OptionExpected(cfg, kind, f)
  {
  }

  lemma EmbeddingEmits(cfg: Config, kind: SourceKind, f: Flag)
    requires GroupOf(f) == 7
    ensures Opt(f) in EmbeddingArgs(cfg.embedding) <==> OptionExpected(cfg, kind, f)
  {
  }

  lemma DestinationEmits(cfg: Config, kind: SourceKind, f: Flag)
    requires cfg.destination.enabled ==> ParseBackend(cfg.destination.kind).Some?
    requires GroupOf(f) == 8
    ensures Opt(f) in DestinationArgs(cfg.destination) <==> OptionExpected(cfg, kind, f)
  {
  }
}
