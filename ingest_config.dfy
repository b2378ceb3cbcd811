/** The parsed configuration file read by `SambaParse.__init__`, one record per section and
    sub-section, and the two closed choices it selects between: the source type given to
    `run_ingest` and the destination backend named in the configuration. */
module IngestConfig {
  import opened Wrappers

  datatype ProcessorConfig = ProcessorConfig(outputDir: string, numProcesses: int, verbose: bool)

  datatype PartitioningConfig = PartitioningConfig(
    strategy: string,
    ocrLanguages: seq<string>,
    encoding: string,
    fieldsInclude: seq<string>,
    metadataExclude: seq<string>,
    metadataInclude: seq<string>,
    pdfInferTableStructure: bool,
    skipInferTableTypes: seq<string>,
    flattenMetadata: bool,
    partitionByApi: bool,
    partitionEndpoint: string)

  datatype LocalConfig = LocalConfig(recursive: bool)
  datatype ConfluenceConfig = ConfluenceConfig(url: string, userEmail: string, apiToken: string)
  datatype GithubConfig = GithubConfig(url: string, branch: string)
  datatype GoogleDriveConfig = GoogleDriveConfig(driveId: string, serviceAccountKey: string, recursive: bool)

  datatype SourcesConfig = SourcesConfig(
    local: LocalConfig,
    confluence: ConfluenceConfig,
    github: GithubConfig,
    googleDrive: GoogleDriveConfig)

  datatype ChunkingConfig = ChunkingConfig(enabled: bool, strategy: string, chunkMaxCharacters: int, chunkOverlap: int)

  datatype EmbeddingConfig = EmbeddingConfig(enabled: bool, provider: string, modelName: string)

  datatype ChromaConfig = ChromaConfig(host: string, port: int, collectionName: string, tenant: string, database: string)
  datatype QdrantConfig = QdrantConfig(location: string, collectionName: string)

  /** `kind` is the configured backend name, checked only when `enabled`. */
  datatype DestinationConfig = DestinationConfig(
    enabled: bool,
    kind: string,
    chroma: ChromaConfig,
    qdrant: QdrantConfig,
    batchSize: int)

  datatype PostProcessingConfig = PostProcessingConfig(
    enabled: bool,
    extendMetadata: bool,
    replaceTableText: bool,
    tableTextKey: string,
    returnLangchainDocs: bool)

  datatype Config = Config(
    processor: ProcessorConfig,
    partitioning: PartitioningConfig,
    sources: SourcesConfig,
    chunking: ChunkingConfig,
    embedding: EmbeddingConfig,
    destination: DestinationConfig,
    additionalProcessing: PostProcessingConfig)

  datatype SourceKind = Local | Confluence | Github | GoogleDrive

  /** The command-line name of a source connector. */
  function SourceToken(kind: SourceKind): string
  {
    match kind
    case Local => "local"
    case Confluence => "confluence"
    case Github => "github"
    case GoogleDrive => "google-drive"
  }

  /** Recognises exactly the four supported source-type tokens. */
  function ParseSourceType(token: string): (r: Option<SourceKind>)
    ensures r.Some? <==> token in {"local", "confluence", "github", "google-drive"}
    ensures r.Some? ==> SourceToken(r.value) == token
  {
    if token == "local" then Some(Local)
    else if token == "confluence" then Some(Confluence)
    else if token == "github" then Some(Github)
    else if token == "google-drive" then Some(GoogleDrive)
    else None
  }

  lemma ParseSourceTypeOfToken(kind: SourceKind)
    ensures ParseSourceType(SourceToken(kind)) == Some(kind)
  {
  }

  datatype Backend = Chroma | Qdrant

  /** The command-line name of a destination connector. */
  function BackendToken(backend: Backend): string
  {
    match backend
    case Chroma => "chroma"
    case Qdrant => "qdrant"
  }

  /** Recognises exactly the two supported destination types. */
  function ParseBackend(kind: string): (r: Option<Backend>)
    ensures r.Some? <==> kind in {"chroma", "qdrant"}
    ensures r.Some? ==> BackendToken(r.value) == kind
  {
    if kind == "chroma" then Some(Chroma)
    else if kind == "qdrant" then Some(Qdrant)
    else None
  }

  lemma ParseBackendOfToken(backend: Backend)
    ensures ParseBackend(BackendToken(backend)) == Some(backend)
  {
  }
}
