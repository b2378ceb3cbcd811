# SambaParse ingestion wrapper in Dafny

This project models `utils/parsing/sambaparse.py`, the wrapper around the `unstructured-ingest`
command-line tool. It proves properties of the model. The wrapper does three things:

- **`SambaParse.run_ingest`** turns the parsed YAML configuration, a source type, an optional
  input path and the `UNSTRUCTURED_API_KEY` environment variable into the tool's argument list.
  It raises `ValueError` for an unsupported source type, a `local` source without a path, remote
  partitioning without a key, and an unsupported destination connector. It then runs the tool
  and, when enabled, the post-processing pass.
- **`additional_processing`** walks the JSON files the tool wrote, in order. For every element it
  merges the caller's extra metadata into `metadata` and replaces a table's text by a metadata
  field. It builds a flat record (metadata, overlaid with the element's other top-level keys,
  plus `page`). It accumulates texts and records across files and rewrites each file with its
  modified elements. After every file, when asked, it converts everything accumulated so far
  into documents.
- **`get_langchain_docs`** zips texts with records into (page content, metadata) documents.

Modules, one per file:

- `Wrappers`: `Option` and `Result`.
- `Text`: comma and space joins, splitting, and `str()` of integers with its inverse.
- `IngestConfig`: the configuration sections, and the source and destination choices.
- `CommandBuilder`: the argument list as a function of the configuration, with its properties.
  An argument is typed, either an option (`Opt(flag)`) or a word, and is rendered to the token
  Python passes.
- `Normalizer`: JSON values, the per-element steps, and the pass over files. The pass has a
  nested-loop method and the recursive specification it is proved against.
- `SambaParse`: `run_ingest` as a method. It builds the argument list one `append`/`extend` at
  a time, as the Python does, and is proved equal to the `CommandBuilder` specification. It then
  runs the post-processing pass.

The loops of `additional_processing` are stated for any element step, a total function from a
JSON value to a processed element or an error. The concrete pass uses that step with
`NormalizeElement` under the configured options. The cross-file properties are therefore proved
once, independently of per-element details. The per-element properties are proved about
`NormalizeElement` itself.

For a `local` source, only a missing (`None`) input path is rejected, as in the code. An empty
path is accepted and passed on as `""`, wrapped in quotes.

## Model

| member | source | states |
|---|---|---|
| `Text.IntToStringRoundTrip` | utils/parsing/sambaparse.py:28 | the decimal text `str()` gives an integer setting parses back to the same integer, so no count, port or size is lost in the command |
| `Text.IntToStringDigits` | utils/parsing/sambaparse.py:28 | `str()` of an integer is its decimal digits without leading zeros, with a minus sign in front exactly when it is negative |
| `Text.JoinShape` | utils/parsing/sambaparse.py:34-38 | `sep.join(parts)` is empty for no parts; otherwise it is as long as the parts plus one separator between each two neighbours, opens with the first part and continues with the separator when there is a second one |
| `IngestConfig.ParseSourceType` | utils/parsing/sambaparse.py:50-76 | exactly the four tokens `local`, `confluence`, `github`, `google-drive` are recognised, each as the source kind whose token it is |
| `IngestConfig.ParseBackend` | utils/parsing/sambaparse.py:105-124 | exactly `chroma` and `qdrant` are recognised destination types, each as the backend whose token it is |
| `CommandBuilder.BuildCommandFailure` | utils/parsing/sambaparse.py:50-124 | a command is built if and only if the source type is known, a `local` source has a path, remote partitioning has a non-empty key and an enabled destination is `chroma` or `qdrant`; otherwise the error is the first failing check in statement order |
| `CommandBuilder.GroupsKeepTheirOptions` | utils/parsing/sambaparse.py:24-124 | no option group of the command emits an option that belongs to another group |
| `CommandBuilder.FixedEmits` | utils/parsing/sambaparse.py:24-29 | the opening group (`FixedArgs`) always passes `--output-dir` and `--num-processes` |
| `CommandBuilder.PartitionEmits` | utils/parsing/sambaparse.py:32-39 | the partitioning group (`PartitionArgs`) always passes its six options |
| `CommandBuilder.TableEmits` | utils/parsing/sambaparse.py:41-48 | the table group (`TableArgs`) passes `--pdf-infer-table-structure` exactly when that setting is false, the skip list option exactly when the list is non-empty, and `--flatten-metadata` exactly when it is set |
| `CommandBuilder.SourceEmits` | utils/parsing/sambaparse.py:50-76 | the source group (`SourceArgs`) passes exactly the selected connector's options, `--url` for both Confluence and GitHub, and `--recursive` only for a recursive local or Google Drive source |
| `CommandBuilder.VerboseEmits` | utils/parsing/sambaparse.py:78-79 | `VerboseArgs` passes `--verbose` exactly when the processor is verbose |
| `CommandBuilder.RemotePartitionEmits` | utils/parsing/sambaparse.py:81-88 | `RemotePartitionArgs` passes its three options exactly when remote partitioning is on |
| `CommandBuilder.ChunkingEmits` | utils/parsing/sambaparse.py:91-96 | `ChunkingArgs` passes its three options exactly when chunking is enabled |
| `CommandBuilder.EmbeddingEmits` | utils/parsing/sambaparse.py:98-102 | `EmbeddingArgs` passes its two options exactly when embedding is enabled |
| `CommandBuilder.DestinationEmits` | utils/parsing/sambaparse.py:104-124 | `DestinationArgs` passes the chroma options exactly for an enabled chroma destination, `--location` exactly for an enabled qdrant one, and `--collection-name` and `--batch-size` exactly for an enabled destination |
| `CommandBuilder.OptionInItsGroup` | utils/parsing/sambaparse.py:24-124 | an option occurs in the command if and only if the group it belongs to emits it |
| `CommandBuilder.GroupEmitsExpected` | utils/parsing/sambaparse.py:24-124 | the group an option belongs to emits it if and only if the reference table `OptionExpected` says it should |
| `CommandBuilder.OptionsPresent` | utils/parsing/sambaparse.py:24-124 | every option is present if and only if its guarding setting holds; `--pdf-infer-table-structure` appears when that setting is false; `--recursive` only for local or Google Drive sources with recursion on; the destination options only for an enabled destination of the matching backend |
| `CommandBuilder.RenderedOptions` | utils/parsing/sambaparse.py:24-126 | every option the reference table expects occurs under its own name among the tokens that are joined and run |
| `CommandBuilder.CommandPrefix` | utils/parsing/sambaparse.py:24-39 | the first 18 tokens are the tool name, the source type, output directory and process count, then the six partitioning options in order with list settings comma-joined |
| `CommandBuilder.GroupIsContiguous` | utils/parsing/sambaparse.py:24-124 | each option group occurs in a successful command as one contiguous run |
| `CommandBuilder.TokenGroupIsContiguous` | utils/parsing/sambaparse.py:24-126 | each group's tokens occur as one contiguous run of the token list that is space-joined and run |
| `CommandBuilder.SkipListFollowsOption` | utils/parsing/sambaparse.py:44-45 | a non-empty skip list follows `--skip-infer-table-types` directly, comma-joined |
| `CommandBuilder.SourceSettingsContiguous` | utils/parsing/sambaparse.py:50-74 | each source's settings follow their options directly; the local input path is wrapped in double quotes |
| `CommandBuilder.RemotePartitionContiguous` | utils/parsing/sambaparse.py:81-86 | with remote partitioning on, the key is present and non-empty, and `--partition-by-api --api-key <key> --partition-endpoint <url>` occur together |
| `CommandBuilder.ChunkingContiguous` | utils/parsing/sambaparse.py:91-96 | with chunking enabled, strategy, maximum characters and overlap occur together with their values |
| `CommandBuilder.EmbeddingContiguous` | utils/parsing/sambaparse.py:98-102 | with embedding enabled, provider and model name occur together with their values |
| `CommandBuilder.DestinationTail` | utils/parsing/sambaparse.py:104-122 | an enabled destination is `chroma` or `qdrant`, and the command ends with the connector name, its own options and `--batch-size` (13 or 7 arguments) |
| `SambaParse.AppendTableOptions` | utils/parsing/sambaparse.py:41-48 | the three conditional appends add exactly the table option group to the command so far |
| `SambaParse.LeadingArgs` | utils/parsing/sambaparse.py:24-48 | the part of the command built unconditionally is the concatenation of the fixed, partitioning and table groups |
| `SambaParse.AppendSourceOptions` | utils/parsing/sambaparse.py:50-76 | an unknown source type raises `UnsupportedSource`; a local source without a path raises `MissingInputPath`; otherwise the source's group is appended |
| `SambaParse.AppendRemotePartitionOptions` | utils/parsing/sambaparse.py:81-88 | remote partitioning without a non-empty key raises `MissingApiKey`; otherwise the remote-partitioning group is appended |
| `SambaParse.AppendProcessingOptions` | utils/parsing/sambaparse.py:78-102 | the verbosity, remote-partitioning, chunking and embedding groups are appended in that order, or `MissingApiKey` is raised |
| `SambaParse.AppendDestinationOptions` | utils/parsing/sambaparse.py:104-124 | an enabled destination of unknown type raises `UnsupportedDestination`; otherwise the destination group (empty when disabled) is appended |
| `SambaParse.AssembleArgs` | utils/parsing/sambaparse.py:24-124 | the command built one append at a time is the specified command, and raises the specified error at the same point |
| `SambaParse.CommandLineSplits` | utils/parsing/sambaparse.py:126 | when no token contains a space, splitting the joined line at single spaces, as Python's `str.split(' ')` does, gives the tokens back |
| `SambaParse.RunIngest` | utils/parsing/sambaparse.py:16-141 | builds the `rm -rf` command; raises a configuration error before running the tool (the `rm -rf` clean-up has already run by then); otherwise runs the space-joined command; a non-zero exit raises; with post-processing disabled it returns nothing; otherwise it returns or raises what the pass does, with the files rewritten by then |
| `Normalizer.NormalizeElementSucceeds` | utils/parsing/sambaparse.py:158-175 | an element is processed without error if and only if it is an object with a `metadata` object, has `type` when table text is replaced, has the table text key in its merged metadata when it is a table, and has `text` unless that was just supplied |
| `Normalizer.NormalizeElementErrors` | utils/parsing/sambaparse.py:158-175 | the error raised is that of the first failing statement: a non-object element, a missing `metadata` when extending, a missing `type` when replacing, a non-object metadata |
| `Normalizer.MergeMetadataSpec` | utils/parsing/sambaparse.py:159-160 | step 1 (`MergeMetadata`) fails only when extending and `metadata` is missing or not a dict; it changes nothing else at the top level, and the metadata gets the union of its own and the extra keys, with the extra values winning; without extending the element is untouched |
| `Normalizer.ReplaceTableTextSpec` | utils/parsing/sambaparse.py:162-163 | step 2 (`ReplaceTableText`) reads `type` whenever it is enabled; a `Table` needs the table text key in its metadata, which becomes its `text`, and nothing else changes; every other element is left as it is |
| `Normalizer.ReplacedElement` | utils/parsing/sambaparse.py:158-168 | the record is built from the element as modified, whose metadata is the merged metadata and whose other top-level entries are those read |
| `Normalizer.FlattenContents` | utils/parsing/sambaparse.py:165-172 | step 3 (`FlattenRecord`) fails exactly when `metadata` is missing (`MissingKey("metadata")`) or not a dict (`MetadataNotObject`); on success the record has the metadata's keys, the top-level keys other than `text`, `metadata` and `embeddings`, and `page`; top-level values override metadata values; `page` comes from `page_number` or is 1 |
| `Normalizer.RecordContents` | utils/parsing/sambaparse.py:158-172 | in a record, top-level keys override the extra metadata, which overrides the element's own metadata |
| `Normalizer.RecordPage` | utils/parsing/sambaparse.py:169-172 | `page` is the element's top-level `page_number`, else the extra metadata's, else the metadata's, else 1 |
| `Normalizer.ElementText` | utils/parsing/sambaparse.py:162-175 | a replaced table's text is its merged metadata's table text field; any other element keeps its own text |
| `Normalizer.WrittenElement` | utils/parsing/sambaparse.py:158-163 | the element written back differs from the one read only in its merged `metadata` and its `text` |
| `Normalizer.UnchangedWhenDisabled` | utils/parsing/sambaparse.py:158-163 | with no extending and no table replacement, an element is written back unchanged |
| `Normalizer.TableExample` | utils/parsing/sambaparse.py:162-172 | a table whose `text_as_html` is "B" on page 3 gets text "B" and the record of its metadata, type and page 3 |
| `Normalizer.NormalizeAllElementwise` | utils/parsing/sambaparse.py:158-175 | a file's elements all process if and only if each one does, each result in place; on failure, the reported index is the first failing element, with its cause |
| `Normalizer.NormalizeAllFailurePersists` | utils/parsing/sambaparse.py:158-175 | once a prefix of a file fails, the whole file fails with the same error |
| `Normalizer.ProcessElements` | utils/parsing/sambaparse.py:158-175 | the inner loop replaces every element in place and appends each record and text to the accumulators, or reports the first failing element |
| `Normalizer.PathJoin` | utils/parsing/sambaparse.py:148 | the joined path ends with the entry's name, after a `/` when the directory is non-empty and does not end in one; an empty directory gives the name alone, as `os.path.join("", name)` does |
| `Normalizer.JsonEntriesSelected` | utils/parsing/sambaparse.py:145-148 | exactly the entries whose name ends in `.json` are selected, under their joined path and with their own elements |
| `Normalizer.SelectFilesSpec` | utils/parsing/sambaparse.py:145-148 | a missing path is the only error and is reported under that path; a file path is processed on its own; a directory gives at most one file per entry, each with a path ending in `.json` |
| `Normalizer.GetLangchainDocs` | utils/parsing/sambaparse.py:185-189 | one document per position up to the shorter list, pairing the text and record at that position |
| `Normalizer.FileStepSpec` | utils/parsing/sambaparse.py:154-181 | one file either fails and leaves texts, records, documents and rewritten files as they were, or extends texts and records by one per element, rewrites the file with its processed elements and, on request, appends the documents of all texts and records so far |
| `Normalizer.ProcessFilesErrorPersists` | utils/parsing/sambaparse.py:154-181 | once a prefix of the files fails, the pass over all files stops with that prefix's state and error |
| `Normalizer.ProcessFilesSucceeds` | utils/parsing/sambaparse.py:154-181 | the pass over the files succeeds if and only if every file's elements all process |
| `Normalizer.ProcessFilesTexts` | utils/parsing/sambaparse.py:150-175 | on success, the texts and records are all files' texts and records, file by file, in element order |
| `Normalizer.AllTextsCount` | utils/parsing/sambaparse.py:174-175 | texts and records are aligned, one of each per element of the files |
| `Normalizer.ProcessFilesWritten` | utils/parsing/sambaparse.py:154-181 | on success, each file is rewritten exactly once, in order, with its processed elements |
| `Normalizer.ProcessFilesDocs` | utils/parsing/sambaparse.py:177-178 | without documents requested none are made; with them their number is the element counts of all prefixes of the files added up, and the last ones are the documents of all texts and records |
| `Normalizer.ProcessFilesAllDocs` | utils/parsing/sambaparse.py:154-181 | with documents requested, the documents are exactly those of the texts and records of each prefix of the files, prefix after prefix (`AllDocs`) |
| `Normalizer.DocsGrow` | utils/parsing/sambaparse.py:177-178 | documents are only ever appended: those made by a prefix of the files open those made by all of them, whether or not the pass fails |
| `Normalizer.EveryBoundary` | utils/parsing/sambaparse.py:177-178 | after file `k`, the documents of all texts and records of the first `k` files follow those made before file `k`, and they stay in the result |
| `Normalizer.ProcessFilesFailure` | utils/parsing/sambaparse.py:154-181 | on failure, the files before the first bad one are rewritten and accumulated; the error names that file and its first bad element |
| `Normalizer.OutcomeSucceeds` | utils/parsing/sambaparse.py:143-183 | a missing path raises before anything is written; otherwise the pass returns if and only if every element of every selected file can be processed |
| `Normalizer.TwoFilesExample` | utils/parsing/sambaparse.py:143-183 | two JSON files of one element each, with a text file between them, give two texts and records, three documents, and both JSON files rewritten |
| `Normalizer.ProcessAllFiles` | utils/parsing/sambaparse.py:143-183 | the outer loop over the selected files, for any element step, returns, raises and rewrites what the pass specification does |
| `Normalizer.AdditionalProcessing` | utils/parsing/sambaparse.py:143-183 | `additional_processing` with `NormalizeElement` as its step returns, raises and rewrites what the specification does |

## Left out

- Loading the configuration in `SambaParse.__init__` (YAML) and the environment (`load_dotenv`, `os.getenv`): the parsed configuration and the key's value are parameters.
- Missing configuration keys and configuration values of the wrong type: the configuration is a typed record, so a `KeyError` or a type error from reading it cannot be represented.
- The shell: `rm -rf <output_dir>` is built as a string but not executed, and the space-joined command is returned. The tool's effect is a parameter: its exit status, with a non-zero status raising as `check=True` does, and what it leaves at the output path. The clean-up runs before any validation in Python, so a configuration error still deletes the old output. Its own failure is not modelled.
- `print` calls: no observable effect on the result.
- SambaParse.CommandLineSplits: covers only tokens without spaces, split at single spaces. The shell's word splitting of the line run with `shell=True` is not modelled. The shell drops empty words, so an empty list or string setting (`metadata_exclude: []` joins to `""`) leaves its option without a value and the next option is taken as that value. It also splits at tabs and newlines, and it interprets `;`, `&`, `|`, `$`, `*` and backticks, `$` and backticks even inside the double quotes around the input path. Only the double quotes the code adds are modelled.
- JSON I/O: a file's elements are given as already parsed values. Numbers are integers (floats are not modelled). A file whose top level is not an array, unreadable files and `json.load` errors are not modelled. Writing a file is recorded as the path with the elements written.
- The filesystem: listing order is the order of the given entries. A `.json` entry that is a directory is not modelled. A path that is neither a file nor a directory counts as missing (`os.listdir` raises).
- LangChain's `Document`: modelled as a pair of page content and metadata, without LangChain's own validation of `page_content`.
- Sharing of nested values: in Python a record is a shallow copy of the metadata, so a nested list or dict in a record is the same object as the one in the element written back. Every element and record also holds references to the values of the caller's `additional_metadata`, so mutating one of them changes the others. The model's values are immutable, so these copies are independent and the sharing cannot be observed.
- Python's in-place mutation of the loaded `data` list: the model returns the modified elements and the file contents written instead of aliasing one list.
- Extra metadata that `json.dump` cannot serialise: `Options.additionalMetadata` holds only JSON values, so the Python error raised while writing the file back, after it was opened for writing and so left truncated, cannot be represented.
- An exception's discarded local state: when a file fails, the accumulators are not returned (Python loses them too). Only the files rewritten before the failure are kept.
- CommandBuilder.RenderedOptions: states only that an expected option's name is among the tokens. Its absence is proved on the typed arguments (`CommandBuilder.OptionsPresent`), because a configuration value could itself be a string such as `--verbose`.
