/** The post-processing pass `additional_processing` runs over the JSON files written by
    `unstructured-ingest`: every element gets the caller's extra metadata merged into its
    `metadata` object and, for tables, its text replaced by a metadata field; a flat record is
    built from each element; texts and records accumulate across files; each file is written
    back with its elements as modified; and, on request, (text, record) documents are produced. */
module Normalizer {
  import opened Wrappers
  import opened Text

  /** A JSON value as `json.load` returns it (numbers are integers here). */
  datatype Value =
    | Null
    | Bool(b: bool)
    | Num(n: int)
    | Str(s: string)
    | Array(items: seq<Value>)
    | Object(fields: map<string, Value>)

  /** A Python dict with string keys: an element, its metadata, a flat record. */
  type Record = map<string, Value>

  /** The post-processing settings and the caller's extra metadata. */
  datatype Options = Options(
    extendMetadata: bool,
    additionalMetadata: Option<Record>,
    replaceTableText: bool,
    tableTextKey: string,
    returnLangchainDocs: bool)

  /** Why an element cannot be processed: Python raises a `TypeError`/`AttributeError`
      for an element or a metadata value that is not a dict, and a `KeyError` for a missing key. */
  datatype Cause = ElementNotObject | MetadataNotObject | MissingKey(key: string)

  /** `if extend_metadata and additional_metadata:`: an absent or empty dict is false. */
  predicate Extends(opts: Options)
  {
    opts.extendMetadata && opts.additionalMetadata.Some? && |opts.additionalMetadata.value| > 0
  }

  /** The extra metadata that is merged, if any. */
  function Extra(opts: Options): Record
  {
    if Extends(opts) then opts.additionalMetadata.value else map[]
  }

  /** The keys that are not copied from the top level of an element into its record. */
  predicate Reserved(key: string)
  {
    key == "text" || key == "metadata" || key == "embeddings"
  }

  /** The top-level entries of an element that overlay its record. */
  function Overlay(e: Record): Record
  {
    map k | k in e && !Reserved(k) :: e[k]
  }

  // ---------------------------------------------------------------------------
  // The three steps applied to one element
  // ---------------------------------------------------------------------------

  /** Step 1: `element['metadata'].update(additional_metadata)`; the extra keys win. */
  function MergeMetadata(e: Record, opts: Options): Result<Record, Cause>
  {
    if !Extends(opts) then Success(e)
    else if "metadata" !in e then Failure(MissingKey("metadata"))
    else if !e["metadata"].Object? then Failure(MetadataNotObject)
    else Success(e["metadata" := Object(e["metadata"].fields + Extra(opts))])
  }

  /** Step 2: a `Table` element's text becomes `element['metadata'][table_text_key]`. */
  function ReplaceTableText(e: Record, opts: Options): Result<Record, Cause>
  {
    if !opts.replaceTableText then Success(e)
    else if "type" !in e then Failure(MissingKey("type"))
    else if e["type"] != Str("Table") then Success(e)
    else if "metadata" !in e then Failure(MissingKey("metadata"))
    else if !e["metadata"].Object? then Failure(MetadataNotObject)
    else if opts.tableTextKey !in e["metadata"].fields then Failure(MissingKey(opts.tableTextKey))
    else Success(e["text" := e["metadata"].fields[opts.tableTextKey]])
  }

  /** Step 3: a copy of the metadata, overlaid with the top-level entries, then `page`. */
  function FlattenRecord(e: Record): Result<Record, Cause>
  {
    if "metadata" !in e then Failure(MissingKey("metadata"))
    else if !e["metadata"].Object? then Failure(MetadataNotObject)
    else
      var overlaid := e["metadata"].fields + Overlay(e);
      Success(overlaid["page" := if "page_number" in overlaid then overlaid["page_number"] else Num(1)])
  }

  /** What processing one element produces: the element as written back, its text and its record. */
  datatype Normalized = Normalized(element: Value, text: Value, record: Record)

  /** One pass of the inner loop body, failing where Python raises. The record is appended
      before the text is read, so a missing `text` is detected last. */
  function NormalizeElement(v: Value, opts: Options): Result<Normalized, Cause>
  {
    if !v.Object? then Failure(ElementNotObject)
    else
      var merged :- MergeMetadata(v.fields, opts);
      var replaced :- ReplaceTableText(merged, opts);
      var record :- FlattenRecord(replaced);
      if "text" !in replaced then Failure(MissingKey("text"))
      else Success(Normalized(Object(replaced), replaced["text"], record))
  }

  /** Step 1 fails only when extending and the metadata is missing or not an object; it keeps
      every top-level entry but `metadata`, whose keys become the element's and the extra
      ones, the extra values winning. */
  lemma MergeMetadataSpec(e: Record, opts: Options)
    ensures var r := MergeMetadata(e, opts);
      && (r.Success? <==> !Extends(opts) || ("metadata" in e && e["metadata"].Object?))
      && (r.Failure? ==> r.error == if "metadata" !in e then MissingKey("metadata") else MetadataNotObject)
      && (!Extends(opts) ==> r == Success(e))
      && (r.Success? ==> r.value.Keys == e.Keys && forall k :: k in e && k != "metadata" ==> r.value[k] == e[k])
      && (r.Success? && Extends(opts) ==>
            var own := e["metadata"].fields;
            var extra := opts.additionalMetadata.value;
            && r.value["metadata"].Object?
            && r.value["metadata"].fields.Keys == own.Keys + extra.Keys
            && (forall k :: k in extra ==> r.value["metadata"].fields[k] == extra[k])
            && (forall k :: k in own && k !in extra ==> r.value["metadata"].fields[k] == own[k]))
  {
  }

  /** Step 2 reads `type` whenever it is enabled; a `Table` then needs its metadata's table text
      key, which becomes its `text`; every other element is left as it is. */
  lemma ReplaceTableTextSpec(e: Record, opts: Options)
    ensures var r := ReplaceTableText(e, opts);
      var table := opts.replaceTableText && "type" in e && e["type"] == Str("Table");
      && (r.Success? <==>
            !opts.replaceTableText
            || ("type" in e && (e["type"] == Str("Table") ==>
                  "metadata" in e && e["metadata"].Object? && opts.tableTextKey in e["metadata"].fields)))
      && (opts.replaceTableText && "type" !in e ==> r == Failure(MissingKey("type")))
      && (r.Success? && !table ==> r.value == e)
      && (r.Success? && table ==>
            && r.value.Keys == e.Keys + {"text"}
            && r.value["text"] == e["metadata"].fields[opts.tableTextKey]
            && forall k :: k in e && k != "text" ==> r.value[k] == e[k])
  {
  }

  // ---------------------------------------------------------------------------
  // Properties of one element
  // ---------------------------------------------------------------------------

  /** The metadata an element carries once the extra metadata is merged in. */
  function MergedMetadata(v: Value, opts: Options): Record
    requires v.Object? && "metadata" in v.fields && v.fields["metadata"].Object?
  {
    v.fields["metadata"].fields + Extra(opts)
  }

  /** Whether the element is a table whose text is replaced. */
  predicate TableReplaced(v: Value, opts: Options)
  {
    opts.replaceTableText && v.Object? && "type" in v.fields && v.fields["type"] == Str("Table")
  }

  /** An element is processed without error exactly when it is an object with a `metadata`
      object, has a `type` when table text is replaced, has the table text key when it is a
      table, and has a `text` unless that was just supplied. */
  lemma NormalizeElementSucceeds(v: Value, opts: Options)
    ensures NormalizeElement(v, opts).Success? <==>
      && v.Object?
      && "metadata" in v.fields && v.fields["metadata"].Object?
      && (opts.replaceTableText ==> "type" in v.fields)
      && (TableReplaced(v, opts) ==> opts.tableTextKey in MergedMetadata(v, opts))
      && ("text" in v.fields || TableReplaced(v, opts))
  {
  }

  /** The first failing check decides the error, in the order of the Python statements. */
  lemma NormalizeElementErrors(v: Value, opts: Options)
    ensures !v.Object? ==> NormalizeElement(v, opts) == Failure(ElementNotObject)
    ensures v.Object? && Extends(opts) && "metadata" !in v.fields ==>
              NormalizeElement(v, opts) == Failure(MissingKey("metadata"))
    ensures v.Object? && opts.replaceTableText && "type" !in v.fields
            && (Extends(opts) ==> "metadata" in v.fields && v.fields["metadata"].Object?) ==>
              NormalizeElement(v, opts) == Failure(MissingKey("type"))
    ensures v.Object? && "metadata" in v.fields && !v.fields["metadata"].Object? ==>
              NormalizeElement(v, opts)
              == if !Extends(opts) && opts.replaceTableText && "type" !in v.fields then Failure(MissingKey("type"))
                 else Failure(MetadataNotObject)
  {
  }

  /** The processed element as a record: its metadata is the merged metadata and its overlay
      is the one of the element read. */
  lemma ReplacedElement(v: Value, opts: Options)
    requires NormalizeElement(v, opts).Success?
    ensures var replaced := NormalizeElement(v, opts).value.element.fields;
      && FlattenRecord(replaced) == Success(NormalizeElement(v, opts).value.record)
      && "metadata" in replaced && replaced["metadata"] == Object(MergedMetadata(v, opts))
      && Overlay(replaced) == Overlay(v.fields)
  {
    var merged := MergeMetadata(v.fields, opts).value;
    var replaced := ReplaceTableText(merged, opts).value;
    assert Overlay(replaced) == Overlay(v.fields);
  }

  lemma FlattenContents(e: Record)
    ensures FlattenRecord(e).Success? <==> "metadata" in e && e["metadata"].Object?
    ensures "metadata" !in e ==> FlattenRecord(e) == Failure(MissingKey("metadata"))
    ensures "metadata" in e && !e["metadata"].Object? ==> FlattenRecord(e) == Failure(MetadataNotObject)
    ensures FlattenRecord(e).Success? ==>
      var r := FlattenRecord(e).value;
      var meta := e["metadata"].fields;
      && r.Keys == meta.Keys + Overlay(e).Keys + {"page"}
      && (forall k :: k in Overlay(e) && k != "page" ==> r[k] == Overlay(e)[k])
      && (forall k :: k in meta && k !in Overlay(e) && k != "page" ==> r[k] == meta[k])
      && (if "page_number" in Overlay(e) then r["page"] == Overlay(e)["page_number"]
          else if "page_number" in meta then r["page"] == meta["page_number"]
          else r["page"] == Num(1))
  {
  }

  /** The record: every top-level key but `text`, `metadata` and `embeddings` overrides the
      merged metadata, in which the extra metadata overrides the element's own. */
  lemma RecordContents(v: Value, opts: Options)
    requires NormalizeElement(v, opts).Success?
    ensures var r := NormalizeElement(v, opts).value.record;
      var meta := v.fields["metadata"].fields;
      && r.Keys == meta.Keys + Extra(opts).Keys + Overlay(v.fields).Keys + {"page"}
      && (forall k :: k in Overlay(v.fields) && k != "page" ==> r[k] == v.fields[k])
      && (forall k :: k in Extra(opts) && k !in Overlay(v.fields) && k != "page" ==> r[k] == Extra(opts)[k])
      && (forall k :: k in meta && k !in Extra(opts) && k !in Overlay(v.fields) && k != "page" ==> r[k] == meta[k])
  {
    ReplacedElement(v, opts);
    FlattenContents(NormalizeElement(v, opts).value.element.fields);
  }

  /** `page` is `page_number` where the element or its merged metadata has one, and 1 otherwise. */
  lemma RecordPage(v: Value, opts: Options)
    requires NormalizeElement(v, opts).Success?
    ensures var r := NormalizeElement(v, opts).value.record;
      var meta := v.fields["metadata"].fields;
      && (if "page_number" in Overlay(v.fields) then r["page"] == v.fields["page_number"]
          else if "page_number" in Extra(opts) then r["page"] == Extra(opts)["page_number"]
          else if "page_number" in meta then r["page"] == meta["page_number"]
          else r["page"] == Num(1))
  {
    ReplacedElement(v, opts);
    FlattenContents(NormalizeElement(v, opts).value.element.fields);
  }

  /** The text of a replaced table is taken from its merged metadata. */
  lemma TableText(v: Value, opts: Options)
    requires NormalizeElement(v, opts).Success?
    requires TableReplaced(v, opts)
    ensures NormalizeElement(v, opts).value.text == MergedMetadata(v, opts)[opts.tableTextKey]
  {
    var merged := MergeMetadata(v.fields, opts).value;
    assert merged["type"] == v.fields["type"];
  }

  /** Any other element keeps its own text. */
  lemma OwnText(v: Value, opts: Options)
    requires NormalizeElement(v, opts).Success?
    requires !TableReplaced(v, opts)
    ensures NormalizeElement(v, opts).value.text == v.fields["text"]
  {
    var merged := MergeMetadata(v.fields, opts).value;
    assert "type" in merged ==> merged["type"] == v.fields["type"];
  }

  /** The text: a replaced table takes its text from the merged metadata; any other element keeps its own. */
  lemma ElementText(v: Value, opts: Options)
    requires NormalizeElement(v, opts).Success?
    ensures var n := NormalizeElement(v, opts).value;
      && (TableReplaced(v, opts) ==> n.text == MergedMetadata(v, opts)[opts.tableTextKey])
      && (!TableReplaced(v, opts) ==> n.text == v.fields["text"])
  {
    if TableReplaced(v, opts) {
      TableText(v, opts);
    } else {
      OwnText(v, opts);
    }
  }

  /** The element written back differs from the one read only in its merged `metadata` and its `text`. */
  lemma WrittenElement(v: Value, opts: Options)
    requires NormalizeElement(v, opts).Success?
    ensures var w := NormalizeElement(v, opts).value.element;
      && w.Object?
      && w.fields.Keys == v.fields.Keys + {"text"}
      && w.fields["metadata"] == Object(MergedMetadata(v, opts))
      && w.fields["text"] == NormalizeElement(v, opts).value.text
      && (forall k :: k in v.fields && k != "metadata" && k != "text" ==> w.fields[k] == v.fields[k])
  {
    MergedFields(v, opts);
    var merged := MergeMetadata(v.fields, opts).value;
    var replaced := ReplaceTableText(merged, opts).value;
    assert NormalizeElement(v, opts).value.element == Object(replaced);
    assert replaced == merged || replaced == merged["text" := replaced["text"]];
  }

  /** Step 1 of a processed element changes its `metadata` entry only, to the merged metadata. */
  lemma MergedFields(v: Value, opts: Options)
    requires NormalizeElement(v, opts).Success?
    ensures MergeMetadata(v.fields, opts) == Success(v.fields["metadata" := Object(MergedMetadata(v, opts))])
  {
    if !Extends(opts) {
      assert v.fields["metadata"].fields + Extra(opts) == v.fields["metadata"].fields;
      assert v.fields["metadata" := v.fields["metadata"]] == v.fields;
    }
  }

  /** With neither step enabled, an element is written back exactly as it was read. */
  lemma UnchangedWhenDisabled(v: Value, opts: Options)
    requires !Extends(opts) && !opts.replaceTableText
    requires NormalizeElement(v, opts).Success?
    ensures NormalizeElement(v, opts).value.element == v
  {
  }

  /** A table element whose `text_as_html` is "B" and whose page number is 3. */
  lemma TableExample()
    ensures var meta := map["text_as_html" := Str("B"), "page_number" := Num(3)];
      var v := Object(map["type" := Str("Table"), "text" := Str("A"), "metadata" := Object(meta)]);
      var opts := Options(false, None, true, "text_as_html", false);
      && NormalizeElement(v, opts).Success?
      && NormalizeElement(v, opts).value.text == Str("B")
      && NormalizeElement(v, opts).value.record
         == map["text_as_html" := Str("B"), "page_number" := Num(3), "type" := Str("Table"), "page" := Num(3)]
  {
    var meta := map["text_as_html" := Str("B"), "page_number" := Num(3)];
    var e := map["type" := Str("Table"), "text" := Str("A"), "metadata" := Object(meta)];
    assert Overlay(e) == map["type" := Str("Table")];
    var replaced := e["text" := Str("B")];
    assert Overlay(replaced) == map["type" := Str("Table")];
  }

  // ---------------------------------------------------------------------------
  // One file's elements
  // ---------------------------------------------------------------------------

  /** What is done to each element. The pass below is stated for any step; `additional_processing`
      uses `NormalizeElement` under its options. */
  type Step = Value -> Result<Normalized, Cause>

  function StepFor(opts: Options): Step
  {
    (v: Value) => NormalizeElement(v, opts)
  }

  /** The index of the first element that fails, and why. */
  datatype ElementFailure = ElementFailure(index: nat, cause: Cause)

  /** The elements of one file processed in order, stopping at the first failure. */
  function NormalizeAll(elements: seq<Value>, step: Step): Result<seq<Normalized>, ElementFailure>
    decreases |elements|
  {
    if |elements| == 0 then Success([])
    else
      var last := |elements| - 1;
      match NormalizeAll(elements[..last], step)
      case Failure(f) => Failure(f)
      case Success(done) =>
        match step(elements[last])
        case Failure(c) => Failure(ElementFailure(last, c))
        case Success(n) => Success(done + [n])
  }

  function Texts(ns: seq<Normalized>): (r: seq<Value>)
    ensures |r| == |ns|
  {
    seq(|ns|, i requires 0 <= i < |ns| => ns[i].text)
  }

  function Records(ns: seq<Normalized>): (r: seq<Record>)
    ensures |r| == |ns|
  {
    seq(|ns|, i requires 0 <= i < |ns| => ns[i].record)
  }

  function Elements(ns: seq<Normalized>): (r: seq<Value>)
    ensures |r| == |ns|
  {
    seq(|ns|, i requires 0 <= i < |ns| => ns[i].element)
  }

  lemma ProjectionsAppend(ns: seq<Normalized>, n: Normalized)
    ensures Elements(ns + [n]) == Elements(ns) + [n.element]
    ensures Texts(ns + [n]) == Texts(ns) + [n.text]
    ensures Records(ns + [n]) == Records(ns) + [n.record]
  {
  }

  /** A file is processed element by element: on success every element is processed on its
      own, in place; on failure the reported element is the first one that fails. */
  lemma {:induction false} NormalizeAllElementwise(elements: seq<Value>, step: Step)
    ensures var r := NormalizeAll(elements, step);
      && (r.Success? <==> forall i :: 0 <= i < |elements| ==> step(elements[i]).Success?)
      && (r.Success? ==>
            |r.value| == |elements|
            && forall i :: 0 <= i < |elements| ==> step(elements[i]) == Success(r.value[i]))
      && (r.Failure? ==>
            && r.error.index < |elements|
            && step(elements[r.error.index]) == Failure(r.error.cause)
            && forall i :: 0 <= i < r.error.index ==> step(elements[i]).Success?)
    decreases |elements|
  {
    if |elements| > 0 {
      var last := |elements| - 1;
      var prefix := elements[..last];
      NormalizeAllElementwise(prefix, step);
      assert forall i :: 0 <= i < last ==> prefix[i] == elements[i];
    }
  }

  /** Once a prefix of a file fails, the whole file fails the same way. */
  lemma {:induction false} NormalizeAllFailurePersists(elements: seq<Value>, k: int, step: Step)
    requires 0 <= k <= |elements|
    requires NormalizeAll(elements[..k], step).Failure?
    ensures NormalizeAll(elements, step) == NormalizeAll(elements[..k], step)
    decreases |elements|
  {
    if k < |elements| {
      var last := |elements| - 1;
      assert elements[..last][..k] == elements[..k];
      NormalizeAllFailurePersists(elements[..last], k, step);
    } else {
      assert elements[..k] == elements;
    }
  }

  lemma NormalizeAllExtends(elements: seq<Value>, j: int, done: seq<Normalized>, n: Normalized, step: Step)
    requires 0 <= j < |elements|
    requires NormalizeAll(elements[..j], step) == Success(done)
    requires step(elements[j]) == Success(n)
    ensures NormalizeAll(elements[..j + 1], step) == Success(done + [n])
  {
    assert elements[..j + 1][..j] == elements[..j];
  }

  lemma NormalizeAllStops(elements: seq<Value>, j: int, done: seq<Normalized>, c: Cause, step: Step)
    requires 0 <= j < |elements|
    requires NormalizeAll(elements[..j], step) == Success(done)
    requires step(elements[j]) == Failure(c)
    ensures NormalizeAll(elements, step) == Failure(ElementFailure(j, c))
  {
    assert elements[..j + 1][..j] == elements[..j];
    NormalizeAllFailurePersists(elements, j + 1, step);
  }

  lemma ElementReplaced(done: seq<Normalized>, n: Normalized, elements: seq<Value>, j: int)
    requires |done| == j < |elements|
    ensures (Elements(done) + elements[j..])[j := n.element] == Elements(done + [n]) + elements[j + 1..]
  {
    ProjectionsAppend(done, n);
  }

  /** The inner loop over one file's data: each element is processed and replaced in place,
      its record and its text appended to the accumulators; the loop stops at the first failure. */
  method ProcessElements(elements: seq<Value>, step: Step, texts0: seq<Value>, records0: seq<Record>)
    returns (failure: Option<ElementFailure>, data: seq<Value>, texts: seq<Value>, metadataList: seq<Record>)
    ensures match NormalizeAll(elements, step)
      case Success(ns) =>
        failure == None && data == Elements(ns) && texts == texts0 + Texts(ns) && metadataList == records0 + Records(ns)
      case Failure(f) => failure == Some(f)
  {
    failure, data, texts, metadataList := None, elements, texts0, records0;
    ghost var done: seq<Normalized> := [];
    var j := 0;
    while j < |data|
      invariant 0 <= j <= |data| == |elements|
      invariant |done| == j
      invariant NormalizeAll(elements[..j], step) == Success(done)
      invariant data == Elements(done) + elements[j..]
      invariant texts == texts0 + Texts(done)
      invariant metadataList == records0 + Records(done)
    {
      assert data[j] == elements[j];
      var n := step(data[j]);
      if n.Failure? {
        NormalizeAllStops(elements, j, done, n.error, step);
        return Some(ElementFailure(j, n.error)), data, texts, metadataList;
      }
      NormalizeAllExtends(elements, j, done, n.value, step);
      ElementReplaced(done, n.value, elements, j);
      data := data[j := n.value.element];
      metadataList := metadataList + [n.value.record];
      texts := texts + [n.value.text];
      ProjectionsAppend(done, n.value);
      done := done + [n.value];
      j := j + 1;
    }
    assert elements[..j] == elements;
  }

  // ---------------------------------------------------------------------------
  // The files to process
  // ---------------------------------------------------------------------------

  /** A directory entry as `os.listdir` names it, with the elements its JSON file holds. */
  datatype Entry = Entry(name: string, elements: seq<Value>)

  /** What the output path names on disk. */
  datatype Listing = RegularFile(elements: seq<Value>) | Directory(entries: seq<Entry>) | NoSuchPath

  /** A JSON file by path, with its elements. */
  datatype JsonFile = JsonFile(path: string, elements: seq<Value>)

  datatype ProcessingError =
    | NotFound(path: string)
    | BadElement(path: string, index: nat, cause: Cause)

  /** `os.path.join` of a directory and a name from `os.listdir` (which never contains `/`). */
  function PathJoin(directory: string, name: string): (path: string)
    ensures |path| >= |name| && path[|path| - |name|..] == name
    ensures directory != "" && directory[|directory| - 1] != '/' ==> path == directory + "/" + name
    ensures directory == "" ==> path == name
  {
    if directory == "" || directory[|directory| - 1] == '/' then directory + name
    else directory + "/" + name
  }

  /** The entries whose name ends in `.json`, in listing order, joined onto the directory. */
  function JsonEntries(directory: string, entries: seq<Entry>): seq<JsonFile>
  {
    if |entries| == 0 then []
    else
      (if EndsWith(entries[0].name, ".json") then [JsonFile(PathJoin(directory, entries[0].name), entries[0].elements)]
       else [])
      + JsonEntries(directory, entries[1..])
  }

  /** The path itself when it is a file, otherwise its `.json` entries; a missing path is an error. */
  function SelectFiles(directory: string, listing: Listing): Result<seq<JsonFile>, ProcessingError>
  {
    match listing
    case RegularFile(elements) => Success([JsonFile(directory, elements)])
    case Directory(entries) => Success(JsonEntries(directory, entries))
    case NoSuchPath => Failure(NotFound(directory))
  }

  /** Exactly the `.json` entries are selected, each under its joined path and with its own elements. */
  lemma {:induction false} JsonEntriesSelected(directory: string, entries: seq<Entry>)
    ensures var files := JsonEntries(directory, entries);
      && |files| <= |entries|
      && (forall e :: e in entries && EndsWith(e.name, ".json") ==>
            JsonFile(PathJoin(directory, e.name), e.elements) in files)
      && (forall f :: f in files ==>
            exists e :: e in entries && EndsWith(e.name, ".json") && f == JsonFile(PathJoin(directory, e.name), e.elements))
  {
    if |entries| > 0 {
      JsonEntriesSelected(directory, entries[1..]);
      assert entries == [entries[0]] + entries[1..];
      forall f | f in JsonEntries(directory, entries)
        ensures exists e :: e in entries && EndsWith(e.name, ".json") && f == JsonFile(PathJoin(directory, e.name), e.elements)
      {
        if f !in JsonEntries(directory, entries[1..]) {
          assert EndsWith(entries[0].name, ".json") && f == JsonFile(PathJoin(directory, entries[0].name), entries[0].elements);
        } else {
          var e :| e in entries[1..] && EndsWith(e.name, ".json") && f == JsonFile(PathJoin(directory, e.name), e.elements);
          assert e in entries;
        }
      }
    }
  }

  // ---------------------------------------------------------------------------
  // Documents
  // ---------------------------------------------------------------------------

  /** A LangChain document: page content and metadata. */
  datatype Document = Document(pageContent: Value, metadata: Record)

  /** `zip` of texts and records into documents: position by position, as far as the shorter goes. */
  function GetLangchainDocs(texts: seq<Value>, metadataList: seq<Record>): (docs: seq<Document>)
    ensures |docs| == if |texts| <= |metadataList| then |texts| else |metadataList|
    ensures forall i :: 0 <= i < |docs| ==> docs[i] == Document(texts[i], metadataList[i])
  {
    if |texts| == 0 || |metadataList| == 0 then []
    else [Document(texts[0], metadataList[0])] + GetLangchainDocs(texts[1..], metadataList[1..])
  }

  // ---------------------------------------------------------------------------
  // The whole pass
  // ---------------------------------------------------------------------------

  /** The accumulators and the files rewritten so far. */
  datatype State = State(texts: seq<Value>, metadataList: seq<Record>, docs: seq<Document>, written: seq<JsonFile>)

  /** Where the pass stands: its state, and the error it stopped at, if any. */
  datatype Run = Run(state: State, error: Option<ProcessingError>)

  /** One iteration of the outer loop: process the file's elements, extend the accumulators,
      re-convert everything accumulated so far into documents, rewrite the file. */
  function FileStep(st: State, file: JsonFile, step: Step, returnDocs: bool): Run
  {
    match NormalizeAll(file.elements, step)
    case Failure(f) => Run(st, Some(BadElement(file.path, f.index, f.cause)))
    case Success(ns) =>
      var texts := st.texts + Texts(ns);
      var records := st.metadataList + Records(ns);
      var docs := if returnDocs then st.docs + GetLangchainDocs(texts, records) else st.docs;
      Run(State(texts, records, docs, st.written + [JsonFile(file.path, Elements(ns))]), None)
  }

  /** The pass over a sequence of files, stopping at the first failure. */
  function ProcessFiles(files: seq<JsonFile>, step: Step, returnDocs: bool): Run
    decreases |files|
  {
    if |files| == 0 then Run(State([], [], [], []), None)
    else
      var prev := ProcessFiles(files[..|files| - 1], step, returnDocs);
      if prev.error.Some? then prev else FileStep(prev.state, files[|files| - 1], step, returnDocs)
  }

  /** The texts, records and documents `additional_processing` returns. */
  datatype Output = Output(texts: seq<Value>, metadataList: seq<Record>, langchainDocs: seq<Document>)

  /** What the pass returns or raises, and the files it has rewritten by then. */
  function OutcomeWith(directory: string, listing: Listing, step: Step, returnDocs: bool)
    : (Result<Output, ProcessingError>, seq<JsonFile>)
  {
    match SelectFiles(directory, listing)
    case Failure(e) => (Failure(e), [])
    case Success(files) =>
      var run := ProcessFiles(files, step, returnDocs);
      var st := run.state;
      (if run.error.Some? then Failure(run.error.value) else Success(Output(st.texts, st.metadataList, st.docs)),
       st.written)
  }

  /** What `additional_processing` returns or raises, and the files it has rewritten by then. */
  function Outcome(directory: string, listing: Listing, opts: Options): (Result<Output, ProcessingError>, seq<JsonFile>)
  {
    OutcomeWith(directory, listing, StepFor(opts), opts.returnLangchainDocs)
  }

  /** One file either fails and leaves the state as it was, or extends texts and records by one
      per element, rewrites the file with its processed elements, and, on request, appends the
      documents of everything accumulated so far. */
  lemma FileStepSpec(st: State, file: JsonFile, step: Step, returnDocs: bool)
    ensures var r := FileStep(st, file, step, returnDocs);
      && (r.error.None? <==> NormalizeAll(file.elements, step).Success?)
      && (r.error.Some? ==> r.state == st)
      && (r.error.None? ==>
            && st.texts <= r.state.texts && |r.state.texts| == |st.texts| + |file.elements|
            && st.metadataList <= r.state.metadataList && |r.state.metadataList| == |st.metadataList| + |file.elements|
            && r.state.written == st.written + [JsonFile(file.path, Elements(NormalizeAll(file.elements, step).value))]
            && (returnDocs ==>
                  st.docs <= r.state.docs
                  && r.state.docs[|st.docs|..] == GetLangchainDocs(r.state.texts, r.state.metadataList))
            && (!returnDocs ==> r.state.docs == st.docs))
  {
    NormalizeAllElementwise(file.elements, step);
  }

  /** A missing path is the only error; a file path is processed on its own; a directory
      contributes at most one file per entry, each with a `.json` path. */
  lemma SelectFilesSpec(directory: string, listing: Listing)
    ensures var r := SelectFiles(directory, listing);
      && (r.Failure? <==> listing.NoSuchPath?)
      && (r.Failure? ==> r.error == NotFound(directory))
      && (listing.RegularFile? ==> r.value == [JsonFile(directory, listing.elements)])
      && (listing.Directory? ==>
            |r.value| <= |listing.entries| && forall f :: f in r.value ==> EndsWith(f.path, ".json"))
  {
    if listing.Directory? {
      var files := JsonEntries(directory, listing.entries);
      JsonEntriesSelected(directory, listing.entries);
      forall f | f in files
        ensures EndsWith(f.path, ".json")
      {
        var e :| e in listing.entries && EndsWith(e.name, ".json") && f == JsonFile(PathJoin(directory, e.name), e.elements);
        var path := PathJoin(directory, e.name);
        assert path[|path| - 5..] == e.name[|e.name| - 5..];
      }
    }
  }

  /** Once a prefix of the files fails, the pass over all of them stops there. */
  lemma {:induction false} ProcessFilesErrorPersists(files: seq<JsonFile>, k: int, step: Step, returnDocs: bool)
    requires 0 <= k <= |files|
    requires ProcessFiles(files[..k], step, returnDocs).error.Some?
    ensures ProcessFiles(files, step, returnDocs) == ProcessFiles(files[..k], step, returnDocs)
    decreases |files|
  {
    if k < |files| {
      var last := |files| - 1;
      assert files[..last][..k] == files[..k];
      ProcessFilesErrorPersists(files[..last], k, step, returnDocs);
    } else {
      assert files[..k] == files;
    }
  }

  lemma ProcessFilesExtends(files: seq<JsonFile>, i: int, step: Step, returnDocs: bool)
    requires 0 <= i < |files|
    requires ProcessFiles(files[..i], step, returnDocs).error.None?
    ensures ProcessFiles(files[..i + 1], step, returnDocs)
            == FileStep(ProcessFiles(files[..i], step, returnDocs).state, files[i], step, returnDocs)
  {
    assert files[..i + 1][..i] == files[..i];
  }

  // ---------------------------------------------------------------------------
  // What the pass over the files computes
  // ---------------------------------------------------------------------------

  predicate AllFilesNormalize(files: seq<JsonFile>, step: Step)
  {
    forall i :: 0 <= i < |files| ==> NormalizeAll(files[i].elements, step).Success?
  }

  /** The number of elements in the files. */
  function ElementCount(files: seq<JsonFile>): nat
    decreases |files|
  {
    if |files| == 0 then 0 else ElementCount(files[..|files| - 1]) + |files[|files| - 1].elements|
  }

  /** The number of documents when every file re-converts everything accumulated so far:
      the element counts of all prefixes of the files, added up. */
  function DocCount(files: seq<JsonFile>): nat
    decreases |files|
  {
    if |files| == 0 then 0 else DocCount(files[..|files| - 1]) + ElementCount(files)
  }

  /** The texts of all files' elements, file by file and in element order (a reference
      definition that leaves the documents and the written files aside). */
  function AllTexts(files: seq<JsonFile>, step: Step): seq<Value>
    requires AllFilesNormalize(files, step)
    decreases |files|
  {
    if |files| == 0 then []
    else AllTexts(files[..|files| - 1], step) + Texts(NormalizeAll(files[|files| - 1].elements, step).value)
  }

  /** The records of all files' elements, in the same order. */
  function AllRecords(files: seq<JsonFile>, step: Step): seq<Record>
    requires AllFilesNormalize(files, step)
    decreases |files|
  {
    if |files| == 0 then []
    else AllRecords(files[..|files| - 1], step) + Records(NormalizeAll(files[|files| - 1].elements, step).value)
  }

  lemma AllFilesNormalizePrefix(files: seq<JsonFile>, k: int, step: Step)
    requires 0 <= k <= |files|
    requires AllFilesNormalize(files, step)
    ensures AllFilesNormalize(files[..k], step)
  {
    assert forall i :: 0 <= i < k ==> files[..k][i] == files[i];
  }

  /** The pass over the files succeeds exactly when every element of every file is processed. */
  lemma {:induction false} ProcessFilesSucceeds(files: seq<JsonFile>, step: Step, returnDocs: bool)
    ensures ProcessFiles(files, step, returnDocs).error.None? <==> AllFilesNormalize(files, step)
    decreases |files|
  {
    if |files| > 0 {
      var last := |files| - 1;
      var prefix := files[..last];
      ProcessFilesSucceeds(prefix, step, returnDocs);
      assert forall i :: 0 <= i < last ==> prefix[i] == files[i];
      if !AllFilesNormalize(prefix, step) {
        var i :| 0 <= i < last && !NormalizeAll(prefix[i].elements, step).Success?;
        assert !NormalizeAll(files[i].elements, step).Success?;
      }
    }
  }

  /** On success the texts and records are all files', file by file and in element order. */
  lemma {:induction false} ProcessFilesTexts(files: seq<JsonFile>, step: Step, returnDocs: bool)
    requires AllFilesNormalize(files, step)
    ensures ProcessFiles(files, step, returnDocs).error.None?
    ensures ProcessFiles(files, step, returnDocs).state.texts == AllTexts(files, step)
    ensures ProcessFiles(files, step, returnDocs).state.metadataList == AllRecords(files, step)
    decreases |files|
  {
    if |files| > 0 {
      var last := |files| - 1;
      AllFilesNormalizePrefix(files, last, step);
      ProcessFilesTexts(files[..last], step, returnDocs);
    }
  }

  /** The texts and records are aligned, one of each per element of the files. */
  lemma {:induction false} AllTextsCount(files: seq<JsonFile>, step: Step)
    requires AllFilesNormalize(files, step)
    ensures |AllTexts(files, step)| == |AllRecords(files, step)| == ElementCount(files)
    decreases |files|
  {
    if |files| > 0 {
      var last := |files| - 1;
      AllFilesNormalizePrefix(files, last, step);
      AllTextsCount(files[..last], step);
      NormalizeAllElementwise(files[last].elements, step);
    }
  }

  /** On success each file is rewritten once, in order, with its processed elements. */
  lemma {:induction false} ProcessFilesWritten(files: seq<JsonFile>, step: Step, returnDocs: bool)
    requires AllFilesNormalize(files, step)
    ensures var written := ProcessFiles(files, step, returnDocs).state.written;
      && |written| == |files|
      && forall i :: 0 <= i < |files| ==>
           written[i] == JsonFile(files[i].path, Elements(NormalizeAll(files[i].elements, step).value))
    decreases |files|
  {
    if |files| > 0 {
      var last := |files| - 1;
      var prefix := files[..last];
      AllFilesNormalizePrefix(files, last, step);
      ProcessFilesWritten(prefix, step, returnDocs);
      ProcessFilesTexts(prefix, step, returnDocs);
      var prev := ProcessFiles(prefix, step, returnDocs);
      var file := files[last];
      var written := ProcessFiles(files, step, returnDocs).state.written;
      assert written == prev.state.written + [JsonFile(file.path, Elements(NormalizeAll(file.elements, step).value))];
      forall i | 0 <= i < |files|
        ensures written[i] == JsonFile(files[i].path, Elements(NormalizeAll(files[i].elements, step).value))
      {
        if i < last {
          assert prefix[i] == files[i];
        }
      }
    }
  }

  /** The documents are collected only when asked for; then every file re-converts everything
      accumulated so far, so they number the prefix element counts added up, and the last
      of them are the documents of all texts and records. */
  lemma {:induction false} ProcessFilesDocs(files: seq<JsonFile>, step: Step, returnDocs: bool)
    requires AllFilesNormalize(files, step)
    ensures var st := ProcessFiles(files, step, returnDocs).state;
      && (!returnDocs ==> st.docs == [])
      && (returnDocs ==> |st.docs| == DocCount(files))
      && (returnDocs && |files| > 0 ==>
            |st.texts| <= |st.docs| && st.docs[|st.docs| - |st.texts|..] == GetLangchainDocs(st.texts, st.metadataList))
    decreases |files|
  {
    if |files| > 0 {
      var last := |files| - 1;
      AllFilesNormalizePrefix(files, last, step);
      ProcessFilesDocs(files[..last], step, returnDocs);
      ProcessFilesTexts(files, step, returnDocs);
      AllTextsCount(files, step);
    }
  }

  /** The documents when every file re-converts everything accumulated through it: the
      documents of the texts and records of each prefix of the files, prefix after prefix. */
  function AllDocs(files: seq<JsonFile>, step: Step): seq<Document>
    requires AllFilesNormalize(files, step)
    decreases |files|
  {
    if |files| == 0 then []
    else AllDocs(files[..|files| - 1], step) + GetLangchainDocs(AllTexts(files, step), AllRecords(files, step))
  }

  /** With documents requested, the pass collects exactly the documents of every prefix. */
  lemma {:induction false} ProcessFilesAllDocs(files: seq<JsonFile>, step: Step)
    requires AllFilesNormalize(files, step)
    ensures ProcessFiles(files, step, true).state.docs == AllDocs(files, step)
    decreases |files|
  {
    if |files| > 0 {
      var last := |files| - 1;
      AllFilesNormalizePrefix(files, last, step);
      ProcessFilesAllDocs(files[..last], step);
      ProcessFilesTexts(files[..last], step, true);
      ProcessFilesTexts(files, step, true);
    }
  }

  /** The documents only grow: those made by a prefix of the files open those of all of them. */
  lemma {:induction false} DocsGrow(files: seq<JsonFile>, k: int, step: Step, returnDocs: bool)
    requires 0 <= k <= |files|
    ensures ProcessFiles(files[..k], step, returnDocs).state.docs <= ProcessFiles(files, step, returnDocs).state.docs
    decreases |files|
  {
    if k < |files| {
      var last := |files| - 1;
      assert files[..last][..k] == files[..k];
      DocsGrow(files[..last], k, step, returnDocs);
      var prev := ProcessFiles(files[..last], step, returnDocs);
      if prev.error.None? {
        FileStepSpec(prev.state, files[last], step, returnDocs);
      }
    } else {
      assert files[..k] == files;
    }
  }

  /** At every file boundary `k`, the documents of all texts and records of the first `k` files
      follow the documents made before file `k`, and all of them stay in the result. */
  lemma EveryBoundary(files: seq<JsonFile>, step: Step, k: int)
    requires AllFilesNormalize(files, step)
    requires 1 <= k <= |files|
    ensures AllFilesNormalize(files[..k], step)
      && ProcessFiles(files[..k - 1], step, true).state.docs
         + GetLangchainDocs(AllTexts(files[..k], step), AllRecords(files[..k], step))
         <= ProcessFiles(files, step, true).state.docs
  {
    AllFilesNormalizePrefix(files, k, step);
    BoundaryDocs(files, step, k);
    DocsGrow(files, k, step, true);
  }

  /** The documents file `k` appends are those of everything accumulated through it. */
  lemma BoundaryDocs(files: seq<JsonFile>, step: Step, k: int)
    requires 1 <= k <= |files|
    requires AllFilesNormalize(files[..k], step)
    ensures ProcessFiles(files[..k], step, true).state.docs
            == ProcessFiles(files[..k - 1], step, true).state.docs
               + GetLangchainDocs(AllTexts(files[..k], step), AllRecords(files[..k], step))
  {
    var prefix := files[..k];
    assert prefix[..k - 1] == files[..k - 1];
    AllFilesNormalizePrefix(prefix, k - 1, step);
    ProcessFilesTexts(files[..k - 1], step, true);
    ProcessFilesTexts(prefix, step, true);
  }

  /** On failure the pass stops at the first file that does not process: the ones before it
      are rewritten and accumulated, and the error names that file and its first bad element. */
  lemma {:induction false} ProcessFilesFailure(files: seq<JsonFile>, step: Step, returnDocs: bool)
    requires ProcessFiles(files, step, returnDocs).error.Some?
    ensures var run := ProcessFiles(files, step, returnDocs);
      var k := |run.state.written|;
      && k < |files|
      && AllFilesNormalize(files[..k], step)
      && ProcessFiles(files[..k], step, returnDocs) == Run(run.state, None)
      && NormalizeAll(files[k].elements, step).Failure?
      && var f := NormalizeAll(files[k].elements, step).error;
         run.error == Some(BadElement(files[k].path, f.index, f.cause))
    decreases |files|
  {
    var last := |files| - 1;
    var prefix := files[..last];
    var prev := ProcessFiles(prefix, step, returnDocs);
    if prev.error.Some? {
      ProcessFilesFailure(prefix, step, returnDocs);
      var k := |prev.state.written|;
      assert prefix[..k] == files[..k];
      assert prefix[k] == files[k];
    } else {
      ProcessFilesSucceeds(prefix, step, returnDocs);
      ProcessFilesWritten(prefix, step, returnDocs);
    }
  }

  /** `additional_processing` raises for a missing path before writing anything; otherwise it
      returns its output exactly when every element of every selected file can be processed. */
  lemma OutcomeSucceeds(directory: string, listing: Listing, opts: Options)
    ensures listing.NoSuchPath? ==> Outcome(directory, listing, opts) == (Failure(NotFound(directory)), [])
    ensures !listing.NoSuchPath? ==>
      var files := SelectFiles(directory, listing).value;
      (Outcome(directory, listing, opts).0.Success? <==>
         forall i, j :: 0 <= i < |files| && 0 <= j < |files[i].elements| ==>
           NormalizeElement(files[i].elements[j], opts).Success?)
  {
    if !listing.NoSuchPath? {
      var files := SelectFiles(directory, listing).value;
      var step := StepFor(opts);
      ProcessFilesSucceeds(files, step, opts.returnLangchainDocs);
      forall i | 0 <= i < |files|
        ensures NormalizeAll(files[i].elements, step).Success? <==>
                forall j :: 0 <= j < |files[i].elements| ==> NormalizeElement(files[i].elements[j], opts).Success?
      {
        NormalizeAllElementwise(files[i].elements, step);
      }
    }
  }

  /** An element with a text and empty metadata, processed with both steps off. */
  lemma PlainElement(t: Value)
    ensures var v := Object(map["text" := t, "metadata" := Object(map[])]);
      NormalizeElement(v, Options(false, None, false, "", true)) == Success(Normalized(v, t, map["page" := Num(1)]))
  {
    var e := map["text" := t, "metadata" := Object(map[])];
    assert Overlay(e) == map[];
  }

  /** Two files of one element each, for any step that processes both elements. */
  lemma TwoSingleFiles(f1: JsonFile, f2: JsonFile, step: Step, n1: Normalized, n2: Normalized)
    requires f1.elements == [n1.element] && f2.elements == [n2.element]
    requires step(n1.element) == Success(n1) && step(n2.element) == Success(n2)
    ensures ProcessFiles([f1, f2], step, true)
      == Run(State([n1.text, n2.text], [n1.record, n2.record],
                   [Document(n1.text, n1.record), Document(n1.text, n1.record), Document(n2.text, n2.record)],
                   [f1, f2]), None)
  {
    OneSingleFile(f1, step, n1);
    assert [f1, f2][..1] == [f1];
    SecondSingleFile(ProcessFiles([f1], step, true).state, f2, step, n2);
  }

  lemma OneSingleFile(f: JsonFile, step: Step, n: Normalized)
    requires f.elements == [n.element] && step(n.element) == Success(n)
    ensures ProcessFiles([f], step, true) == Run(State([n.text], [n.record], [Document(n.text, n.record)], [f]), None)
  {
    NormalizeAllSingle(f.elements, step, n);
    assert [f][..0] == [];
    assert Elements([n]) == [n.element] && Texts([n]) == [n.text] && Records([n]) == [n.record];
  }

  lemma SecondSingleFile(st: State, f: JsonFile, step: Step, n: Normalized)
    requires |st.texts| == |st.metadataList| == 1
    requires f.elements == [n.element] && step(n.element) == Success(n)
    ensures FileStep(st, f, step, true)
      == Run(State(st.texts + [n.text], st.metadataList + [n.record],
                   st.docs + [Document(st.texts[0], st.metadataList[0]), Document(n.text, n.record)],
                   st.written + [f]), None)
  {
    NormalizeAllSingle(f.elements, step, n);
    assert Elements([n]) == [n.element] && Texts([n]) == [n.text] && Records([n]) == [n.record];
    var texts, records := st.texts + [n.text], st.metadataList + [n.record];
    assert texts[1..] == [n.text] && records[1..] == [n.record];
  }

  lemma NormalizeAllSingle(elements: seq<Value>, step: Step, n: Normalized)
    requires |elements| == 1 && step(elements[0]) == Success(n)
    ensures NormalizeAll(elements, step) == Success([n])
  {
    var last := |elements| - 1;
    assert NormalizeAll(elements[..last], step) == Success([]);
    assert step(elements[last]) == Success(n);
    assert [] + [n] == [n];
  }

  lemma SelectSecondSkipped(directory: string, e1: Entry, e2: Entry, e3: Entry)
    requires EndsWith(e1.name, ".json") && !EndsWith(e2.name, ".json") && EndsWith(e3.name, ".json")
    ensures JsonEntries(directory, [e1, e2, e3])
            == [JsonFile(PathJoin(directory, e1.name), e1.elements), JsonFile(PathJoin(directory, e3.name), e3.elements)]
  {
    var entries := [e1, e2, e3];
    assert entries[1..] == [e2, e3] && entries[1..][1..] == [e3] && [e3][1..] == [];
    assert JsonEntries(directory, [e3]) == [JsonFile(PathJoin(directory, e3.name), e3.elements)];
    assert JsonEntries(directory, [e2, e3]) == JsonEntries(directory, [e3]);
  }

  lemma ExampleNames()
    ensures EndsWith("a.json", ".json") && !EndsWith("a.txt", ".json") && EndsWith("b.json", ".json")
  {
    assert "a.json"[1..] == ".json";
    assert "b.json"[1..] == ".json";
    assert "a.txt"[0..][1] != ".json"[1];
  }

  lemma ExamplePaths()
    ensures PathJoin("out", "a.json") == "out/a.json" && PathJoin("out", "b.json") == "out/b.json"
  {
  }

  /** Two JSON files and a text file: the text file is skipped, and the second file re-converts
      the first file's element, so three documents come out of two elements. */
  lemma TwoFilesExample()
    ensures var ea := Object(map["text" := Str("x"), "metadata" := Object(map[])]);
      var eb := Object(map["text" := Str("y"), "metadata" := Object(map[])]);
      var listing := Directory([Entry("a.json", [ea]), Entry("a.txt", [Null]), Entry("b.json", [eb])]);
      var record := map["page" := Num(1)];
      Outcome("out", listing, Options(false, None, false, "", true))
      == (Success(Output([Str("x"), Str("y")], [record, record],
                         [Document(Str("x"), record), Document(Str("x"), record), Document(Str("y"), record)])),
          [JsonFile("out/a.json", [ea]), JsonFile("out/b.json", [eb])])
  {
    var opts := Options(false, None, false, "", true);
    var ea := Object(map["text" := Str("x"), "metadata" := Object(map[])]);
    var eb := Object(map["text" := Str("y"), "metadata" := Object(map[])]);
    var record := map["page" := Num(1)];
    var listing := Directory([Entry("a.json", [ea]), Entry("a.txt", [Null]), Entry("b.json", [eb])]);
    var files := [JsonFile("out/a.json", [ea]), JsonFile("out/b.json", [eb])];
    ExampleNames();
    ExamplePaths();
    SelectSecondSkipped("out", Entry("a.json", [ea]), Entry("a.txt", [Null]), Entry("b.json", [eb]));
    PlainElement(Str("x"));
    PlainElement(Str("y"));
    TwoSingleFiles(files[0], files[1], StepFor(opts), Normalized(ea, Str("x"), record), Normalized(eb, Str("y"), record));
  }

  /** The outer loop over the selected files, for any element step. */
  method ProcessAllFiles(directory: string, listing: Listing, step: Step, returnDocs: bool)
    returns (result: Result<Output, ProcessingError>, written: seq<JsonFile>)
    ensures (result, written) == OutcomeWith(directory, listing, step, returnDocs)
  {
    var selected := SelectFiles(directory, listing);
    if selected.Failure? {
      return Failure(selected.error), [];
    }
    var files := selected.value;
    var texts: seq<Value> := [];
    var metadataList: seq<Record> := [];
    var langchainDocs: seq<Document> := [];
    written := [];
    var i := 0;
    while i < |files|
      invariant 0 <= i <= |files|
      invariant ProcessFiles(files[..i], step, returnDocs) == Run(State(texts, metadataList, langchainDocs, written), None)
    {
      var file := files[i];
      ProcessFilesExtends(files, i, step, returnDocs);
      ghost var st := State(texts, metadataList, langchainDocs, written);
      var failure, data, newTexts, newRecords := ProcessElements(file.elements, step, texts, metadataList);
      if failure.Some? {
        assert FileStep(st, file, step, returnDocs).error == Some(BadElement(file.path, failure.value.index, failure.value.cause));
        ProcessFilesErrorPersists(files, i + 1, step, returnDocs);
        result := Failure(BadElement(file.path, failure.value.index, failure.value.cause));
        return;
      }
      texts, metadataList := newTexts, newRecords;
      if returnDocs {
        langchainDocs := langchainDocs + GetLangchainDocs(texts, metadataList);
      }
      written := written + [JsonFile(file.path, data)];
      assert FileStep(st, file, step, returnDocs) == Run(State(texts, metadataList, langchainDocs, written), None);
      i := i + 1;
    }
    assert files[..i] == files;
    result := Success(Output(texts, metadataList, langchainDocs));
  }

  /** `additional_processing`: the pass with `NormalizeElement` as its step. */
  method AdditionalProcessing(directory: string, listing: Listing, opts: Options)
    returns (result: Result<Output, ProcessingError>, written: seq<JsonFile>)
    ensures (result, written) == Outcome(directory, listing, opts)
  {
    result, written := ProcessAllFiles(directory, listing, StepFor(opts), opts.returnLangchainDocs);
  }
}
