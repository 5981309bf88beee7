/**
 * Document ingestion (accord/data_ingestor.py): splitting a file into chunks,
 * optionally prefixing each chunk with model-written context, adding the chunks in
 * batches to a fresh vector store and to the shared "concatenate" store, saving the
 * stores and chunk lists, and recording a metadata row per file.
 *
 * The text splitter and the chat model are function-valued parameters. The files the
 * ingestor writes are two maps from path to saved documents, one for dumped vector
 * stores and one for pickled chunk lists; a ghost log records the saves and inserts in
 * the order they happen. The pure functions below give what each step produces; the
 * `DataIngestor` class runs the steps imperatively and is proved against them.
 */
module Ingestion {
  import opened Results
  import opened Text
  import opened Utils
  import opened FileLoader
  import opened Documents
  import Database

  /** The configuration entries the ingestor reads. */
  datatype Config = Config(
    contextualizeChunks: bool,          // preprocessing.CONTEXTUALIZE_CHUNKS
    batchSize: int,                     // preprocessing.BATCH_SIZE
    vectorStoreDir: string,             // preprocessing.VECTOR_STORE_DIR
    documentStoreDir: string,           // preprocessing.DOCUMENT_STORE_DIR
    concatenateVectorPath: string,      // vector_store.CONCATENATE_VECTOR_FILE_PATH
    concatenateDocumentPath: string,    // preprocessing.CONCATENATE_DOCUMENT_FILE_PATH
    semanticResults: int,               // preprocessing.N_SEMANTIC_RESULTS
    bm25ResultsUnderCapitalP: Option<int>, // Preprocessing.N_BM25_RESULTS; None when no section `Preprocessing` exists
    rerankerModel: string,              // preprocessing.RERANKER
    contextResults: int)                // preprocessing.N_CONTEXT_RESULTS

  /** The fusion weights `get_retriever` gives the semantic and the BM25 retriever. */
  const EnsembleWeights: seq<real> := [0.6, 0.4]

  /** What the ingestor has written: dumped vector stores and pickled chunk lists, by path. */
  datatype Disk = Disk(vectorStores: map<string, seq<Doc>>, chunkLists: map<string, seq<Doc>>)

  /** One write the ingestor performs, in the order performed. */
  datatype Effect =
    | SavedChunkList(path: string)
    | SavedVectorStore(path: string)
    | InsertedRow(name: string, documentPath: string, vectorPath: string)

  /** Everything ingestion changes: the saved files, the metadata table and the log of writes. */
  datatype World = World(disk: Disk, table: Database.Table, log: seq<Effect>)

  /** A world after a step, and whether the step raised. */
  datatype Step = Step(world: World, outcome: Outcome)

  /** A retriever as `get_retriever` composes it; searching it is the libraries' business. */
  datatype Retriever = Retriever(
    semanticStore: seq<Doc>,
    semanticK: int,
    bm25Documents: seq<Doc>,
    bm25K: int,
    weights: seq<real>,
    rerankerModel: string,
    topN: int)

  // ---------------------------------------------------------------------------
  // Loading saved files

  /** `load_vector_store`: the store dumped at `path`, or an empty store when there is none. */
  function LoadedStore(disk: Disk, path: string): (docs: seq<Doc>)
    ensures path !in disk.vectorStores ==> docs == []
    ensures path in disk.vectorStores ==> docs == disk.vectorStores[path]
  {
    if path in disk.vectorStores then disk.vectorStores[path] else []
  }

  /** `load_document`: the chunk list pickled at `path`, or `[]` when there is none. */
  function LoadedChunks(disk: Disk, path: string): (docs: seq<Doc>)
    ensures path !in disk.chunkLists ==> docs == []
    ensures path in disk.chunkLists ==> docs == disk.chunkLists[path]
  {
    if path in disk.chunkLists then disk.chunkLists[path] else []
  }

  // ---------------------------------------------------------------------------
  // Chunks with context

  /** `generate_context`: the model's reply about `chunk` within `document`, thinking removed. */
  function GenerateContext(contextModel: (string, string) -> string, document: string, chunk: string): Result<string>
  {
    RemoveThinking(contextModel(document, chunk))
  }

  /** The chunk with `context` and a blank line in front of its text; metadata as it was. */
  function WithContext(context: string, chunk: Doc): Doc
  {
    Doc(context + "\n\n" + chunk.pageContent, chunk.metadata)
  }

  /** `create_chunks`' loop over the split chunks, stopping at the first reply without `</think>`. */
  function Contextualized(contextModel: (string, string) -> string, document: string, chunks: seq<Doc>): Result<seq<Doc>>
    decreases |chunks|
  {
    if chunks == [] then Ok([])
    else
      match Contextualized(contextModel, document, chunks[..|chunks| - 1])
      case Err(e) => Err(e)
      case Ok(done) =>
        match GenerateContext(contextModel, document, chunks[|chunks| - 1].pageContent)
        case Err(e) => Err(e)
        case Ok(context) => Ok(done + [WithContext(context, chunks[|chunks| - 1])])
  }

  /** `create_chunks`: the splitter's chunks, with context in front of each when configured. */
  function ChunksOf(config: Config, split: Doc -> seq<Doc>, contextModel: (string, string) -> string, document: Doc): Result<seq<Doc>>
  {
    if !config.contextualizeChunks then Ok(split(document))
    else Contextualized(contextModel, document.pageContent, split(document))
  }

  /**
   * Contextualising keeps the number and order of the chunks and their metadata; chunk i
   * becomes the model's reply about it, stripped up to its first `</think>`, a blank line
   * and the chunk's text. It fails exactly when some reply has no `</think>`.
   */
  lemma {:induction false} ContextualizedChunks(contextModel: (string, string) -> string, document: string, chunks: seq<Doc>)
    decreases |chunks|
    ensures Contextualized(contextModel, document, chunks).Ok? <==>
      forall i :: 0 <= i < |chunks| ==> Contains(contextModel(document, chunks[i].pageContent), CloseTag)
    ensures Contextualized(contextModel, document, chunks).Err? ==>
      Contextualized(contextModel, document, chunks).error == MissingCloseTag
    ensures Contextualized(contextModel, document, chunks).Ok? ==>
      var out := Contextualized(contextModel, document, chunks).value;
      && |out| == |chunks|
      && forall i :: 0 <= i < |chunks| ==>
        && out[i].metadata == chunks[i].metadata
        && out[i].pageContent == RemoveThinking(contextModel(document, chunks[i].pageContent)).value + "\n\n" + chunks[i].pageContent
  {
    if chunks != [] {
      var n := |chunks|;
      var init, last := chunks[..n - 1], chunks[n - 1];
      ContextualizedChunks(contextModel, document, init);
      match Contextualized(contextModel, document, init)
      case Err(_) =>
        var j :| 0 <= j < n - 1 && !Contains(contextModel(document, init[j].pageContent), CloseTag);
        assert init[j] == chunks[j];
      case Ok(done) =>
        match GenerateContext(contextModel, document, last.pageContent)
        case Err(_) =>
          assert !Contains(contextModel(document, chunks[n - 1].pageContent), CloseTag);
        case Ok(context) =>
          var out := done + [WithContext(context, last)];
          assert Contextualized(contextModel, document, chunks) == Ok(out);
          forall i | 0 <= i < n
            ensures Contains(contextModel(document, chunks[i].pageContent), CloseTag)
            ensures out[i].metadata == chunks[i].metadata
            ensures out[i].pageContent == RemoveThinking(contextModel(document, chunks[i].pageContent)).value + "\n\n" + chunks[i].pageContent
          {
            if i < n - 1 {
              assert out[i] == done[i] && init[i] == chunks[i];
            }
          }
    }
  }

  /** Once a reply lacks `</think>`, contextualising the longer list fails with the same error. */
  lemma {:induction false} ContextualizedStopsAtFailure(contextModel: (string, string) -> string, document: string, chunks: seq<Doc>, k: nat)
    requires 0 < k <= |chunks|
    requires Contextualized(contextModel, document, chunks[..k - 1]).Ok?
    requires GenerateContext(contextModel, document, chunks[k - 1].pageContent).Err?
    ensures Contextualized(contextModel, document, chunks) == Err(GenerateContext(contextModel, document, chunks[k - 1].pageContent).error)
  {
    ContextualizedFailurePersists(contextModel, document, chunks, k);
    assert chunks[..k][..k - 1] == chunks[..k - 1];
  }

  lemma {:induction false} ContextualizedFailurePersists(contextModel: (string, string) -> string, document: string, chunks: seq<Doc>, k: nat)
    requires 0 < k <= |chunks|
    requires Contextualized(contextModel, document, chunks[..k]).Err?
    decreases |chunks| - k
    ensures Contextualized(contextModel, document, chunks) == Contextualized(contextModel, document, chunks[..k])
  {
    if k == |chunks| {
      assert chunks[..k] == chunks;
    } else {
      assert chunks[..k + 1][..k] == chunks[..k];
      ContextualizedFailurePersists(contextModel, document, chunks, k + 1);
    }
  }

  /** With contextualisation off, `create_chunks` returns the splitter's output unchanged. */
  lemma ChunksWithoutContextAreSplitterOutput(config: Config, split: Doc -> seq<Doc>, contextModel: (string, string) -> string, document: Doc)
    requires !config.contextualizeChunks
    ensures ChunksOf(config, split, contextModel, document) == Ok(split(document))
  {
  }

  /** The splitter copies the document's metadata to every chunk. */
  ghost predicate KeepsMetadata(split: Doc -> seq<Doc>)
  {
    forall d: Doc, c: Doc :: c in split(d) ==> c.metadata == d.metadata
  }

  /** When the splitter keeps metadata, every chunk of a file's document names that file as its source. */
  lemma ChunksNameTheirFile(config: Config, split: Doc -> seq<Doc>, contextModel: (string, string) -> string, file: File)
    requires KeepsMetadata(split)
    requires ChunksOf(config, split, contextModel, DocumentOf(file)).Ok?
    ensures forall c :: c in ChunksOf(config, split, contextModel, DocumentOf(file)).value ==>
      SourceKey in c.metadata && c.metadata[SourceKey] == file.name
  {
    var d := DocumentOf(file);
    var chunks := split(d);
    if config.contextualizeChunks {
      ContextualizedChunks(contextModel, d.pageContent, chunks);
      var out := ChunksOf(config, split, contextModel, d).value;
      forall c | c in out
        ensures SourceKey in c.metadata && c.metadata[SourceKey] == file.name
      {
        var i :| 0 <= i < |out| && out[i] == c;
        assert chunks[i] in split(d);
      }
    }
  }

  // ---------------------------------------------------------------------------
  // Batches

  /** `[chunks[b:b + size] for b in range(from, len(chunks), size)]` for a positive size. */
  function BatchesFrom(chunks: seq<Doc>, size: int, from: nat): seq<seq<Doc>>
    requires size > 0
    decreases |chunks| - from
  {
    if from >= |chunks| then []
    else [chunks[from..Min(from + size, |chunks|)]] + BatchesFrom(chunks, size, from + size)
  }

  function Min(a: int, b: int): int
  {
    if a <= b then a else b
  }

  /** The documents of the batches, one after the other. */
  function Flatten(batches: seq<seq<Doc>>): seq<Doc>
  {
    if batches == [] then [] else batches[0] + Flatten(batches[1..])
  }

  /**
   * The batches partition the chunks: concatenated in order they give back every chunk
   * from `from` on exactly once, and each holds between one and `size` chunks.
   */
  lemma {:induction false} BatchesPartition(chunks: seq<Doc>, size: int, from: nat)
    requires size > 0 && from <= |chunks|
    decreases |chunks| - from
    ensures Flatten(BatchesFrom(chunks, size, from)) == chunks[from..]
    ensures forall b :: b in BatchesFrom(chunks, size, from) ==> 0 < |b| <= size
  {
    if from < |chunks| {
      var next := Min(from + size, |chunks|);
      BatchesPartition(chunks, size, next);
      var rest := BatchesFrom(chunks, size, from + size);
      if from + size >= |chunks| {
        assert rest == [];
        assert chunks[from..] == chunks[from..next];
      } else {
        assert rest == BatchesFrom(chunks, size, next);
        assert chunks[from..] == chunks[from..next] + chunks[next..];
      }
      var all := BatchesFrom(chunks, size, from);
      assert all[1..] == rest;
    }
  }

  /**
   * The batches `create_embeddings` hands to `add_documents`: `range(0, len(chunks), size)`
   * raises for a zero size and is empty for a negative one.
   */
  function BatchPlan(chunks: seq<Doc>, size: int): Result<seq<seq<Doc>>>
  {
    if size == 0 then Err(ZeroBatchSize)
    else if size < 0 then Ok([])
    else Ok(BatchesFrom(chunks, size, 0))
  }

  /** What the new vector store receives: the chunks of every batch, in order. */
  function Embedded(chunks: seq<Doc>, size: int): (r: Result<seq<Doc>>)
  {
    match BatchPlan(chunks, size)
    case Err(e) => Err(e)
    case Ok(batches) => Ok(Flatten(batches))
  }

  /** For a positive batch size, the new store receives exactly the chunks, each once and in order. */
  lemma EmbeddedIsAllChunks(chunks: seq<Doc>, size: int)
    requires size > 0
    ensures Embedded(chunks, size) == Ok(chunks)
  {
    BatchesPartition(chunks, size, 0);
    assert chunks[0..] == chunks;
  }

  // ---------------------------------------------------------------------------
  // One file, then a list of files

  /** The document `create_vector_store` makes of a file. */
  function DocumentOf(file: File): Doc
  {
    Doc(file.content, map[SourceKey := file.name])
  }

  /** `os.path.join(VECTOR_STORE_DIR, f"{uuid}.db")`, where `uuid` is the name `shortuuid` draws. */
  function VectorPathOf(config: Config, uuid: string): string
  {
    PathJoin(config.vectorStoreDir, uuid + ".db")
  }

  /** `os.path.join(DOCUMENT_STORE_DIR, f"{file_name}.pkl")` */
  function DocumentPathOf(config: Config, name: string): string
  {
    PathJoin(config.documentStoreDir, name + ".pkl")
  }

  function SaveChunkList(w: World, path: string, docs: seq<Doc>): World
  {
    w.(disk := w.disk.(chunkLists := w.disk.chunkLists[path := docs]), log := w.log + [SavedChunkList(path)])
  }

  function SaveVectorStore(w: World, path: string, docs: seq<Doc>): World
  {
    w.(disk := w.disk.(vectorStores := w.disk.vectorStores[path := docs]), log := w.log + [SavedVectorStore(path)])
  }

  /** The world once the concatenated chunk list has been extended and saved (only when `isconcate`). */
  function AfterConcatenatedChunks(config: Config, w: World, chunks: seq<Doc>, isconcate: bool): World
  {
    if isconcate
    then SaveChunkList(w, config.concatenateDocumentPath, LoadedChunks(w.disk, config.concatenateDocumentPath) + chunks)
    else w
  }

  /**
   * The stores and chunk list saved after embedding: the concatenated store (only when
   * `isconcate`), the file's new store, the file's chunk list.
   */
  function AfterSaves(config: Config, w: World, concatenated: seq<Doc>, embedded: seq<Doc>, chunks: seq<Doc>, name: string, uuid: string, isconcate: bool): World
  {
    var w1 := if isconcate then SaveVectorStore(w, config.concatenateVectorPath, concatenated + embedded) else w;
    var w2 := SaveVectorStore(w1, VectorPathOf(config, uuid), embedded);
    SaveChunkList(w2, DocumentPathOf(config, name), chunks)
  }

  /** The metadata row for the file, after its saves. */
  function AfterInsert(config: Config, w: World, name: string, uuid: string): Step
  {
    var documentPath := DocumentPathOf(config, name);
    var vectorPath := VectorPathOf(config, uuid);
    var c := Database.Inserted(w.table, name, documentPath, vectorPath);
    if c.outcome.Failed? then Step(w, c.outcome)
    else Step(w.(table := c.table, log := w.log + [InsertedRow(name, documentPath, vectorPath)]), Done)
  }

  /** The body of `create_vector_store`'s loop for one file. */
  function IngestFile(config: Config, split: Doc -> seq<Doc>, contextModel: (string, string) -> string,
                      w: World, file: File, uuid: string, isconcate: bool): Step
  {
    match ChunksOf(config, split, contextModel, DocumentOf(file))
    case Err(e) => Step(w, Failed(e))
    case Ok(chunks) =>
      var concatenated := LoadedStore(w.disk, config.concatenateVectorPath);
      var w1 := AfterConcatenatedChunks(config, w, chunks, isconcate);
      match Embedded(chunks, config.batchSize)
      case Err(e) => Step(w1, Failed(e))
      case Ok(embedded) =>
        AfterInsert(config, AfterSaves(config, w1, concatenated, embedded, chunks, file.name, uuid, isconcate), file.name, uuid)
  }

  /** `create_vector_store`: the files in input order, stopping at the first that raises. */
  function Ingest(config: Config, split: Doc -> seq<Doc>, contextModel: (string, string) -> string,
                  w: World, files: seq<File>, uuids: seq<string>, isconcate: bool): Step
    requires |uuids| == |files|
    decreases |files|
  {
    if files == [] then Step(w, Done)
    else
      var n := |files|;
      var before := Ingest(config, split, contextModel, w, files[..n - 1], uuids[..n - 1], isconcate);
      if before.outcome.Failed? then before
      else IngestFile(config, split, contextModel, before.world, files[n - 1], uuids[n - 1], isconcate)
  }

  // ---------------------------------------------------------------------------
  // What ingestion guarantees

  /** Every row insert in the log comes after the save of its vector store and of its chunk list. */
  ghost predicate SavedBeforeInserted(log: seq<Effect>)
  {
    forall k :: 0 <= k < |log| && log[k].InsertedRow? ==>
      && (exists a :: 0 <= a < k && log[a] == SavedVectorStore(log[k].vectorPath))
      && (exists b :: 0 <= b < k && log[b] == SavedChunkList(log[k].documentPath))
  }

  /** The rows inserted according to the log, in order. */
  function Inserts(log: seq<Effect>): seq<Effect>
  {
    if log == [] then []
    else Inserts(log[..|log| - 1]) + (if log[|log| - 1].InsertedRow? then [log[|log| - 1]] else [])
  }

  lemma {:induction false} InsertsOfAppend(a: seq<Effect>, b: seq<Effect>)
    decreases |b|
    ensures Inserts(a + b) == Inserts(a) + Inserts(b)
  {
    if b != [] {
      InsertsOfAppend(a, b[..|b| - 1]);
      assert (a + b)[..|a + b| - 1] == a + b[..|b| - 1];
    } else {
      assert a + b == a;
    }
  }

  /** The row `create_vector_store` inserts for a file. */
  function RowFor(config: Config, file: File, uuid: string): Effect
  {
    InsertedRow(file.name, DocumentPathOf(config, file.name), VectorPathOf(config, uuid))
  }

  /** The writes for one file that goes through, in order. */
  function FileWrites(config: Config, file: File, uuid: string, isconcate: bool): seq<Effect>
  {
    (if isconcate then [SavedChunkList(config.concatenateDocumentPath), SavedVectorStore(config.concatenateVectorPath)] else [])
      + [SavedVectorStore(VectorPathOf(config, uuid)), SavedChunkList(DocumentPathOf(config, file.name)), RowFor(config, file, uuid)]
  }

  /**
   * For one file that goes through, the writes are: the concatenated chunk list and store
   * (only when `isconcate`), the file's store, the file's chunk list, and then its one
   * metadata row, naming that chunk list and that store.
   */
  lemma IngestFileWrites(config: Config, split: Doc -> seq<Doc>, contextModel: (string, string) -> string,
                         w: World, file: File, uuid: string, isconcate: bool)
    requires IngestFile(config, split, contextModel, w, file, uuid, isconcate).outcome.Done?
    ensures IngestFile(config, split, contextModel, w, file, uuid, isconcate).world.log == w.log + FileWrites(config, file, uuid, isconcate)
  {
  }

  /**
   * Whatever happens, even a file that raises half-way, no metadata row ever points at
   * a vector store or a chunk list that has not been saved before it.
   */
  lemma {:induction false} IngestSavesBeforeInserting(config: Config, split: Doc -> seq<Doc>, contextModel: (string, string) -> string,
                                    w: World, files: seq<File>, uuids: seq<string>, isconcate: bool)
    requires |uuids| == |files|
    requires SavedBeforeInserted(w.log)
    decreases |files|
    ensures SavedBeforeInserted(Ingest(config, split, contextModel, w, files, uuids, isconcate).world.log)
  {
    if files != [] {
      var n := |files|;
      IngestSavesBeforeInserting(config, split, contextModel, w, files[..n - 1], uuids[..n - 1], isconcate);
      var before := Ingest(config, split, contextModel, w, files[..n - 1], uuids[..n - 1], isconcate);
      if before.outcome.Done? {
        IngestFileKeepsSaveOrder(config, split, contextModel, before.world, files[n - 1], uuids[n - 1], isconcate);
      }
    }
  }

  lemma IngestFileKeepsSaveOrder(config: Config, split: Doc -> seq<Doc>, contextModel: (string, string) -> string,
                                 w: World, file: File, uuid: string, isconcate: bool)
    requires SavedBeforeInserted(w.log)
    ensures SavedBeforeInserted(IngestFile(config, split, contextModel, w, file, uuid, isconcate).world.log)
  {
    var s := IngestFile(config, split, contextModel, w, file, uuid, isconcate);
    var log := s.world.log;
    if s.outcome.Done? {
      IngestFileWrites(config, split, contextModel, w, file, uuid, isconcate);
      var m := |log|;
      assert log[m - 3] == SavedVectorStore(VectorPathOf(config, uuid));
      assert log[m - 2] == SavedChunkList(DocumentPathOf(config, file.name));
      forall k | 0 <= k < |log| && log[k].InsertedRow?
        ensures exists a :: 0 <= a < k && log[a] == SavedVectorStore(log[k].vectorPath)
        ensures exists b :: 0 <= b < k && log[b] == SavedChunkList(log[k].documentPath)
      {
        if k < |w.log| {
          assert log[k] == w.log[k];
          var a :| 0 <= a < k && w.log[a] == SavedVectorStore(w.log[k].vectorPath);
          var b :| 0 <= b < k && w.log[b] == SavedChunkList(w.log[k].documentPath);
          assert log[a] == w.log[a] && log[b] == w.log[b];
        } else {
          assert k == m - 1;
        }
      }
    } else {
      SaveOnlyPrefix(config, split, contextModel, w, file, uuid, isconcate);
      SavesKeepOrder(w.log, log);
    }
  }

  /** A file that raises has added saves, and no row, to the log. */
  lemma SaveOnlyPrefix(config: Config, split: Doc -> seq<Doc>, contextModel: (string, string) -> string,
                       w: World, file: File, uuid: string, isconcate: bool)
    requires IngestFile(config, split, contextModel, w, file, uuid, isconcate).outcome.Failed?
    ensures var log := IngestFile(config, split, contextModel, w, file, uuid, isconcate).world.log;
      && |log| >= |w.log| && log[..|w.log|] == w.log
      && forall k :: |w.log| <= k < |log| ==> !log[k].InsertedRow?
  {
    match ChunksOf(config, split, contextModel, DocumentOf(file))
    case Err(_) =>
    case Ok(chunks) =>
      var w1 := AfterConcatenatedChunks(config, w, chunks, isconcate);
      assert w1.log == w.log + (if isconcate then [SavedChunkList(config.concatenateDocumentPath)] else []);
      match Embedded(chunks, config.batchSize)
      case Err(_) =>
      case Ok(embedded) =>
        var w2 := AfterSaves(config, w1, LoadedStore(w.disk, config.concatenateVectorPath), embedded, chunks, file.name, uuid, isconcate);
        assert w2.log == w1.log
          + (if isconcate then [SavedVectorStore(config.concatenateVectorPath)] else [])
          + [SavedVectorStore(VectorPathOf(config, uuid)), SavedChunkList(DocumentPathOf(config, file.name))];
  }

  /** Appending writes that are not row inserts keeps every insert preceded by its saves. */
  lemma SavesKeepOrder(log: seq<Effect>, longer: seq<Effect>)
    requires SavedBeforeInserted(log)
    requires |longer| >= |log| && longer[..|log|] == log
    requires forall k :: |log| <= k < |longer| ==> !longer[k].InsertedRow?
    ensures SavedBeforeInserted(longer)
  {
    forall k | 0 <= k < |log| && log[k].InsertedRow?
      ensures exists a :: 0 <= a < k && longer[a] == SavedVectorStore(longer[k].vectorPath)
      ensures exists b :: 0 <= b < k && longer[b] == SavedChunkList(longer[k].documentPath)
    {
      assert longer[k] == log[k];
      var a :| 0 <= a < k && log[a] == SavedVectorStore(log[k].vectorPath);
      var b :| 0 <= b < k && log[b] == SavedChunkList(log[k].documentPath);
      assert longer[a] == log[a] && longer[b] == log[b];
    }
  }

  /** The rows `create_vector_store` inserts for the files, in order. */
  function RowsFor(config: Config, files: seq<File>, uuids: seq<string>): (rows: seq<Effect>)
    requires |uuids| == |files|
    decreases |files|
    ensures |rows| == |files|
    ensures forall i :: 0 <= i < |files| ==> rows[i] == RowFor(config, files[i], uuids[i])
  {
    if files == [] then []
    else
      var n := |files|;
      RowsFor(config, files[..n - 1], uuids[..n - 1]) + [RowFor(config, files[n - 1], uuids[n - 1])]
  }

  /** A file's writes hold exactly one row insert, its own. */
  lemma InsertsOfFileWrites(config: Config, file: File, uuid: string, isconcate: bool)
    ensures Inserts(FileWrites(config, file, uuid, isconcate)) == [RowFor(config, file, uuid)]
  {
    var saves := (if isconcate then [SavedChunkList(config.concatenateDocumentPath), SavedVectorStore(config.concatenateVectorPath)] else [])
      + [SavedVectorStore(VectorPathOf(config, uuid)), SavedChunkList(DocumentPathOf(config, file.name))];
    assert FileWrites(config, file, uuid, isconcate) == saves + [RowFor(config, file, uuid)];
    NoInserts(saves);
    InsertsOfAppend(saves, [RowFor(config, file, uuid)]);
    assert [RowFor(config, file, uuid)][..0] == [];
  }

  /**
   * When every file goes through, the log only grows, and the row inserts it gains are
   * one per file, in the order of the files, each naming the file, its chunk list and its store.
   */
  lemma {:induction false} IngestLogsOneRowPerFile(config: Config, split: Doc -> seq<Doc>, contextModel: (string, string) -> string,
                                                   w: World, files: seq<File>, uuids: seq<string>, isconcate: bool)
    requires |uuids| == |files|
    requires Ingest(config, split, contextModel, w, files, uuids, isconcate).outcome.Done?
    decreases |files|
    ensures var after := Ingest(config, split, contextModel, w, files, uuids, isconcate).world;
      && |after.log| >= |w.log|
      && after.log[..|w.log|] == w.log
      && Inserts(after.log[|w.log|..]) == RowsFor(config, files, uuids)
  {
    var n := |files|;
    var after := Ingest(config, split, contextModel, w, files, uuids, isconcate).world;
    if n == 0 {
      assert after.log[|w.log|..] == [];
    } else {
      var bw := Ingest(config, split, contextModel, w, files[..n - 1], uuids[..n - 1], isconcate).world;
      IngestLast(config, split, contextModel, w, files, uuids, isconcate);
      IngestLogsOneRowPerFile(config, split, contextModel, w, files[..n - 1], uuids[..n - 1], isconcate);
      InsertsOfFileWrites(config, files[n - 1], uuids[n - 1], isconcate);
      LogGrows(w.log, bw.log, FileWrites(config, files[n - 1], uuids[n - 1], isconcate));
    }
  }

  /** When all files go through, so did all but the last, and the last one's writes follow theirs. */
  lemma IngestLast(config: Config, split: Doc -> seq<Doc>, contextModel: (string, string) -> string,
                   w: World, files: seq<File>, uuids: seq<string>, isconcate: bool)
    requires |uuids| == |files| && files != []
    requires Ingest(config, split, contextModel, w, files, uuids, isconcate).outcome.Done?
    ensures var n := |files|;
      var before := Ingest(config, split, contextModel, w, files[..n - 1], uuids[..n - 1], isconcate);
      && before.outcome.Done?
      && IngestFile(config, split, contextModel, before.world, files[n - 1], uuids[n - 1], isconcate).outcome.Done?
      && Ingest(config, split, contextModel, w, files, uuids, isconcate)
         == IngestFile(config, split, contextModel, before.world, files[n - 1], uuids[n - 1], isconcate)
      && Ingest(config, split, contextModel, w, files, uuids, isconcate).world.log
         == before.world.log + FileWrites(config, files[n - 1], uuids[n - 1], isconcate)
      && var c := Database.Inserted(before.world.table, files[n - 1].name, DocumentPathOf(config, files[n - 1].name), VectorPathOf(config, uuids[n - 1]));
         c.outcome.Done? && Ingest(config, split, contextModel, w, files, uuids, isconcate).world.table == c.table
  {
    var n := |files|;
    var before := Ingest(config, split, contextModel, w, files[..n - 1], uuids[..n - 1], isconcate);
    IngestFileWrites(config, split, contextModel, before.world, files[n - 1], uuids[n - 1], isconcate);
    IngestFileInsertsRow(config, split, contextModel, before.world, files[n - 1], uuids[n - 1], isconcate);
  }

  /** A file that goes through adds its row to the table, which is otherwise unchanged. */
  lemma IngestFileInsertsRow(config: Config, split: Doc -> seq<Doc>, contextModel: (string, string) -> string,
                             w: World, file: File, uuid: string, isconcate: bool)
    requires IngestFile(config, split, contextModel, w, file, uuid, isconcate).outcome.Done?
    ensures var c := Database.Inserted(w.table, file.name, DocumentPathOf(config, file.name), VectorPathOf(config, uuid));
      c.outcome.Done? && IngestFile(config, split, contextModel, w, file, uuid, isconcate).world.table == c.table
  {
  }

  /** The log's row inserts after `start`, when a log that extends `start` is extended by `added`. */
  lemma LogGrows(start: seq<Effect>, log: seq<Effect>, added: seq<Effect>)
    requires |log| >= |start| && log[..|start|] == start
    ensures (log + added)[..|start|] == start
    ensures Inserts((log + added)[|start|..]) == Inserts(log[|start|..]) + Inserts(added)
  {
    assert (log + added)[|start|..] == log[|start|..] + added;
    InsertsOfAppend(log[|start|..], added);
  }

  /** Row i names file i, its chunk list and its store, for every file. */
  predicate NamesFiles(rows: seq<Database.Row>, config: Config, files: seq<File>, uuids: seq<string>)
    requires |uuids| == |files|
  {
    && |rows| == |files|
    && forall i :: 0 <= i < |files| ==>
      && rows[i].name == files[i].name
      && rows[i].filePath == DocumentPathOf(config, files[i].name)
      && rows[i].vectorPath == VectorPathOf(config, uuids[i])
  }

  lemma NamesFilesSnoc(rows: seq<Database.Row>, row: Database.Row, config: Config, files: seq<File>, uuids: seq<string>)
    requires |uuids| == |files| && files != []
    requires NamesFiles(rows, config, files[..|files| - 1], uuids[..|files| - 1])
    requires row.name == files[|files| - 1].name
    requires row.filePath == DocumentPathOf(config, files[|files| - 1].name)
    requires row.vectorPath == VectorPathOf(config, uuids[|files| - 1])
    ensures NamesFiles(rows + [row], config, files, uuids)
  {
    var n := |files|;
    forall i | 0 <= i < n - 1
      ensures (rows + [row])[i] == rows[i] && files[..n - 1][i] == files[i] && uuids[..n - 1][i] == uuids[i]
    {
    }
  }

  /**
   * When every file goes through, the table gains one row per file after the rows it
   * had, in the order of the files, each naming the file, its chunk list and its store.
   */
  lemma {:induction false} IngestAppendsOneRowPerFile(config: Config, split: Doc -> seq<Doc>, contextModel: (string, string) -> string,
                                                      w: World, files: seq<File>, uuids: seq<string>, isconcate: bool)
    requires |uuids| == |files|
    requires Ingest(config, split, contextModel, w, files, uuids, isconcate).outcome.Done?
    decreases |files|
    ensures var rows := Ingest(config, split, contextModel, w, files, uuids, isconcate).world.table.rows;
      && |rows| >= |w.table.rows|
      && rows[..|w.table.rows|] == w.table.rows
      && NamesFiles(rows[|w.table.rows|..], config, files, uuids)
  {
    var n := |files|;
    var rows := Ingest(config, split, contextModel, w, files, uuids, isconcate).world.table.rows;
    var m := |w.table.rows|;
    if n == 0 {
      assert rows == w.table.rows;
    } else {
      var before := Ingest(config, split, contextModel, w, files[..n - 1], uuids[..n - 1], isconcate).world.table.rows;
      IngestAppendsOneRowPerFile(config, split, contextModel, w, files[..n - 1], uuids[..n - 1], isconcate);
      IngestLast(config, split, contextModel, w, files, uuids, isconcate);
      assert rows == before + [rows[|before|]];
      RowsGrow(w.table.rows, before, rows[|before|]);
      NamesFilesSnoc(before[m..], rows[|before|], config, files, uuids);
    }
  }

  lemma RowsGrow(start: seq<Database.Row>, rows: seq<Database.Row>, row: Database.Row)
    requires |rows| >= |start| && rows[..|start|] == start
    ensures (rows + [row])[..|start|] == start
    ensures (rows + [row])[|start|..] == rows[|start|..] + [row]
  {
  }

  /** A log without row inserts contributes none. */
  lemma {:induction false} NoInserts(log: seq<Effect>)
    requires forall e :: e in log ==> !e.InsertedRow?
    decreases |log|
    ensures Inserts(log) == []
  {
    if log != [] {
      NoInserts(log[..|log| - 1]);
    }
  }

  /**
   * For one file that goes through, with the file's own paths distinct from the shared
   * ones: when `isconcate`, the shared chunk list becomes the old one (or `[]`) followed by
   * the file's chunks and the shared store gains the embedded chunks; otherwise both are
   * as they were. The file's chunk list is its chunks and its store holds what was embedded.
   */
  lemma IngestFileSavesChunks(config: Config, split: Doc -> seq<Doc>, contextModel: (string, string) -> string,
                              w: World, file: File, uuid: string, isconcate: bool)
    requires IngestFile(config, split, contextModel, w, file, uuid, isconcate).outcome.Done?
    requires DocumentPathOf(config, file.name) != config.concatenateDocumentPath
    requires VectorPathOf(config, uuid) != config.concatenateVectorPath
    ensures var chunks := ChunksOf(config, split, contextModel, DocumentOf(file)).value;
      var disk := IngestFile(config, split, contextModel, w, file, uuid, isconcate).world.disk;
      && config.batchSize != 0
      && disk.chunkLists[DocumentPathOf(config, file.name)] == chunks
      && disk.vectorStores[VectorPathOf(config, uuid)] == Embedded(chunks, config.batchSize).value
      && LoadedChunks(disk, config.concatenateDocumentPath)
         == LoadedChunks(w.disk, config.concatenateDocumentPath) + (if isconcate then chunks else [])
      && LoadedStore(disk, config.concatenateVectorPath)
         == LoadedStore(w.disk, config.concatenateVectorPath) + (if isconcate then Embedded(chunks, config.batchSize).value else [])
  {
  }

  /** With a positive batch size, the file's store holds exactly its chunks. */
  lemma IngestFileEmbedsEveryChunk(config: Config, split: Doc -> seq<Doc>, contextModel: (string, string) -> string,
                                   w: World, file: File, uuid: string, isconcate: bool)
    requires config.batchSize > 0
    requires IngestFile(config, split, contextModel, w, file, uuid, isconcate).outcome.Done?
    ensures var chunks := ChunksOf(config, split, contextModel, DocumentOf(file)).value;
      IngestFile(config, split, contextModel, w, file, uuid, isconcate).world.disk.vectorStores[VectorPathOf(config, uuid)] == chunks
  {
    EmbeddedIsAllChunks(ChunksOf(config, split, contextModel, DocumentOf(file)).value, config.batchSize);
  }

  // ---------------------------------------------------------------------------
  // The ingestor

  class DataIngestor {
    const config: Config
    const split: Doc -> seq<Doc>                    // RecursiveCharacterTextSplitter.split_documents on one document
    const contextModel: (string, string) -> string  // the chat model's reply to CONTEXT_PROMPT for (document, chunk)
    const database: Database.Database
    var vectorStores: map<string, seq<Doc>>
    var chunkLists: map<string, seq<Doc>>
    ghost var log: seq<Effect>

    function Files(): Disk
      reads this
    {
      Disk(vectorStores, chunkLists)
    }

    ghost function Snapshot(): World
      reads this, database
    {
      World(Files(), database.State(), log)
    }

    ghost predicate Valid()
      reads this, database
    {
      database.Valid()
    }

    constructor (config: Config, split: Doc -> seq<Doc>, contextModel: (string, string) -> string,
                 database: Database.Database, saved: Disk)
      requires database.Valid()
      ensures Valid()
      ensures this.config == config && this.split == split && this.contextModel == contextModel
      ensures this.database == database && Files() == saved && log == []
    {
      this.config := config;
      this.split := split;
      this.contextModel := contextModel;
      this.database := database;
      vectorStores := saved.vectorStores;
      chunkLists := saved.chunkLists;
      log := [];
    }

    /** `generate_context` */
    method GenerateContextFor(document: string, chunk: string) returns (context: Result<string>)
      ensures context == GenerateContext(contextModel, document, chunk)
      ensures context.Ok? ==> OccursAt(contextModel(document, chunk), CloseTag, |contextModel(document, chunk)| - |context.value| - |CloseTag|)
    {
      var reply := contextModel(document, chunk);
      context := RemoveThinking(reply);
    }

    /** `create_chunks` */
    method CreateChunks(document: Doc) returns (chunks: Result<seq<Doc>>)
      ensures chunks == ChunksOf(config, split, contextModel, document)
    {
      var split := split(document);
      if !config.contextualizeChunks {
        return Ok(split);
      }
      var contextual: seq<Doc> := [];
      var i := 0;
      while i < |split|
        invariant 0 <= i <= |split|
        invariant Contextualized(contextModel, document.pageContent, split[..i]) == Ok(contextual)
      {
        assert split[..i + 1][..i] == split[..i];
        var context := GenerateContextFor(document.pageContent, split[i].pageContent);
        if context.Err? {
          ContextualizedStopsAtFailure(contextModel, document.pageContent, split, i + 1);
          return Err(context.error);
        }
        contextual := contextual + [WithContext(context.value, split[i])];
        i := i + 1;
      }
      assert split[..i] == split;
      chunks := Ok(contextual);
    }

    /** `load_vector_store` */
    method LoadVectorStore(path: string) returns (store: VectorStore)
      ensures fresh(store) && store.docs == LoadedStore(Files(), path)
    {
      if path in vectorStores {
        store := new VectorStore.Load(vectorStores[path]);
      } else {
        store := new VectorStore.Empty();
      }
    }

    /** `load_document` */
    function LoadDocument(path: string): (docs: seq<Doc>)
      reads this
      ensures path !in chunkLists ==> docs == []
      ensures path in chunkLists ==> docs == chunkLists[path]
    {
      LoadedChunks(Files(), path)
    }

    /** `save_vector_store`: dump the store at `path`. */
    method SaveVectorStore(store: VectorStore, path: string)
      modifies this
      ensures vectorStores == old(vectorStores)[path := store.docs] && chunkLists == old(chunkLists)
      ensures log == old(log) + [SavedVectorStore(path)]
    {
      vectorStores := vectorStores[path := store.docs];
      log := log + [SavedVectorStore(path)];
    }

    /** `save_document`: pickle the list at `path`. */
    method SaveDocument(docs: seq<Doc>, path: string)
      modifies this
      ensures chunkLists == old(chunkLists)[path := docs] && vectorStores == old(vectorStores)
      ensures log == old(log) + [SavedChunkList(path)]
    {
      chunkLists := chunkLists[path := docs];
      log := log + [SavedChunkList(path)];
    }

    /**
     * `create_embeddings`: a fresh store receives the chunks batch by batch, and so does
     * `concatenated` when `isconcate`; `batches` are the slices handed to `add_documents`.
     */
    method CreateEmbeddings(chunks: seq<Doc>, concatenated: VectorStore, isconcate: bool)
        returns (store: Result<VectorStore>, ghost batches: seq<seq<Doc>>)
      modifies concatenated
      ensures BatchPlan(chunks, config.batchSize).Err? ==>
        store == Err(ZeroBatchSize) && concatenated.docs == old(concatenated.docs)
      ensures BatchPlan(chunks, config.batchSize).Ok? ==>
        && batches == BatchPlan(chunks, config.batchSize).value
        && store.Ok? && fresh(store.value)
        && store.value.docs == Flatten(batches)
        && concatenated.docs == old(concatenated.docs) + (if isconcate then Flatten(batches) else [])
    {
      var size := config.batchSize;
      var created := new VectorStore.Empty();
      batches := [];
      if size == 0 {
        return Err(ZeroBatchSize), batches;
      }
      if size > 0 {
        var b := 0;
        while b < |chunks|
          invariant 0 <= b
          invariant batches + BatchesFrom(chunks, size, b) == BatchesFrom(chunks, size, 0)
          invariant created.docs == Flatten(batches)
          invariant concatenated.docs == old(concatenated.docs) + (if isconcate then Flatten(batches) else [])
          invariant created != concatenated && fresh(created)
          decreases |chunks| - b
        {
          var batch := chunks[b..Min(b + size, |chunks|)];
          FlattenAppend(batches, batch);
          created.AddDocuments(batch);
          if isconcate {
            concatenated.AddDocuments(batch);
          }
          assert BatchesFrom(chunks, size, b) == [batch] + BatchesFrom(chunks, size, b + size);
          batches := batches + [batch];
          b := b + size;
        }
        assert batches == BatchesFrom(chunks, size, 0);
      }
      store := Ok(created);
    }

    /** One iteration of `create_vector_store`'s loop: the file `file`, whose store is named `uuid`. */
    method IngestOne(file: File, uuid: string, isconcate: bool) returns (outcome: Outcome)
      requires Valid()
      modifies this, database
      ensures Valid()
      ensures Step(Snapshot(), outcome) == IngestFile(config, split, contextModel, old(Snapshot()), file, uuid, isconcate)
    {
      var chunks := CreateChunks(DocumentOf(file));
      if chunks.Err? {
        return Failed(chunks.error);
      }
      outcome := SaveChunksAndStores(file, uuid, isconcate, chunks.value);
      if outcome.Failed? {
        return;
      }
      outcome := InsertRow(file.name, uuid);
    }

    /** The saves of one chunked file: the concatenated chunk list, then the embeddings, the stores and the file's chunk list. */
    method SaveChunksAndStores(file: File, uuid: string, isconcate: bool, chunks: seq<Doc>) returns (outcome: Outcome)
      requires Valid()
      modifies this
      ensures Valid()
      ensures var w1 := AfterConcatenatedChunks(config, old(Snapshot()), chunks, isconcate);
        match Embedded(chunks, config.batchSize)
        case Err(e) => outcome == Failed(e) && Snapshot() == w1
        case Ok(embedded) =>
          outcome == Done &&
          Snapshot() == AfterSaves(config, w1, LoadedStore(old(Snapshot()).disk, config.concatenateVectorPath), embedded, chunks, file.name, uuid, isconcate)
    {
      var vectorPath := VectorPathOf(config, uuid);
      var documentPath := DocumentPathOf(config, file.name);
      var concatenated := LoadVectorStore(config.concatenateVectorPath);
      ghost var w0 := Snapshot();
      if isconcate {
        var concatenatedDocuments := LoadDocument(config.concatenateDocumentPath);
        concatenatedDocuments := concatenatedDocuments + chunks;
        SaveDocument(concatenatedDocuments, config.concatenateDocumentPath);
      }
      assert Snapshot() == AfterConcatenatedChunks(config, w0, chunks, isconcate);
      ghost var w1 := Snapshot();
      var store, batches := CreateEmbeddings(chunks, concatenated, isconcate);
      if store.Err? {
        return Failed(store.error);
      }
      if isconcate {
        SaveVectorStore(concatenated, config.concatenateVectorPath);
      }
      SaveVectorStore(store.value, vectorPath);
      SaveDocument(chunks, documentPath);
      outcome := Done;
    }

    /** `insert_data` of the file's row, logged when it succeeds. */
    method InsertRow(name: string, uuid: string) returns (outcome: Outcome)
      requires Valid()
      modifies this, database
      ensures Valid()
      ensures Step(Snapshot(), outcome) == AfterInsert(config, old(Snapshot()), name, uuid)
    {
      var documentPath := DocumentPathOf(config, name);
      var vectorPath := VectorPathOf(config, uuid);
      outcome := database.InsertData(name, documentPath, vectorPath);
      if outcome.Done? {
        log := log + [InsertedRow(name, documentPath, vectorPath)];
      }
    }

    /** One turn of `create_vector_store`'s loop: file `k` goes through after the `k` before it did. */
    method IngestNext(ghost start: World, files: seq<File>, uuids: seq<string>, isconcate: bool, k: nat) returns (outcome: Outcome)
      requires Valid()
      requires |uuids| == |files| && k < |files|
      requires Step(Snapshot(), Done) == Ingest(config, split, contextModel, start, files[..k], uuids[..k], isconcate)
      modifies this, database
      ensures Valid()
      ensures Step(Snapshot(), outcome) == Ingest(config, split, contextModel, start, files[..k + 1], uuids[..k + 1], isconcate)
    {
      IngestOneMore(config, split, contextModel, start, files, uuids, isconcate, k);
      outcome := IngestOne(files[k], uuids[k], isconcate);
    }

    /** `create_vector_store`: the files in input order; `uuids[i]` names file i's new store. */
    method CreateVectorStore(files: seq<File>, uuids: seq<string>, isconcate: bool) returns (outcome: Outcome)
      requires Valid()
      requires |uuids| == |files|
      modifies this, database
      ensures Valid()
      ensures Step(Snapshot(), outcome) == Ingest(config, split, contextModel, old(Snapshot()), files, uuids, isconcate)
    {
      ghost var start := Snapshot();
      var i := 0;
      outcome := Done;
      while i < |files|
        invariant 0 <= i <= |files|
        invariant Valid()
        invariant outcome == Done
        invariant Step(Snapshot(), Done) == Ingest(config, split, contextModel, start, files[..i], uuids[..i], isconcate)
      {
        outcome := IngestNext(start, files, uuids, isconcate, i);
        if outcome.Failed? {
          IngestStopsAtFailure(config, split, contextModel, start, files, uuids, isconcate, i + 1);
          return;
        }
        i := i + 1;
      }
      assert files[..i] == files && uuids[..i] == uuids;
    }

    /** `get_retriever`: the semantic store and the chunk list at the given paths, fused and reranked. */
    function GetRetriever(documentPath: string, vectorPath: string): (r: Result<Retriever>)
      reads this
      ensures r.Err? <==> LoadedChunks(Files(), documentPath) == [] || config.bm25ResultsUnderCapitalP.None?
      ensures LoadedChunks(Files(), documentPath) == [] ==> r == Err(EmptyBm25Corpus)
      ensures LoadedChunks(Files(), documentPath) != [] && config.bm25ResultsUnderCapitalP.None? ==>
        r == Err(MissingConfigKey("Preprocessing"))
      ensures r.Ok? ==>
        && r.value.semanticStore == LoadedStore(Files(), vectorPath)
        && r.value.bm25Documents == LoadedChunks(Files(), documentPath)
        && r.value.weights == EnsembleWeights
        && r.value.semanticK == config.semanticResults
        && r.value.bm25K == config.bm25ResultsUnderCapitalP.value
        && r.value.rerankerModel == config.rerankerModel
        && r.value.topN == config.contextResults
    {
      var store := LoadedStore(Files(), vectorPath);
      var documents := LoadDocument(documentPath);
      if documents == [] then Err(EmptyBm25Corpus)
      else match config.bm25ResultsUnderCapitalP
      case None => Err(MissingConfigKey("Preprocessing"))
      case Some(k) =>
        Ok(Retriever(store, config.semanticResults, documents, k, EnsembleWeights, config.rerankerModel, config.contextResults))
    }
  }

  /** After the first `k` files went through, the next file is ingested into the world they left. */
  lemma IngestOneMore(config: Config, split: Doc -> seq<Doc>, contextModel: (string, string) -> string,
                      w: World, files: seq<File>, uuids: seq<string>, isconcate: bool, k: nat)
    requires |uuids| == |files| && k < |files|
    requires Ingest(config, split, contextModel, w, files[..k], uuids[..k], isconcate).outcome.Done?
    ensures Ingest(config, split, contextModel, w, files[..k + 1], uuids[..k + 1], isconcate)
      == IngestFile(config, split, contextModel, Ingest(config, split, contextModel, w, files[..k], uuids[..k], isconcate).world, files[k], uuids[k], isconcate)
  {
    assert files[..k + 1][..k] == files[..k] && uuids[..k + 1][..k] == uuids[..k];
  }

  /** Once a file raises, the later files are not processed. */
  lemma {:induction false} IngestStopsAtFailure(config: Config, split: Doc -> seq<Doc>, contextModel: (string, string) -> string,
                                                w: World, files: seq<File>, uuids: seq<string>, isconcate: bool, k: nat)
    requires |uuids| == |files| && 0 < k <= |files|
    requires Ingest(config, split, contextModel, w, files[..k], uuids[..k], isconcate).outcome.Failed?
    decreases |files| - k
    ensures Ingest(config, split, contextModel, w, files, uuids, isconcate) == Ingest(config, split, contextModel, w, files[..k], uuids[..k], isconcate)
  {
    if k == |files| {
      assert files[..k] == files && uuids[..k] == uuids;
    } else {
      assert files[..k + 1][..k] == files[..k] && uuids[..k + 1][..k] == uuids[..k];
      IngestStopsAtFailure(config, split, contextModel, w, files, uuids, isconcate, k + 1);
    }
  }

  lemma FlattenAppend(batches: seq<seq<Doc>>, batch: seq<Doc>)
    ensures Flatten(batches + [batch]) == Flatten(batches) + batch
  {
    if batches != [] {
      FlattenAppend(batches[1..], batch);
      assert (batches + [batch])[1..] == batches[1..] + [batch];
    } else {
      assert Flatten([batch]) == batch + Flatten([]);
    }
  }
}
