# accord, modelled in Dafny

accord is a retrieval-augmented chat application. A user uploads files. The
ingestor splits each file into chunks and optionally gives every chunk a
context written by a language model. It embeds the chunks into a vector
store, saves the store and the chunk list, and records both paths in a SQLite
metadata table. The chatbot then answers questions. It retrieves sources,
prompts the model with them and with the chat history, and streams the answer
as events. After the final answer, the exchange is appended to the history,
with the model's `<think>…</think>` reasoning removed.

This project models the code the repository writes itself. The libraries it
calls stay opaque and appear as function-valued parameters or fields:
- the text splitter;
- embeddings, BM25, ensemble fusion and reranking;
- the chat model;
- the streaming runtime;
- PDF, DOCX and UTF-8 decoding.

The files and modules:

- `text.dfy`
  - `Results`: the errors the code raises and the `Result`/`Outcome` types that carry them.
  - `Text`: `str.join`, substring search and `os.path.join`.
- `utils.dfy` (`Utils`): removing the reasoning up to the first `</think>`.
- `file_loader.dfy` (`FileLoader`): pathlib's suffix rule, the allow-list check and the dispatch to the readers.
- `database.dfy` (`Database`):
  - the `document` table as pure statement effects;
  - the class `Database`, whose methods update its fields and are proved against those effects.
- `documents.dfy` (`Documents`): langchain's `Document` and an in-memory vector store seen as the documents added to it.
- `ingestion.dfy` (`Ingestion`):
  - the ingestion pipeline as specification functions over a `World`, which holds the saved files, the table and a ghost log of writes;
  - the class `DataIngestor`, whose loops are proved against those functions;
  - lemmas on what ingestion guarantees.
- `conversation.dfy`:
  - `Entity`: the roles, messages, events and graph state.
  - `Conversation`:
    - the history mapping, source formatting and event translation;
    - `ask`, modelled as a generator driven by a number of pulls;
    - the classes `ChatHistory` and `Chatbot`;
    - the property that the streaming runtime runs the compiled retrieve → generate workflow, and what a whole turn of `ask` yields and appends under it.

## Model

| member | source | states |
|---|---|---|
| Text.JoinLength | accord/file_loader.py:48 | a joined string is as long as its parts plus one separator between each pair of neighbours |
| Text.JoinSplit | accord/chatbot.py:62-64 | joining is the same wherever the list is cut: the parts before the cut, one separator, then the parts after it |
| Text.JoinCons | accord/file_loader.py:48 | joining a first part and a non-empty rest puts the first part, a separator, then the rest joined |
| Text.IndexFrom | accord/utils.py:49 | the result is the first occurrence at or after the start; None means there is none |
| Text.IndexOf | accord/utils.py:49 | `str.index` without its exception: Some exactly when the text occurs, and then the first occurrence |
| Text.PathJoin | accord/data_ingestor.py:159-166 | `os.path.join` on POSIX: an absolute second part replaces the first; otherwise the first part gets a `/` only when it is non-empty and does not already end in one |
| Utils.RemoveThinking | accord/utils.py:40-49 | raises `MissingCloseTag` exactly when the message has no `</think>`; otherwise returns exactly the text after the first tag, of length len(message) − i − 8 |
| Utils.CloseTagNoOverlap | accord/utils.py:47 | two occurrences of `</think>` never overlap |
| Utils.OccursInSuffix | accord/utils.py:49 | a tag in the text after a cut is a tag in the message, shifted by the cut, and back |
| Utils.NoTagBefore | accord/utils.py:49 | in tag-free prefix + tag + rest, no tag starts inside the prefix |
| Utils.RemoveThinkingOfDecomposition | accord/utils.py:49 | stripping tag-free prefix + tag + rest yields exactly rest |
| Utils.RemoveThinkingDecomposes | accord/utils.py:49 | a successful strip splits the message into a tag-free prefix, the tag and the result |
| Utils.TagFreeIffSingleTag | accord/utils.py:49 | the result is free of the tag if and only if the message holds the tag exactly once |
| Utils.LaterTagsSurvive | accord/utils.py:49 | every tag after the first one is still in the result |
| FileLoader.LastIndex | accord/file_loader.py:62 | `str.rfind` of a character: the last position holding it, or None when it is absent |
| FileLoader.FinalComponent | accord/file_loader.py:62 | `PurePath.name`: the slash-free tail of the path after its last `/` |
| FileLoader.Suffix | accord/file_loader.py:62 | `PurePath.suffix`: either empty or a dot followed by dot-free, slash-free text that ends the final component, with something other than `/` before the dot |
| FileLoader.SuffixOfDottedName | accord/file_loader.py:62 | every name ending in stem.word, with a stem that does not end in `/`, has the suffix ".word" |
| FileLoader.SuffixOfDotTail | accord/file_loader.py:62 | a path ending in a dot-led, dot-free, slash-free tail has that tail as its suffix |
| FileLoader.SuffixOfComponentTail | accord/file_loader.py:62 | a final component that ends in a dot-led, dot-free tail with something before the dot has that tail as its suffix |
| FileLoader.SuffixFromDot | accord/file_loader.py:62 | the suffix starts at the final component's last dot when that dot is inside the component |
| FileLoader.LastDotOfTail | accord/file_loader.py:62 | the last dot of a name ending in a dot-led, dot-free tail is the tail's dot |
| FileLoader.LastIndexIsUnique | accord/file_loader.py:62 | a position holding the character, with none after it, is what `rfind` finds |
| FileLoader.FinalComponentKeepsSlashFreeTail | accord/file_loader.py:62 | a slash-free tail after a character other than `/` stays inside the final component |
| FileLoader.FinalComponentSnoc | accord/file_loader.py:62 | a character other than `/` appended to a path is appended to its final component |
| FileLoader.PdfText | accord/file_loader.py:32-37 | the page texts appended in page order equal `"".join` of them, and the length is the sum of the page lengths |
| FileLoader.ExtractPdfContent | accord/file_loader.py:23-37 | the loop builds `PdfText` of the page texts: concatenated in page order with no separator; its length is the sum of the page lengths |
| FileLoader.ExtractDocxContent | accord/file_loader.py:39-49 | zero paragraphs give ""; otherwise the first paragraph, then "\n" and the rest; the length counts one newline between each pair of paragraphs |
| FileLoader.LoadFile | accord/file_loader.py:52-76 | raises exactly when the extension is not allowed, for .txt/.md bytes that are not UTF-8, or for .pdf/.docx bytes the reader rejects; keeps the upload's name; the content is the decoded text, the joined pages or the joined paragraphs; an allowed extension without a reader gives "" |
| FileLoader.LoadFileByExtension | accord/file_loader.py:62-76 | an upload named stem.word is rejected when ".word" is not allowed, and otherwise is read, or raises, as the reader of ".word" does |
| Database.Inserted | accord/database.py:41-47 | fails on a missing table and when AUTOINCREMENT is exhausted; otherwise appends exactly one row with the given values under an id above every earlier id, and keeps the table well formed |
| Database.Created | accord/database.py:17-37 | an existing table is left as it is; otherwise the table is created holding the single concatenate row with the concatenate paths and id 1 |
| Database.Updated | accord/database.py:49-55 | only the file and vector paths of rows with the given id change; ids, names, the other rows and the count stay |
| Database.RecordOf | accord/database.py:66 | one record maps the four column names to the row's values |
| Database.Records | accord/database.py:58-67 | one record per row, in rowid order; a missing table raises |
| Database.CreateTableIsIdempotent | accord/database.py:19-25 | creating the table twice is creating it once |
| Database.UpdateOfUnknownIdChangesNothing | accord/database.py:49-55 | an update whose id matches no row leaves the table unchanged |
| Database.InsertedRowIsListedLast | accord/database.py:41-47 | after an insert, `get_data` lists the new row last, with the given values and an id no earlier row has |
| Database.RowsAreNeverRemoved | accord/database.py:17-67 | no sequence of statements removes a row or changes an existing row's id or name, and the table stays well formed |
| Database.Database.Open | accord/database.py:12-14 | the connection opens the table in the state it was stored in |
| Database.Database.CreateTable | accord/database.py:17-37 | the new table state is what `Created` gives |
| Database.Database.InsertData | accord/database.py:41-47 | the new table state and the outcome are what `Inserted` gives |
| Database.Database.UpdateData | accord/database.py:49-55 | the new table state and the outcome are what `Updated` gives |
| Database.Database.GetData | accord/database.py:58-67 | the records are what `Records` gives for the current table |
| Documents.VectorStore.Empty | accord/data_ingestor.py:104 | a new store holds no documents |
| Documents.VectorStore.Load | accord/data_ingestor.py:103 | a loaded store holds what was dumped |
| Documents.VectorStore.AddDocuments | accord/data_ingestor.py:138 | the batch is appended after the documents already held |
| Ingestion.LoadedStore | accord/data_ingestor.py:93-104 | the dumped store at the path, or an empty store when there is none |
| Ingestion.LoadedChunks | accord/data_ingestor.py:106-117 | the pickled list at the path, or [] when there is none |
| Ingestion.ContextualizedChunks | accord/data_ingestor.py:68-73 | contextualising succeeds if and only if every reply holds `</think>`; it then keeps the number, order and metadata of the chunks, and chunk i becomes the stripped reply, a blank line, then the chunk's text |
| Ingestion.ContextualizedStopsAtFailure | accord/data_ingestor.py:69-70 | the first reply without `</think>` makes the whole of `create_chunks` raise with that error |
| Ingestion.ContextualizedFailurePersists | accord/data_ingestor.py:69-70 | once a prefix of the chunks fails, the longer list fails the same way |
| Ingestion.ChunksWithoutContextAreSplitterOutput | accord/data_ingestor.py:65-67 | with contextualisation off, the chunks are the splitter's output unchanged |
| Ingestion.ChunksNameTheirFile | accord/data_ingestor.py:155-157 | when the splitter keeps metadata, every chunk of a file names that file as its `source` |
| Ingestion.BatchesPartition | accord/data_ingestor.py:136-137 | the slices `chunks[b:b+size]` give back every chunk exactly once and in order, each slice holding between 1 and size chunks |
| Ingestion.EmbeddedIsAllChunks | accord/data_ingestor.py:133-138 | for a positive batch size, the new store receives exactly the chunks, in order |
| Ingestion.InsertsOfAppend | accord/data_ingestor.py:191 | the row inserts of two logs in turn are the inserts of the first, then those of the second |
| Ingestion.IngestFileWrites | accord/data_ingestor.py:170-191 | for a file that goes through, the writes are the concatenated list and store (only when `isconcate`), then the file's store, then its chunk list, then its one row |
| Ingestion.IngestSavesBeforeInserting | accord/data_ingestor.py:146-191 | whatever happens, even when a file raises half-way, every metadata row comes after the saves of the store and the chunk list it names |
| Ingestion.IngestFileKeepsSaveOrder | accord/data_ingestor.py:185-191 | one file, whether or not it goes through, keeps every row preceded by its saves |
| Ingestion.SaveOnlyPrefix | accord/data_ingestor.py:168-189 | a file that raises has added only saves to the log, and no row |
| Ingestion.SavesKeepOrder | accord/data_ingestor.py:185-189 | appending writes that are not row inserts keeps every row preceded by its saves |
| Ingestion.RowsFor | accord/data_ingestor.py:191 | one row per file, in file order, each naming the file, its chunk list and its store |
| Ingestion.InsertsOfFileWrites | accord/data_ingestor.py:191 | a file's writes hold exactly one row insert, its own |
| Ingestion.IngestLogsOneRowPerFile | accord/data_ingestor.py:156-191 | when every file goes through, the log only grows, and it gains exactly one row per file, in input order, under DOCUMENT_STORE_DIR/<name>.pkl and the file's store path |
| Ingestion.IngestLast | accord/data_ingestor.py:156 | when all files go through, so did all but the last; the last one's writes and its insert follow theirs |
| Ingestion.IngestFileInsertsRow | accord/data_ingestor.py:191 | a file that goes through inserts its row into the table |
| Ingestion.LogGrows | accord/data_ingestor.py:191 | extending a log that extends the start adds the inserts of the extension |
| Ingestion.NamesFilesSnoc | accord/data_ingestor.py:156-191 | one more row naming one more file extends the correspondence between rows and files |
| Ingestion.IngestAppendsOneRowPerFile | accord/data_ingestor.py:156-191 | when every file goes through, the table keeps its rows and gains one row per file, in input order, naming the file, its chunk list and its store |
| Ingestion.RowsGrow | accord/data_ingestor.py:191 | appending a row keeps the rows that were there |
| Ingestion.NoInserts | accord/data_ingestor.py:185-189 | a log without row inserts contributes none |
| Ingestion.IngestFileSavesChunks | accord/data_ingestor.py:168-189 | for a file that goes through: its chunk list is its chunks and its store holds what was embedded; with `isconcate` the shared list becomes the old list (or []) followed by the chunks and the shared store gains the embedded chunks; otherwise both stay as they were |
| Ingestion.IngestFileEmbedsEveryChunk | accord/data_ingestor.py:179-188 | with a positive batch size, the file's saved store holds exactly its chunks |
| Ingestion.IngestOneMore | accord/data_ingestor.py:156 | after the first k files, the next file is ingested into the state they left |
| Ingestion.IngestStopsAtFailure | accord/data_ingestor.py:156-191 | once a file raises, the later files are not processed |
| Ingestion.FlattenAppend | accord/data_ingestor.py:136-140 | one more batch adds its documents after those of the batches before it |
| Ingestion.DataIngestor.constructor | accord/data_ingestor.py:22-49 | the ingestor starts over the saved files with an empty write log |
| Ingestion.DataIngestor.GenerateContextFor | accord/data_ingestor.py:51-62 | the context is the model's reply stripped up to its first `</think>`; on success it is what follows a tag in the reply |
| Ingestion.DataIngestor.CreateChunks | accord/data_ingestor.py:64-73 | the loop builds exactly what `ChunksOf` specifies, stopping at the first failing reply |
| Ingestion.DataIngestor.LoadVectorStore | accord/data_ingestor.py:93-104 | a fresh store holding the saved store at the path, or nothing |
| Ingestion.DataIngestor.LoadDocument | accord/data_ingestor.py:106-117 | the pickled list at the path, or [] when there is none |
| Ingestion.DataIngestor.SaveVectorStore | accord/data_ingestor.py:75-82 | the store's documents are saved at the path and the write is logged; nothing else changes |
| Ingestion.DataIngestor.SaveDocument | accord/data_ingestor.py:84-91 | the list is saved at the path and the write is logged; nothing else changes |
| Ingestion.DataIngestor.CreateEmbeddings | accord/data_ingestor.py:119-141 | a zero batch size raises and leaves the shared store as it was; otherwise a fresh store receives the batches in order, and so does the shared store exactly when `isconcate` |
| Ingestion.DataIngestor.IngestOne | accord/data_ingestor.py:156-191 | one file changes the state exactly as `IngestFile` specifies |
| Ingestion.DataIngestor.SaveChunksAndStores | accord/data_ingestor.py:170-189 | after chunking, the concatenated list is saved first; a zero batch size then raises with only that save done; otherwise the concatenated store, the file's store and the file's chunk list are saved, as `AfterSaves` states |
| Ingestion.DataIngestor.InsertRow | accord/data_ingestor.py:191 | the table changes as `Inserted` states, and the row is logged only when the insert succeeds |
| Ingestion.DataIngestor.IngestNext | accord/data_ingestor.py:156-191 | one turn of the loop extends the processed prefix by one file |
| Ingestion.DataIngestor.CreateVectorStore | accord/data_ingestor.py:146-191 | the files are processed in input order, stopping at the first that raises, exactly as `Ingest` specifies |
| Ingestion.DataIngestor.GetRetriever | accord/data_ingestor.py:194-226 | fails exactly when the chunk list at the document path is empty (BM25 over no documents raises) or, failing that, the `Preprocessing` key is missing; otherwise fuses the store at the vector path (k semantic results) with BM25 over the chunk list at the document path (k BM25 results), with weights [0.6, 0.4] and the configured reranker and top_n |
| Conversation.MapHistory | accord/chatbot.py:92-95 | keeps the length, order and content; assistant entries become AI messages and every other entry becomes a human message |
| Conversation.MapHistoryRoundTrip | accord/chatbot.py:92-95 | the roles and texts can be read back from the mapped history, in order |
| Conversation.FormatDocs | accord/chatbot.py:61-64 | raises exactly when some document has no `source`; otherwise each document goes through the file template in order, joined by "\n\n" |
| Conversation.FormatDocsSeparates | accord/chatbot.py:62-64 | the rendering of any split of the documents is the two parts' renderings separated by a blank line |
| Conversation.RenderedSplits | accord/chatbot.py:62-64 | the joined renderings split at any document boundary with one blank line between the parts |
| Conversation.FormatDocsJoins | accord/chatbot.py:62-64 | documents that all have a source are rendered without error |
| Conversation.RenderedSlice | accord/chatbot.py:63 | rendering a slice of the documents is the same slice of their renderings |
| Conversation.PromptFor | accord/chatbot.py:73-79 | the system prompt filled with the question and context, then the history unchanged, then the query template filled with the question and context |
| Conversation.TranslateAppend | accord/chatbot.py:102-116 | the events of two streams in turn are the first stream's events, then the second's |
| Conversation.TranslateSnoc | accord/chatbot.py:102-116 | one more item yields its events after those of the items before it |
| Conversation.MessagesItems | accord/chatbot.py:107-109 | one message item per fragment, in order |
| Conversation.ChunkEvents | accord/chatbot.py:107-109 | one chunk event per fragment, in order |
| Conversation.TranslateFragments | accord/chatbot.py:107-109 | message items become chunk events carrying their fragments, in order |
| Conversation.TranslateWorkflowStream | accord/chatbot.py:107-116 | the retrieve update becomes a sources event with the context, each fragment a chunk event, and the generate update a final-answer event with the answer |
| Conversation.ResumeAppendsExchange | accord/chatbot.py:123-126 | resuming after any other event changes nothing; after a final answer it raises exactly when the answer has no `</think>`, and otherwise appends User(prompt) then Assistant(stripped answer) after the untouched history |
| Conversation.AskYieldsEventsInOrder | accord/chatbot.py:121-122 | the caller receives the events unchanged and in order, at most one per pull, and all of them when it keeps pulling and nothing raises; earlier history entries are never touched |
| Conversation.AskStep | accord/chatbot.py:121-126 | a pull past an event whose resumption does not raise yields that event, then continues on the resumed history |
| Conversation.AskAt | accord/chatbot.py:121-126 | the pull that yields event i, followed by the code after that `yield` when the caller pulls again |
| Conversation.PrefixedTwice | accord/chatbot.py:122 | yielding two runs of events in turn is yielding them joined |
| Conversation.AskSuspends | accord/chatbot.py:122 | the first pull yields the first event and runs nothing after it |
| Conversation.AskRaises | accord/chatbot.py:124 | resuming after a final answer without `</think>` raises, and nothing is appended |
| Conversation.AskRunsOut | accord/chatbot.py:121 | a pull that finds the stream exhausted yields nothing and ends the turn as the stream ends: it finishes, or it raises what the workflow raised |
| Conversation.AskWithoutResumedAnswer | accord/chatbot.py:121-123 | pulls that resume after no final answer pass the events on and leave the history alone; a pull past the last event ends the turn as the stream ends |
| Conversation.AskPassesOver | accord/chatbot.py:121-123 | walking past events that are not final answers yields them and changes nothing |
| Conversation.CompletedTurn | accord/chatbot.py:119-126 | a turn pulled to the end yields every event; the history then gains exactly User(prompt) and Assistant(stripped answer) and the turn ends as the stream ends, or nothing is appended and the strip's error is raised |
| Conversation.AbandonedTurn | accord/chatbot.py:119-126 | a turn the caller stops pulling before resuming after the final answer leaves the history as it was |
| Conversation.ChatHistory.constructor | accord/chatbot.py:119 | the caller's history list with its entries |
| Conversation.ChatHistory.Append | accord/chatbot.py:125-126 | `append` adds the message at the end |
| Conversation.Chatbot.constructor | accord/chatbot.py:54-59 | a new chatbot has no retriever bound |
| Conversation.Chatbot.Retrieve | accord/chatbot.py:66-70 | under a binding with no retriever the context is empty; otherwise it is the bound retriever's result for the question |
| Conversation.Chatbot.Generate | accord/chatbot.py:72-84 | raises exactly when a source has no `source`; otherwise the answer is the model's reply to the prompt built from the question, the formatted sources and the history |
| Conversation.Chatbot.RunWorkflow | accord/chatbot.py:56-59 | retrieve, then generate, under a binding: raises exactly when a retrieved source has no `source`; otherwise the question and history are carried through, the context is what was retrieved, and the answer is the reply to the prompt over those sources |
| Conversation.Chatbot.SetRetriever | accord/chatbot.py:86-87 | binds the retriever that `get_retriever` builds for the two paths; when that raises, the binding stays |
| Conversation.Chatbot.AskModel | accord/chatbot.py:89-116 | the loop yields the stream's items translated into events, in stream order, and ends as the stream ends |
| Conversation.Chatbot.ModelEventsOfWorkflow | accord/chatbot.py:66-116 | when the runtime runs the workflow, the first event is the sources retrieved for the prompt (none with no retriever bound); with every source named, chunk events follow, the last event is the model's reply to the prompt over those sources and the history, and the stream finishes; otherwise the sources are the only event and the stream raises the missing-`source` error |
| Conversation.Chatbot.TurnOfWorkflow | accord/chatbot.py:66-126 | when the runtime runs the workflow, the first pull yields the retrieved sources; a missing `source` makes the second pull raise with the history untouched; otherwise a caller who pulls to the end receives every event, ending with the model's answer, and the history gains the prompt and the stripped answer, or nothing when the strip raises |
| Conversation.Chatbot.ResumeAfter | accord/chatbot.py:123-126 | the code after a `yield` changes the history and raises exactly as `Resume` specifies |
| Conversation.Chatbot.AskPull | accord/chatbot.py:121-126 | one pass of the loop: yield the next event and, when the caller pulls again, resume after it, keeping the turn on course for `AskRun` |
| Conversation.Chatbot.AskLoop | accord/chatbot.py:121-126 | the loop over the stream's events ends with the yielded events, history and outcome that `AskRun` specifies |
| Conversation.Chatbot.Ask | accord/chatbot.py:119-126 | after the given number of pulls, the caller has received the events, and its history and outcome have become what `AskRun` specifies for the stream of the history at the first pull |

## Left out

- File reading, pickling and `InMemoryVectorStore.dump`/`load` are not modelled as I/O. The saved files are two maps from path to documents, and file existence is membership in a map.
- `shortuuid.uuid()` is a parameter: the caller supplies one name per file.
- Embeddings, similarity search, BM25, ensemble fusion and FlashRank reranking are not modelled. A retriever is the record of what it is built from. Its search is a function-valued field of the chatbot.
- The text splitter is a function parameter. Its chunk size and overlap settings are not modelled.
- The chat model is a function parameter in two places. In the ingestor, `contextModel` stands for the context prompt filled with (document, chunk) and sent to the LLM. In the chatbot, `chatModel` stands for `llm.invoke` on the prompt messages and gives the reply's content. Both are built from the same `ChatOllama` settings.
- The prompt templates are function parameters, and their text is not modelled. `SYSTEM_PROMPT` and `QUERY_TEMPLATE` are filled with (question, context), and `FILE_TEMPLATE` with (name, content). `CONTEXT_PROMPT` lives inside `contextModel`.
- The langgraph runtime is not modelled. What `workflow.stream` emits is a function of the bound retriever and the payload: its items, then whether it finishes or raises. `Conversation.Chatbot.StreamsWorkflow` states that this function streams the retrieve → generate run. The lemmas about whole turns assume it; `Ask` holds for any runtime. Item timing, the `thread_id` configuration and the pairing of a fragment with its metadata are left out.
- SQL text is not modelled, including the string-formatted UPDATE. The model has only the table's semantics. Quoting and injection through that UPDATE are not covered.
- `Database.__init__` opening `accord.db` and `close_connection` are reduced to `Open` with a stored table state.
- The `__main__` block of database.py is not modelled.
- PDF and DOCX parsing and UTF-8 decoding are parameters. Each either gives its text or reports that it raised; which bytes they reject is not modelled.
- Upload reading (`getvalue`) becomes the upload's bytes.
- `read_yaml`/`get_config` are not modelled: configuration values are given constants in `Config`. The two paths of accord/constants.py:7-8 are modelled as `Database.ConcatenateEmbeddedPath` and `Database.ConcatenateDocumentPath`, functions of the artifacts root (a `Database` field) built with `os.path.join`.
- app.py is not part of this model. Its Streamlit UI only drives these operations.
- Logging and the `tqdm` progress bar are not modelled.
- Concurrency is not modelled.
- Ingestion.DataIngestor.GetRetriever: the `documents is None` branch is not modelled, because `load_document` never returns `None`. An empty list (a missing chunk-list path, a file that split into no chunks, or the concatenated list before any ingest) instead makes the retriever fail: `BM25Retriever.from_documents([])` raises `ValueError`. The model raises `EmptyBm25Corpus` for it.
- Ingestion.IngestFileSavesChunks: it assumes the file's own paths differ from the concatenated paths. A file named like the concatenated list would overwrite it, and that case is left unstated.
- Conversation.Chatbot.Ask: the history mapped for the prompt is the history at the first pull. The source shares the list object, but `_ask_model` builds its mapped copy before the first item is read, so later appends cannot reach it.
- Entity.Event: the sources event carries the retrieved documents. entity.py types this field as a list of `File`, but the code fills it with langchain `Document`s.
- FileLoader.FinalComponent and FileLoader.Suffix: pathlib normalises a path before taking its name, and the model does not. Repeated and trailing slashes and `.` components stay in place. So "a/b/" has the final component "" here, where pathlib gives "b". And "x.txt/." has the suffix "" here, where pathlib gives ".txt".
- Ingestion.DataIngestor.constructor: data_ingestor.py:31-34 passes `overlap=` to `RecursiveCharacterTextSplitter`, whose keyword is `chunk_overlap=`. `TextSplitter.__init__` accepts no `overlap` keyword, so that call raises `TypeError`. Building a `DataIngestor` then raises, and so does building a `Chatbot`, which builds one at chatbot.py:34. At best, `CHUNK_OVERLAP` never reaches the splitter. The model takes the splitter as a given function, and its constructor always succeeds.
