/**
 * The library types the ingestion and the conversation pass around: a langchain
 * `Document` (page text and metadata) and an in-memory vector store, seen only as the
 * documents added to it, in order. Embeddings and similarity search are not modelled.
 */
module Documents {

  /** The metadata key under which a chunk names the file it came from. */
  const SourceKey: string := "source"

  /** `langchain.schema.Document` */
  datatype Doc = Doc(pageContent: string, metadata: map<string, string>)

  /** `InMemoryVectorStore`, abstracted to the documents it holds. */
  class VectorStore {
    var docs: seq<Doc>

    /** `InMemoryVectorStore(embedding_model)` */
    constructor Empty()
      ensures docs == []
    {
      docs := [];
    }

    /** `InMemoryVectorStore.load(path, embedding_model)` of a store that was dumped holding `saved`. */
    constructor Load(saved: seq<Doc>)
      ensures docs == saved
    {
      docs := saved;
    }

    /** `add_documents(documents=batch)` */
    method AddDocuments(batch: seq<Doc>)
      modifies this
      ensures docs == old(docs) + batch
    {
      docs := docs + batch;
    }
  }
}
