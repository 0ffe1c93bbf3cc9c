/** The records the pipeline exchanges (pydantic models in the repository). */
module Schemas {
  import opened Wrappers

  /** A similarity score as FAISS reports it; only its order matters to the model. */
  type Score = real

  datatype DocumentMetadata = DocumentMetadata(
    company: string,
    year: string,
    filingType: string,
    totalPages: Option<int>,
    sections: Option<seq<string>>)

  datatype DocumentChunk = DocumentChunk(
    chunkId: string,
    content: string,
    metadata: DocumentMetadata,
    pageNumber: Option<int>,
    section: Option<string>,
    tokenCount: Option<int>)

  /** A citation: a projection of a retrieved chunk and its score. */
  datatype Source = Source(
    company: string,
    year: string,
    excerpt: string,
    page: Option<int>,
    section: Option<string>,
    chunkId: Option<string>,
    similarityScore: Option<Score>)

  datatype QueryResponse = QueryResponse(
    query: string,
    answer: string,
    reasoning: string,
    subQueries: seq<string>,
    sources: seq<Source>,
    processingTime: Option<real>)
}
