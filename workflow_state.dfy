/** The state the workflow threads through its stages and the checkpointer stores. */
module WorkflowState {
  import opened Common
  import opened Schemas
  import opened VectorStore

  /** RAGState: the query, the retrieved results, the context text, the answer (absent before
      the generation stage, where the dict is still empty), the conversation history, the thread,
      the provider override and the number of results. */
  datatype RagState = RagState(
    query: string,
    retrievedDocs: seq<SearchHit>,
    context: string,
    answer: Option<StructuredAnswer>,
    conversationHistory: seq<Item>,
    threadId: string,
    llmProvider: Option<string>,
    topK: int)
}
