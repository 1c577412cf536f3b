/** The external collaborators of the agents, as one record of abstract
    functions: the Chroma store and its similarity search, the Serper HTTP
    call, and the chat model. Configuration constants live here too. */
module Services {
  import opened Wrappers
  import opened Documents
  import opened SearchResults
  import opened VectorStore

  /** `MAX_SEARCH_RESULTS`: the `num` sent with every search. */
  const MaxSearchResults: nat := 5

  /** `TOP_K_RESULTS`: the number of chunks a document query asks for. */
  const TopKResults: nat := 4

  /** The variables handed to a prompt template; rendering the template text
      is the model's business. */
  datatype Prompt =
    | RagPrompt(context: string, question: string)
    | WebPrompt(searchResults: string, question: string)
    | HybridPrompt(ragContext: string, webContext: string, question: string)
    | RouterPrompt(question: string, hasDocuments: string, documentSources: string)

  /** The configuration and the collaborators. Each function returns `Err`
      with the exception text when the call raises. */
  datatype Env = Env(
    openAiKey: string,
    serperKey: string,
    store: Store,
    similaritySearch: (string, nat) -> Result<seq<Document>>,
    serper: (string, nat) -> Result<SearchResponse>,
    llm: Prompt -> Result<string>)

  const OpenAiKeyMissing := "OPENAI_API_KEY is not set. Please set it in your .env file."

  /** `get_llm()` then `chain.invoke(...)`: with no OpenAI key configured the
      call fails with the fixed configuration message and the model is never
      consulted; otherwise the reply (or its failure) is the model's. */
  function Generate(env: Env, prompt: Prompt): (r: Result<string>)
    ensures env.openAiKey == "" ==> r == Err(OpenAiKeyMissing)
    ensures env.openAiKey != "" ==> r == env.llm(prompt)
  {
    if env.openAiKey == "" then Err(OpenAiKeyMissing) else env.llm(prompt)
  }
}
