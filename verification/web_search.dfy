/** The web-search agent: one Serper query, then one generation over the
    formatted results, unless there are none. */
module WebSearch {
  import opened Wrappers
  import opened SearchResults
  import opened Services

  const SerperKeyMissing := "SERPER_API_KEY is not set. Please set it in your .env file."
  const SerperFailurePrefix := "Serper API request failed: "
  const NoWebResultsAnswer := "I couldn't find any relevant web search results for your query."

  /** The dictionary `search_web` returns. */
  datatype WebAnswer = WebAnswer(answer: string, sources: seq<WebSource>, rawResults: SearchResponse)

  /** `search_serper`: refuses to run without a key; a failed request is
      re-raised with a prefix. */
  function SearchSerper(env: Env, query: string): (r: Result<SearchResponse>)
    ensures env.serperKey == "" ==> r == Err(SerperKeyMissing)
    ensures env.serperKey != "" && env.serper(query, MaxSearchResults).Err? ==>
              r == Err(SerperFailurePrefix + env.serper(query, MaxSearchResults).error)
    ensures r.Ok? ==> env.serperKey != "" && env.serper(query, MaxSearchResults) == r
  {
    if env.serperKey == "" then Err(SerperKeyMissing)
    else
      match env.serper(query, MaxSearchResults)
      case Ok(resp) => Ok(resp)
      case Err(e) => Err(SerperFailurePrefix + e)
  }

  /** `search_web`. Failures of the search or of the model are not caught. */
  function SearchWeb(env: Env, question: string): (r: Result<WebAnswer>)
    // No key: the request is never made.
    ensures env.serperKey == "" ==> r == Err(SerperKeyMissing)
    // Empty results: the fixed answer, no sources, no generation.
    ensures SearchSerper(env, question).Ok? && FormatSearchResults(SearchSerper(env, question).value) == NoResultsSentinel
            ==> r == Ok(WebAnswer(NoWebResultsAnswer, [], SearchSerper(env, question).value))
    // Otherwise the model answers from the formatted results, and fails first without a key.
    ensures SearchSerper(env, question).Ok? && FormatSearchResults(SearchSerper(env, question).value) != NoResultsSentinel
            ==> (r.Ok? <==> Generate(env, WebPrompt(FormatSearchResults(SearchSerper(env, question).value), question)).Ok?)
    ensures r.Ok? && FormatSearchResults(r.value.rawResults) != NoResultsSentinel
            ==> Generate(env, WebPrompt(FormatSearchResults(r.value.rawResults), question)) == Ok(r.value.answer)
    ensures (SearchSerper(env, question).Ok? && FormatSearchResults(SearchSerper(env, question).value) != NoResultsSentinel
             && env.openAiKey == "") ==> r == Err(OpenAiKeyMissing)
    ensures r.Ok? ==> SearchSerper(env, question) == Ok(r.value.rawResults)
    // On every success the sources are exactly the organic results, in order.
    ensures r.Ok? ==> r.value.sources == ExtractSources(r.value.rawResults)
  {
    var resp :- SearchSerper(env, question);
    var formatted := FormatSearchResults(resp);
    if formatted == NoResultsSentinel then
      Ok(WebAnswer(NoWebResultsAnswer, [], resp))
    else
      var answer :- Generate(env, WebPrompt(formatted, question));
      Ok(WebAnswer(answer, ExtractSources(resp), resp))
  }

  /** When the results are empty the chat model is never consulted: changing
      the model or removing its key changes nothing. */
  lemma EmptyResultsSkipGeneration(env: Env, question: string, openAiKey: string, llm: Prompt -> Result<string>)
    requires SearchSerper(env, question).Ok?
    requires FormatSearchResults(SearchSerper(env, question).value) == NoResultsSentinel
    ensures SearchWeb(env.(openAiKey := openAiKey, llm := llm), question) == SearchWeb(env, question)
    ensures SearchWeb(env, question).Ok? && SearchWeb(env, question).value.sources == []
  {
    var env' := env.(openAiKey := openAiKey, llm := llm);
    assert SearchSerper(env', question) == SearchSerper(env, question);
  }
}
