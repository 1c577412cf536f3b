/** The hybrid agent: a three-way routing decision, dispatch to one agent,
    or fusion of both with per-source failure absorption and merged
    provenance. */
module HybridAgent {
  import opened Wrappers
  import opened Text
  import opened Seqs
  import opened Documents
  import opened SearchResults
  import opened VectorStore
  import opened Services
  import opened WebSearch
  import opened RagAgent

  // ---------------------------------------------------------------------------
  // Routing
  // ---------------------------------------------------------------------------

  /** The closed set of routing decisions. */
  datatype Route = Documents | Web | Hybrid {

    /** The word the classifier is asked to answer with. */
    function Label(): string {
      match this
      case Documents => "documents"
      case Web => "web"
      case Hybrid => "hybrid"
    }
  }

  /** Reads a label back; only the three exact words are accepted. */
  function ParseRoute(s: string): Option<Route> {
    if s == "documents" then Some(Documents)
    else if s == "web" then Some(Web)
    else if s == "hybrid" then Some(Hybrid)
    else None
  }

  /** The labels are exactly what `ParseRoute` accepts, one word per route. */
  lemma ParseRouteInvertsLabel(route: Route, s: string)
    ensures ParseRoute(route.Label()) == Some(route)
    ensures ParseRoute(s) == Some(route) <==> s == route.Label()
  {
  }

  /** `response.content.strip().lower()`. */
  function Normalize(reply: string): string {
    Lower(Strip(reply))
  }

  /** The validation step of `route_query`: a normalised reply that is one of
      the three labels is taken verbatim, anything else becomes `hybrid`. */
  function Classify(reply: string): (r: Route)
    ensures ParseRoute(Normalize(reply)).Some? ==> r.Label() == Normalize(reply)
    ensures ParseRoute(Normalize(reply)).None? ==> r == Hybrid
  {
    match ParseRoute(Normalize(reply))
    case Some(route) => route
    case None => Hybrid
  }

  /** A reply that is a label in any letter case, with any surrounding
      whitespace, is recognised as that label. */
  lemma ClassifyPaddedLabel(pre: string, word: string, post: string, route: Route)
    requires AllSpace(pre) && AllSpace(post)
    requires Lower(word) == route.Label()
    ensures Classify(pre + word + post) == route
  {
    var wanted := route.Label();
    assert |word| == |wanted| && |wanted| > 0;
    assert 'a' <= wanted[0] <= 'z' && 'a' <= wanted[|wanted| - 1] <= 'z';
    assert LowerChar(word[0]) == wanted[0];
    assert LowerChar(word[|word| - 1]) == wanted[|wanted| - 1];
    assert Trimmed(word);
    StripPadded(pre, word, post);
    ParseRouteInvertsLabel(route, wanted);
  }

  /** The source values as strings, or the `TypeError` `str.join` raises at
      the first value that is not a string. `offset` is the position of
      `vs[0]` in the whole list. */
  function StringValues(vs: seq<Value>, offset: nat): (r: Result<seq<string>>)
    ensures r.Ok? <==> forall i :: 0 <= i < |vs| ==> vs[i].Str?
    ensures r.Ok? ==> |r.value| == |vs| && forall i :: 0 <= i < |vs| ==> vs[i] == Str(r.value[i])
    decreases |vs|
  {
    if |vs| == 0 then Ok([])
    else
      match vs[0]
      case Int(_) => Err("sequence item " + NatToString(offset) + ": expected str instance, int found")
      case Str(s) =>
        var rest :- StringValues(vs[1..], offset + 1);
        Ok([s] + rest)
  }

  /** The `document_sources` prompt variable: `"None"` for no sources,
      otherwise the sources joined by ", ", which fails unless every source
      is a string. */
  function SourceListing(sources: seq<Value>): (r: Result<string>)
    ensures sources == [] ==> r == Ok("None")
    ensures r.Ok? <==> forall i :: 0 <= i < |sources| ==> sources[i].Str?
    ensures r.Ok? && sources != [] ==> r.value == Join(StringValues(sources, 0).value, ", ")
  {
    if sources == [] then Ok("None")
    else
      var names :- StringValues(sources, 0);
      Ok(Join(names, ", "))
  }

  /** The classifier call of `route_query`. The model is built before the
      prompt variables are evaluated, so a missing key is reported first. */
  function RouterReply(env: Env, question: string): Result<string> {
    match SourceListing(AllSources(env.store))
    case Err(e) => if env.openAiKey == "" then Err(OpenAiKeyMissing) else Err(e)
    case Ok(listing) => Generate(env, RouterPrompt(question, "Yes", listing))
  }

  /** `route_query`: `web` with no documents, without consulting the model;
      otherwise the model's classification, validated. A failing model call
      is not caught. */
  function RouteQuery(env: Env, question: string): (r: Result<Route>)
    ensures DocumentCount(env.store) == 0 ==> r == Ok(Web)
    ensures DocumentCount(env.store) > 0 ==>
              (r.Ok? <==> RouterReply(env, question).Ok?)
              && (r.Ok? ==> r.value == Classify(RouterReply(env, question).value))
    ensures DocumentCount(env.store) > 0 && env.openAiKey == "" ==> r == Err(OpenAiKeyMissing)
    // A source that is not a string makes the join raise before the model is asked.
    ensures (&& DocumentCount(env.store) > 0 && env.openAiKey != ""
             && exists i :: 0 <= i < |AllSources(env.store)| && AllSources(env.store)[i].Int?) ==> r.Err?
    // With string sources the reply is the model's answer to the listed sources.
    ensures DocumentCount(env.store) > 0 && SourceListing(AllSources(env.store)).Ok? ==>
              RouterReply(env, question) == Generate(env, RouterPrompt(question, "Yes", SourceListing(AllSources(env.store)).value))
  {
    var hasDocuments := DocumentCount(env.store) > 0;
    if !hasDocuments then Ok(Web)
    else
      var reply :- RouterReply(env, question);
      Ok(Classify(reply))
  }

  // ---------------------------------------------------------------------------
  // Results and provenance
  // ---------------------------------------------------------------------------

  /** One merged provenance entry, tagged with its origin. */
  datatype Provenance = DocumentProvenance(name: Value) | WebProvenance(title: string, url: string)

  /** What `query_hybrid` returns; `Mode()` is its `mode` field. */
  datatype QueryResult =
    | DocumentsMode(rag: RagAnswer)
    | WebMode(web: WebAnswer)
    | HybridMode(answer: string, sources: seq<Provenance>, ragContext: string, webResults: SearchResponse)
  {
    function Mode(): Route {
      match this
      case DocumentsMode(_) => Documents
      case WebMode(_) => Web
      case HybridMode(_, _, _, _) => Hybrid
    }
  }

  function DocumentEntries(names: seq<Value>): (r: seq<Provenance>)
    ensures |r| == |names|
    ensures forall i :: 0 <= i < |names| ==> r[i] == DocumentProvenance(names[i])
    decreases |names|
  {
    if |names| == 0 then [] else [DocumentProvenance(names[0])] + DocumentEntries(names[1..])
  }

  function WebEntries(sources: seq<WebSource>): (r: seq<Provenance>)
    ensures |r| == |sources|
    ensures forall i :: 0 <= i < |sources| ==> r[i] == WebProvenance(sources[i].title, sources[i].url)
    decreases |sources|
  {
    if |sources| == 0 then [] else [WebProvenance(sources[0].title, sources[0].url)] + WebEntries(sources[1..])
  }

  /** The provenance merge: every document source, then every web source,
      each group in its own order, nothing dropped and nothing deduplicated. */
  function MergeSources(names: seq<Value>, web: seq<WebSource>): (r: seq<Provenance>)
    ensures |r| == |names| + |web|
    ensures forall i :: 0 <= i < |names| ==> r[i] == DocumentProvenance(names[i])
    ensures forall j :: 0 <= j < |web| ==> r[|names| + j] == WebProvenance(web[j].title, web[j].url)
  {
    DocumentEntries(names) + WebEntries(web)
  }

  // ---------------------------------------------------------------------------
  // Fusion
  // ---------------------------------------------------------------------------

  const DocumentErrorPrefix := "Error retrieving from documents: "
  const WebErrorPrefix := "Error searching web: "

  /** The `.get` default for the document context. The dictionary it reads
      always holds the key, so it is never used (see `FusionRag`). The web
      default is never used either: `Fuse` hands the model `FusionWeb(...).answer`
      itself. */
  const NoDocumentContextFallback := "No document context available."

  /** `rag_result` after the guarded document query: untouched defaults when
      there are no documents, the query's answer when it succeeds, and the
      defaults with an error context when it raises. */
  function FusionRag(env: Env, question: string): (r: RagAnswer)
    ensures DocumentCount(env.store) == 0 ==> r == RagAnswer("", [], "")
    ensures DocumentCount(env.store) > 0 && QueryRag(env, question, TopKResults).Ok? ==>
              r == QueryRag(env, question, TopKResults).value
    ensures DocumentCount(env.store) > 0 && QueryRag(env, question, TopKResults).Err? ==>
              r == RagAnswer("", [], DocumentErrorPrefix + QueryRag(env, question, TopKResults).error)
    ensures r.context != NoDocumentContextFallback
  {
    if DocumentCount(env.store) > 0 then
      match QueryRag(env, question, TopKResults)
      case Ok(answer) => answer
      case Err(e) => RagAnswer("", [], DocumentErrorPrefix + e)
    else RagAnswer("", [], "")
  }

  /** `web_result` after the guarded web search. */
  function FusionWeb(env: Env, question: string): (r: WebAnswer)
    ensures SearchWeb(env, question).Ok? ==> r == SearchWeb(env, question).value
    ensures SearchWeb(env, question).Err? ==>
              r == WebAnswer(WebErrorPrefix + SearchWeb(env, question).error, [], EmptyResponse)
  {
    match SearchWeb(env, question)
    case Ok(answer) => answer
    case Err(e) => WebAnswer(WebErrorPrefix + e, [], EmptyResponse)
  }

  /** The fusion path of `query_hybrid`. Sub-query failures are absorbed; the
      final generation is not guarded. */
  function Fuse(env: Env, question: string): (r: Result<QueryResult>)
    ensures r.Ok? ==> r.value.HybridMode? && r.value.Mode() == Hybrid
    ensures env.openAiKey == "" ==> r == Err(OpenAiKeyMissing)
    ensures var rag := FusionRag(env, question);
            var web := FusionWeb(env, question);
            (r.Ok? <==> Generate(env, HybridPrompt(rag.context, web.answer, question)).Ok?)
            && (r.Ok? ==>
                  && Generate(env, HybridPrompt(rag.context, web.answer, question)) == Ok(r.value.answer)
                  && r.value.ragContext == rag.context
                  && r.value.webResults == web.rawResults
                  && r.value.sources == MergeSources(rag.sources, web.sources))
  {
    var rag := FusionRag(env, question);
    var web := FusionWeb(env, question);
    var answer :- Generate(env, HybridPrompt(rag.context, web.answer, question));
    Ok(HybridMode(answer, MergeSources(rag.sources, web.sources), rag.context, web.rawResults))
  }

  /** `query_hybrid`: with auto-routing, a `documents` or `web` decision
      hands the whole question to that agent and tags the result with the
      decision; a `hybrid` decision, or no auto-routing, fuses both. */
  function QueryHybrid(env: Env, question: string, autoRoute: bool): (r: Result<QueryResult>)
    ensures autoRoute && RouteQuery(env, question).Err? ==> r == Err(RouteQuery(env, question).error)
    ensures autoRoute && RouteQuery(env, question) == Ok(Documents) ==>
              (r.Ok? <==> QueryRag(env, question, TopKResults).Ok?)
              && (r.Ok? ==> r.value == DocumentsMode(QueryRag(env, question, TopKResults).value))
    ensures autoRoute && RouteQuery(env, question) == Ok(Web) ==>
              (r.Ok? <==> SearchWeb(env, question).Ok?)
              && (r.Ok? ==> r.value == WebMode(SearchWeb(env, question).value))
    ensures !autoRoute || RouteQuery(env, question) == Ok(Hybrid) ==> r == Fuse(env, question)
    ensures r.Ok? && autoRoute ==> RouteQuery(env, question) == Ok(r.value.Mode())
    ensures r.Ok? && !autoRoute ==> r.value.Mode() == Hybrid
  {
    if autoRoute then
      var route :- RouteQuery(env, question);
      match route
      case Documents =>
        var answer :- QueryRag(env, question, TopKResults);
        Ok(DocumentsMode(answer))
      case Web =>
        var answer :- SearchWeb(env, question);
        Ok(WebMode(answer))
      case Hybrid => Fuse(env, question)
    else Fuse(env, question)
  }

  // ---------------------------------------------------------------------------
  // Properties of the fusion path
  // ---------------------------------------------------------------------------

  /** With no documents the document query is never run: the similarity
      search can be anything, the document context passed to the model is
      the empty string (not the placeholder), and only web provenance remains. */
  lemma NoDocumentsSkipsRetrieval(env: Env, question: string, autoRoute: bool,
                                  search: (string, nat) -> Result<seq<Document>>)
    requires DocumentCount(env.store) == 0
    ensures QueryHybrid(env.(similaritySearch := search), question, autoRoute) == QueryHybrid(env, question, autoRoute)
    ensures Fuse(env, question).Ok? ==>
              && Fuse(env, question).value.ragContext == ""
              && Fuse(env, question).value.sources == WebEntries(FusionWeb(env, question).sources)
  {
    var env' := env.(similaritySearch := search);
    assert FusionRag(env', question) == FusionRag(env, question);
    assert SearchWeb(env', question) == SearchWeb(env, question) by {
      assert SearchSerper(env', question) == SearchSerper(env, question);
    }
    assert RouteQuery(env', question) == RouteQuery(env, question);
  }

  /** A failed document query does not stop the web search: the answer is
      still a hybrid one, the error text becomes the document context, and
      the provenance is the web sources alone. */
  lemma DocumentFailureKeepsWeb(env: Env, question: string)
    requires DocumentCount(env.store) > 0
    requires QueryRag(env, question, TopKResults).Err?
    requires SearchWeb(env, question).Ok?
    requires Generate(env, HybridPrompt(DocumentErrorPrefix + QueryRag(env, question, TopKResults).error,
                                        SearchWeb(env, question).value.answer, question)).Ok?
    ensures Fuse(env, question).Ok?
    ensures Fuse(env, question).value.Mode() == Hybrid
    ensures Fuse(env, question).value.ragContext == DocumentErrorPrefix + QueryRag(env, question, TopKResults).error
    ensures Fuse(env, question).value.sources == WebEntries(SearchWeb(env, question).value.sources)
    ensures |Fuse(env, question).value.sources| == |SearchWeb(env, question).value.sources|
  {
    assert DocumentEntries([]) == [];
  }

  /** A failed web search does not stop the document answer: the model sees
      the error text as the web context, the raw results are `{}`, and the
      provenance is the document sources alone. */
  lemma WebFailureKeepsDocuments(env: Env, question: string)
    requires SearchWeb(env, question).Err?
    requires Generate(env, HybridPrompt(FusionRag(env, question).context,
                                        WebErrorPrefix + SearchWeb(env, question).error, question)).Ok?
    ensures Fuse(env, question).Ok?
    ensures Fuse(env, question).value.webResults == EmptyResponse
    ensures Fuse(env, question).value.sources == DocumentEntries(FusionRag(env, question).sources)
  {
    assert WebEntries([]) == [];
    assert DocumentEntries(FusionRag(env, question).sources) + [] == DocumentEntries(FusionRag(env, question).sources);
  }

  /** A merged list holds a document entry exactly when there were document
      sources, and a web entry exactly when there were web sources. */
  lemma MergeSourcesKinds(names: seq<Value>, web: seq<WebSource>)
    ensures (exists i :: 0 <= i < |MergeSources(names, web)| && MergeSources(names, web)[i].DocumentProvenance?)
            <==> names != []
    ensures (exists i :: 0 <= i < |MergeSources(names, web)| && MergeSources(names, web)[i].WebProvenance?)
            <==> web != []
  {
    var m := MergeSources(names, web);
    if names != [] {
      assert m[0].DocumentProvenance?;
    }
    if web != [] {
      assert m[|names|].WebProvenance?;
    }
  }

  /** The merged provenance cites a source only when its retrieval succeeded. */
  lemma ProvenanceOnlyFromSuccessfulRetrieval(env: Env, question: string)
    requires Fuse(env, question).Ok?
    ensures (exists i :: 0 <= i < |Fuse(env, question).value.sources| && Fuse(env, question).value.sources[i].DocumentProvenance?)
            ==> DocumentCount(env.store) > 0 && QueryRag(env, question, TopKResults).Ok?
    ensures (exists i :: 0 <= i < |Fuse(env, question).value.sources| && Fuse(env, question).value.sources[i].WebProvenance?)
            ==> SearchWeb(env, question).Ok?
  {
    var rag := FusionRag(env, question);
    var web := FusionWeb(env, question);
    MergeSourcesKinds(rag.sources, web.sources);
  }

  /** With both retrievals successful, the merged provenance has one entry per
      distinct document source plus one per organic web result. */
  lemma FusionProvenanceCount(env: Env, question: string)
    requires DocumentCount(env.store) > 0
    requires QueryRag(env, question, TopKResults).Ok? && SearchWeb(env, question).Ok?
    requires env.similaritySearch(question, TopKResults).Ok?
    requires Fuse(env, question).Ok?
    ensures var docs := env.similaritySearch(question, TopKResults).value;
            |Fuse(env, question).value.sources|
            == |set d | d in docs :: SourceName(d)| + |SearchWeb(env, question).value.rawResults.organic|
  {
    var docs := env.similaritySearch(question, TopKResults).value;
    var names := QueryRag(env, question, TopKResults).value.sources;
    if docs == [] {
      assert (set d | d in docs :: SourceName(d)) == {};
    } else {
      assert (set v | v in names) == (set d | d in docs :: SourceName(d));
      NoDuplicatesCardinality(names);
    }
  }
}
