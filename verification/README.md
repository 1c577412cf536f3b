# rag_web_search — a Dafny model of the agents and the store helpers

This project models the decision and formatting logic of a question-answering
app that mixes retrieval over uploaded documents with Google search through
the Serper API. It covers five pieces:

- **Web-search agent** (`WebSearch`, `SearchResults`):
  - checks the Serper key;
  - turns a Serper response into a context string (knowledge graph, then featured answer, then numbered organic results, or the literal `No search results found.`);
  - short-circuits generation on that sentinel;
  - extracts `{title, url}` provenance.
- **Document agent** (`RagAgent`):
  - short-circuits on an empty index and on an empty retrieval;
  - formats the retrieved chunks as numbered `[Document i - Source: s]` blocks;
  - returns the deduplicated source names.
- **Hybrid agent** (`HybridAgent`):
  - routes each question to `documents`, `web` or `hybrid`;
  - hands the question to one agent, or fuses both;
  - when fusing, absorbs a failure of either agent and merges provenance, documents first.
- **Vector-store helpers** (`VectorStore`): the chunk count, the distinct sources, delete-by-source and clear-all over a Chroma collection.
- **Upload bookkeeping** (`DocumentProcessor`):
  - POSIX `os.path.splitext`;
  - the case-insensitive choice of loader;
  - the refusal of other extensions;
  - the `chunk_index` / `source` / `file_type` metadata stamped on each chunk.

External collaborators are abstract functions. The record `Services.Env`
holds the chat model (`llm`), the Serper call (`serper`), the store and the
similarity search. The upload readers (PDF reader, text reader, PDF
extractor, UTF-8 decoder) and the text splitter are function parameters of
`DocumentProcessor.LoadDocument`, `LoadUploadedFile`, `ChunkText` and
`ProcessUploadedFile`.

The collection itself is a value `Store = Result<seq<Entry>>`, where `Err` is the
exception raised while opening the store. Once the store is open, `count`, `get`
and `delete` on the collection are modelled as never raising (see "## Left out"). Every Python exception becomes an
`Err` carrying its message (`Wrappers.Result`). "The model is never
consulted" is stated as a result that is independent of the `llm` and
`openAiKey` fields.

Two behaviours of the code are easy to misread; the model follows the code:
- On the fusion path with no documents, the document context handed to the model is `""`. It is not the `No document context available.` placeholder. The dictionaries created at agents/hybrid_agent.py:129-130 always hold the `context` and `answer` keys, so the `.get` defaults at lines 146-147 can never be used. `HybridAgent.FusionRag` proves that the document context is never the placeholder. `HybridAgent.NoDocumentsSkipsRetrieval` proves that it is `""` when the store is empty.
- `route_query` joins the stored sources with `", "`. That join raises when a stored `source` is not a string, so routing then fails before the model is asked (`HybridAgent.RouteQuery`).

Module layout, one file each:
- `wrappers.dfy`: `Option`, `Result`.
- `text.dfy`: `str.join`, decimal rendering, `strip`, ASCII `lower`.
- `seqs.dfy`: duplicate-freedom and `list(set(...))`.
- `documents.dfy`: chunks and their metadata.
- `search_results.dfy`, `vector_store.dfy`, `services.dfy`.
- One file per agent.
- `document_processor.dfy`.

## Model

| member | source | states |
|---|---|---|
| Services.Generate | agents/web_search_agent.py:30-39 | without an OpenAI key every generation fails with the fixed "OPENAI_API_KEY is not set" message and the model is not consulted; otherwise the reply or failure is the model's |
| WebSearch.SearchSerper | agents/web_search_agent.py:42-67 | an empty Serper key fails with the fixed ValueError text before any request; a failed request is re-raised as "Serper API request failed: " plus its message; success returns the response unchanged |
| SearchResults.FeaturedAnswerBlock | agents/web_search_agent.py:83-87 | the featured answer is the box's `answer` when non-empty, its `snippet` otherwise, and no block is added when both are empty or no box is present |
| SearchResults.FormatSearchResults | agents/web_search_agent.py:70-97 | the output is the sentinel exactly when there is no organic result, no non-empty featured answer and no knowledge graph with a title or description; otherwise it starts with '[' and so can never be mistaken for the sentinel |
| SearchResults.FormatSearchResultsAppend | agents/web_search_agent.py:75-80 | organic results appear in the order returned and are numbered from 1: one more result appends a newline and the block numbered after all earlier ones, with the "No title" / "No description" / "" defaults |
| SearchResults.BuildSearchContext | agents/web_search_agent.py:70-97 | the append-then-insert-at-front construction yields knowledge graph, then featured answer, then the organic blocks, joined by newlines, and agrees with the declarative formatter |
| SearchResults.ExtractSources | agents/web_search_agent.py:100-111 | exactly one `{title, url}` per organic result, in order, with "Unknown" and "" for a missing title or link |
| SearchResults.ExtractSourcesOnlyOrganic | agents/web_search_agent.py:100-111 | the answer box and the knowledge graph contribute no provenance; there are sources exactly when there are organic results |
| WebSearch.SearchWeb | agents/web_search_agent.py:114-153 | no Serper key fails first; a sentinel context returns the fixed "couldn't find any relevant web search results" answer with no sources and the raw response; otherwise it succeeds exactly when the model does, answers with the model's reply and cites exactly the organic results |
| WebSearch.EmptyResultsSkipGeneration | agents/web_search_agent.py:127-132 | on empty results the outcome does not depend on the chat model or its key, and the sources are empty |
| RagAgent.FormatContext | agents/rag_agent.py:43-49 | the document context is empty exactly when no documents were retrieved, and otherwise opens with a bracketed header |
| RagAgent.FormatContextAppend | agents/rag_agent.py:45-49 | each retrieved document adds one block `[Document i - Source: s]` + content, numbered from 1 in retrieval order and joined by newlines |
| RagAgent.QueryRag | agents/rag_agent.py:52-103 | an empty index gives the fixed "No documents have been uploaded yet" answer with no search and no generation; an empty retrieval gives the fixed "couldn't find any relevant information" answer; otherwise the context is the formatted documents, success follows the model, and the sources are duplicate-free, equal as a set to the retrieved source names, and between 1 and the number retrieved |
| RagAgent.RagSourcesComeFromRetrieval | agents/rag_agent.py:94-97 | a document answer cites only sources carried by retrieved documents, and has a context exactly when it has sources |
| Seqs.Dedup | agents/rag_agent.py:94-97 | the `list(set(...))` step keeps every value, drops none, repeats none and never lengthens the list |
| VectorStore.DocumentCount | utils/vector_store.py:58-64 | the count is the number of stored chunks, and 0 when opening the store raises |
| VectorStore.AllSources | utils/vector_store.py:67-84 | every distinct `source` value present in some metadata appears exactly once; null metadata and metadata without `source` contribute nothing; a failing store gives [] |
| VectorStore.SourcesBoundedByCount | utils/vector_store.py:58-84 | there are never more distinct sources than chunks, and none when the count is 0 |
| VectorStore.IdsToDelete | utils/vector_store.py:95-99 | ids and metadatas are paired positionally over their common prefix; an id is selected exactly when its paired metadata has the given source |
| VectorStore.DeleteBySource | utils/vector_store.py:87-102 | a failing store propagates; no delete call is made exactly when no chunk matches, and then nothing changes; every surviving chunk was stored before and does not match |
| VectorStore.DeleteBySourceIsExactFilter | utils/vector_store.py:95-102 | with Chroma's unique ids, deleting by source leaves exactly the chunks of other sources, in their original order |
| VectorStore.ClearAll | utils/vector_store.py:105-113 | exactly the ids `collection.get()` lists are passed to the delete call and the collection is left empty; no delete call is made on an empty collection; a failing store propagates |
| HybridAgent.ParseRouteInvertsLabel | agents/hybrid_agent.py:96-100 | the three labels are exactly the accepted words, one per route |
| HybridAgent.Classify | agents/hybrid_agent.py:93-100 | a reply whose stripped, lower-cased form is a label yields that label; any other reply yields `hybrid` |
| HybridAgent.ClassifyPaddedLabel | agents/hybrid_agent.py:93-97 | a label written in any letter case with any surrounding whitespace is recognised as that label |
| HybridAgent.SourceListing | agents/hybrid_agent.py:87-91 | the sources prompt variable is "None" for no sources, otherwise the source names joined by ", ", and it fails unless every source is a string |
| HybridAgent.RouteQuery | agents/hybrid_agent.py:65-100 | `web` whenever the count is 0, without consulting the model; otherwise it succeeds exactly when the classifier call does, and the route is the validated reply; a missing OpenAI key or a non-string source fails |
| HybridAgent.MergeSources | agents/hybrid_agent.py:159-172 | all document entries in order, then all web entries in order; the length is the sum, with nothing deduplicated |
| HybridAgent.MergeSourcesKinds | agents/hybrid_agent.py:159-172 | the merged list holds a document entry exactly when there were document sources, and a web entry exactly when there were web sources |
| HybridAgent.FusionRag | agents/hybrid_agent.py:129-146 | no documents leave the empty defaults untouched; a successful document query is used as is; a failed one leaves empty answer and sources with the "Error retrieving from documents: " context; the context is never the unreachable placeholder |
| HybridAgent.FusionWeb | agents/hybrid_agent.py:130-147 | a failed web search leaves empty sources, `{}` as raw results and the "Error searching web: " text as its answer |
| HybridAgent.Fuse | agents/hybrid_agent.py:128-180 | the fused answer is always mode `hybrid`; it succeeds exactly when the final generation does; the document context, raw web results and merged sources come from the two absorbed sub-results |
| HybridAgent.QueryHybrid | agents/hybrid_agent.py:103-180 | with auto-routing, a `documents` or `web` route returns that agent's result tagged with the route and no fusion; a `hybrid` route or no auto-routing fuses; the returned mode always equals the route taken |
| HybridAgent.NoDocumentsSkipsRetrieval | agents/hybrid_agent.py:129-146 | with no documents the similarity search is never used, the fused document context is "" and all provenance is from the web |
| HybridAgent.DocumentFailureKeepsWeb | agents/hybrid_agent.py:133-143 | a failed document query does not stop the web search: the answer is still hybrid, the error text is the document context and only web provenance remains |
| HybridAgent.WebFailureKeepsDocuments | agents/hybrid_agent.py:140-143 | a failed web search does not stop the document side: raw web results are `{}` and only document provenance remains |
| HybridAgent.ProvenanceOnlyFromSuccessfulRetrieval | agents/hybrid_agent.py:129-172 | a fused answer cites a document only when the document query ran and succeeded, and a web page only when the search succeeded |
| HybridAgent.FusionProvenanceCount | agents/hybrid_agent.py:159-172 | with both retrievals successful, including a retrieval that finds nothing, the merged provenance has one entry per distinct retrieved document source plus one per organic result |
| DocumentProcessor.ComponentExt | utils/document_processor.py:32 | the extension of a path component is a suffix of it that is empty or a dot followed by no other dot, and a non-empty one follows a stem that is not all dots |
| DocumentProcessor.SplitExt | utils/document_processor.py:32 | root and extension concatenate back to the path, and the extension is that of the final path component, the text after the last '/' |
| DocumentProcessor.ExtOfDottedName | utils/document_processor.py:32 | the extension starts at the last dot of the final path component |
| DocumentProcessor.LeadingDotsAreNoExtension | utils/document_processor.py:32 | leading dots of the final component do not start an extension |
| DocumentProcessor.NoDotNoExtension | utils/document_processor.py:32 | a name with no dot has the empty extension |
| DocumentProcessor.FileKindOf | utils/document_processor.py:30-39 | any unsupported extension is refused with "Unsupported file type: " plus the lowered extension, and a missing extension is refused with the bare prefix |
| DocumentProcessor.ExtensionKind | utils/document_processor.py:32-39 | an extension is accepted exactly when its lowered form is `.pdf`, `.txt` or `.md`, and otherwise refused with the lowered extension in the message |
| DocumentProcessor.ExtensionKindIgnoresCase | utils/document_processor.py:32-37 | lowering before the comparison accepts every case variant of the three extensions and nothing else |
| DocumentProcessor.FileKindIgnoresCase | utils/document_processor.py:32-37 | the PDF reader is chosen exactly for the case variants of `.pdf`, the text reader exactly for those of `.txt` and `.md` |
| DocumentProcessor.LoadDocument | utils/document_processor.py:30-39 | the PDF or text reader is called only for its extensions, and the refusal is returned otherwise |
| DocumentProcessor.LoadUploadedFile | utils/document_processor.py:42-59 | the same dispatch and refusal as for paths, applied to the uploaded bytes |
| DocumentProcessor.ChunkText | utils/document_processor.py:62-84 | one document per chunk, in order, holding that chunk; each carries `chunk_index` equal to its 0-based position and exactly the caller's other keys and values, or none when no metadata is given |
| DocumentProcessor.ChunksKeepTheirOwnIndex | utils/document_processor.py:79-82 | no two chunks share metadata, and removing `chunk_index` gives back the caller's metadata unchanged |
| DocumentProcessor.ProcessUploadedFile | utils/document_processor.py:87-94 | succeeds exactly when loading does, only for `.pdf`, `.txt` and `.md` in any case; every chunk's metadata is exactly `source` = file name, `file_type` = lowered extension, `chunk_index` = position |
| Text.ParseNatToString | agents/rag_agent.py:46-48 | the decimal numbers written into the block headers read back as the numbers they were made from |

## Left out

- `app.py` (the Streamlit UI, session state and its mode dispatch) and `config.py` beyond `TOP_K_RESULTS` = 4, `MAX_SEARCH_RESULTS` = 5, `CHUNK_SIZE` = 1000 and `CHUNK_OVERLAP` = 200. `utils/embeddings.py` is not part of this model.
- The chat model, prompt templates, template rendering and the temperature: the model is the abstract `llm` applied to the prompt variables.
- The Serper HTTP POST and JSON decoding: `serper` is abstract. JSON `null` and non-string field values are not represented. A missing field is `None` and takes its default.
- Chroma internals: embeddings, similarity ranking, `add_documents`, persistence, the `_vector_store` singleton, `sys.path` set-up and `load_dotenv`. The store is a value that does not change during one call.
- Chroma metadata values other than strings and integers (floats, booleans).
- PDF text extraction, file reading and UTF-8 decoding: abstract functions returning `Result<string>`.
- DocumentProcessor.ChunkText: the splitter's argument validation is not modelled. `RecursiveCharacterTextSplitter` raises `ValueError` for an overlap larger than the size, but the model accepts any `chunkSize`/`chunkOverlap` and always returns chunks. The only call passes 1000 and 200.
- `RecursiveCharacterTextSplitter`: an abstract function from text, size and overlap to a sequence of chunks.
- Seqs.Dedup: keeps first occurrences. Python's `set` iteration order is unspecified, so every contract that uses it states only duplicate-freedom, set equality and the length bound, not an order.
- HybridAgent.SourceListing: the index in the `TypeError` message follows the model's order of sources, which in Python depends on set iteration order.
- Text.Lower: lower-cases ASCII letters only. Among characters that Python lower-cases to ASCII, only the Kelvin sign and U+0130 are outside ASCII. Neither lowers to a route label or to a supported extension, so routing and loader dispatch are exact. A non-ASCII extension is echoed un-lowered in the refusal message.
- DocumentProcessor.FileKindOf: the refusal message carries the extension lowered by `Text.Lower`, so a non-ASCII upper-case letter in a refused extension is echoed un-lowered where Python would lower it. The `file_type` metadata is unaffected, because only ASCII case variants of the three extensions are accepted.
- DocumentProcessor.ExtensionKind: the same ASCII-only lowering in its refusal message; acceptance is exact.
- VectorStore.AllSources: once the store opens, `collection.get` is modelled as never raising. In Python a `get` failure after a successful open also yields `[]` (utils/vector_store.py:83-84), while the count may still be positive; the model has no such state.
- VectorStore.DeleteBySource: once the store opens, `collection.get` and `collection.delete` are modelled as never raising, so the clause `store.Ok? ==> r.Ok?` does not represent a Chroma failure after opening, which Python propagates.
- VectorStore.ClearAll: as for `DeleteBySource`, a `get` or `delete` failure on an open store, which Python propagates, is not represented.
- DocumentProcessor.SplitExt: models the POSIX `os.path.splitext`, with `/` as the only separator, not the Windows variant.
- The `sources` listing of the routing prompt is modelled only as far as its success or failure and its `", "` join. How the template renders it is the model's business.
