/** The document (RAG) agent: count, retrieve, format, generate. */
module RagAgent {
  import opened Wrappers
  import opened Text
  import opened Seqs
  import opened Documents
  import opened VectorStore
  import opened Services

  const NoDocumentsAnswer := "No documents have been uploaded yet. Please upload some documents first to use RAG mode."
  const NoRelevantAnswer := "I couldn't find any relevant information in the uploaded documents to answer your question."

  /** The dictionary `query_rag` returns. */
  datatype RagAnswer = RagAnswer(answer: string, sources: seq<Value>, context: string)

  /** The block for the document numbered `i`. */
  function DocumentPart(i: nat, d: Document): string {
    "[Document " + NatToString(i) + " - Source: " + Render(SourceName(d)) + "]\n" + d.pageContent + "\n"
  }

  /** The blocks, numbered from 1 in retrieval order. */
  function DocumentParts(docs: seq<Document>): seq<string> {
    seq(|docs|, i requires 0 <= i < |docs| => DocumentPart(i + 1, docs[i]))
  }

  /** `format_context`: empty for no documents; otherwise it opens with the
      header of the first document. */
  function FormatContext(docs: seq<Document>): (r: string)
    ensures r == "" <==> docs == []
    ensures docs != [] ==> r[0] == '['
  {
    var parts := DocumentParts(docs);
    if parts == [] then ""
    else
      JoinStartsWithFirstPart(parts, "\n");
      Join(parts, "\n")
  }

  /** The context grows one numbered block per document, in order: a single
      document is its own block, and one more document appends a newline and
      the block numbered after all earlier ones. */
  lemma FormatContextAppend(docs: seq<Document>, d: Document)
    ensures docs == [] ==> FormatContext(docs + [d]) == DocumentPart(1, d)
    ensures docs != [] ==> FormatContext(docs + [d]) == FormatContext(docs) + "\n" + DocumentPart(|docs| + 1, d)
  {
    assert DocumentParts(docs + [d]) == DocumentParts(docs) + [DocumentPart(|docs| + 1, d)];
    if docs != [] {
      JoinSnoc(DocumentParts(docs), DocumentPart(|docs| + 1, d), "\n");
    }
  }

  /** The source names of the retrieved documents, in order. */
  function SourceNames(docs: seq<Document>): (r: seq<Value>)
    ensures |r| == |docs|
    ensures forall v :: v in r <==> exists d :: d in docs && SourceName(d) == v
  {
    var r := seq(|docs|, i requires 0 <= i < |docs| => SourceName(docs[i]));
    assert forall d :: d in docs ==> SourceName(d) in r by {
      forall d | d in docs ensures SourceName(d) in r {
        var i :| 0 <= i < |docs| && docs[i] == d;
        assert r[i] == SourceName(d);
      }
    }
    r
  }

  /** `query_rag`. Retrieval and generation failures are not caught. */
  function QueryRag(env: Env, question: string, k: nat): (r: Result<RagAnswer>)
    // An empty (or unreachable) index: the fixed answer, with no search and no generation.
    ensures DocumentCount(env.store) == 0 ==> r == Ok(RagAnswer(NoDocumentsAnswer, [], ""))
    ensures DocumentCount(env.store) > 0 && env.similaritySearch(question, k).Err? ==>
              r == Err(env.similaritySearch(question, k).error)
    // Nothing retrieved: the fixed answer, with no generation.
    ensures DocumentCount(env.store) > 0 && env.similaritySearch(question, k) == Ok([]) ==>
              r == Ok(RagAnswer(NoRelevantAnswer, [], ""))
    // Something retrieved: the context is the formatted documents, the model
    // answers from it, and the sources are the distinct source names.
    ensures DocumentCount(env.store) > 0 && env.similaritySearch(question, k).Ok? && env.similaritySearch(question, k).value != [] ==>
              var docs := env.similaritySearch(question, k).value;
              (r.Ok? <==> Generate(env, RagPrompt(FormatContext(docs), question)).Ok?)
              && (r.Ok? ==>
                    && r.value.context == FormatContext(docs)
                    && Generate(env, RagPrompt(FormatContext(docs), question)) == Ok(r.value.answer)
                    && NoDuplicates(r.value.sources)
                    && (forall v :: v in r.value.sources <==> exists d :: d in docs && SourceName(d) == v)
                    && 1 <= |r.value.sources| <= |docs|)
  {
    if DocumentCount(env.store) == 0 then
      Ok(RagAnswer(NoDocumentsAnswer, [], ""))
    else
      var docs :- env.similaritySearch(question, k);
      if docs == [] then
        Ok(RagAnswer(NoRelevantAnswer, [], ""))
      else
        var context := FormatContext(docs);
        var answer :- Generate(env, RagPrompt(context, question));
        var sources := Dedup(SourceNames(docs));
        assert docs[0] in docs && SourceName(docs[0]) in sources;
        Ok(RagAnswer(answer, sources, context))
  }

  /** A document answer never cites a source it did not retrieve: every
      successful answer either has no sources or came from a non-empty
      retrieval whose documents carry exactly those names. */
  lemma RagSourcesComeFromRetrieval(env: Env, question: string, k: nat)
    requires QueryRag(env, question, k).Ok?
    ensures var a := QueryRag(env, question, k).value;
            a.sources == [] || (DocumentCount(env.store) > 0 && env.similaritySearch(question, k).Ok?
                                && forall v :: v in a.sources ==> exists d :: d in env.similaritySearch(question, k).value && SourceName(d) == v)
    ensures var a := QueryRag(env, question, k).value;
            a.context == "" <==> a.sources == []
  {
  }
}
