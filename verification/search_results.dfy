/** The Serper search response and the two pure functions the web-search
    agent applies to it: rendering it as a context string for the language
    model, and extracting the provenance list. */
module SearchResults {
  import opened Wrappers
  import opened Text

  /** One organic hit. Each field is `None` when the key is missing. */
  datatype OrganicResult = OrganicResult(title: Option<string>, snippet: Option<string>, link: Option<string>)

  /** The optional `answerBox` block. */
  datatype AnswerBox = AnswerBox(answer: Option<string>, snippet: Option<string>)

  /** The optional `knowledgeGraph` block. */
  datatype KnowledgeGraph = KnowledgeGraph(title: Option<string>, description: Option<string>)

  /** The decoded JSON response; a missing `organic` key is the empty list. */
  datatype SearchResponse = SearchResponse(
    organic: seq<OrganicResult>,
    answerBox: Option<AnswerBox>,
    knowledgeGraph: Option<KnowledgeGraph>)

  /** The response `{}`. */
  const EmptyResponse := SearchResponse([], None, None)

  /** What the formatter returns when it has nothing to say. */
  const NoResultsSentinel := "No search results found."

  /** One provenance entry `{"title": …, "url": …}`. */
  datatype WebSource = WebSource(title: string, url: string)

  // ---------------------------------------------------------------------------
  // The context string
  // ---------------------------------------------------------------------------

  /** The block for the organic hit numbered `i`, with the defaults for missing fields. */
  function OrganicPart(i: nat, o: OrganicResult): string {
    "[Result " + NatToString(i) + "]\nTitle: " + o.title.GetOr("No title")
    + "\nSnippet: " + o.snippet.GetOr("No description")
    + "\nURL: " + o.link.GetOr("") + "\n"
  }

  /** The organic blocks, numbered from 1 in the order returned. */
  function OrganicParts(organic: seq<OrganicResult>): seq<string> {
    seq(|organic|, i requires 0 <= i < |organic| => OrganicPart(i + 1, organic[i]))
  }

  /** `answer_box.get("answer") or answer_box.get("snippet", "")`, or "" without a box. */
  function FeaturedAnswer(box: Option<AnswerBox>): string {
    match box
    case None => ""
    case Some(b) =>
      if b.answer.Some? && b.answer.value != "" then b.answer.value else b.snippet.GetOr("")
  }

  function FeaturedAnswerParts(resp: SearchResponse): seq<string> {
    var answer := FeaturedAnswer(resp.answerBox);
    if answer != "" then ["[Featured Answer]\n" + answer + "\n"] else []
  }

  /** The featured-answer block carries the box's answer when it is
      non-empty, its snippet otherwise, and is absent when both are empty
      or there is no box. */
  lemma FeaturedAnswerBlock(resp: SearchResponse)
    ensures resp.answerBox.Some? && resp.answerBox.value.answer.GetOr("") != "" ==>
              FeaturedAnswerParts(resp) == ["[Featured Answer]\n" + resp.answerBox.value.answer.GetOr("") + "\n"]
    ensures resp.answerBox.Some? && resp.answerBox.value.answer.GetOr("") == ""
            && resp.answerBox.value.snippet.GetOr("") != "" ==>
              FeaturedAnswerParts(resp) == ["[Featured Answer]\n" + resp.answerBox.value.snippet.GetOr("") + "\n"]
    ensures FeaturedAnswerParts(resp) == [] <==>
              resp.answerBox.None?
              || (resp.answerBox.value.answer.GetOr("") == "" && resp.answerBox.value.snippet.GetOr("") == "")
  {
  }

  /** The knowledge-graph block exists when the graph has a non-empty title or description. */
  predicate HasKnowledgeGraph(resp: SearchResponse) {
    resp.knowledgeGraph.Some?
    && (resp.knowledgeGraph.value.title.GetOr("") != ""
        || resp.knowledgeGraph.value.description.GetOr("") != "")
  }

  function KnowledgeGraphParts(resp: SearchResponse): seq<string> {
    if HasKnowledgeGraph(resp) then
      var kg := resp.knowledgeGraph.value;
      ["[Knowledge Graph]\nTitle: " + kg.title.GetOr("") + "\nDescription: " + kg.description.GetOr("") + "\n"]
    else []
  }

  /** The blocks of the context, in their final order. */
  function Parts(resp: SearchResponse): seq<string> {
    KnowledgeGraphParts(resp) + FeaturedAnswerParts(resp) + OrganicParts(resp.organic)
  }

  /** Every block opens with a bracketed header. */
  lemma PartsStartWithBracket(resp: SearchResponse)
    ensures forall k :: 0 <= k < |Parts(resp)| ==> |Parts(resp)[k]| > 0 && Parts(resp)[k][0] == '['
  {
  }

  /** `format_search_results`: the blocks joined by newlines, or the sentinel
      exactly when there is no block. No real result can be mistaken for the
      sentinel, because every block starts with '['. */
  function FormatSearchResults(resp: SearchResponse): (r: string)
    ensures r == NoResultsSentinel <==> Parts(resp) == []
    ensures r == NoResultsSentinel <==>
              resp.organic == [] && FeaturedAnswer(resp.answerBox) == "" && !HasKnowledgeGraph(resp)
    ensures r != NoResultsSentinel ==> |r| > 0 && r[0] == '['
  {
    var parts := Parts(resp);
    if parts == [] then NoResultsSentinel
    else
      PartsStartWithBracket(resp);
      JoinStartsWithFirstPart(parts, "\n");
      Join(parts, "\n")
  }

  /** Organic results keep their order and their numbering from 1: one more
      result appends a newline and the block numbered after all earlier
      results, or is the whole context when nothing else was there. */
  lemma FormatSearchResultsAppend(resp: SearchResponse, o: OrganicResult)
    ensures var more := resp.(organic := resp.organic + [o]);
            && (Parts(resp) == [] ==> FormatSearchResults(more) == OrganicPart(1, o))
            && (Parts(resp) != [] ==>
                  FormatSearchResults(more) == FormatSearchResults(resp) + "\n" + OrganicPart(|resp.organic| + 1, o))
  {
    var more := resp.(organic := resp.organic + [o]);
    assert OrganicParts(more.organic) == OrganicParts(resp.organic) + [OrganicPart(|resp.organic| + 1, o)];
    assert Parts(more) == Parts(resp) + [OrganicPart(|resp.organic| + 1, o)];
    if Parts(resp) != [] {
      JoinSnoc(Parts(resp), OrganicPart(|resp.organic| + 1, o), "\n");
    } else {
      assert Parts(more) == [OrganicPart(1, o)];
    }
  }

  /** The formatter as the agent builds it: organic blocks appended in a loop,
      then the featured answer and the knowledge graph each inserted at the
      front. The result has the knowledge graph first, the featured answer
      next and the organic blocks last. */
  method BuildSearchContext(resp: SearchResponse) returns (r: string)
    ensures r == FormatSearchResults(resp)
    ensures r != NoResultsSentinel ==> r == Join(KnowledgeGraphParts(resp) + FeaturedAnswerParts(resp) + OrganicParts(resp.organic), "\n")
  {
    var parts: seq<string> := [];
    var i := 0;
    while i < |resp.organic|
      invariant 0 <= i <= |resp.organic|
      invariant parts == OrganicParts(resp.organic[..i])
    {
      var o := resp.organic[i];
      parts := parts + [OrganicPart(i + 1, o)];
      i := i + 1;
    }
    assert resp.organic[..i] == resp.organic;
    var answer := FeaturedAnswer(resp.answerBox);
    if answer != "" {
      parts := ["[Featured Answer]\n" + answer + "\n"] + parts;
    }
    if HasKnowledgeGraph(resp) {
      var kg := resp.knowledgeGraph.value;
      parts := ["[Knowledge Graph]\nTitle: " + kg.title.GetOr("") + "\nDescription: " + kg.description.GetOr("") + "\n"] + parts;
    }
    assert parts == Parts(resp);
    if parts == [] {
      r := NoResultsSentinel;
    } else {
      r := Join(parts, "\n");
    }
  }

  // ---------------------------------------------------------------------------
  // Provenance
  // ---------------------------------------------------------------------------

  function SourceOf(o: OrganicResult): WebSource {
    WebSource(o.title.GetOr("Unknown"), o.link.GetOr(""))
  }

  function SourcesOf(organic: seq<OrganicResult>): (r: seq<WebSource>)
    ensures |r| == |organic|
    ensures forall i :: 0 <= i < |organic| ==> r[i] == SourceOf(organic[i])
    decreases |organic|
  {
    if |organic| == 0 then [] else [SourceOf(organic[0])] + SourcesOf(organic[1..])
  }

  /** `extract_sources`: one entry per organic hit, in order, with the
      defaults "Unknown" and "" for a missing title or link. */
  function ExtractSources(resp: SearchResponse): (r: seq<WebSource>)
    ensures |r| == |resp.organic|
    ensures forall i :: 0 <= i < |r| ==>
              r[i].title == resp.organic[i].title.GetOr("Unknown")
              && r[i].url == resp.organic[i].link.GetOr("")
  {
    SourcesOf(resp.organic)
  }

  /** The answer box and the knowledge graph contribute no provenance. */
  lemma ExtractSourcesOnlyOrganic(resp: SearchResponse, box: Option<AnswerBox>, kg: Option<KnowledgeGraph>)
    ensures ExtractSources(resp.(answerBox := box, knowledgeGraph := kg)) == ExtractSources(resp)
    ensures ExtractSources(resp) == [] <==> resp.organic == []
  {
  }
}
