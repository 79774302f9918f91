/** The retriever of app/rag/retriever.py: queries the vector index, turns its raw matches into
    canonical documents `{id, text, score, metadata}` by "first non-empty field" rules, and
    optionally reranks them. The index query (embedding included) is a parameter. */
module Retriever {
  import opened Docs
  import Reranker

  /** A dictionary key that may be missing, present with null, or present with a value. */
  datatype Slot<T> = Missing | Null | Has(value: T)

  /** One raw index match. `id` is `None` when missing or null; a missing `metadata` is `{}`. */
  datatype Match = Match(id: Option<string>, score: Slot<real>, metadata: Metadata)

  /** The index response: a `matches` or a `results` collection, either possibly missing. */
  datatype Response = Response(matches: Option<seq<Match>>, results: Option<seq<Match>>)

  /** What the index query does: it raises, or it answers. */
  datatype IndexReply = QueryRaised | Answered(response: Response)

  /** An index handle: `query_pinecone(query, index=…, top_k=…)` as a function of its inputs. */
  type IndexHandle = (string, int) -> IndexReply

  datatype RetrievalResult = RetrievalResult(query: string, results: seq<Doc>, rawResponse: Response)

  /** `resp.get("matches") or resp.get("results") or []`. */
  function MatchList(resp: Response): seq<Match> {
    if resp.matches.Some? && resp.matches.value != [] then resp.matches.value
    else if resp.results.Some? && resp.results.value != [] then resp.results.value
    else []
  }

  /** `m.get("score") or m.get("score", 0.0)`: a missing score reads 0.0; a null one stays null. */
  function ScoreOf(s: Slot<real>): Option<real> {
    match s
    case Missing => Some(0.0)
    case Null => None
    case Has(v) => Some(v)
  }

  /** The metadata keys the text is looked for under, in order of preference. */
  const TextKeys: seq<string> := ["text", "content", "page_content"]

  /** `metadata.get("text") or metadata.get("content") or metadata.get("page_content") or ""`. */
  function TextOf(md: Metadata): string {
    OrEmpty(Or(Or(Lookup(md, "text"), Lookup(md, "content")), Lookup(md, "page_content")))
  }

  /** The value under the first of `keys` whose value is non-empty, or `""` if none is. */
  function FirstNonEmpty(md: Metadata, keys: seq<string>): string {
    if keys == [] then ""
    else if Truthy(Lookup(md, keys[0])) then md[keys[0]]
    else FirstNonEmpty(md, keys[1..])
  }

  /** The normalisation of one match into a document. */
  function Normalize(m: Match): Doc {
    Doc(Or(m.id, Lookup(m.metadata, "id")), None, TextOf(m.metadata), ScoreOf(m.score), m.metadata, None)
  }

  function Normalized(matches: seq<Match>): seq<Doc> {
    seq(|matches|, i requires 0 <= i < |matches| => Normalize(matches[i]))
  }

  /** `retrieve_documents`. */
  function Retrieval(query: string, index: Option<IndexHandle>, topK: int, reRank: bool,
                     scorer: Option<Reranker.Llm>, decode: Reranker.Decoder): Result<RetrievalResult>
  {
    if index.None? then Err(IndexRequired)
    else match index.value(query, topK)
      case QueryRaised => Err(IndexFailed)
      case Answered(resp) =>
        var docs := Normalized(MatchList(resp));
        Ok(RetrievalResult(query, if reRank then Reranker.Reranked(query, docs, scorer, decode, Some(topK)) else docs, resp))
  }

  /** The match list is the first non-empty of the two collections; none is no error. */
  lemma MatchListChoice(resp: Response)
    ensures MatchList(resp) != [] ==> Some(MatchList(resp)) == resp.matches || Some(MatchList(resp)) == resp.results
    ensures (resp.matches.Some? && resp.matches.value != []) ==> MatchList(resp) == resp.matches.value
    ensures MatchList(resp) == [] <==>
      (resp.matches.None? || resp.matches.value == []) && (resp.results.None? || resp.results.value == [])
  {
  }

  /** The text is the first non-empty of `text`, `content` and `page_content`, else `""`. */
  lemma TextIsFirstNonEmpty(md: Metadata)
    ensures TextOf(md) == FirstNonEmpty(md, TextKeys)
    ensures TextOf(md) == "" <==> forall k :: k in TextKeys ==> !Truthy(Lookup(md, k))
  {
    var k1, k2 := TextKeys[1..], TextKeys[1..][1..];
    assert k1 == ["content", "page_content"] && k2 == ["page_content"] && k2[1..] == [];
    assert FirstNonEmpty(md, k2) == OrEmpty(Lookup(md, "page_content"));
    assert FirstNonEmpty(md, k1) == OrEmpty(Or(Lookup(md, "content"), Lookup(md, "page_content")));
  }

  /** The document of a match: its id is the match's id when that is non-empty and otherwise the
      metadata's (`None` if absent); a missing score is 0.0; the metadata is kept whole; there
      is no `source_id` and no rerank field yet. */
  lemma NormalizeFields(m: Match)
    ensures Truthy(m.id) ==> Normalize(m).id == m.id
    ensures !Truthy(m.id) ==> Normalize(m).id == (if "id" in m.metadata then Some(m.metadata["id"]) else None)
    ensures m.score.Missing? ==> Normalize(m).score == Some(0.0)
    ensures m.score.Has? ==> Normalize(m).score == Some(m.score.value)
    ensures m.score.Null? ==> Normalize(m).score.None?
    ensures Normalize(m).metadata == m.metadata && Normalize(m).text == FirstNonEmpty(m.metadata, TextKeys)
    ensures Normalize(m).sourceId.None? && Normalize(m).rerank.None?
  {
    TextIsFirstNonEmpty(m.metadata);
  }

  /** Without an index the retriever fails before any query; a failing query propagates. With an
      answer, the query is echoed and the response is passed through unchanged; without rerank
      there is exactly one document per match, in index order; with rerank the results are the
      reranker's for the same `top_k`, so at most `top_k` of them when it is positive. */
  lemma RetrievalShape(query: string, index: Option<IndexHandle>, topK: int, reRank: bool,
                       scorer: Option<Reranker.Llm>, decode: Reranker.Decoder)
    ensures index.None? ==> Retrieval(query, index, topK, reRank, scorer, decode) == Err(IndexRequired)
    ensures index.Some? && index.value(query, topK).QueryRaised? ==>
      Retrieval(query, index, topK, reRank, scorer, decode) == Err(IndexFailed)
    ensures index.Some? && index.value(query, topK).Answered? ==>
      var resp := index.value(query, topK).response;
      var r := Retrieval(query, index, topK, reRank, scorer, decode);
      var matches := MatchList(resp);
      r.Ok? && r.value.query == query && r.value.rawResponse == resp
      && (!reRank ==> |r.value.results| == |matches|
                      && forall i :: 0 <= i < |matches| ==> r.value.results[i] == Normalize(matches[i]))
      && (reRank ==> |r.value.results| == Reranker.KeptLength(|matches|, Some(topK))
                     && (topK > 0 ==> |r.value.results| <= topK)
                     && Reranker.SortedDesc(r.value.results))
  {
    if index.Some? && index.value(query, topK).Answered? {
      var matches := MatchList(index.value(query, topK).response);
      Reranker.RerankedShape(query, Normalized(matches), scorer, decode, Some(topK));
    }
  }

  /** The retriever: the guard on the index, the query, and the loop that normalises each match
      and appends it to `docs`, which the optional rerank then replaces. */
  method RetrieveDocuments(query: string, index: Option<IndexHandle>, topK: int, reRank: bool,
                           scorer: Option<Reranker.Llm>, decode: Reranker.Decoder)
    returns (r: Result<RetrievalResult>)
    ensures r == Retrieval(query, index, topK, reRank, scorer, decode)
  {
    if index.None? {
      return Err(IndexRequired);
    }
    var reply := index.value(query, topK);
    if reply.QueryRaised? {
      return Err(IndexFailed);
    }
    var resp := reply.response;
    var matches := MatchList(resp);
    var docs: seq<Doc> := [];
    var i := 0;
    while i < |matches|
      invariant 0 <= i <= |matches|
      invariant |docs| == i
      invariant forall j :: 0 <= j < i ==> docs[j] == Normalize(matches[j])
    {
      var m := matches[i];
      var mid := Or(m.id, Lookup(m.metadata, "id"));
      var score := ScoreOf(m.score);
      var metadata := m.metadata;
      var text := TextOf(metadata);
      docs := docs + [Doc(mid, None, text, score, metadata, None)];
      i := i + 1;
    }
    assert docs == Normalized(matches);
    if reRank {
      docs := Reranker.RerankDocuments(query, docs, scorer, decode, Some(topK));
    }
    return Ok(RetrievalResult(query, docs, resp));
  }
}
