/** The orchestrator of app/rag/pipeline.py: retrieve, assemble the prompt from the retrieved
    results, call the generator, and cite as sources exactly the contexts packed into the
    prompt. The one optional callable serves both as the rerank scorer and as the generator;
    when it is absent the generator is the default model call, a parameter here. */
module Pipeline {
  import opened Docs
  import Reranker
  import Prompt
  import Retriever

  /** A citation: `{"id": c.get("id") or c.get("source_id"), "metadata": c.get("metadata", {})}`. */
  datatype Source = Source(id: Option<string>, metadata: Metadata)

  datatype AnswerBundle = AnswerBundle(answer: string, sources: seq<Source>, retrieval: Retriever.RetrievalResult)

  function SourceOf(c: Doc): Source {
    Source(Or(c.id, c.sourceId), c.metadata)
  }

  /** One source per context, in order. */
  function Sources(used: seq<Doc>): seq<Source> {
    seq(|used|, i requires 0 <= i < |used| => SourceOf(used[i]))
  }

  /** `(call_gemini_fn if call_gemini_fn is not None else call_gemini)(prompt)`. */
  function Generate(llm: Option<Reranker.Llm>, defaultLlm: Reranker.Llm, prompt: string): Reranker.Reply {
    if llm.Some? then llm.value(prompt) else defaultLlm(prompt)
  }

  /** How many retrieved results the default-budget prompt packs. */
  function UsedCount(query: string, results: seq<Doc>, systemPrompt: Option<string>): (n: nat)
    ensures n <= |results|
  {
    Prompt.PackedCount(|Prompt.SystemPart(systemPrompt)| + |query|, results, Prompt.CharBudget(Prompt.DefaultTokenBudget))
  }

  /** The prompt the generator is given for these retrieved results. */
  function PromptFor(query: string, results: seq<Doc>, systemPrompt: Option<string>): string {
    Prompt.Layout(Prompt.SystemPart(systemPrompt), query, results[..UsedCount(query, results, systemPrompt)])
  }

  /** The part of `generate_answer` after a successful retrieval. */
  function AnswerFor(query: string, retrieval: Retriever.RetrievalResult, llm: Option<Reranker.Llm>,
                     defaultLlm: Reranker.Llm, systemPrompt: Option<string>): Result<AnswerBundle>
  {
    var results := retrieval.results;
    match Generate(llm, defaultLlm, PromptFor(query, results, systemPrompt))
    case Raised => Err(GeneratorFailed)
    case Answer(text) => Ok(AnswerBundle(text, Sources(results[..UsedCount(query, results, systemPrompt)]), retrieval))
  }

  /** `generate_answer`. */
  function Generation(query: string, index: Option<Retriever.IndexHandle>, topK: int, reRank: bool,
                      llm: Option<Reranker.Llm>, defaultLlm: Reranker.Llm, decode: Reranker.Decoder,
                      systemPrompt: Option<string>): Result<AnswerBundle>
  {
    match Retriever.Retrieval(query, index, topK, reRank, llm, decode)
    case Err(e) => Err(e)
    case Ok(retrieval) => AnswerFor(query, retrieval, llm, defaultLlm, systemPrompt)
  }

  /** A source carries the id (else the source id) and the metadata of its context, and nothing
      of its text. */
  lemma SourceFields(c: Doc)
    ensures Truthy(c.id) ==> SourceOf(c).id == c.id
    ensures !Truthy(c.id) ==> SourceOf(c).id == c.sourceId
    ensures SourceOf(c).metadata == c.metadata
    ensures forall d: Doc :: d.id == c.id && d.sourceId == c.sourceId && d.metadata == c.metadata ==> SourceOf(d) == SourceOf(c)
  {
  }

  /** What an answer is made of: the retrieval is returned as the retriever produced it (with
      the same callable as scorer); the answer is the generator's reply to the prompt, verbatim;
      the sources cite, in order, exactly the leading results the prompt packed, so there are
      never more of them than results. The errors are the retriever's, then the generator's. */
  lemma GenerationShape(query: string, index: Option<Retriever.IndexHandle>, topK: int, reRank: bool,
                        llm: Option<Reranker.Llm>, defaultLlm: Reranker.Llm, decode: Reranker.Decoder,
                        systemPrompt: Option<string>)
    ensures var g := Generation(query, index, topK, reRank, llm, defaultLlm, decode, systemPrompt);
      var r := Retriever.Retrieval(query, index, topK, reRank, llm, decode);
      (r.Err? ==> g == Err(r.error))
      && (r.Ok? ==>
            var results := r.value.results;
            var reply := Generate(llm, defaultLlm, PromptFor(query, results, systemPrompt));
            (reply.Raised? ==> g == Err(GeneratorFailed))
            && (reply.Answer? ==>
                  g.Ok? && g.value.answer == reply.text && g.value.retrieval == r.value
                  && |g.value.sources| <= |results|
                  && |g.value.sources| == UsedCount(query, results, systemPrompt)
                  && forall i :: 0 <= i < |g.value.sources| ==> g.value.sources[i] == SourceOf(results[i])))
    ensures index.None? ==> Generation(query, index, topK, reRank, llm, defaultLlm, decode, systemPrompt) == Err(IndexRequired)
  {
    Retriever.RetrievalShape(query, index, topK, reRank, llm, decode);
  }

  /** The sources are the contexts the prompt actually cites: the i-th source belongs to the
      i-th packed block, and a result left out of the prompt is never cited. */
  lemma SourcesAreThePackedContexts(query: string, results: seq<Doc>, systemPrompt: Option<string>, i: nat)
    requires i < |results|
    ensures var n := UsedCount(query, results, systemPrompt);
      var base := |Prompt.SystemPart(systemPrompt)| + |query|;
      (i < n <==> Prompt.Counted(base, results[..i + 1]) <= Prompt.CharBudget(Prompt.DefaultTokenBudget))
  {
    var base := |Prompt.SystemPart(systemPrompt)| + |query|;
    var budget := Prompt.CharBudget(Prompt.DefaultTokenBudget);
    var n := UsedCount(query, results, systemPrompt);
    assert n == Prompt.PackedCount(base, results, budget);
    Prompt.PackedCountIsGreedyStop(base, results, budget);
    Prompt.PackedIffPrefixFits(base, results, budget, n, i);
  }

  /** Wherever the packing loop stops with the default budget, it stops at `UsedCount`. */
  lemma UsedContextsAreCounted(query: string, results: seq<Doc>, systemPrompt: Option<string>, n: nat)
    requires Prompt.GreedyStop(|Prompt.SystemPart(systemPrompt)| + |query|, results,
                               Prompt.CharBudget(Prompt.DefaultTokenBudget), n)
    ensures n == UsedCount(query, results, systemPrompt)
  {
    Prompt.GreedyStopIsPackedCount(|Prompt.SystemPart(systemPrompt)| + |query|, results,
                                   Prompt.CharBudget(Prompt.DefaultTokenBudget), n);
  }

  /** `generate_answer`: retrieve, build the prompt with the default budget, call the generator,
      then collect one source per used context in a loop. */
  method GenerateAnswer(query: string, index: Option<Retriever.IndexHandle>, topK: int, reRank: bool,
                        llm: Option<Reranker.Llm>, defaultLlm: Reranker.Llm, decode: Reranker.Decoder,
                        systemPrompt: Option<string>)
    returns (r: Result<AnswerBundle>)
    ensures r == Generation(query, index, topK, reRank, llm, defaultLlm, decode, systemPrompt)
  {
    var retrieval := Retriever.RetrieveDocuments(query, index, topK, reRank, llm, decode);
    if retrieval.Err? {
      return Err(retrieval.error);
    }
    var contexts := retrieval.value.results;
    var bundle := Prompt.BuildPrompt(query, contexts, systemPrompt, Prompt.DefaultTokenBudget);
    var used := bundle.usedContexts;
    UsedContextsAreCounted(query, contexts, systemPrompt, |used|);
    assert bundle.prompt == PromptFor(query, contexts, systemPrompt);
    assert Generation(query, index, topK, reRank, llm, defaultLlm, decode, systemPrompt)
        == AnswerFor(query, retrieval.value, llm, defaultLlm, systemPrompt);
    var resp;
    if llm.Some? {
      resp := llm.value(bundle.prompt);
    } else {
      resp := defaultLlm(bundle.prompt);
    }
    if resp.Raised? {
      return Err(GeneratorFailed);
    }
    var sources := CollectSources(used);
    assert used == contexts[..UsedCount(query, contexts, systemPrompt)];
    assert AnswerFor(query, retrieval.value, llm, defaultLlm, systemPrompt)
        == Ok(AnswerBundle(resp.text, Sources(used), retrieval.value));
    return Ok(AnswerBundle(resp.text, sources, retrieval.value));
  }

  /** The post-processing loop: one source appended per used context. */
  method CollectSources(used: seq<Doc>) returns (sources: seq<Source>)
    ensures sources == Sources(used)
  {
    sources := [];
    var i := 0;
    while i < |used|
      invariant 0 <= i <= |used|
      invariant |sources| == i
      invariant forall j :: 0 <= j < i ==> sources[j] == SourceOf(used[j])
    {
      var c := used[i];
      sources := sources + [Source(Or(c.id, c.sourceId), c.metadata)];
      i := i + 1;
    }
  }

  /** The one-match scenario of tests/test_pipeline.py: an index answering with `doc1`, scored
      0.9 and with text `Doc1 text`, no rerank, and a generator that always answers the same. */
  function FakeIndex(query: string, topK: int): Retriever.IndexReply {
    Retriever.Answered(Retriever.Response(
      Some([Retriever.Match(Some("doc1"), Retriever.Has(0.9), map["text" := "Doc1 text"])]), None))
  }

  function FakeLlm(prompt: string): Reranker.Reply {
    Reranker.Answer("This is a mocked answer.")
  }

  /** With that index and generator the answer is the mocked one and the single 26-character
      block fits, so the one result is cited. */
  lemma MockedPipelineAnswer(defaultLlm: Reranker.Llm, decode: Reranker.Decoder)
    ensures var g := Generation("What is X?", Some(FakeIndex), 1, false, Some(FakeLlm), defaultLlm, decode, None);
      g.Ok? && g.value.answer == "This is a mocked answer."
      && g.value.sources == [Source(Some("doc1"), map["text" := "Doc1 text"])]
  {
    var d := Retriever.Normalize(Retriever.Match(Some("doc1"), Retriever.Has(0.9), map["text" := "Doc1 text"]));
    var results := [d];
    assert Retriever.Normalized([Retriever.Match(Some("doc1"), Retriever.Has(0.9), map["text" := "Doc1 text"])]) == results;
    assert |Prompt.Block(d)| == 26;
    assert Prompt.SystemPart(None) == "";
    assert results[1..] == [];
    assert UsedCount("What is X?", results, None) == 1;
  }
}
