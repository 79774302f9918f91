/** `collect_metrics` of app/telemetry.py: simple counts over an interaction record such as the
    one `generate_answer` returns. Appending interactions to a log file is not part of this
    model. */
module Telemetry {
  import opened Docs
  import Reranker
  import Retriever
  import Pipeline

  /** The `retrieval` entry of an interaction: absent, present but not a dictionary, or a
      dictionary whose `results` may be absent or null (`None`). */
  datatype RetrievalEntry = NoRetrieval | NotADict | RetrievalDict(results: Option<seq<Doc>>)

  /** An interaction dictionary. `answer` is `None` when absent or null; `sources` is `None`
      when absent. */
  datatype Interaction = Interaction(answer: Option<string>, sources: Option<seq<Pipeline.Source>>, retrieval: RetrievalEntry)

  const AnswerChars := "answer_chars"
  const NumSources := "num_sources"
  const RetrievedItems := "retrieved_items"

  /** `len(x or [])` for an optional list. */
  function CountOf<T>(xs: Option<seq<T>>): nat {
    if xs.Some? then |xs.value| else 0
  }

  /** The metrics of an interaction, key by key. */
  function Metrics(interaction: Interaction): map<string, nat> {
    var m := map[AnswerChars := |OrEmpty(interaction.answer)|, NumSources := CountOf(interaction.sources)];
    if interaction.retrieval.RetrievalDict? then m[RetrievedItems := CountOf(interaction.retrieval.results)] else m
  }

  /** The keys are exactly `answer_chars`, `num_sources` and, only when the retrieval entry is a
      dictionary, `retrieved_items`. A missing or empty answer counts 0 characters, missing
      sources count 0, and missing, null or empty results count 0 items. */
  lemma MetricsKeys(interaction: Interaction)
    ensures Metrics(interaction).Keys ==
      {AnswerChars, NumSources} + (if interaction.retrieval.RetrievalDict? then {RetrievedItems} else {})
    ensures Metrics(interaction)[AnswerChars] == 0 <==> !Truthy(interaction.answer)
    ensures Truthy(interaction.answer) ==> Metrics(interaction)[AnswerChars] == |interaction.answer.value|
    ensures Metrics(interaction)[NumSources] == (if interaction.sources.Some? then |interaction.sources.value| else 0)
    ensures interaction.retrieval.RetrievalDict? ==>
      (Metrics(interaction)[RetrievedItems] == 0 <==>
         interaction.retrieval.results.None? || interaction.retrieval.results.value == [])
    ensures interaction.retrieval.RetrievalDict? && interaction.retrieval.results.Some? ==>
      Metrics(interaction)[RetrievedItems] == |interaction.retrieval.results.value|
  {
  }

  /** The interaction record of an answer bundle. */
  function InteractionOf(b: Pipeline.AnswerBundle): Interaction {
    Interaction(Some(b.answer), Some(b.sources), RetrievalDict(Some(b.retrieval.results)))
  }

  /** For an answer produced by the pipeline, every metric is present, the answer length is
      counted exactly, and there are never more sources than retrieved items. */
  lemma PipelineMetrics(query: string, index: Option<Retriever.IndexHandle>, topK: int, reRank: bool,
                        llm: Option<Reranker.Llm>, defaultLlm: Reranker.Llm,
                        decode: Reranker.Decoder, systemPrompt: Option<string>)
    ensures var g := Pipeline.Generation(query, index, topK, reRank, llm, defaultLlm, decode, systemPrompt);
      g.Ok? ==>
        var m := Metrics(InteractionOf(g.value));
        m.Keys == {AnswerChars, NumSources, RetrievedItems}
        && m[AnswerChars] == |g.value.answer|
        && m[NumSources] <= m[RetrievedItems]
        && m[RetrievedItems] == |g.value.retrieval.results|
  {
    Pipeline.GenerationShape(query, index, topK, reRank, llm, defaultLlm, decode, systemPrompt);
  }

  /** `collect_metrics`: the key-by-key filling of the metrics dictionary. */
  method CollectMetrics(interaction: Interaction) returns (metrics: map<string, nat>)
    ensures metrics == Metrics(interaction)
  {
    metrics := map[];
    var ans := OrEmpty(interaction.answer);
    metrics := metrics[AnswerChars := |ans|];
    metrics := metrics[NumSources := CountOf(interaction.sources)];
    if interaction.retrieval.RetrievalDict? {
      var results := if interaction.retrieval.results.Some? then interaction.retrieval.results.value else [];
      metrics := metrics[RetrievedItems := |results|];
    }
  }
}
