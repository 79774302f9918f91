# Retrieval-augmented answering core, modelled in Dafny

This project models the core of a retrieval-augmented question-answering service:

- **Reranker** (`reranker.dfy`, app/reranker.py). Documents are scored for a query in one of two
  ways. If a scoring model is given, it is asked for `{id, score, rationale}` objects. Otherwise, or
  when anything on that path fails, the score is the number of distinct lowercase word tokens the
  query and the text share. The scored documents are then sorted stably by score, highest first,
  and cut to `top_k`.
- **Prompt assembler** (`prompt.dfy`, app/rag/prompt.py). It packs `[Source: id]` blocks into a
  character budget of four characters per token. It works greedily, keeps the input order, and
  stops at the first block that would overflow.
- **Retriever** (`retriever.dfy`, app/rag/retriever.py). It turns the vector index's raw matches
  into documents by "first non-empty field" rules, then optionally reranks them.
- **Orchestrator** (`pipeline.dfy`, app/rag/pipeline.py). It retrieves, builds the prompt from
  the results, and calls the generator. The sources it cites are exactly the contexts packed into
  the prompt.
- **Metrics** (`telemetry.dfy`, `collect_metrics` of app/telemetry.py). These are counts over an
  interaction record.

Two supporting modules model the Python idioms the core relies on:

- `docs.dfy` holds the document record, `a or b` field selection, and `s[:k]` slicing.
- `strings.dfy` holds `lower`, `re.findall(r"\w+")`, `strip`, `join`, and the decimal rendering of
  an integer.

Every loop of the source is a `method` with a `while` loop. Each method is proved equal to a
specification function (`Reranked`, `Retrieval`, `Generation`, `Metrics`, …), and the properties
the source promises are lemmas about those functions. `BuildPrompt` is the exception: its
`ensures` states the greedy stopping rule (`GreedyStop`) and the exact layout directly.

The external calls are parameters:

- The index query is `IndexHandle = (string, int) -> IndexReply`; it raises or answers.
- The model call is `Llm = string -> Reply`; it raises or answers with text.
- JSON decoding of the scorer's answer is `Decoder = string -> ScorerOutcome`; it fails or gives
  a list of items.

One optional `Llm` is both the rerank scorer and the generator, as in app/rag/pipeline.py:23,31.
When it is absent, the generator is a separate default `Llm`.

Where the code and its documentation differ, the model follows the code:

- A match whose `score` is present but null keeps a null score. `m.get("score") or m.get("score", 0.0)`
  gives 0.0 only for a missing score.
- `top_k = 0` keeps every document, because `if top_k:` is false for 0.
- A negative `top_k` drops documents from the end, as Python slicing does.
- A matched scorer item with no `score` gets 0.0.

## Model

| member | source | states |
|---|---|---|
| Docs.Key | app/reranker.py:40 | the join and citation key is `id` when non-empty, else `source_id` when non-empty, else `""` |
| Docs.SliceTo | app/reranker.py:64-65 | `s[:k]` is a prefix of `s` of length `min(k, len)` for `k >= 0` and `max(0, len + k)` for negative `k` |
| Strings.Words | app/reranker.py:10-11 | every token of `\w+` tokenisation is a word: non-empty and made of word characters only |
| Strings.WordsAreMaximalRuns | app/reranker.py:10-11 | a string is a token exactly when it is a maximal run of word characters of the input, so no run is dropped (a final one included) and nothing else is added |
| Strings.WordsOfUnwords | app/reranker.py:10-11 | tokenising words written out with single spaces gives back exactly those words |
| Strings.StripRemovesOnlyOuterSpace | app/rag/prompt.py:19 | `strip` returns a slice of its input, everything it cuts is whitespace, and the result neither starts nor ends with whitespace |
| Strings.Decimal | app/reranker.py:77 | the rendering of a count is a non-empty string of digits with no leading zero except for 0 itself |
| Strings.DecimalRoundTrip | app/reranker.py:77 | the rendered decimal of a count reads back as that count |
| Reranker.LexicalScoreBounds | app/reranker.py:9-12 | the overlap score is symmetric, at most either side's distinct-token count, and 0 exactly when no token is shared |
| Reranker.LexicalAnnotationFields | app/reranker.py:71-78 | on the fallback path each document keeps its other fields, its `rerank_score` is its overlap with the query, and its rationale is `lexical_overlap=` followed by that count |
| Reranker.RequestListsEveryDocument | app/reranker.py:33-44 | the scorer request's lines are the two instructions, `Query: <query>`, `Documents:`, then one `ID:`/`Text:` entry per document, in order, and nothing more |
| Reranker.IdMapDomain | app/reranker.py:48 | an id is in the id map exactly when some scorer item carries it; items with no id are ignored |
| Reranker.IdMapLastWins | app/reranker.py:48 | an id maps to the last item carrying it, so a later duplicate overrides an earlier one |
| Reranker.ScoredFieldsOfDocument | app/reranker.py:50-58 | a document no item names (an empty answer array included) gets score 0.0 and rationale `""`; a named one takes the fields of the last item naming it |
| Reranker.SortIsOrderedPermutation | app/reranker.py:63 | the sort returns a permutation of its input, ordered by `rerank_score`, highest first |
| Reranker.SortIsStable | app/reranker.py:63 | for every score, the documents with that score keep their input order |
| Reranker.StableSortIsUnique | app/reranker.py:80 | any score-ordered list that keeps, for every score, the input's documents in input order is the sort's result |
| Reranker.AnnotatedKeepsDocuments | app/reranker.py:59-62 | both paths annotate every input document, dropping none, adding the two rerank fields, and changing nothing else |
| Reranker.RerankedShape | app/reranker.py:29-83 | no documents give `[]`; the output is score-ordered and a prefix of the stable sort, with length `min(len(docs), top_k)` for positive `top_k` and `len(docs)` for None or 0 |
| Reranker.RerankedAreCopies | app/reranker.py:59-62 | every output document is a copy of an input document in which only the rerank fields differ |
| Reranker.ScorerFailureFallsBack | app/reranker.py:45-70 | when the call, the parse or a score conversion fails, the result equals calling with no scorer, which is the sorted and cut lexical annotation |
| Reranker.RaisingScorerKeepsAllDocuments | app/reranker.py:67-78 | with a scorer that always raises and no `top_k`, the output is a permutation of the lexically annotated inputs, each scored by overlap |
| Reranker.BuildScorerRequest | app/reranker.py:33-44 | the request-building loop yields exactly the specified request |
| Reranker.ApplyScores | app/reranker.py:50-62 | the scoring loop yields the annotated list, or nothing when a matched score fails to convert |
| Reranker.ApplyLexicalScores | app/reranker.py:71-78 | the fallback loop yields the lexically annotated list |
| Reranker.RerankDocuments | app/reranker.py:15-83 | the reranker's result is the specified `Reranked` output |
| Prompt.PackedCount | app/rag/prompt.py:25-35 | a front-counted reference for where the packing loop stops; `Prompt.PackedCountIsGreedyStop` and `Prompt.GreedyStopIsPackedCount` prove it is exactly that stopping point (its own contract is only the bound by the number of contexts) |
| Prompt.BlockLength | app/rag/prompt.py:26-29 | a block is 13 characters plus its citation id and its text |
| Prompt.PackedCountIsGreedyStop | app/rag/prompt.py:25-35 | the reference count is a stopping point: every prefix up to it fits the budget and the next longer one overflows |
| Prompt.GreedyIsLongestFit | app/rag/prompt.py:30-32 | no prefix longer than the packed one fits the budget |
| Prompt.GreedyStopIsPackedCount | app/rag/prompt.py:25-35 | any stopping point is the reference count, so the packed prefix depends only on the inputs |
| Prompt.ExactFitIsPacked | app/rag/prompt.py:30 | a block that exactly fills the remaining budget is packed, because the test is `>` |
| Prompt.PromptSize | app/rag/prompt.py:38-39 | the prompt's length is the counted characters plus 22 uncounted header characters, and at most budget + 22 when anything is packed |
| Prompt.NothingFits | app/rag/prompt.py:30-32 | when the first block overflows, nothing is packed and the prompt is the system part, the two headers and the query |
| Prompt.SystemPartCases | app/rag/prompt.py:19 | no template or an empty one gives `""`; a whitespace-only template gives `"\n\n"`; any other gives the stripped template followed by the blank line `"\n\n"` |
| Prompt.BuildPrompt | app/rag/prompt.py:4-41 | the used contexts are a prefix of the contexts; the loop stops by the greedy rule against `4 * token_budget`; the prompt is system part, `CONTEXT:`, the used blocks, `USER QUERY:` and the query |
| Retriever.MatchListChoice | app/rag/retriever.py:28 | the match list is `matches` if non-empty, else `results` if non-empty, else empty, and an empty list is not an error |
| Retriever.TextIsFirstNonEmpty | app/rag/retriever.py:36 | the text is the first non-empty of `text`, `content` and `page_content`, and `""` exactly when none is non-empty |
| Retriever.NormalizeFields | app/rag/retriever.py:32-37 | the id is the match id, else the metadata id; a missing score is 0.0, a null one stays null, a present one is kept; the metadata is kept; no rerank fields are added |
| Retriever.RetrievalShape | app/rag/retriever.py:23-43 | no index is an error before any query; a failing query propagates; the query is echoed and the raw response returned; without rerank there is one document per match, in order; with rerank the length is the reranker's for the same `top_k` |
| Retriever.RetrieveDocuments | app/rag/retriever.py:7-43 | the retriever's result is the specified `Retrieval` result |
| Pipeline.UsedCount | app/rag/pipeline.py:27 | the number of results the default-budget prompt packs; `Pipeline.SourcesAreThePackedContexts` proves a result is counted exactly when its prefix fits (its own contract is only the bound by the number of results) |
| Pipeline.SourceFields | app/rag/pipeline.py:37 | a source carries `id or source_id` and the metadata, and depends on nothing else of the context |
| Pipeline.GenerationShape | app/rag/pipeline.py:22-39 | errors come from the retriever, then the generator; the answer is the generator's reply to the prompt verbatim; the retrieval is returned unchanged; the sources are the packed results, in order, never more than the results |
| Pipeline.SourcesAreThePackedContexts | app/rag/pipeline.py:35-37 | a result is cited exactly when its prefix fits the default budget |
| Pipeline.CollectSources | app/rag/pipeline.py:35-37 | the post-processing loop yields one source per used context, in order |
| Pipeline.GenerateAnswer | app/rag/pipeline.py:8-39 | the orchestrator's result is the specified `Generation` result |
| Pipeline.MockedPipelineAnswer | tests/test_pipeline.py:10-24 | with the one-match index and the mocked generator, the answer is the mocked one and the only source is `doc1` with its metadata |
| Telemetry.MetricsKeys | app/telemetry.py:18-26 | the keys are exactly `answer_chars`, `num_sources` and, only for a dictionary retrieval, `retrieved_items`; `answer_chars` is the answer's length, `num_sources` the number of sources and `retrieved_items` the number of results; missing, null or empty values count 0 |
| Telemetry.PipelineMetrics | app/telemetry.py:18-26 | for a pipeline answer all three metrics are present, `answer_chars` is the answer's length, and `num_sources` is at most `retrieved_items` |
| Telemetry.CollectMetrics | app/telemetry.py:13-26 | the key-by-key filling yields exactly the specified metrics |

## Left out

- Vector index and embeddings (app/vectorstore.py, app/embeddings.py). The index query is a function parameter that raises or answers; the embedding of the query is hidden inside it.
- Model SDK, configuration, HTTP and UI layers (app/llm.py, app/config.py, app/app.py, app/backend/app.py, app/frontend/main.py) and chunking (app/rag/utils.py) are not part of this model. The model call is a parameter.
- `log_interaction` in app/telemetry.py. It appends to a file with a wall-clock timestamp.
- Logging in the reranker's exception handler. It has no effect on the result.
- JSON parsing of the scorer's answer. It is the `Decoder` parameter. An answer that does not parse, or whose iteration yields something other than objects, is `Failed` and sends the reranker to the fallback. An answer that parses to an empty collection (`[]`, `{}`, `""`) is `Items([])`: the id map is then empty and every document gets score 0.0 and rationale `""`, with no fallback. An item's `score` is a number, missing, or a value `float()` rejects.
- Python exceptions other than the ones the core raises or lets through. An index query that raises and a generator that raises become `Err` results.
- Strings.Words, Strings.Lower, Strings.Strip: model `\w`, `str.lower` and `str.strip` on ASCII, with the whitespace below U+0100 for `strip`. They do not model the full Unicode classes.
- Scores are `real`, not IEEE doubles. `float()` conversion is exact, and there are no NaN or infinities in the sort.
- Docs.Doc: models `text` as a string and `metadata` as a string-to-string map. Non-string or null `text`, non-string metadata values and non-string rationales are not modelled. A missing `text` or `metadata` is read as `""` or `{}`, the defaults every reader uses.
- Reranker.RankOf: gives 0.0 to a document without rerank fields. The reranker only sorts annotated documents, so this default is never used.
- Telemetry.Interaction: `sources` present but null (where `len(None)` raises) and a non-string `answer` are not modelled.
- Retriever.Match: a match `id` that is not a string is not modelled. A match whose `metadata` is present but null, where reading its text raises `AttributeError`, is not modelled either: `metadata` is always a mapping, and a missing one is `{}`.
