/** Records shared by the retrieval pipeline: the document dictionaries that flow from the
    retriever through the reranker into the prompt assembler, the error taxonomy, and the two
    Python idioms the code leans on everywhere: `a or b` field selection and `s[:k]` slicing. */
module Docs {

  datatype Option<+T> = None | Some(value: T)

  /** The three ways a pipeline call ends without an answer. */
  datatype Error =
    | IndexRequired    // `ValueError`: no index handle was given
    | IndexFailed      // the index query raised; the core does not catch it
    | GeneratorFailed  // the generation call raised; the core does not catch it

  datatype Result<+T> = Ok(value: T) | Err(error: Error)

  /** A metadata mapping as the vector index stores it. */
  type Metadata = map<string, string>

  /** The two fields the reranker adds: `rerank_score` and `rerank_rationale`. */
  datatype RerankInfo = RerankInfo(score: real, rationale: string)

  /** A document dictionary. `id` and `source_id` may be missing or null (`None`); a missing
      `text` reads as `""` and a missing `metadata` as `{}`, the defaults every reader uses.
      `score` is the retrieval score (`None` when the index gave a null one); `rerank` holds
      the two reranker fields once they have been added. */
  datatype Doc = Doc(
    id: Option<string>,
    sourceId: Option<string>,
    text: string,
    score: Option<real>,
    metadata: Metadata,
    rerank: Option<RerankInfo>)

  /** Python truthiness of an optional string: `None` and `""` are false. */
  predicate Truthy(s: Option<string>) {
    s.Some? && s.value != ""
  }

  /** Python `a or b` on optional strings: `a` when it is truthy, else `b`, whatever `b` is. */
  function Or(a: Option<string>, b: Option<string>): Option<string> {
    if Truthy(a) then a else b
  }

  /** Python `a or ""`. */
  function OrEmpty(a: Option<string>): string {
    if Truthy(a) then a.value else ""
  }

  /** Looks up a metadata key the way `metadata.get(key)` does. */
  function Lookup(m: Metadata, key: string): Option<string> {
    if key in m then Some(m[key]) else None
  }

  /** The id a document is known by, `d.get("id") or d.get("source_id") or ""`: the join key of
      the reranker and the citation id of the prompt assembler. */
  function Key(d: Doc): (k: string)
    ensures Truthy(d.id) ==> k == d.id.value
    ensures !Truthy(d.id) && Truthy(d.sourceId) ==> k == d.sourceId.value
    ensures !Truthy(d.id) && !Truthy(d.sourceId) ==> k == ""
  {
    OrEmpty(Or(d.id, d.sourceId))
  }

  function Min(a: int, b: int): int { if a <= b then a else b }

  function Max(a: int, b: int): int { if a >= b then a else b }

  /** Python's `s[:k]`: the first `k` elements, or all but the last `-k` when `k` is negative. */
  function SliceTo<T>(s: seq<T>, k: int): (r: seq<T>)
    ensures 0 <= k ==> |r| == Min(k, |s|)
    ensures k < 0 ==> |r| == Max(0, |s| + k)
    ensures r == s[..|r|]
  {
    if 0 <= k then (if k <= |s| then s[..k] else s)
    else if 0 <= |s| + k then s[..|s| + k]
    else []
  }
}
