/** The reranker of app/reranker.py: scores documents for a query, either from the answer of an
    external scoring model or, when there is none or it fails in any way, by lexical token
    overlap; then sorts them by score, highest first and stably, and keeps the first `top_k`. */
module Reranker {
  import opened Docs
  import Strings

  /** What the external model callable does with a prompt: it raises, or it answers with text. */
  datatype Reply = Raised | Answer(text: string)

  type Llm = string -> Reply

  /** The `score` field of one scorer item: missing, a value `float()` accepts, or one it rejects. */
  datatype ScoreField = NoScore | Number(value: real) | NotANumber

  /** One object of the scorer's JSON array. `id` is `None` when missing or null; `rationale`
      is `None` when missing. */
  datatype ScoredItem = ScoredItem(id: Option<string>, score: ScoreField, rationale: Option<string>)

  /** `json.loads` of the scorer's answer: it fails, or gives an array of items. */
  datatype ScorerOutcome = Failed | Items(items: seq<ScoredItem>)

  type Decoder = string -> ScorerOutcome

  // ---------------------------------------------------------------------------------------
  // Lexical fallback scorer

  /** The distinct lowercase word tokens of `s`. */
  function TokenSet(s: string): set<string> {
    set w | w in Strings.Words(Strings.Lower(s))
  }

  /** `_simple_lexical_score`: the number of distinct lowercase word tokens shared by both. */
  function LexicalScore(query: string, text: string): nat {
    |TokenSet(query) * TokenSet(text)|
  }

  /** The overlap score is symmetric, bounded by either side's distinct-token count, and zero
      exactly when no token is shared. */
  lemma LexicalScoreBounds(query: string, text: string)
    ensures LexicalScore(query, text) == LexicalScore(text, query)
    ensures LexicalScore(query, text) <= |TokenSet(query)|
    ensures LexicalScore(query, text) <= |TokenSet(text)|
    ensures LexicalScore(query, text) == 0 <==> TokenSet(query) !! TokenSet(text)
  {
    var both := TokenSet(query) * TokenSet(text);
    assert TokenSet(text) * TokenSet(query) == both;
    SubsetCardinality(both, TokenSet(query));
    SubsetCardinality(both, TokenSet(text));
    if both == {} {
      forall w | w in TokenSet(query)
        ensures w !in TokenSet(text)
      {
        assert w !in both;
      }
    } else {
      var w :| w in both;
      assert !(TokenSet(query) !! TokenSet(text));
    }
  }

  lemma SubsetCardinality(a: set<string>, b: set<string>)
    requires a <= b
    ensures |a| <= |b|
  {
    assert b == a + (b - a);
  }

  /** `f"lexical_overlap={score}"`. */
  function LexicalRationale(n: nat): string {
    "lexical_overlap=" + Strings.Decimal(n)
  }

  /** A copy of `d` with the fallback scorer's two fields. */
  function WithLexical(query: string, d: Doc): Doc {
    var n := LexicalScore(query, d.text);
    d.(rerank := Some(RerankInfo(n as real, LexicalRationale(n))))
  }

  /** The fallback loop's list `scored`, before it is sorted. */
  function LexicalAnnotated(query: string, docs: seq<Doc>): seq<Doc> {
    seq(|docs|, i requires 0 <= i < |docs| => WithLexical(query, docs[i]))
  }

  /** On the fallback path every document keeps all its fields but the two rerank fields; its
      `rerank_score` is its overlap with the query, and its rationale names that count, which
      can be read back from it. */
  lemma LexicalAnnotationFields(query: string, docs: seq<Doc>, i: int)
    requires 0 <= i < |docs|
    ensures var a := LexicalAnnotated(query, docs);
      var n := LexicalScore(query, docs[i].text);
      |a| == |docs| && a[i].rerank.Some?
      && a[i] == docs[i].(rerank := a[i].rerank)
      && a[i].rerank.value.score == n as real
      && |a[i].rerank.value.rationale| > 16
      && a[i].rerank.value.rationale[..16] == "lexical_overlap="
      && Strings.DecimalValue(a[i].rerank.value.rationale[16..]) == n
  {
    var n := LexicalScore(query, docs[i].text);
    var r := LexicalRationale(n);
    assert r[16..] == Strings.Decimal(n);
    Strings.DecimalRoundTrip(n);
  }

  // ---------------------------------------------------------------------------------------
  // Model-scored path

  const ScorerInstructions: seq<string> := [
    "You are a relevance scorer. Given a user query, score each document between 0 and 1 and include a brief rationale.",
    "Return a JSON array of objects with fields: id, score (0-1), rationale. Respond with JSON only."
  ]

  /** `f"ID: {did}\nText: {text}\n---"`. */
  function RequestEntry(d: Doc): string {
    "ID: " + Key(d) + "\nText: " + d.text + "\n---"
  }

  function RequestEntries(docs: seq<Doc>): seq<string> {
    if docs == [] then []
    else RequestEntries(docs[..|docs| - 1]) + [RequestEntry(docs[|docs| - 1])]
  }

  /** `prompt_lines`: the two instructions, the query, a heading and one entry per document. */
  function RequestLines(query: string, docs: seq<Doc>): seq<string> {
    ScorerInstructions + ["Query: " + query, "Documents:"] + RequestEntries(docs)
  }

  /** The request holds the two instructions, the query and a heading, then lists every
      document, in order, by its join key and its text. */
  lemma {:induction false} RequestListsEveryDocument(query: string, docs: seq<Doc>, i: int)
    ensures |RequestLines(query, docs)| == 4 + |docs|
    ensures RequestLines(query, docs)[..4] == ScorerInstructions + ["Query: " + query, "Documents:"]
    ensures 0 <= i < |docs| ==>
      RequestLines(query, docs)[4 + i] == "ID: " + Key(docs[i]) + "\nText: " + docs[i].text + "\n---"
  {
    if 0 <= i < |docs| {
      RequestEntriesAt(docs, i);
    } else if docs != [] {
      RequestEntriesAt(docs, 0);
    }
  }

  lemma {:induction false} RequestEntriesAt(docs: seq<Doc>, i: int)
    requires 0 <= i < |docs|
    ensures |RequestEntries(docs)| == |docs|
    ensures RequestEntries(docs)[i] == RequestEntry(docs[i])
  {
    var init := docs[..|docs| - 1];
    if i < |docs| - 1 {
      RequestEntriesAt(init, i);
    } else if init != [] {
      RequestEntriesAt(init, 0);
    }
  }

  /** `"\n".join(prompt_lines)`. */
  function ScorerRequest(query: string, docs: seq<Doc>): string {
    Strings.Join(RequestLines(query, docs), "\n")
  }

  /** `{item.get("id"): item for item in parsed if item.get("id") is not None}`. */
  function IdMap(items: seq<ScoredItem>): map<string, ScoredItem> {
    if items == [] then map[]
    else
      var last := items[|items| - 1];
      var m := IdMap(items[..|items| - 1]);
      if last.id.Some? then m[last.id.value := last] else m
  }

  /** An id is in the map exactly when some item carries it: items without an id are ignored. */
  lemma {:induction false} IdMapDomain(items: seq<ScoredItem>, id: string)
    ensures id in IdMap(items) <==> exists i :: 0 <= i < |items| && items[i].id == Some(id)
  {
    if items != [] {
      var init := items[..|items| - 1];
      IdMapDomain(init, id);
      if id in IdMap(init) {
        var i :| 0 <= i < |init| && init[i].id == Some(id);
        assert items[i] == init[i];
      }
      if exists i :: 0 <= i < |items| && items[i].id == Some(id) {
        var i :| 0 <= i < |items| && items[i].id == Some(id);
        if i < |init| {
          assert init[i] == items[i];
        }
      }
    }
  }

  /** An id maps to the LAST item that carries it: later duplicates override earlier ones. */
  lemma {:induction false} IdMapLastWins(items: seq<ScoredItem>, id: string, i: int)
    requires 0 <= i < |items| && items[i].id == Some(id)
    requires forall j :: i < j < |items| ==> items[j].id != Some(id)
    ensures id in IdMap(items) && IdMap(items)[id] == items[i]
  {
    var init := items[..|items| - 1];
    if i < |items| - 1 {
      assert init[i] == items[i];
      IdMapLastWins(init, id, i);
    }
  }

  function RationaleOf(item: ScoredItem): string {
    if item.rationale.Some? then item.rationale.value else ""
  }

  /** The fields a matched item gives: `float(item.get("score", 0.0))` and
      `item.get("rationale", "")`; `None` when `float()` raises. */
  function ItemRerank(item: ScoredItem): Option<RerankInfo> {
    match item.score
    case NoScore => Some(RerankInfo(0.0, RationaleOf(item)))
    case Number(v) => Some(RerankInfo(v, RationaleOf(item)))
    case NotANumber => None
  }

  /** The fields the scorer path gives one document: those of the item its join key matches,
      or score 0.0 and an empty rationale when no item matches. */
  function ScoredRerank(d: Doc, idMap: map<string, ScoredItem>): Option<RerankInfo> {
    if Key(d) in idMap then ItemRerank(idMap[Key(d)]) else Some(RerankInfo(0.0, ""))
  }

  /** The scorer loop's list `out` before sorting; `None` when it raises part-way. */
  function ScoredAnnotated(docs: seq<Doc>, idMap: map<string, ScoredItem>): Option<seq<Doc>> {
    if exists i :: 0 <= i < |docs| && ScoredRerank(docs[i], idMap).None? then None
    else Some(seq(|docs|, i requires 0 <= i < |docs| => docs[i].(rerank := ScoredRerank(docs[i], idMap))))
  }

  /** A document whose join key no item carries still gets fields, score 0.0 and rationale ""; a
      document whose key some item carries takes the fields of the last such item. */
  lemma ScoredFieldsOfDocument(d: Doc, items: seq<ScoredItem>, i: int)
    ensures (forall j :: 0 <= j < |items| ==> items[j].id != Some(Key(d))) ==>
      ScoredRerank(d, IdMap(items)) == Some(RerankInfo(0.0, ""))
    ensures (0 <= i < |items| && items[i].id == Some(Key(d))
             && forall j :: i < j < |items| ==> items[j].id != Some(Key(d))) ==>
      ScoredRerank(d, IdMap(items)) == ItemRerank(items[i])
  {
    IdMapDomain(items, Key(d));
    if 0 <= i < |items| && items[i].id == Some(Key(d)) && forall j :: i < j < |items| ==> items[j].id != Some(Key(d)) {
      IdMapLastWins(items, Key(d), i);
    }
  }

  /** The whole scorer path: the call, the parse and the per-document loop. `None` when any of
      them fails, which sends the reranker to the fallback. */
  function ScorerPath(query: string, docs: seq<Doc>, scorer: Llm, decode: Decoder): Option<seq<Doc>> {
    match scorer(ScorerRequest(query, docs))
    case Raised => None
    case Answer(text) =>
      match decode(text)
      case Failed => None
      case Items(items) => ScoredAnnotated(docs, IdMap(items))
  }

  // ---------------------------------------------------------------------------------------
  // Stable sort by `rerank_score`, highest first (`list.sort(key=…, reverse=True)`)

  /** The sort key. Every document the reranker sorts carries its rerank fields. */
  function RankOf(d: Doc): real {
    if d.rerank.Some? then d.rerank.value.score else 0.0
  }

  predicate SortedDesc(s: seq<Doc>) {
    forall i, j :: 0 <= i < j < |s| ==> RankOf(s[i]) >= RankOf(s[j])
  }

  /** The documents of `s` whose score is `v`, in their order in `s`. A sort is stable exactly
      when it keeps each of these subsequences as it was. */
  function WithRank(s: seq<Doc>, v: real): seq<Doc> {
    if s == [] then []
    else (if RankOf(s[0]) == v then [s[0]] else []) + WithRank(s[1..], v)
  }

  /** Puts `d` before the first document that does not outrank it. */
  function Insert(d: Doc, s: seq<Doc>): seq<Doc> {
    if s == [] || RankOf(s[0]) <= RankOf(d) then [d] + s
    else [s[0]] + Insert(d, s[1..])
  }

  function SortByRerankScore(s: seq<Doc>): seq<Doc> {
    if s == [] then [] else Insert(s[0], SortByRerankScore(s[1..]))
  }

  lemma {:induction false} InsertPermutes(d: Doc, s: seq<Doc>)
    ensures multiset(Insert(d, s)) == multiset(s) + multiset{d}
  {
    if s != [] && RankOf(s[0]) > RankOf(d) {
      InsertPermutes(d, s[1..]);
      assert s == [s[0]] + s[1..];
    }
  }

  lemma {:induction false} InsertKeepsOrder(d: Doc, s: seq<Doc>)
    requires SortedDesc(s)
    ensures multiset(Insert(d, s)) == multiset(s) + multiset{d}
    ensures SortedDesc(Insert(d, s))
  {
    InsertPermutes(d, s);
    if s != [] && RankOf(s[0]) > RankOf(d) {
      var rest := Insert(d, s[1..]);
      InsertKeepsOrder(d, s[1..]);
      InsertPermutes(d, s[1..]);
      forall x | x in rest
        ensures RankOf(s[0]) >= RankOf(x)
      {
        assert x in multiset(rest);
        if x != d {
          assert x in multiset(s[1..]);
        }
      }
      assert Insert(d, s) == [s[0]] + rest;
    }
  }

  lemma {:induction false} InsertWithRank(d: Doc, s: seq<Doc>, v: real)
    ensures WithRank(Insert(d, s), v) == (if RankOf(d) == v then [d] else []) + WithRank(s, v)
  {
    if s == [] || RankOf(s[0]) <= RankOf(d) {
      assert ([d] + s)[1..] == s;
    } else {
      var rest := Insert(d, s[1..]);
      assert ([s[0]] + rest)[1..] == rest;
      InsertWithRank(d, s[1..], v);
    }
  }

  /** The sort yields a permutation of its input, ordered by score, highest first. */
  lemma {:induction false} SortIsOrderedPermutation(s: seq<Doc>)
    ensures multiset(SortByRerankScore(s)) == multiset(s)
    ensures |SortByRerankScore(s)| == |s|
    ensures SortedDesc(SortByRerankScore(s))
  {
    if s != [] {
      var rest := SortByRerankScore(s[1..]);
      SortIsOrderedPermutation(s[1..]);
      InsertKeepsOrder(s[0], rest);
      assert s == [s[0]] + s[1..];
      assert multiset(s) == multiset(s[1..]) + multiset{s[0]};
    }
  }

  /** The sort is stable: documents with equal scores keep their input order. */
  lemma {:induction false} SortIsStable(s: seq<Doc>, v: real)
    ensures WithRank(SortByRerankScore(s), v) == WithRank(s, v)
  {
    if s != [] {
      SortIsStable(s[1..], v);
      InsertWithRank(s[0], SortByRerankScore(s[1..]), v);
    }
  }

  lemma {:induction false} WithRankMembers(s: seq<Doc>, v: real, x: Doc)
    ensures x in WithRank(s, v) <==> x in s && RankOf(x) == v
  {
    if s != [] {
      WithRankMembers(s[1..], v, x);
      assert s == [s[0]] + s[1..];
    }
  }

  lemma SortedHeadIsMax(s: seq<Doc>, x: Doc)
    requires SortedDesc(s) && x in s
    ensures RankOf(s[0]) >= RankOf(x)
  {
  }

  /** Two score-ordered lists that agree on the documents of every score are equal. */
  lemma {:induction false} SortedWithSameRanksAreEqual(r: seq<Doc>, t: seq<Doc>)
    requires SortedDesc(r) && SortedDesc(t)
    requires forall v :: WithRank(r, v) == WithRank(t, v)
    ensures r == t
    decreases |r|
  {
    if r == [] || t == [] {
      if r != [] {
        WithRankMembers(r, RankOf(r[0]), r[0]);
        assert false;
      } else if t != [] {
        WithRankMembers(t, RankOf(t[0]), t[0]);
        assert false;
      }
    } else {
      var v0, w0 := RankOf(r[0]), RankOf(t[0]);
      WithRankMembers(r, v0, r[0]);
      assert r[0] in WithRank(t, v0);
      WithRankMembers(t, v0, r[0]);
      SortedHeadIsMax(t, r[0]);
      WithRankMembers(t, w0, t[0]);
      assert t[0] in WithRank(r, w0);
      WithRankMembers(r, w0, t[0]);
      SortedHeadIsMax(r, t[0]);
      assert v0 == w0;
      assert WithRank(r, v0) == [r[0]] + WithRank(r[1..], v0);
      assert WithRank(t, v0) == [t[0]] + WithRank(t[1..], v0);
      assert r[0] == WithRank(r, v0)[0] == WithRank(t, v0)[0] == t[0];
      forall v
        ensures WithRank(r[1..], v) == WithRank(t[1..], v)
      {
        assert WithRank(r, v) == WithRank(t, v);
        if v == v0 {
          assert WithRank(r[1..], v) == WithRank(r, v)[1..];
          assert WithRank(t[1..], v) == WithRank(t, v)[1..];
        } else {
          assert WithRank(r[1..], v) == WithRank(r, v);
          assert WithRank(t[1..], v) == WithRank(t, v);
        }
      }
      SortedWithSameRanksAreEqual(r[1..], t[1..]);
      assert r == [r[0]] + r[1..] && t == [t[0]] + t[1..];
    }
  }

  /** The sort is THE stable descending sort: any score-ordered list that keeps, for every score,
      the input's documents of that score in input order is its result. */
  lemma StableSortIsUnique(s: seq<Doc>, r: seq<Doc>)
    requires SortedDesc(r)
    requires forall v :: WithRank(r, v) == WithRank(s, v)
    ensures r == SortByRerankScore(s)
  {
    SortIsOrderedPermutation(s);
    forall v
      ensures WithRank(r, v) == WithRank(SortByRerankScore(s), v)
    {
      SortIsStable(s, v);
    }
    SortedWithSameRanksAreEqual(r, SortByRerankScore(s));
  }

  // ---------------------------------------------------------------------------------------
  // The reranker

  /** `if top_k: out = out[:top_k]`: `None` and 0 keep everything. */
  function Truncate(s: seq<Doc>, topK: Option<int>): seq<Doc> {
    if topK.Some? && topK.value != 0 then SliceTo(s, topK.value) else s
  }

  /** How many of `n` documents the reranker keeps. */
  function KeptLength(n: nat, topK: Option<int>): nat {
    if topK.None? || topK.value == 0 then n
    else if topK.value > 0 then Min(n, topK.value)
    else Max(0, n + topK.value)
  }

  /** The list the reranker sorts: the scorer path's when it succeeds, the fallback's otherwise. */
  function Annotated(query: string, docs: seq<Doc>, scorer: Option<Llm>, decode: Decoder): seq<Doc> {
    if scorer.Some? && ScorerPath(query, docs, scorer.value, decode).Some? then
      ScorerPath(query, docs, scorer.value, decode).value
    else
      LexicalAnnotated(query, docs)
  }

  /** `rerank_documents_with_gemini`. */
  function Reranked(query: string, docs: seq<Doc>, scorer: Option<Llm>, decode: Decoder, topK: Option<int>): seq<Doc> {
    if docs == [] then []
    else Truncate(SortByRerankScore(Annotated(query, docs, scorer, decode)), topK)
  }

  /** Either path annotates every document: each keeps all its other fields and gains both
      rerank fields, and none is dropped or added. */
  lemma AnnotatedKeepsDocuments(query: string, docs: seq<Doc>, scorer: Option<Llm>, decode: Decoder, i: int)
    requires 0 <= i < |docs|
    ensures var a := Annotated(query, docs, scorer, decode);
      |a| == |docs| && a[i].rerank.Some? && a[i] == docs[i].(rerank := a[i].rerank)
  {
    if scorer.Some? && ScorerPath(query, docs, scorer.value, decode).Some? {
      var a := ScorerPath(query, docs, scorer.value, decode).value;
      var reply := scorer.value(ScorerRequest(query, docs));
      assert reply.Answer?;
      var items := decode(reply.text).items;
      assert ScoredRerank(docs[i], IdMap(items)).Some?;
    }
  }

  /** The reranker's output: empty for no documents; otherwise ordered by score, highest first,
      a prefix of the stable sort of the annotated documents (so ties keep input order), of
      length `min(len(docs), top_k)` for a positive `top_k` and `len(docs)` for `None` or 0. */
  lemma {:induction false} RerankedShape(query: string, docs: seq<Doc>, scorer: Option<Llm>, decode: Decoder, topK: Option<int>)
    ensures var r := Reranked(query, docs, scorer, decode, topK);
      var sorted := SortByRerankScore(Annotated(query, docs, scorer, decode));
      (docs == [] ==> r == [])
      && |r| == KeptLength(|docs|, topK)
      && SortedDesc(r)
      && (docs != [] ==> r == sorted[..|r|])
      && (forall x :: x in r ==> x.rerank.Some?)
  {
    if docs != [] {
      var a := Annotated(query, docs, scorer, decode);
      var sorted := SortByRerankScore(a);
      var r := Reranked(query, docs, scorer, decode, topK);
      forall i | 0 <= i < |docs|
        ensures |a| == |docs| && a[i].rerank.Some?
      {
        AnnotatedKeepsDocuments(query, docs, scorer, decode, i);
      }
      SortIsOrderedPermutation(a);
      assert r == sorted[..|r|];
      forall x | x in r
        ensures x.rerank.Some?
      {
        assert x in multiset(sorted);
        assert x in a;
      }
    }
  }

  /** Every reranked document is a copy of an input document with only the rerank fields set. */
  lemma RerankedAreCopies(query: string, docs: seq<Doc>, scorer: Option<Llm>, decode: Decoder, topK: Option<int>, x: Doc)
    requires x in Reranked(query, docs, scorer, decode, topK)
    ensures exists i :: 0 <= i < |docs| && x == docs[i].(rerank := x.rerank)
  {
    var a := Annotated(query, docs, scorer, decode);
    RerankedShape(query, docs, scorer, decode, topK);
    SortedPrefixMember(a, Reranked(query, docs, scorer, decode, topK), x);
    var i :| 0 <= i < |a| && a[i] == x;
    AnnotatedKeepsDocuments(query, docs, scorer, decode, i);
  }

  /** A document of a prefix of the sort is a document of the sort's input. */
  lemma SortedPrefixMember(a: seq<Doc>, r: seq<Doc>, x: Doc)
    requires |r| <= |SortByRerankScore(a)| && r == SortByRerankScore(a)[..|r|] && x in r
    ensures x in a
  {
    SortIsOrderedPermutation(a);
    assert x in SortByRerankScore(a);
    assert x in multiset(a);
  }

  /** Whenever the scorer path fails (the call raises, the answer does not parse, or a matched
      score does not convert) the result is exactly that of calling with no scorer. */
  lemma ScorerFailureFallsBack(query: string, docs: seq<Doc>, scorer: Llm, decode: Decoder, topK: Option<int>)
    requires ScorerPath(query, docs, scorer, decode).None?
    ensures Reranked(query, docs, Some(scorer), decode, topK) == Reranked(query, docs, None, decode, topK)
    ensures docs != [] ==>
      Reranked(query, docs, Some(scorer), decode, topK) == Truncate(SortByRerankScore(LexicalAnnotated(query, docs)), topK)
  {
  }

  /** A scorer that raises on every call still leaves every document in the output (with no
      `top_k`), each with its lexical score and a `lexical_overlap=` rationale. */
  lemma RaisingScorerKeepsAllDocuments(query: string, docs: seq<Doc>, scorer: Llm, decode: Decoder)
    requires forall p :: scorer(p) == Raised
    ensures var r := Reranked(query, docs, Some(scorer), decode, None);
      multiset(r) == multiset(LexicalAnnotated(query, docs))
      && forall x :: x in r ==> x.rerank == Some(RerankInfo(LexicalScore(query, x.text) as real,
                                                              LexicalRationale(LexicalScore(query, x.text))))
  {
    var a := LexicalAnnotated(query, docs);
    var r := Reranked(query, docs, Some(scorer), decode, None);
    assert scorer(ScorerRequest(query, docs)) == Raised;
    if docs != [] {
      SortIsOrderedPermutation(a);
      forall x | x in r
        ensures x.rerank == Some(RerankInfo(LexicalScore(query, x.text) as real,
                                            LexicalRationale(LexicalScore(query, x.text))))
      {
        assert x in multiset(a);
        var i :| 0 <= i < |a| && a[i] == x;
      }
    }
  }

  /** The loop that builds `prompt_lines` and the join that makes the scorer's request. */
  method BuildScorerRequest(query: string, docs: seq<Doc>) returns (request: string)
    ensures request == ScorerRequest(query, docs)
  {
    var lines := ScorerInstructions;
    lines := lines + ["Query: " + query];
    lines := lines + ["Documents:"];
    var i := 0;
    while i < |docs|
      invariant 0 <= i <= |docs|
      invariant lines == RequestLines(query, docs[..i])
    {
      assert docs[..i + 1][..i] == docs[..i];
      lines := lines + [RequestEntry(docs[i])];
      i := i + 1;
    }
    assert docs[..|docs|] == docs;
    request := Strings.Join(lines, "\n");
  }

  /** The loop that copies each document with the fields of its matching item into `out`;
      `None` when `float()` raises on a matched item's score, which ends the loop. */
  method ApplyScores(docs: seq<Doc>, idMap: map<string, ScoredItem>) returns (out: Option<seq<Doc>>)
    ensures out == ScoredAnnotated(docs, idMap)
  {
    var scored: seq<Doc> := [];
    var i := 0;
    while i < |docs|
      invariant 0 <= i <= |docs|
      invariant |scored| == i
      invariant forall j :: 0 <= j < i ==> ScoredRerank(docs[j], idMap).Some?
      invariant forall j :: 0 <= j < i ==> scored[j] == docs[j].(rerank := ScoredRerank(docs[j], idMap))
    {
      var did := Key(docs[i]);
      var info: RerankInfo;
      if did in idMap {
        var item := idMap[did];
        match item.score {
          case NotANumber =>
            return None;
          case NoScore =>
            info := RerankInfo(0.0, RationaleOf(item));
          case Number(v) =>
            info := RerankInfo(v, RationaleOf(item));
        }
      } else {
        info := RerankInfo(0.0, "");
      }
      scored := scored + [docs[i].(rerank := Some(info))];
      i := i + 1;
    }
    var expected := seq(|docs|, j requires 0 <= j < |docs| => docs[j].(rerank := ScoredRerank(docs[j], idMap)));
    assert scored == expected;
    out := Some(scored);
  }

  /** The fallback loop that copies each document with its lexical score into `scored`. */
  method ApplyLexicalScores(query: string, docs: seq<Doc>) returns (scored: seq<Doc>)
    ensures scored == LexicalAnnotated(query, docs)
  {
    scored := [];
    var i := 0;
    while i < |docs|
      invariant 0 <= i <= |docs|
      invariant |scored| == i
      invariant forall j :: 0 <= j < i ==> scored[j] == WithLexical(query, docs[j])
    {
      var n := LexicalScore(query, docs[i].text);
      scored := scored + [docs[i].(rerank := Some(RerankInfo(n as real, LexicalRationale(n))))];
      i := i + 1;
    }
  }

  /** `rerank_documents_with_gemini`: the scorer path when a scorer is given and nothing in it
      fails, the lexical fallback otherwise; then the sort and the `top_k` cut. */
  method RerankDocuments(query: string, docs: seq<Doc>, scorer: Option<Llm>, decode: Decoder, topK: Option<int>)
    returns (out: seq<Doc>)
    ensures out == Reranked(query, docs, scorer, decode, topK)
  {
    if docs == [] {
      return [];
    }
    if scorer.Some? {
      var request := BuildScorerRequest(query, docs);
      var reply := scorer.value(request);
      if reply.Answer? {
        var outcome := decode(reply.text);
        if outcome.Items? {
          var idMap := IdMap(outcome.items);
          var scored := ApplyScores(docs, idMap);
          if scored.Some? {
            out := SortByRerankScore(scored.value);
            if topK.Some? && topK.value != 0 {
              out := SliceTo(out, topK.value);
            }
            return out;
          }
        }
      }
    }
    var scored := ApplyLexicalScores(query, docs);
    out := SortByRerankScore(scored);
    if topK.Some? && topK.value != 0 {
      out := SliceTo(out, topK.value);
    }
  }
}
