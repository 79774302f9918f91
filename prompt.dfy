/** The prompt assembler of app/rag/prompt.py: packs citation-tagged context blocks, in the order
    given, into a prompt until the next block would overflow a character budget of four
    characters per token, and reports which contexts it used. The budget is a coarse proxy for a
    tokenizer. The fixed headers `CONTEXT:\n`, `USER QUERY:\n` and the final `\n` are not
    counted against it. */
module Prompt {
  import opened Docs
  import Strings

  datatype PromptBundle = PromptBundle(prompt: string, usedContexts: seq<Doc>)

  const DefaultTokenBudget: int := 2048

  /** The uncounted characters of the layout: `CONTEXT:\n`, `USER QUERY:\n` and `\n`. */
  const HeaderLength: nat := 22

  /** `token_budget * 4`. */
  function CharBudget(tokenBudget: int): int {
    tokenBudget * 4
  }

  /** `system_prompt_template.strip() + "\n\n" if system_prompt_template else ""`. */
  function SystemPart(template: Option<string>): string {
    if Truthy(template) then Strings.Strip(template.value) + "\n\n" else ""
  }

  /** `f"[Source: {cid}]\n" + text + "\n\n"`, with `cid` the context's id or source id. */
  function Block(c: Doc): string {
    "[Source: " + Key(c) + "]\n" + c.text + "\n\n"
  }

  /** The context section: the blocks of `cs`, in order. */
  function Blocks(cs: seq<Doc>): string {
    if cs == [] then "" else Blocks(cs[..|cs| - 1]) + Block(cs[|cs| - 1])
  }

  /** `used_chars` once `cs` are packed on top of `base` characters (the system part and the
      query). */
  function Counted(base: int, cs: seq<Doc>): int {
    base + |Blocks(cs)|
  }

  /** `f"{system_part}CONTEXT:\n{context_section}USER QUERY:\n{query}\n"`. */
  function Layout(systemPart: string, query: string, used: seq<Doc>): string {
    systemPart + "CONTEXT:\n" + Blocks(used) + "USER QUERY:\n" + query + "\n"
  }

  /** `n` is where the greedy loop stops: each of the first `n` contexts fitted when it was
      tried (`>` is the overflow test, so an exact fit passes), and the next one, if there is
      one, would overflow. */
  predicate GreedyStop(base: int, contexts: seq<Doc>, budget: int, n: nat) {
    PrefixesFit(base, contexts, budget, n)
    && (n < |contexts| ==> Counted(base, contexts[..n + 1]) > budget)
  }

  /** Each of the first `n` contexts fitted when it was tried. */
  predicate PrefixesFit(base: int, contexts: seq<Doc>, budget: int, n: nat) {
    n <= |contexts| && forall k :: 0 < k <= n ==> Counted(base, contexts[..k]) <= budget
  }

  /** The number of leading contexts a greedy packer takes, counted from the front: a reference
      definition of where the loop stops. */
  function PackedCount(base: int, contexts: seq<Doc>, budget: int): (n: nat)
    ensures n <= |contexts|
    decreases |contexts|
  {
    if contexts == [] || base + |Block(contexts[0])| > budget then 0
    else 1 + PackedCount(base + |Block(contexts[0])|, contexts[1..], budget)
  }

  /** Every block is at least 13 characters: its tag, brackets and separators. */
  lemma BlockLength(c: Doc)
    ensures |Block(c)| == 13 + |Key(c)| + |c.text|
  {
  }

  lemma BlocksSnoc(cs: seq<Doc>, i: nat)
    requires i < |cs|
    ensures Blocks(cs[..i + 1]) == Blocks(cs[..i]) + Block(cs[i])
  {
    assert cs[..i + 1][..i] == cs[..i];
  }

  lemma {:induction false} BlocksCons(cs: seq<Doc>, k: nat)
    requires 0 < k <= |cs|
    ensures |Blocks(cs[..k])| == |Block(cs[0])| + |Blocks(cs[1..][..k - 1])|
  {
    if k == 1 {
      BlocksSnoc(cs, 0);
      assert cs[..0] == [] && cs[1..][..0] == [];
    } else {
      BlocksCons(cs, k - 1);
      BlocksSnoc(cs, k - 1);
      BlocksSnoc(cs[1..], k - 2);
      assert cs[1..][k - 2] == cs[k - 1];
    }
  }

  /** The blocks of a shorter prefix are a prefix of the blocks of a longer one. */
  lemma {:induction false} BlocksGrow(cs: seq<Doc>, k: nat, m: nat)
    requires k <= m <= |cs|
    ensures k < m ==> |Blocks(cs[..k])| < |Blocks(cs[..m])|
    ensures |Blocks(cs[..k])| <= |Blocks(cs[..m])|
    ensures Blocks(cs[..k]) == Blocks(cs[..m])[..|Blocks(cs[..k])|]
    decreases m
  {
    if k < m {
      BlocksGrow(cs, k, m - 1);
      BlocksSnoc(cs, m - 1);
    }
  }

  /** The front-counted reference stops where the loop's stop condition says. */
  lemma {:induction false} PackedCountIsGreedyStop(base: int, contexts: seq<Doc>, budget: int)
    ensures GreedyStop(base, contexts, budget, PackedCount(base, contexts, budget))
    decreases |contexts|
  {
    var n := PackedCount(base, contexts, budget);
    if contexts != [] {
      BlocksSnoc(contexts, 0);
      assert contexts[..0] == [];
      if base + |Block(contexts[0])| <= budget {
        var base', rest := base + |Block(contexts[0])|, contexts[1..];
        PackedCountIsGreedyStop(base', rest, budget);
        forall k | 0 < k <= n
          ensures Counted(base, contexts[..k]) <= budget
        {
          BlocksCons(contexts, k);
          if k > 1 {
            assert Counted(base', rest[..k - 1]) <= budget;
          } else {
            assert rest[..0] == [];
          }
        }
        if n < |contexts| {
          BlocksCons(contexts, n + 1);
        }
      }
    }
  }

  /** The greedy stop is the longest prefix that fits: no prefix longer than the packed one has
      its counted characters within the budget. */
  lemma GreedyIsLongestFit(base: int, contexts: seq<Doc>, budget: int, n: nat, m: nat)
    requires GreedyStop(base, contexts, budget, n)
    requires m <= |contexts| && Counted(base, contexts[..m]) <= budget
    ensures m <= n
  {
    if m > n {
      BlocksGrow(contexts, n + 1, m);
    }
  }

  /** At a stopping point, a context is packed exactly when the prefix ending with it fits. */
  lemma PackedIffPrefixFits(base: int, contexts: seq<Doc>, budget: int, n: nat, i: nat)
    requires GreedyStop(base, contexts, budget, n) && i < |contexts|
    ensures i < n <==> Counted(base, contexts[..i + 1]) <= budget
  {
    if Counted(base, contexts[..i + 1]) <= budget {
      GreedyIsLongestFit(base, contexts, budget, n, i + 1);
    }
  }

  /** The stop point is determined by the inputs: it is the reference count, whoever computes it. */
  lemma GreedyStopIsPackedCount(base: int, contexts: seq<Doc>, budget: int, n: nat)
    requires GreedyStop(base, contexts, budget, n)
    ensures n == PackedCount(base, contexts, budget)
  {
    PackedCountIsGreedyStop(base, contexts, budget);
  }

  /** A block that exactly fills what is left of the budget is packed. */
  lemma ExactFitIsPacked(base: int, contexts: seq<Doc>, budget: int, n: nat, k: nat)
    requires GreedyStop(base, contexts, budget, n)
    requires k < |contexts|
    requires Counted(base, contexts[..k]) + |Block(contexts[k])| == budget
    ensures k < n
  {
    BlocksSnoc(contexts, k);
    GreedyIsLongestFit(base, contexts, budget, n, k + 1);
  }

  /** The prompt is the counted characters plus the 22 uncounted header characters; when at
      least one context was packed, the counted part is within the budget. */
  lemma PromptSize(systemPart: string, query: string, contexts: seq<Doc>, budget: int, n: nat)
    requires GreedyStop(|systemPart| + |query|, contexts, budget, n)
    ensures |Layout(systemPart, query, contexts[..n])| == Counted(|systemPart| + |query|, contexts[..n]) + HeaderLength
    ensures n > 0 ==> |Layout(systemPart, query, contexts[..n])| <= budget + HeaderLength
  {
  }

  /** When even the first block overflows, nothing is packed and the prompt holds only the
      system part, the two headers and the query. */
  lemma NothingFits(systemPart: string, query: string, contexts: seq<Doc>, budget: int, n: nat)
    requires GreedyStop(|systemPart| + |query|, contexts, budget, n)
    requires contexts != [] && |systemPart| + |query| + |Block(contexts[0])| > budget
    ensures n == 0
    ensures Layout(systemPart, query, contexts[..n]) == systemPart + "CONTEXT:\nUSER QUERY:\n" + query + "\n"
  {
    BlocksSnoc(contexts, 0);
    assert contexts[..0] == [];
  }

  /** No template (or an empty one) gives no system part; a whitespace-only template gives just
      the blank line; any other is stripped and followed by a blank line. */
  lemma SystemPartCases(template: Option<string>)
    ensures !Truthy(template) ==> SystemPart(template) == ""
    ensures Truthy(template) && (forall i :: 0 <= i < |template.value| ==> Strings.IsSpace(template.value[i])) ==>
      SystemPart(template) == "\n\n"
    ensures Truthy(template) ==>
      var p := SystemPart(template);
      |p| >= 2 && p[|p| - 2..] == "\n\n" && p[..|p| - 2] == Strings.Strip(template.value)
  {
  }

  /** One turn of the packing loop: the next block either fits, and the fitting prefix grows by
      one, or it overflows, and the loop stops where `GreedyStop` says. */
  lemma PackStep(base: int, contexts: seq<Doc>, budget: int, i: nat)
    requires i < |contexts| && PrefixesFit(base, contexts, budget, i)
    ensures Blocks(contexts[..i + 1]) == Blocks(contexts[..i]) + Block(contexts[i])
    ensures Counted(base, contexts[..i]) + |Block(contexts[i])| <= budget ==> PrefixesFit(base, contexts, budget, i + 1)
    ensures Counted(base, contexts[..i]) + |Block(contexts[i])| > budget ==> GreedyStop(base, contexts, budget, i)
  {
    BlocksSnoc(contexts, i);
  }

  /** Appending the next block to the parts joined so far gives the blocks of the next prefix. */
  lemma AppendBlock(contexts: seq<Doc>, i: nat, parts: seq<string>)
    requires i < |contexts| && Strings.Concat(parts) == Blocks(contexts[..i])
    ensures contexts[..i] + [contexts[i]] == contexts[..i + 1]
    ensures Strings.Concat(parts + [Block(contexts[i])]) == Blocks(contexts[..i + 1])
  {
    BlocksSnoc(contexts, i);
    assert (parts + [Block(contexts[i])])[..|parts|] == parts;
  }

  /** `build_prompt`: the greedy, order-preserving packing loop. The used contexts are a prefix of
      the contexts, the loop stops exactly where `GreedyStop` says, and the prompt is the layout
      of the system part, the packed blocks and the query. */
  method BuildPrompt(query: string, contexts: seq<Doc>, systemPromptTemplate: Option<string>, tokenBudget: int)
    returns (bundle: PromptBundle)
    ensures |bundle.usedContexts| <= |contexts|
    ensures bundle.usedContexts == contexts[..|bundle.usedContexts|]
    ensures GreedyStop(|SystemPart(systemPromptTemplate)| + |query|, contexts, CharBudget(tokenBudget), |bundle.usedContexts|)
    ensures bundle.prompt == Layout(SystemPart(systemPromptTemplate), query, bundle.usedContexts)
  {
    var charBudget := tokenBudget * 4;
    var systemPart := if Truthy(systemPromptTemplate) then Strings.Strip(systemPromptTemplate.value) + "\n\n" else "";
    assert systemPart == SystemPart(systemPromptTemplate);
    var used: seq<Doc> := [];
    var parts: seq<string> := [];
    var base := |systemPart| + |query|;
    var usedChars := base;
    var i := 0;
    while i < |contexts|
      invariant 0 <= i <= |contexts|
      invariant used == contexts[..i]
      invariant |parts| == i && Strings.Concat(parts) == Blocks(used)
      invariant usedChars == Counted(base, used)
      invariant PrefixesFit(base, contexts, charBudget, i)
    {
      var c := contexts[i];
      var part := Block(c);
      PackStep(base, contexts, charBudget, i);
      if usedChars + |part| > charBudget {
        break;
      }
      AppendBlock(contexts, i, parts);
      parts := parts + [part];
      used := used + [c];
      usedChars := usedChars + |part|;
      i := i + 1;
    }
    assert GreedyStop(base, contexts, charBudget, i);
    var contextSection := Strings.Concat(parts);
    bundle := PromptBundle(systemPart + "CONTEXT:\n" + contextSection + "USER QUERY:\n" + query + "\n", used);
  }
}
