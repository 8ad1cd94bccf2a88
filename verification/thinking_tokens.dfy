/** Splitting a generated token-id sequence into the model's reasoning
    ("thinking") segment and its answer ("content") segment, at the last
    `</think>` sentinel. */
module ThinkingTokens {
  import opened Wrappers

  /** Qwen3's id for the `</think>` token. */
  const ThinkEnd: int := 151668

  /** The index of the last occurrence of `x` in `s`, if any. */
  function LastIndexOf(s: seq<int>, x: int): (r: Option<nat>)
    ensures r.Some? ==> r.value < |s| && s[r.value] == x && x !in s[r.value + 1..]
    ensures r.None? <==> x !in s
  {
    if s == [] then None
    else if s[|s| - 1] == x then Some(|s| - 1)
    else
      var r := LastIndexOf(s[..|s| - 1], x);
      assert s == s[..|s| - 1] + [s[|s| - 1]];
      assert r.Some? ==> s[r.value + 1..] == s[..|s| - 1][r.value + 1..] + [s[|s| - 1]];
      r
  }

  /** `(thinking, content)`: the tokens before and after the last sentinel,
      the sentinel itself in neither. Without a sentinel no reasoning segment
      was closed and everything is content (an assumption: the tests do not
      exercise that input). */
  function SplitThinkingTokens(tokens: seq<int>): (r: (seq<int>, seq<int>))
    ensures ThinkEnd in tokens ==> r.0 + [ThinkEnd] + r.1 == tokens && ThinkEnd !in r.1
    ensures ThinkEnd !in tokens ==> r.0 == [] && r.1 == tokens
  {
    match LastIndexOf(tokens, ThinkEnd)
    case Some(i) =>
      assert tokens == tokens[..i] + [ThinkEnd] + tokens[i + 1..];
      (tokens[..i], tokens[i + 1..])
    case None => ([], tokens)
  }

  /** The split is the only way to write `tokens` as thinking, a sentinel, and
      sentinel-free content: the content is the longest sentinel-free suffix. */
  lemma SplitIsUnique(tokens: seq<int>, thinking: seq<int>, content: seq<int>)
    requires tokens == thinking + [ThinkEnd] + content
    requires ThinkEnd !in content
    ensures SplitThinkingTokens(tokens) == (thinking, content)
  {
    var (t, c) := SplitThinkingTokens(tokens);
    assert t + [ThinkEnd] + c == tokens;
    assert tokens[|thinking|] == ThinkEnd;
    assert |t| == |thinking|;
    assert t == tokens[..|t|] == thinking;
    assert c == tokens[|t| + 1..] == content;
  }

  /** Every sentinel but the last one stays inside the thinking segment. */
  lemma SplitKeepsEarlierSentinels(tokens: seq<int>)
    requires ThinkEnd in tokens
    ensures multiset(SplitThinkingTokens(tokens).0)[ThinkEnd] == multiset(tokens)[ThinkEnd] - 1
  {
    var (t, c) := SplitThinkingTokens(tokens);
    assert multiset(tokens) == multiset(t) + multiset([ThinkEnd]) + multiset(c) by {
      assert tokens == t + [ThinkEnd] + c;
    }
    assert multiset(c)[ThinkEnd] == 0;
  }

  /** The sentinel in the middle: thinking before it, content after it. */
  lemma SplitInMiddle()
    ensures SplitThinkingTokens([1, 2, 3, ThinkEnd, 4, 5]) == ([1, 2, 3], [4, 5])
  {
    SplitIsUnique([1, 2, 3, ThinkEnd, 4, 5], [1, 2, 3], [4, 5]);
  }

  /** The sentinel as the final token leaves the content empty. */
  lemma SplitAtEnd()
    ensures SplitThinkingTokens([1, 2, 3, ThinkEnd]) == ([1, 2, 3], [])
  {
    SplitIsUnique([1, 2, 3, ThinkEnd], [1, 2, 3], []);
  }

  /** The sentinel as the first token leaves the thinking segment empty. */
  lemma SplitAtStart()
    ensures SplitThinkingTokens([ThinkEnd, 1, 2, 3]) == ([], [1, 2, 3])
  {
    SplitIsUnique([ThinkEnd, 1, 2, 3], [], [1, 2, 3]);
  }

  /** With several sentinels the split is at the last; the earlier one stays in thinking. */
  lemma SplitAtLastOfSeveral()
    ensures SplitThinkingTokens([1, ThinkEnd, 2, ThinkEnd, 3]) == ([1, ThinkEnd, 2], [3])
  {
    SplitIsUnique([1, ThinkEnd, 2, ThinkEnd, 3], [1, ThinkEnd, 2], [3]);
  }

  /** The sentinel alone gives two empty segments. */
  lemma SplitSentinelOnly()
    ensures SplitThinkingTokens([ThinkEnd]) == ([], [])
  {
    SplitIsUnique([ThinkEnd], [], []);
  }
}
