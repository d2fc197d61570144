/** The `{...}` extraction both activities apply to a model's response before
    parsing it: the regular expression `/\{[\s\S]*\}/`, which matches from
    the first `{` to the last `}` after it (greedy), or not at all. */
module JsonSpan {
  import opened Wrappers

  /** Index of the first occurrence of `c` in `s`. */
  function FirstIndex(s: string, c: char): (r: Option<nat>)
    ensures r.Some? ==> r.value < |s| && s[r.value] == c && c !in s[..r.value]
    ensures r.None? ==> c !in s
  {
    if |s| == 0 then None
    else if s[0] == c then Some(0)
    else match FirstIndex(s[1..], c)
      case None => None
      case Some(i) => Some(i + 1)
  }

  /** Index of the last occurrence of `c` in `s`. */
  function LastIndex(s: string, c: char): (r: Option<nat>)
    ensures r.Some? ==> r.value < |s| && s[r.value] == c && c !in s[r.value + 1..]
    ensures r.None? ==> c !in s
  {
    if |s| == 0 then None
    else if s[|s| - 1] == c then Some(|s| - 1)
    else LastIndex(s[..|s| - 1], c)
  }

  /** Some `{` comes before some `}`: the regular expression can match. */
  ghost predicate HasBracePair(s: string) {
    exists i, j | 0 <= i < j < |s| :: s[i] == '{' && s[j] == '}'
  }

  /** `span` runs from the first `{` of `response`, at `i`, to its last `}`,
      at `j`. */
  ghost predicate GreedySpan(response: string, i: int, j: int, span: string) {
    && 0 <= i < j < |response|
    && span == response[i..j + 1]
    && '{' !in response[..i]
    && '}' !in response[j + 1..]
  }

  /** The text the regular expression matches, if it matches. */
  function Extract(response: string): (span: Option<string>)
    ensures span.None? <==> !HasBracePair(response)
    ensures span.Some? ==> exists i, j | 0 <= i < j < |response| :: GreedySpan(response, i, j, span.value)
    ensures span.Some? ==> |span.value| >= 2 && span.value[0] == '{' && span.value[|span.value| - 1] == '}'
  {
    match (FirstIndex(response, '{'), LastIndex(response, '}'))
    case (Some(i), Some(j)) =>
      if i < j then
        assert GreedySpan(response, i, j, response[i..j + 1]);
        Some(response[i..j + 1])
      else None
    case _ => None
  }
}
