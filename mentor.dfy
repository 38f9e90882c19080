/** The community mentor: picks one conversation starter from a fixed pool.
    The random draw of `randomElement()` is the parameter `pick`. */
module Mentor {
  import opened Models

  const SafeTopics: seq<string> := [
    "Ask about their favorite queer-friendly art class!",
    "See if they want to study at the 'Rainbow Cafe'.",
    "Ask: 'What is your favorite safe space on campus?'"
  ]

  /** What is shown when the pool offers nothing. */
  const Fallback := "Say Hello!"

  /** `randomElement()`: nothing for an empty pool, otherwise the element the draw selects. */
  function RandomElement(pool: seq<string>, pick: nat): (r: Option<string>)
    ensures r.None? <==> pool == []
    ensures r.Some? ==> r.value in pool
  {
    if pool == [] then None else Some(pool[pick % |pool|])
  }

  /** `pool.randomElement() ?? "Say Hello!"`. */
  function PromptFor(pool: seq<string>, pick: nat): (p: string)
    ensures pool != [] ==> p in pool
    ensures pool == [] ==> p == Fallback
  {
    match RandomElement(pool, pick)
    case Some(t) => t
    case None => Fallback
  }

  /** Every topic of the pool can be drawn. */
  lemma EveryTopicReachable(pool: seq<string>, t: string)
    requires t in pool
    ensures exists pick: nat :: PromptFor(pool, pick) == t
  {
    var k :| 0 <= k < |pool| && pool[k] == t;
    assert k % |pool| == k;
    assert RandomElement(pool, k) == Some(t);
    assert PromptFor(pool, k) == t;
  }

  /** The fallback can only be shown when the pool is empty (given that it is not a topic itself). */
  lemma FallbackOnlyWhenEmpty(pool: seq<string>, pick: nat)
    requires Fallback !in pool
    ensures PromptFor(pool, pick) == Fallback <==> pool == []
  {
  }

  /** With the app's own pool, the prompt is always one of the three topics, never the fallback. */
  lemma SafePromptIsTopic(pick: nat)
    ensures PromptFor(SafeTopics, pick) in SafeTopics
    ensures PromptFor(SafeTopics, pick) != Fallback
  {
  }
}
