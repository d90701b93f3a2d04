/**
 * Keyword matching as both the chat classifier (app/tabs/chatbot.tsx) and the development
 * responder (src/services/chatgpt.ts) use it: an ordered list of keyword groups, where the
 * first group with a keyword occurring in the text wins.
 */
module Keywords {
  import opened Strings

  /** `words.some((w) => text.includes(w))`, written as the `||` chain the sources use. */
  predicate MentionsAny(text: string, words: seq<string>)
    decreases |words|
  {
    |words| > 0 && (Contains(text, words[0]) || MentionsAny(text, words[1..]))
  }

  /** `MentionsAny` holds exactly when one of the words occurs in the text. */
  lemma {:induction false} MentionsAnyWitness(text: string, words: seq<string>)
    ensures MentionsAny(text, words) <==> exists i :: 0 <= i < |words| && Contains(text, words[i])
    decreases |words|
  {
    if |words| > 0 {
      MentionsAnyWitness(text, words[1..]);
      if MentionsAny(text, words[1..]) {
        var i :| 0 <= i < |words[1..]| && Contains(text, words[1..][i]);
        assert words[i + 1] == words[1..][i];
      }
      forall i | 1 <= i < |words| && Contains(text, words[i])
        ensures MentionsAny(text, words[1..])
      {
        assert words[1..][i - 1] == words[i];
      }
    }
  }

  /**
   * The index of the first group that the text mentions, or `|groups|` when it mentions none:
   * the position an `if`-chain over the groups stops at.
   */
  function FirstGroup(text: string, groups: seq<seq<string>>): (r: nat)
    ensures r <= |groups|
    ensures r < |groups| ==> MentionsAny(text, groups[r])
    ensures forall h :: 0 <= h < r ==> !MentionsAny(text, groups[h])
    decreases |groups|
  {
    if |groups| == 0 then 0
    else if MentionsAny(text, groups[0]) then 0
    else
      var r := FirstGroup(text, groups[1..]);
      assert forall h :: 1 <= h < r + 1 ==> groups[h] == groups[1..][h - 1];
      r + 1
  }

  /** The first-match index is determined by the ordering properties alone. */
  lemma FirstGroupUnique(text: string, groups: seq<seq<string>>, r: nat)
    requires r <= |groups|
    requires r < |groups| ==> MentionsAny(text, groups[r])
    requires forall h :: 0 <= h < r ==> !MentionsAny(text, groups[h])
    ensures FirstGroup(text, groups) == r
  {
  }
}
