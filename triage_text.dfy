/**
 * The text builders of the chat triage (app/tabs/chatbot.tsx): the wording of a scripted
 * prompt, the numbered follow-up guide and the structured summary of the answers so far.
 */
module TriageText {
  import opened Wrappers
  import opened Strings
  import opened TriageCatalog

  const CHOOSE_OPTION_HINT: string := "\nEscolha uma das opcoes abaixo."

  /** A choice prompt that actually offers options; only these carry selectable buttons. */
  predicate OffersOptions(p: Prompt) {
    p.kind == Choice && |p.options| > 0
  }

  /**
   * `formatPromptText`: the question, followed by a hint on its own line when the prompt
   * offers options.
   */
  function FormatPromptText(p: Prompt): (r: string)
    ensures StartsWith(r, p.question)
    ensures r == p.question <==> !OffersOptions(p)
    ensures OffersOptions(p) ==> r[|p.question|..] == CHOOSE_OPTION_HINT
  {
    if OffersOptions(p) then p.question + CHOOSE_OPTION_HINT else p.question
  }

  /** `${index + 1}. ${step}` for every step, in order. */
  function NumberedSteps(steps: seq<string>): (r: seq<string>)
    ensures |r| == |steps|
    ensures forall i :: 0 <= i < |steps| ==> r[i] == NatToString(i + 1) + ". " + steps[i]
  {
    seq(|steps|, i requires 0 <= i < |steps| => NatToString(i + 1) + ". " + steps[i])
  }

  /** The guide's title, then one numbered line per step. */
  function FormatGuide(g: Guide): string {
    g.title + "\n" + Join(NumberedSteps(g.steps), "\n")
  }

  /** `FOLLOWUP_GUIDE[category ?? 'default']`, over a guide table `guides`. */
  function GuideFor(guides: map<string, Guide>, category: Option<string>): Guide
    requires category.GetOr(DEFAULT_GUIDE_KEY) in guides
  {
    guides[category.GetOr(DEFAULT_GUIDE_KEY)]
  }

  /** `followUpMessageFor`. */
  function FollowUpMessageFor(guides: map<string, Guide>, category: Option<string>): string
    requires category.GetOr(DEFAULT_GUIDE_KEY) in guides
  {
    FormatGuide(GuideFor(guides, category))
  }

  predicate SingleLine(s: string) {
    '\n' !in s
  }

  predicate SingleLineGuide(g: Guide) {
    SingleLine(g.title) && forall i :: 0 <= i < |g.steps| ==> SingleLine(g.steps[i])
  }

  /**
   * A guide whose texts are single lines reads back, line by line, as its title followed by
   * the steps numbered 1, 2, ... in order.
   */
  lemma GuideLines(g: Guide)
    requires SingleLineGuide(g) && |g.steps| > 0
    ensures Split(FormatGuide(g), '\n') == [g.title] + NumberedSteps(g.steps)
    ensures forall i :: 0 <= i < |g.steps| ==>
      Split(FormatGuide(g), '\n')[i + 1] == NatToString(i + 1) + ". " + g.steps[i]
  {
    var lines := [g.title] + NumberedSteps(g.steps);
    forall i | 0 <= i < |lines| ensures '\n' !in lines[i] {
      if i > 0 {
        var d := NatToString(i);
        assert lines[i] == d + ". " + g.steps[i - 1];
        assert forall k :: 0 <= k < |d| ==> IsDigit(d[k]);
      }
    }
    assert Join(lines, "\n") == FormatGuide(g);
    SplitJoin(lines, '\n');
  }

  /**
   * Each follow-up message opens with the guide's title on a line of its own and contains
   * every step of the guide, numbered from 1 in order.
   */
  lemma FollowUpMessageShape(guides: map<string, Guide>, category: Option<string>, i: nat)
    requires category.GetOr(DEFAULT_GUIDE_KEY) in guides
    requires i < |GuideFor(guides, category).steps|
    ensures StartsWith(FollowUpMessageFor(guides, category), GuideFor(guides, category).title + "\n")
    ensures Contains(FollowUpMessageFor(guides, category), NatToString(i + 1) + ". " + GuideFor(guides, category).steps[i])
  {
    var g := GuideFor(guides, category);
    var head := g.title + "\n";
    var body := Join(NumberedSteps(g.steps), "\n");
    assert FollowUpMessageFor(guides, category) == head + body;
    assert (head + body)[..|head|] == head;
    JoinContainsPart(NumberedSteps(g.steps), "\n", i);
    ContainsSuffix(head, body, NumberedSteps(g.steps)[i]);
  }

  /** The line recorded for one prompt: present only when its answer is truthy. */
  function AnswerLine(p: Prompt, answers: map<string, string>): seq<string> {
    if p.id in answers && answers[p.id] != "" then [p.question + ": " + answers[p.id]] else []
  }

  /** The lines recorded for a sequence of prompts, in prompt order. */
  function AnswerLines(prompts: seq<Prompt>, answers: map<string, string>): seq<string>
    decreases |prompts|
  {
    if |prompts| == 0 then []
    else AnswerLines(prompts[..|prompts| - 1], answers) + AnswerLine(prompts[|prompts| - 1], answers)
  }

  const ISSUE_LINE_PREFIX: string := "Problema informado: "

  /** What `buildTriageSummaryLines` returns. */
  function SummaryLines(flow: Option<Flow>, issue: Option<string>, answers: map<string, string>): seq<string> {
    if !Truthy(issue) then []
    else [ISSUE_LINE_PREFIX + issue.value] + AnswerLines(if flow.Some? then flow.value.prompts else [], answers)
  }

  /** `buildTriageSummaryLines`, which pushes one line per answered prompt inside a `forEach`. */
  method BuildTriageSummaryLines(flow: Option<Flow>, issue: Option<string>, answers: map<string, string>)
    returns (lines: seq<string>)
    ensures lines == SummaryLines(flow, issue, answers)
  {
    if !Truthy(issue) {
      return [];
    }
    lines := [ISSUE_LINE_PREFIX + issue.value];
    var prompts := if flow.Some? then flow.value.prompts else [];
    var i := 0;
    while i < |prompts|
      invariant 0 <= i <= |prompts|
      invariant lines == [ISSUE_LINE_PREFIX + issue.value] + AnswerLines(prompts[..i], answers)
    {
      var prompt := prompts[i];
      if prompt.id in answers && answers[prompt.id] != "" {
        lines := lines + [prompt.question + ": " + answers[prompt.id]];
      }
      assert prompts[..i + 1][..i] == prompts[..i];
      i := i + 1;
    }
    assert prompts[..|prompts|] == prompts;
  }

  /** At most one line per prompt. */
  lemma {:induction false} AnswerLinesBound(prompts: seq<Prompt>, answers: map<string, string>)
    ensures |AnswerLines(prompts, answers)| <= |prompts|
    decreases |prompts|
  {
    if |prompts| > 0 {
      AnswerLinesBound(prompts[..|prompts| - 1], answers);
    }
  }

  /** Every truthy answer to a prompt of the flow appears, with its question, in the summary. */
  lemma {:induction false} AnswerLinesComplete(prompts: seq<Prompt>, answers: map<string, string>, k: nat)
    requires k < |prompts|
    requires prompts[k].id in answers && answers[prompts[k].id] != ""
    ensures prompts[k].question + ": " + answers[prompts[k].id] in AnswerLines(prompts, answers)
    decreases |prompts|
  {
    if k < |prompts| - 1 {
      AnswerLinesComplete(prompts[..|prompts| - 1], answers, k);
    }
  }

  /** Every line of the summary is the line of a prompt of the flow with a truthy answer. */
  lemma {:induction false} AnswerLinesSound(prompts: seq<Prompt>, answers: map<string, string>, x: string)
    requires x in AnswerLines(prompts, answers)
    ensures exists k :: 0 <= k < |prompts| && prompts[k].id in answers && answers[prompts[k].id] != ""
                        && x == prompts[k].question + ": " + answers[prompts[k].id]
    decreases |prompts|
  {
    var init := prompts[..|prompts| - 1];
    if x in AnswerLines(init, answers) {
      AnswerLinesSound(init, answers, x);
      var k :| 0 <= k < |init| && init[k].id in answers && answers[init[k].id] != ""
               && x == init[k].question + ": " + answers[init[k].id];
      assert prompts[k] == init[k];
    } else {
      assert x in AnswerLine(prompts[|prompts| - 1], answers);
    }
  }

  /** The summary is empty without an issue, and otherwise starts with the issue line. */
  lemma SummaryShape(flow: Option<Flow>, issue: Option<string>, answers: map<string, string>)
    ensures !Truthy(issue) <==> SummaryLines(flow, issue, answers) == []
    ensures Truthy(issue) ==> SummaryLines(flow, issue, answers)[0] == ISSUE_LINE_PREFIX + issue.value
    ensures |SummaryLines(flow, issue, answers)| <= 1 + (if flow.Some? then |flow.value.prompts| else 0)
  {
    AnswerLinesBound(if flow.Some? then flow.value.prompts else [], answers);
  }
}
