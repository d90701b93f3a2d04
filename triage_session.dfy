/**
 * The chat triage of app/tabs/chatbot.tsx as a state machine over values: the screen's state
 * fields gathered in one `Session`, one transition per handler, the invariant every reachable
 * state keeps, and the properties of each step. The screen class in module `Chatbot` performs
 * the same steps in place.
 *
 * Handlers run one after another, each to completion; React's batching and the snapshots its
 * closures take are not modelled (see the README for the one place where they could matter).
 */
module TriageSession {
  import opened Wrappers
  import opened Strings
  import opened TriageCatalog
  import opened TriageText
  import opened Assistant
  import opened Conversation
  import opened Escalation

  /**
   * The screen's state. `nextId` is the next fresh message id; `pendingFb` is the message
   * under which the "resolved / talk to an analyst" feedback buttons are shown.
   */
  datatype Session = Session(
    messages: seq<Message>,
    input: string,
    loading: bool,
    accepted: bool,
    pendingFb: Option<nat>,
    escalated: bool,
    lastUserText: string,
    category: Option<string>,
    playbookSent: bool,
    issue: Option<string>,
    answers: map<string, string>,
    stepIndex: nat,
    complete: bool,
    nextId: nat)

  /**
   * What the source's types guarantee: every category has a flow and a guide, and the chosen
   * category, a `TriageCategoryId`, is one of them.
   */
  ghost predicate Typed(cat: Catalog, s: Session) {
    Covered(cat) && (s.category.Some? ==> s.category.value in cat.flows)
  }

  /** The state on mount: only the welcome message. */
  function Initial(cat: Catalog): Session {
    Session([Message(0, Bot, cat.copy.welcome, NoMeta)], "", false, false, None, false, "",
            None, false, None, map[], 0, false, 1)
  }

  // ----- derived values the screen reads -----

  /** `selectedCategory`. */
  function SelectedCategory(cat: Catalog, s: Session): (r: Option<Category>)
    requires Typed(cat, s)
    ensures r.Some? <==> s.category.Some?
    ensures r.Some? ==> r.value in cat.categories && r.value.id == s.category.value
  {
    if s.category.Some? then FindCategory(cat.categories, s.category.value) else None
  }

  /** `triageFlow`. */
  function TriageFlow(cat: Catalog, s: Session): Option<Flow>
    requires Typed(cat, s)
  {
    if s.category.Some? then Some(cat.flows[s.category.value]) else None
  }

  /** The prompts of the selected category's flow (none without a category). */
  function Prompts(cat: Catalog, s: Session): seq<Prompt>
    requires Typed(cat, s)
  {
    if s.category.Some? then cat.flows[s.category.value].prompts else []
  }

  /** `currentPrompt`: the prompt at the step index, while a flow and a truthy issue are set. */
  function CurrentPrompt(cat: Catalog, s: Session): (r: Option<Prompt>)
    requires Typed(cat, s)
    ensures r.Some? <==> s.category.Some? && Truthy(s.issue) && s.stepIndex < |Prompts(cat, s)|
    ensures r.Some? ==> r.value == Prompts(cat, s)[s.stepIndex]
  {
    if s.category.None? || !Truthy(s.issue) then None
    else if s.stepIndex < |Prompts(cat, s)| then Some(Prompts(cat, s)[s.stepIndex])
    else None
  }

  /** `quickReplies`. */
  function QuickReplies(cat: Catalog, s: Session): seq<string> {
    if s.category.Some? && s.complete then cat.copy.quickReplies else []
  }

  /** `inputPlaceholder`. */
  function InputPlaceholder(cat: Catalog, s: Session): string
    requires Typed(cat, s)
  {
    var p := CurrentPrompt(cat, s);
    if !s.accepted then cat.copy.consentPlaceholder
    else if s.category.None? then cat.copy.categoryPlaceholder
    else if !Truthy(s.issue) then cat.copy.issuePlaceholder
    else if p.Some? && !s.complete then p.value.placeholder.GetOr(p.value.question)
    else cat.copy.messagePlaceholder
  }

  // ----- building blocks -----

  /** Appends one message with a fresh id. */
  function Append(s: Session, sender: Sender, text: string, meta: Meta): Session {
    s.(messages := s.messages + [Message(s.nextId, sender, text, meta)], nextId := s.nextId + 1)
  }

  /** The resets shared by category selection, category reset, issue selection and restart. */
  function ResetTriage(s: Session): Session {
    s.(issue := None, answers := map[], stepIndex := 0, complete := false, pendingFb := None, playbookSent := false)
  }

  /** `promptIssueSelection`: an issue-options message listing the flow's issues, if it has any. */
  function PromptIssueSelection(cat: Catalog, s: Session, flow: Flow, customText: Option<string>): Session {
    if |flow.issues| == 0 then s
    else Append(s, Bot, customText.GetOr(cat.copy.issueQuestion), IssueOptions(flow.issues))
  }

  /** `askPrompt`: the prompt's text, with choice buttons when it offers options. */
  function AskPrompt(s: Session, p: Prompt): Session {
    Append(s, Bot, FormatPromptText(p), if OffersOptions(p) then PromptChoice(p.id, p.options) else NoMeta)
  }

  /** The category's follow-up guide, as a message text. */
  function GuideText(cat: Catalog, c: Category): string
    requires Covered(cat) && c in cat.categories
  {
    FollowUpMessageFor(cat.guides, Some(c.id))
  }

  /**
   * `finalizeStructuredTriage`. `wasComplete` is the `triageComplete` the calling handler saw,
   * and `issueOverride` the issue it passes. The closing message's id is drawn before the
   * guide's, as in the source.
   */
  function Finalize(cat: Catalog, s: Session, wasComplete: bool, issueOverride: Option<string>): Session
    requires Typed(cat, s)
  {
    if s.category.None? then s
    else if !Truthy(OrElse(issueOverride, s.issue)) || wasComplete || SelectedCategory(cat, s).None? then s
    else
      var closingId := s.nextId;
      s.(complete := true, playbookSent := true,
         messages := s.messages + [Message(s.nextId + 1, Bot, GuideText(cat, SelectedCategory(cat, s).value), NoMeta),
                                   Message(closingId, Bot, cat.copy.closing, NoMeta)],
         nextId := s.nextId + 2,
         pendingFb := Some(closingId))
  }

  // ----- the handlers -----

  /** `handleAccept`. */
  function HandleAccept(cat: Catalog, s: Session): Session {
    if s.accepted then s else Append(s.(accepted := true), User, cat.copy.accept, NoMeta)
  }

  /** `handleCategorySelect`, for any id the screen may be handed. */
  function HandleCategorySelect(cat: Catalog, s: Session, id: string): Session
    requires Typed(cat, s)
  {
    var choice := FindCategory(cat.categories, id);
    if choice.None? then s
    else
      var s1 := ResetTriage(s).(category := Some(id));
      var s2 := Append(s1, User, cat.copy.categoryAck + choice.value.display, NoMeta);
      var s3 := Append(s2, Bot, cat.copy.categoryIntro + choice.value.display + cat.copy.categoryIntroEnd, NoMeta);
      PromptIssueSelection(cat, s3, cat.flows[id], None)
  }

  /** `restartTriageFlow`: the resets, keeping the category, and the issue options again. */
  function RestartTriageFlow(cat: Catalog, s: Session): Session
    requires Typed(cat, s)
  {
    if s.category.None? then s
    else PromptIssueSelection(cat, ResetTriage(s), cat.flows[s.category.value], Some(cat.copy.restart))
  }

  /** `handleResetCategory`: the resets, clearing the category too. */
  function HandleResetCategory(cat: Catalog, s: Session): Session {
    if s.category.None? then s
    else Append(ResetTriage(s).(category := None), Bot, cat.copy.reset, NoMeta)
  }

  /** `handleIssueSelect`. */
  function HandleIssueSelect(cat: Catalog, s: Session, issue: string): Session
    requires Typed(cat, s)
  {
    if s.category.None? then s
    else
      var flow := cat.flows[s.category.value];
      var s1 := ResetTriage(s).(issue := Some(issue));
      var s2 := Append(s1, User, cat.copy.issueAck + issue, NoMeta);
      var s3 := Append(s2, Bot, if |flow.prompts| > 0 then cat.copy.promptsIntro else cat.copy.noPromptsIntro, NoMeta);
      if |flow.prompts| > 0 then AskPrompt(s3, flow.prompts[0])
      else Finalize(cat, s3, s.complete, Some(issue))
  }

  /** `handlePromptAnswer`: records the answer to the prompt at the step index and moves on. */
  function HandlePromptAnswer(cat: Catalog, s: Session, answer: string): Session
    requires Typed(cat, s)
  {
    if s.category.None? || !Truthy(s.issue) then s
    else
      var ps := cat.flows[s.category.value].prompts;
      if s.stepIndex >= |ps| then s
      else
        var prompt := ps[s.stepIndex];
        var next := s.stepIndex + 1;
        var s1 := s.(answers := s.answers[prompt.id := answer]);
        var s2 := if next < |ps| then s1 else Finalize(cat, s1, s.complete, None);
        var s3 := s2.(stepIndex := next);
        if next < |ps| then AskPrompt(s3, ps[next]) else s3
  }

  /** `handlePromptChoiceSelect`: a choice button counts only for the prompt being asked. */
  function HandlePromptChoiceSelect(cat: Catalog, s: Session, promptId: string, option: string): Session
    requires Typed(cat, s)
  {
    if s.category.None? || !Truthy(s.issue) || s.complete then s
    else if CurrentPrompt(cat, s).None? || CurrentPrompt(cat, s).value.id != promptId then s
    else if promptId !in PromptIds(cat.flows[s.category.value].prompts) then s
    else HandlePromptAnswer(cat, Append(s, User, option, NoMeta), option)
  }

  /** `handleOptionSelect`: dispatch on the kind of message whose button was pressed. */
  function HandleOptionSelect(cat: Catalog, s: Session, meta: Meta, option: string): Session
    requires Typed(cat, s)
  {
    match meta
    case IssueOptions(_) => HandleIssueSelect(cat, s, option)
    case PromptChoice(promptId, _) => HandlePromptChoiceSelect(cat, s, promptId, option)
    case NoMeta => s
  }

  /** The bulleted structured summary (`'- ' + line` for each line). */
  function Bulleted(lines: seq<string>): (r: seq<string>)
    ensures |r| == |lines| && forall i :: 0 <= i < |lines| ==> r[i] == "- " + lines[i]
  {
    seq(|lines|, i requires 0 <= i < |lines| => "- " + lines[i])
  }

  /**
   * What `handleProcess` sends to the assistant: the structured summary first (when there is
   * one), then the selected category, then the transcript, whose last message is the user's.
   */
  function AssistantConversation(cat: Catalog, s: Session): seq<ChatMessage>
    requires Typed(cat, s)
  {
    var lines := SummaryLines(TriageFlow(cat, s), s.issue, s.answers);
    var sel := SelectedCategory(cat, s);
    (if |lines| > 0 then [ChatMessage(SystemRole, cat.copy.summaryHeader + Join(Bulleted(lines), "\n"))] else [])
    + (if sel.Some? then [ChatMessage(SystemRole, cat.copy.contextPrefix + sel.value.display)] else [])
    + ToChatMessages(s.messages)
  }

  /**
   * `handleProcess`, once the user's message is in the transcript. The first free text after a
   * category is chosen gets the category's guide; later ones get `reply`, what the assistant
   * call (`enviarParaChatGPT`, module `Assistant`) resolved to for `AssistantConversation(cat, s)`.
   */
  function HandleProcess(cat: Catalog, s: Session, userText: string, reply: string): Session
    requires Typed(cat, s)
  {
    var s1 := s.(lastUserText := userText);
    var sel := SelectedCategory(cat, s);
    if !s.playbookSent && sel.Some? then
      Append(s1, Bot, GuideText(cat, sel.value), NoMeta).(playbookSent := true, pendingFb := Some(s1.nextId))
    else
      Append(s1, Bot, if reply != "" then reply else cat.copy.emptyReply, NoMeta).(pendingFb := Some(s1.nextId), loading := false)
  }

  /** What the assistant call resolves to when `handleProcess` runs on `s`. */
  function AssistantReply(cat: Catalog, s: Session, apiBase: string, outcome: FetchOutcome): string
    requires Typed(cat, s)
  {
    EnviarParaChatGPT(apiBase, outcome, AssistantConversation(cat, s))
  }

  /** `setInput`, from typing or from a quick-reply chip. */
  function SetInput(s: Session, text: string): Session {
    s.(input := text)
  }

  /** The user's message `text` appended to the transcript, and the input box cleared. */
  function Posted(s: Session, text: string): Session {
    Append(s, User, text, NoMeta).(input := "")
  }

  /** `handleSend`; `reply` is what the assistant call resolves to, should the text reach it. */
  function HandleSend(cat: Catalog, s: Session, reply: string): Session
    requires Typed(cat, s)
  {
    var t := Trim(s.input);
    if t == "" || s.loading || !s.accepted || s.category.None? then s
    else if !Truthy(s.issue) then Append(Posted(s, t), Bot, cat.copy.reminder, NoMeta)
    else if CurrentPrompt(cat, s).Some? && !s.complete then HandlePromptAnswer(cat, Posted(s, t), t)
    else HandleProcess(cat, Posted(s, t), t, reply)
  }

  /** The context parameter's trimmed text, `''` when it is absent. */
  function ContextText(context: Option<string>): string {
    Trim(context.GetOr(""))
  }

  /** The seeded user message in the transcript, with the consent taken as given. */
  function Seeded(s: Session, ctx: string): Session {
    Posted(s, ctx).(accepted := true)
  }

  /**
   * The mount effect: a trimmed, non-empty `context` parameter is sent as the first user
   * message; `reply` is what the assistant call resolves to for the seeded state.
   */
  function SeedContext(cat: Catalog, s: Session, context: Option<string>, reply: string): Session
    requires Typed(cat, s)
  {
    var ctx := ContextText(context);
    if ctx == "" then s
    else HandleProcess(cat, Seeded(s, ctx), ctx, reply)
  }

  /** What the escalation's remote calls produce for the state `s`, given the services' answers. */
  function EscalationFor(cat: Catalog, s: Session, me: Reply<Identity>, created: Reply<CreatedTicket>,
                         syncFailAt: nat, now: nat): Attempt
    requires Typed(cat, s)
  {
    EscalationAttempt(SelectedCategory(cat, s), s.lastUserText, s.messages, me, created, syncFailAt, now)
  }

  /**
   * `escalate`: once per conversation, the notice of `attempt` (what `EscalationFor` computes)
   * as a system message. Returns the new state and the remote calls made.
   */
  function Escalate(s: Session, attempt: Attempt): (Session, seq<RemoteCall>) {
    if s.escalated then (s, [])
    else (Append(s.(escalated := true, loading := false), System, attempt.text, NoMeta), attempt.calls)
  }

  /** `handleEscalationRequest`: hides the feedback buttons, then escalates. */
  function HandleEscalationRequest(s: Session, attempt: Attempt): (Session, seq<RemoteCall>) {
    Escalate(s.(pendingFb := None), attempt)
  }
}
