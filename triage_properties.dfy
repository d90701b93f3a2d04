/**
 * What each handler of app/tabs/chatbot.tsx does to the triage, stated handler by handler:
 * which guards make it a no-op, which fields it resets, what it appends to the transcript,
 * and how the answers advance to completion exactly once.
 */
module TriageProperties {
  import opened Wrappers
  import opened Strings
  import opened TriageCatalog
  import opened TriageText
  import opened Assistant
  import opened Conversation
  import opened Escalation
  import opened TriageSession
  import opened TriageInvariant

  /** The triage fields as the resets leave them. */
  predicate TriageCleared(s: Session) {
    s.issue.None? && s.answers == map[] && s.stepIndex == 0 && !s.complete && !s.playbookSent && s.pendingFb.None?
  }

  // ----- accept -----

  /** Accepting appends the consent message once; accepting again changes nothing. */
  lemma AcceptOnce(cat: Catalog, s: Session)
    ensures var t := HandleAccept(cat, s);
      && t.accepted
      && (s.accepted ==> t == s)
      && (!s.accepted ==> t.messages == s.messages + [Message(s.nextId, User, cat.copy.accept, NoMeta)])
      && HandleAccept(cat, t) == t
  {
  }

  // ----- category selection, reset and restart -----

  /** Over covered tables, an id is selected exactly when it is one of the catalogued categories. */
  lemma {:induction false} SelectableIffCatalogued(cat: Catalog, id: string)
    requires Covered(cat)
    ensures FindCategory(cat.categories, id).Some? <==> id in cat.flows
  {
    var c := FindCategory(cat.categories, id);
    if c.Some? {
      assert c.value in cat.categories && c.value.id == id;
    }
  }

  /** An id without a flow is ignored. */
  lemma UnknownCategoryIgnored(cat: Catalog, s: Session, id: string)
    requires WellFormed(cat) && Typed(cat, s) && id !in cat.flows
    ensures HandleCategorySelect(cat, s, id) == s
  {
    SelectableIffCatalogued(cat, id);
  }

  /**
   * Selecting a catalogued category clears the triage and appends the user's choice, the bot's
   * acknowledgement and the issue options listing exactly the flow's issues.
   */
  lemma CategorySelect(cat: Catalog, s: Session, id: string)
    requires WellFormed(cat) && Typed(cat, s) && id in cat.flows
    ensures var t := HandleCategorySelect(cat, s, id);
      var c := FindCategory(cat.categories, id).value;
      && t.category == Some(id) && TriageCleared(t)
      && t.accepted == s.accepted && t.escalated == s.escalated && t.input == s.input
      && t.lastUserText == s.lastUserText && t.loading == s.loading
      && t.messages == s.messages + [
           Message(s.nextId, User, cat.copy.categoryAck + c.display, NoMeta),
           Message(s.nextId + 1, Bot, cat.copy.categoryIntro + c.display + cat.copy.categoryIntroEnd, NoMeta),
           Message(s.nextId + 2, Bot, cat.copy.issueQuestion, IssueOptions(cat.flows[id].issues))]
  {
    SelectableIffCatalogued(cat, id);
    var c := FindCategory(cat.categories, id).value;
    var m1 := Message(s.nextId, User, cat.copy.categoryAck + c.display, NoMeta);
    var m2 := Message(s.nextId + 1, Bot, cat.copy.categoryIntro + c.display + cat.copy.categoryIntroEnd, NoMeta);
    var m3 := Message(s.nextId + 2, Bot, cat.copy.issueQuestion, IssueOptions(cat.flows[id].issues));
    var s1 := ResetTriage(s).(category := Some(id));
    var s3 := Append(Append(s1, User, m1.text, NoMeta), Bot, m2.text, NoMeta);
    assert s3.messages == s.messages + [m1, m2];
    assert |cat.flows[id].issues| > 0;
    assert HandleCategorySelect(cat, s, id) == Append(s3, Bot, m3.text, m3.meta);
    assert (s.messages + [m1, m2]) + [m3] == s.messages + [m1, m2, m3];
  }

  /** Resetting the category clears the category and the triage, and says so; without a category it is a no-op. */
  lemma ResetCategory(cat: Catalog, s: Session)
    ensures var t := HandleResetCategory(cat, s);
      if s.category.None? then t == s
      else
        && t.category.None? && TriageCleared(t)
        && t.messages == s.messages + [Message(s.nextId, Bot, cat.copy.reset, NoMeta)]
        && t.accepted == s.accepted && t.escalated == s.escalated
  {
  }

  /** Restarting keeps the category, clears the triage and offers the same issues again. */
  lemma RestartKeepsCategory(cat: Catalog, s: Session)
    requires WellFormed(cat) && Typed(cat, s)
    ensures var t := RestartTriageFlow(cat, s);
      if s.category.None? then t == s
      else
        && t.category == s.category && TriageCleared(t)
        && t.messages == s.messages + [Message(s.nextId, Bot, cat.copy.restart, IssueOptions(cat.flows[s.category.value].issues))]
        && t.accepted == s.accepted && t.escalated == s.escalated
  {
  }

  /** Choosing an issue starts its flow at the first prompt, with nothing answered. */
  lemma IssueSelectStartsFlow(cat: Catalog, s: Session, issue: string)
    requires WellFormed(cat) && Typed(cat, s) && s.category.Some?
    ensures var t := HandleIssueSelect(cat, s, issue);
      var ps := cat.flows[s.category.value].prompts;
      && t.issue == Some(issue) && t.category == s.category
      && t.answers == map[] && t.stepIndex == 0 && !t.complete && !t.playbookSent && t.pendingFb.None?
      && t.messages == s.messages + [
           Message(s.nextId, User, cat.copy.issueAck + issue, NoMeta),
           Message(s.nextId + 1, Bot, cat.copy.promptsIntro, NoMeta),
           Message(s.nextId + 2, Bot, FormatPromptText(ps[0]), if OffersOptions(ps[0]) then PromptChoice(ps[0].id, ps[0].options) else NoMeta)]
      && (issue != "" ==> CurrentPrompt(cat, t) == Some(ps[0]))
  {
    var ps := cat.flows[s.category.value].prompts;
    assert |ps| > 0;
    var s1 := ResetTriage(s).(issue := Some(issue));
    var s3 := Append(Append(s1, User, cat.copy.issueAck + issue, NoMeta), Bot, cat.copy.promptsIntro, NoMeta);
    assert HandleIssueSelect(cat, s, issue) == AskPrompt(s3, ps[0]);
    TwoThenPrompt(s1, cat.copy.issueAck + issue, cat.copy.promptsIntro, ps[0]);
  }

  /** A user message, a bot message and a prompt, appended in that order with consecutive ids. */
  lemma TwoThenPrompt(s: Session, userText: string, botText: string, p: Prompt)
    ensures var t := AskPrompt(Append(Append(s, User, userText, NoMeta), Bot, botText, NoMeta), p);
      && t == s.(messages := t.messages, nextId := s.nextId + 3)
      && t.messages == s.messages + [
           Message(s.nextId, User, userText, NoMeta),
           Message(s.nextId + 1, Bot, botText, NoMeta),
           Message(s.nextId + 2, Bot, FormatPromptText(p), if OffersOptions(p) then PromptChoice(p.id, p.options) else NoMeta)]
  {
    var m1 := Message(s.nextId, User, userText, NoMeta);
    var m2 := Message(s.nextId + 1, Bot, botText, NoMeta);
    var m3 := Message(s.nextId + 2, Bot, FormatPromptText(p), if OffersOptions(p) then PromptChoice(p.id, p.options) else NoMeta);
    assert s.messages + [m1] + [m2] + [m3] == s.messages + [m1, m2, m3];
  }

  // ----- answers -----

  /** Before the last prompt, an answer is stored under the prompt's id and the next prompt is asked. */
  lemma AnswerAsksNext(cat: Catalog, s: Session, answer: string)
    requires Inv(cat, s) && CurrentPrompt(cat, s).Some? && s.stepIndex + 1 < |Prompts(cat, s)|
    ensures var t := HandlePromptAnswer(cat, s, answer);
      var ps := Prompts(cat, s);
      && t.answers == s.answers[ps[s.stepIndex].id := answer]
      && t.stepIndex == s.stepIndex + 1
      && t.category == s.category && t.issue == s.issue
      && !t.complete && CurrentPrompt(cat, t) == Some(ps[t.stepIndex])
      && t.messages == s.messages + [Message(s.nextId, Bot, FormatPromptText(ps[t.stepIndex]),
           if OffersOptions(ps[t.stepIndex]) then PromptChoice(ps[t.stepIndex].id, ps[t.stepIndex].options) else NoMeta)]
  {
    assert !s.complete;
    AnswerMidShape(cat, s, answer);
  }

  /**
   * The answer to the last prompt completes the triage: no prompt is current, and the guide and
   * the closing message are appended, the closing one carrying the feedback buttons.
   */
  lemma AnswerCompletes(cat: Catalog, s: Session, answer: string)
    requires Inv(cat, s) && CurrentPrompt(cat, s).Some? && s.stepIndex + 1 == |Prompts(cat, s)|
    ensures var t := HandlePromptAnswer(cat, s, answer);
      var ps := Prompts(cat, s);
      && t.answers == s.answers[ps[s.stepIndex].id := answer]
      && t.stepIndex == |ps|
      && t.category == s.category && t.issue == s.issue
      && t.complete && t.playbookSent && CurrentPrompt(cat, t).None?
      && t.pendingFb == Some(s.nextId)
      && t.messages == s.messages + [
           Message(s.nextId + 1, Bot, GuideText(cat, SelectedCategory(cat, s).value), NoMeta),
           Message(s.nextId, Bot, cat.copy.closing, NoMeta)]
  {
    assert !s.complete;
    AnswerLastShape(cat, s, answer);
  }

  /**
   * An answer to the prompt being asked is stored under that prompt's id and moves one step on,
   * asking the next prompt or, after the last, completing the triage.
   */
  lemma AnswerStep(cat: Catalog, s: Session, answer: string)
    requires Inv(cat, s) && CurrentPrompt(cat, s).Some?
    ensures var t := HandlePromptAnswer(cat, s, answer);
      var ps := Prompts(cat, s);
      && t.answers == s.answers[CurrentPrompt(cat, s).value.id := answer]
      && t.stepIndex == s.stepIndex + 1 <= |ps|
      && (t.stepIndex < |ps| ==> !t.complete && CurrentPrompt(cat, t) == Some(ps[t.stepIndex]))
      && (t.stepIndex == |ps| ==> t.complete && t.playbookSent && CurrentPrompt(cat, t).None?)
  {
    if s.stepIndex + 1 < |Prompts(cat, s)| {
      AnswerAsksNext(cat, s, answer);
    } else {
      AnswerCompletes(cat, s, answer);
    }
  }

  /** The guide and closing messages are appended at most once: finalizing a complete triage does nothing. */
  lemma FinalizeOnce(cat: Catalog, s: Session, issueOverride: Option<string>)
    requires Typed(cat, s)
    ensures Finalize(cat, s, true, issueOverride) == s
    ensures var t := Finalize(cat, s, s.complete, issueOverride);
      t != s ==> t.complete && Finalize(cat, t, t.complete, issueOverride) == t
  {
  }

  /** Once the triage is complete, no answer, typed or chosen, changes anything. */
  lemma CompletionIsFinal(cat: Catalog, s: Session, answer: string, promptId: string)
    requires Inv(cat, s) && s.complete
    ensures HandlePromptAnswer(cat, s, answer) == s
    ensures HandlePromptChoiceSelect(cat, s, promptId, answer) == s
  {
  }

  /**
   * A choice button counts exactly when it belongs to the prompt being asked, the triage is under
   * way and not complete; the user's choice is then echoed and taken as that prompt's answer.
   * Any other press (stale buttons under an earlier prompt among them) changes nothing.
   */
  lemma ChoiceCountsOnlyForCurrentPrompt(cat: Catalog, s: Session, promptId: string, option: string)
    requires Typed(cat, s)
    ensures var live := s.category.Some? && Truthy(s.issue) && !s.complete
                        && CurrentPrompt(cat, s).Some? && CurrentPrompt(cat, s).value.id == promptId;
      var t := HandlePromptChoiceSelect(cat, s, promptId, option);
      && (!live ==> t == s)
      && (live ==> t == HandlePromptAnswer(cat, Append(s, User, option, NoMeta), option))
  {
    if s.category.Some? && Truthy(s.issue) && !s.complete && CurrentPrompt(cat, s).Some? && CurrentPrompt(cat, s).value.id == promptId {
      var ps := Prompts(cat, s);
      assert PromptIds(ps)[s.stepIndex] == promptId;
    }
  }

  // ----- sending -----

  /** The guards of `handleSend`. */
  predicate SendBlocked(s: Session) {
    Trim(s.input) == "" || s.loading || !s.accepted || s.category.None?
  }

  /**
   * `handleSend` does nothing unless the trimmed input is non-empty, nothing is loading, consent
   * is given and a category is chosen.
   */
  lemma SendIgnored(cat: Catalog, s: Session, reply: string)
    requires Typed(cat, s) && SendBlocked(s)
    ensures HandleSend(cat, s, reply) == s
  {
  }

  /** Past the guards but with no issue chosen, the text is echoed and the user is reminded to pick one. */
  lemma SendWithoutIssue(cat: Catalog, s: Session, reply: string)
    requires Typed(cat, s) && !SendBlocked(s) && !Truthy(s.issue)
    ensures var t := HandleSend(cat, s, reply);
      && t.messages == s.messages + [Message(s.nextId, User, Trim(s.input), NoMeta), Message(s.nextId + 1, Bot, cat.copy.reminder, NoMeta)]
      && t == s.(messages := t.messages, nextId := s.nextId + 2, input := "")
  {
    assert HandleSend(cat, s, reply) == Append(Posted(s, Trim(s.input)), Bot, cat.copy.reminder, NoMeta);
    PostedThenBot(s, Trim(s.input), cat.copy.reminder);
  }

  /** The echo of the user's text followed by one bot message: two messages more, the input cleared. */
  lemma PostedThenBot(s: Session, text: string, botText: string)
    ensures var t := Append(Posted(s, text), Bot, botText, NoMeta);
      && t.messages == s.messages + [Message(s.nextId, User, text, NoMeta), Message(s.nextId + 1, Bot, botText, NoMeta)]
      && t == s.(messages := t.messages, nextId := s.nextId + 2, input := "")
  {
    var echo := Message(s.nextId, User, text, NoMeta);
    assert (s.messages + [echo]) + [Message(s.nextId + 1, Bot, botText, NoMeta)] == s.messages + [echo, Message(s.nextId + 1, Bot, botText, NoMeta)];
  }

  /** While a prompt is asked, the echoed text is that prompt's answer. */
  lemma SendToPrompt(cat: Catalog, s: Session, reply: string)
    requires Typed(cat, s) && !SendBlocked(s) && Truthy(s.issue)
    requires CurrentPrompt(cat, s).Some? && !s.complete
    ensures HandleSend(cat, s, reply) == HandlePromptAnswer(cat, Posted(s, Trim(s.input)), Trim(s.input))
  {
  }

  /** Otherwise the echoed text goes to `handleProcess`. */
  lemma SendToAssistant(cat: Catalog, s: Session, reply: string)
    requires Typed(cat, s) && !SendBlocked(s) && Truthy(s.issue)
    requires !(CurrentPrompt(cat, s).Some? && !s.complete)
    ensures HandleSend(cat, s, reply) == HandleProcess(cat, Posted(s, Trim(s.input)), Trim(s.input), reply)
  {
  }

  /** While a prompt is being asked, the typed text is echoed and taken as its answer. */
  lemma SendAnswersPrompt(cat: Catalog, s: Session, reply: string)
    requires Inv(cat, s) && Trim(s.input) != "" && s.accepted && CurrentPrompt(cat, s).Some? && !s.complete
    ensures var t := HandleSend(cat, s, reply);
      && t.answers == s.answers[CurrentPrompt(cat, s).value.id := Trim(s.input)]
      && t.stepIndex == s.stepIndex + 1
      && s.messages + [Message(s.nextId, User, Trim(s.input), NoMeta)] <= t.messages
  {
    SendToPrompt(cat, s, reply);
    PostedInv(cat, s, Trim(s.input));
    AnswerStep(cat, Posted(s, Trim(s.input)), Trim(s.input));
  }

  /**
   * The free-text path, first message after a category is chosen: it gets the category's guide,
   * whatever the assistant would have said, and the guide is marked as sent.
   */
  lemma ProcessSendsGuide(cat: Catalog, s: Session, userText: string, reply: string)
    requires Typed(cat, s) && !s.playbookSent && s.category.Some?
    ensures var t := HandleProcess(cat, s, userText, reply);
      && t.lastUserText == userText && t.pendingFb == Some(s.nextId) && t.playbookSent
      && t.messages == s.messages + [Message(s.nextId, Bot, GuideText(cat, SelectedCategory(cat, s).value), NoMeta)]
      && (forall r :: HandleProcess(cat, s, userText, r) == t)
  {
  }

  /**
   * After that the assistant's reply is shown, and an empty reply is replaced by a fixed prompt
   * for more detail, so the bubble is never blank; it carries the feedback buttons.
   */
  lemma ProcessShowsReply(cat: Catalog, s: Session, userText: string, reply: string)
    requires Typed(cat, s) && (s.playbookSent || s.category.None?)
    ensures var t := HandleProcess(cat, s, userText, reply);
      && t.lastUserText == userText && t.pendingFb == Some(s.nextId) && !t.loading
      && t.messages == s.messages + [Message(s.nextId, Bot, if reply != "" then reply else cat.copy.emptyReply, NoMeta)]
      && (CopyUsable(cat) ==> t.messages[|s.messages|].text != "")
  {
  }

  /**
   * On every reachable state, once an issue is chosen and no prompt is pending, the triage is
   * complete and its guide has been sent.
   */
  lemma NoPromptMeansComplete(cat: Catalog, s: Session)
    requires Inv(cat, s) && s.category.Some? && Truthy(s.issue)
    requires !(CurrentPrompt(cat, s).Some? && !s.complete)
    ensures s.complete && s.playbookSent
  {
  }

  /**
   * Once the guide has been sent, posted text is answered by the assistant: the transcript grows
   * by the echo and the assistant's reply, or the fixed prompt when the reply is empty.
   */
  lemma PostedAfterGuide(cat: Catalog, s: Session, text: string, reply: string)
    requires Typed(cat, s) && s.playbookSent
    ensures HandleProcess(cat, Posted(s, text), text, reply).messages
         == s.messages + [Message(s.nextId, User, text, NoMeta),
                          Message(s.nextId + 1, Bot, if reply != "" then reply else cat.copy.emptyReply, NoMeta)]
  {
    var echo := Message(s.nextId, User, text, NoMeta);
    assert Posted(s, text).messages == s.messages + [echo];
    ProcessShowsReply(cat, Posted(s, text), text, reply);
    var bubble := Message(s.nextId + 1, Bot, if reply != "" then reply else cat.copy.emptyReply, NoMeta);
    assert (s.messages + [echo]) + [bubble] == s.messages + [echo, bubble];
  }

  /** On every reachable state that is the case whenever an issue is chosen and no prompt is pending. */
  lemma FreeTextReachesAssistant(cat: Catalog, s: Session, reply: string)
    requires Inv(cat, s) && !SendBlocked(s) && Truthy(s.issue)
    requires !(CurrentPrompt(cat, s).Some? && !s.complete)
    ensures HandleSend(cat, s, reply).messages
         == s.messages + [Message(s.nextId, User, Trim(s.input), NoMeta),
                          Message(s.nextId + 1, Bot, if reply != "" then reply else cat.copy.emptyReply, NoMeta)]
  {
    NoPromptMeansComplete(cat, s);
    SendToAssistant(cat, s, reply);
    PostedAfterGuide(cat, s, Trim(s.input), reply);
  }

  /**
   * The mount effect before any category is chosen: a blank context changes nothing; otherwise
   * consent is taken as given, the context becomes the first user message and the assistant's
   * reply (or the fixed prompt, when it is empty) follows it.
   */
  lemma SeedContextAsks(cat: Catalog, s: Session, context: Option<string>, reply: string)
    requires Typed(cat, s) && s.category.None?
    ensures var t := SeedContext(cat, s, context, reply);
      && (ContextText(context) == "" ==> t == s)
      && (ContextText(context) != "" ==>
            && t.accepted && t.input == "" && t.lastUserText == ContextText(context)
            && t.messages == s.messages + [Message(s.nextId, User, ContextText(context), NoMeta),
                                           Message(s.nextId + 1, Bot, if reply != "" then reply else cat.copy.emptyReply, NoMeta)])
  {
    var ctx := ContextText(context);
    if ctx != "" {
      SeededThenReply(cat, s, ctx, reply);
    }
  }

  lemma SeededThenReply(cat: Catalog, s: Session, ctx: string, reply: string)
    requires Typed(cat, s) && s.category.None?
    ensures var t := HandleProcess(cat, Seeded(s, ctx), ctx, reply);
      && t.accepted && t.input == "" && t.lastUserText == ctx
      && t.messages == s.messages + [Message(s.nextId, User, ctx, NoMeta),
                                     Message(s.nextId + 1, Bot, if reply != "" then reply else cat.copy.emptyReply, NoMeta)]
  {
    var echo := Message(s.nextId, User, ctx, NoMeta);
    assert Seeded(s, ctx).messages == s.messages + [echo];
    ProcessShowsReply(cat, Seeded(s, ctx), ctx, reply);
    var bubble := Message(s.nextId + 1, Bot, if reply != "" then reply else cat.copy.emptyReply, NoMeta);
    assert (s.messages + [echo]) + [bubble] == s.messages + [echo, bubble];
  }

  /** The reply shown on the assistant path is the assistant's answer when it has text, else the fixed prompt. */
  lemma AssistantBubble(cat: Catalog, s: Session, apiBase: string, outcome: FetchOutcome)
    requires Typed(cat, s)
    ensures var reply := AssistantReply(cat, s, apiBase, outcome);
      reply == "" <==> apiBase != "" && BackendText(outcome).Some? && AllSpace(BackendText(outcome).value)
  {
    EmptyReplyOnlyFromBlankBackendText(apiBase, outcome, AssistantConversation(cat, s));
  }

  /**
   * The assistant sees the structured summary first (when there is one), then the chosen
   * category, then the whole transcript, in order.
   */
  lemma ConversationShape(cat: Catalog, s: Session)
    requires Typed(cat, s) && s.category.Some? && Truthy(s.issue)
    ensures var conv := AssistantConversation(cat, s);
      var n := |s.messages|;
      && |conv| == n + 2
      && conv[0].role == SystemRole && StartsWith(conv[0].content, cat.copy.summaryHeader)
      && conv[1] == ChatMessage(SystemRole, cat.copy.contextPrefix + SelectedCategory(cat, s).value.display)
      && conv[2..] == ToChatMessages(s.messages)
  {
    SummaryShape(TriageFlow(cat, s), s.issue, s.answers);
  }

  // ----- escalation -----

  /**
   * Escalation happens once: afterwards the conversation is escalated, exactly one system message
   * with the attempt's notice is appended and nothing is loading; when already escalated it is a no-op.
   */
  lemma EscalateOnce(s: Session, attempt: Attempt)
    ensures var (t, calls) := Escalate(s, attempt);
      && t.escalated
      && (s.escalated ==> t == s && calls == [])
      && (!s.escalated ==>
            && t.messages == s.messages + [Message(s.nextId, System, attempt.text, NoMeta)]
            && calls == attempt.calls && !t.loading
            && t == s.(escalated := true, loading := false, messages := t.messages, nextId := t.nextId))
      && Escalate(t, attempt) == (t, [])
  {
  }

  /**
   * Escalating from the screen shows either the backend's protocol or an `HL-` protocol from the
   * clock reading, in the one system message it appends.
   */
  lemma EscalationNotice(cat: Catalog, s: Session, me: Reply<Identity>, created: Reply<CreatedTicket>, syncFailAt: nat, now: nat)
    requires Typed(cat, s) && !s.escalated
    ensures var (t, _) := HandleEscalationRequest(s, EscalationFor(cat, s, me, created, syncFailAt, now));
      var notice := t.messages[|s.messages|];
      && |t.messages| == |s.messages| + 1 && notice.sender == System && t.escalated && t.pendingFb.None?
      && (ServicesAnswered(me, created) ==> Contains(notice.text, ReturnedProtocol(created)))
      && (!ServicesAnswered(me, created) ==> Contains(notice.text, PROVISIONAL_PREFIX + NatToString(now)))
  {
    EscalationOutcomes(SelectedCategory(cat, s), s.lastUserText, s.messages, me, created, syncFailAt, now);
  }

  // ----- what the screen derives -----

  /** The quick replies appear exactly when the triage of a chosen category is complete. */
  lemma QuickRepliesShown(cat: Catalog, s: Session)
    requires CopyUsable(cat)
    ensures QuickReplies(cat, s) != [] <==> s.category.Some? && s.complete
  {
  }

  /** While a prompt is being asked, the input's placeholder is that prompt's (or its question). */
  lemma PlaceholderFollowsPrompt(cat: Catalog, s: Session)
    requires Typed(cat, s) && s.accepted && CurrentPrompt(cat, s).Some? && !s.complete
    ensures InputPlaceholder(cat, s) == CurrentPrompt(cat, s).value.placeholder.GetOr(CurrentPrompt(cat, s).value.question)
  {
  }
}
