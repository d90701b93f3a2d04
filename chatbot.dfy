/**
 * The chat screen of app/tabs/chatbot.tsx as an object: its state variables are the fields of
 * its `state`, and each handler sets them one after another, in the order the source calls
 * their setters. Every handler
 * leaves the screen in the state the matching transition of `TriageSession` computes and keeps
 * the invariant of `TriageInvariant`. The remote services are parameters: `apiBase` and
 * `outcome` for the assistant call, and the identity and ticket services' answers for the
 * escalation.
 */
module Chatbot {
  import opened Wrappers
  import opened Strings
  import opened TriageCatalog
  import opened TriageText
  import opened Assistant
  import opened Conversation
  import opened Escalation
  import opened TriageSession
  import opened TriageInvariant

  class ChatScreen {
    /** The tables and fixed texts the screen works with. */
    const cat: Catalog
    /**
     * The screen's state variables, one field of `Session` per `useState` of the source;
     * `nextId` stands for `newMessageId`.
     */
    var state: Session

    ghost predicate Valid()
      reads this
    {
      Inv(cat, state)
    }

    /** The mounted screen, showing only the welcome message. */
    constructor (cat: Catalog)
      requires WellFormed(cat)
      ensures this.cat == cat && state == Initial(cat) && Valid()
    {
      this.cat := cat;
      state := Session([Message(0, Bot, cat.copy.welcome, NoMeta)], "", false, false, None, false, "",
                       None, false, None, map[], 0, false, 1);
      new;
      InitialInv(cat);
    }

    /** A message with a fresh id appended to the transcript (`setMessages((prev) => [...prev, m])`). */
    method Push(sender: Sender, text: string, meta: Meta)
      modifies this
      ensures state == Append(old(state), sender, text, meta)
    {
      state := state.(messages := state.messages + [Message(state.nextId, sender, text, meta)]);
      state := state.(nextId := state.nextId + 1);
    }

    /** The resets the handlers share, one setter after another. */
    method ClearTriage()
      modifies this
      ensures state == ResetTriage(old(state))
    {
      state := state.(issue := None);
      state := state.(answers := map[]);
      state := state.(stepIndex := 0);
      state := state.(complete := false);
      state := state.(pendingFb := None);
      state := state.(playbookSent := false);
    }

    /** `handleAccept`. */
    method HandleAccept()
      requires Valid()
      modifies this
      ensures state == TriageSession.HandleAccept(cat, old(state)) && Valid()
    {
      AcceptInv(cat, state);
      if state.accepted {
        return;
      }
      state := state.(accepted := true);
      Push(User, cat.copy.accept, NoMeta);
    }

    /** `promptIssueSelection`. */
    method PromptIssueSelection(flow: Flow, customText: Option<string>)
      modifies this
      ensures state == TriageSession.PromptIssueSelection(cat, old(state), flow, customText)
    {
      if |flow.issues| == 0 {
        return;
      }
      Push(Bot, customText.GetOr(cat.copy.issueQuestion), IssueOptions(flow.issues));
    }

    /** `askPrompt`. */
    method AskPrompt(p: Prompt)
      modifies this
      ensures state == TriageSession.AskPrompt(old(state), p)
    {
      var meta := if OffersOptions(p) then PromptChoice(p.id, p.options) else NoMeta;
      Push(Bot, FormatPromptText(p), meta);
    }

    /**
     * The closing steps of `finalizeStructuredTriage`: the triage is complete, and the guide
     * and the closing message follow, the closing one's id drawn first and carrying the
     * feedback buttons.
     */
    method CloseTriage(guidance: string)
      modifies this
      ensures var s := old(state);
        state == s.(complete := true, playbookSent := true,
                    messages := s.messages + [Message(s.nextId + 1, Bot, guidance, NoMeta), Message(s.nextId, Bot, cat.copy.closing, NoMeta)],
                    nextId := s.nextId + 2, pendingFb := Some(s.nextId))
    {
      state := state.(complete := true);
      state := state.(playbookSent := true);
      var closingId := state.nextId;
      var guideId := state.nextId + 1;
      state := state.(messages := state.messages + [Message(guideId, Bot, guidance, NoMeta), Message(closingId, Bot, cat.copy.closing, NoMeta)]);
      state := state.(nextId := state.nextId + 2);
      state := state.(pendingFb := Some(closingId));
    }

    /**
     * `finalizeStructuredTriage`; `wasComplete` is the `triageComplete` the calling handler saw
     * when it started.
     */
    method FinalizeStructuredTriage(wasComplete: bool, issueOverride: Option<string>)
      requires Typed(cat, state)
      modifies this
      ensures state == Finalize(cat, old(state), wasComplete, issueOverride)
    {
      if state.category.None? {
        return;
      }
      var selected := SelectedCategory(cat, state);
      if !Truthy(OrElse(issueOverride, state.issue)) || wasComplete || selected.None? {
        return;
      }
      CloseTriage(GuideText(cat, selected.value));
    }

    /** `handleCategorySelect`. */
    method HandleCategorySelect(id: string)
      requires Valid()
      modifies this
      ensures state == TriageSession.HandleCategorySelect(cat, old(state), id) && Valid()
    {
      CategorySelectInv(cat, state, id);
      var choice := FindCategory(cat.categories, id);
      if choice.None? {
        return;
      }
      state := state.(category := Some(id));
      ClearTriage();
      Push(User, cat.copy.categoryAck + choice.value.display, NoMeta);
      Push(Bot, cat.copy.categoryIntro + choice.value.display + cat.copy.categoryIntroEnd, NoMeta);
      PromptIssueSelection(cat.flows[id], None);
    }

    /** `restartTriageFlow`. */
    method RestartTriageFlow()
      requires Valid()
      modifies this
      ensures state == TriageSession.RestartTriageFlow(cat, old(state)) && Valid()
    {
      RestartInv(cat, state);
      if state.category.None? {
        return;
      }
      var flow := cat.flows[state.category.value];
      ClearTriage();
      PromptIssueSelection(flow, Some(cat.copy.restart));
    }

    /** `handleResetCategory`. */
    method HandleResetCategory()
      requires Valid()
      modifies this
      ensures state == TriageSession.HandleResetCategory(cat, old(state)) && Valid()
    {
      ResetCategoryInv(cat, state);
      if state.category.None? {
        return;
      }
      state := state.(category := None);
      ClearTriage();
      Push(Bot, cat.copy.reset, NoMeta);
    }

    /** `handleIssueSelect`. */
    method HandleIssueSelect(issue: string)
      requires Valid()
      modifies this
      ensures state == TriageSession.HandleIssueSelect(cat, old(state), issue) && Valid()
    {
      IssueSelectInv(cat, state, issue);
      if state.category.None? {
        return;
      }
      var flow := cat.flows[state.category.value];
      var wasComplete := state.complete;
      ClearTriage();
      state := state.(issue := Some(issue));
      Push(User, cat.copy.issueAck + issue, NoMeta);
      Push(Bot, if |flow.prompts| > 0 then cat.copy.promptsIntro else cat.copy.noPromptsIntro, NoMeta);
      if |flow.prompts| > 0 {
        AskPrompt(flow.prompts[0]);
      } else {
        // Every flow asks at least one prompt (`FlowsUsable`), so the guide is never sent here.
        assert false;
      }
    }

    /** `handlePromptAnswer`. */
    method HandlePromptAnswer(answer: string)
      requires Typed(cat, state)
      modifies this
      ensures state == TriageSession.HandlePromptAnswer(cat, old(state), answer)
    {
      if state.category.None? || !Truthy(state.issue) {
        return;
      }
      var ps := cat.flows[state.category.value].prompts;
      if state.stepIndex >= |ps| {
        return;
      }
      var prompt := ps[state.stepIndex];
      var next := state.stepIndex + 1;
      var wasComplete := state.complete;
      state := state.(answers := state.answers[prompt.id := answer]);
      if next >= |ps| {
        FinalizeStructuredTriage(wasComplete, None);
      }
      state := state.(stepIndex := next);
      if next < |ps| {
        AskPrompt(ps[next]);
      }
    }

    /** `handlePromptChoiceSelect`. */
    method HandlePromptChoiceSelect(promptId: string, option: string)
      requires Valid()
      modifies this
      ensures state == TriageSession.HandlePromptChoiceSelect(cat, old(state), promptId, option) && Valid()
    {
      PromptChoiceInv(cat, state, promptId, option);
      if state.category.None? || !Truthy(state.issue) || state.complete {
        return;
      }
      var current := CurrentPrompt(cat, state);
      if current.None? || current.value.id != promptId {
        return;
      }
      if promptId !in PromptIds(cat.flows[state.category.value].prompts) {
        return;
      }
      Push(User, option, NoMeta);
      HandlePromptAnswer(option);
    }

    /** `handleOptionSelect`. */
    method HandleOptionSelect(meta: Meta, option: string)
      requires Valid()
      modifies this
      ensures state == TriageSession.HandleOptionSelect(cat, old(state), meta, option) && Valid()
    {
      match meta
      case IssueOptions(_) => HandleIssueSelect(option);
      case PromptChoice(promptId, _) => HandlePromptChoiceSelect(promptId, option);
      case NoMeta =>
    }

    /** `setInput`. */
    method SetInput(text: string)
      requires Valid()
      modifies this
      ensures state == TriageSession.SetInput(old(state), text) && Valid()
    {
      state := state.(input := text);
    }

    /** The guide branch of `handleProcess`: the guide, with the feedback buttons under it. */
    method ShowGuide(guidance: string)
      modifies this
      ensures state == Append(old(state), Bot, guidance, NoMeta).(playbookSent := true, pendingFb := Some(old(state).nextId))
    {
      state := state.(playbookSent := true);
      state := state.(pendingFb := Some(state.nextId));
      Push(Bot, guidance, NoMeta);
    }

    /** The assistant branch of `handleProcess`, once the call has resolved to `answer`. */
    method ShowAnswer(answer: string)
      modifies this
      ensures state == Append(old(state), Bot, if answer != "" then answer else cat.copy.emptyReply, NoMeta)
                         .(pendingFb := Some(old(state).nextId), loading := false)
    {
      state := state.(pendingFb := Some(state.nextId));
      Push(Bot, if answer != "" then answer else cat.copy.emptyReply, NoMeta);
      state := state.(loading := false);
    }

    /**
     * `handleProcess`: the guide on the first free text after a category is chosen, else the
     * assistant's reply to the conversation `AssistantConversation` builds.
     */
    method HandleProcess(userText: string, apiBase: string, outcome: FetchOutcome)
      requires Typed(cat, state)
      modifies this
      ensures state == TriageSession.HandleProcess(cat, old(state), userText, AssistantReply(cat, old(state), apiBase, outcome))
    {
      var selected := SelectedCategory(cat, state);
      var conversation := AssistantConversation(cat, state);
      state := state.(lastUserText := userText);
      if !state.playbookSent && selected.Some? {
        ShowGuide(GuideText(cat, selected.value));
        return;
      }
      state := state.(loading := true);
      var answer := EnviarParaChatGPT(apiBase, outcome, conversation);
      ShowAnswer(answer);
    }

    /** `handleSend`. */
    method HandleSend(apiBase: string, outcome: FetchOutcome)
      requires Valid()
      modifies this
      ensures state == TriageSession.HandleSend(cat, old(state),
                         AssistantReply(cat, Posted(old(state), Trim(old(state).input)), apiBase, outcome))
      ensures Valid()
    {
      SendInv(cat, state, AssistantReply(cat, Posted(state, Trim(state.input)), apiBase, outcome));
      var t := Trim(state.input);
      if t == "" || state.loading || !state.accepted || state.category.None? {
        return;
      }
      var current := CurrentPrompt(cat, state);
      Push(User, t, NoMeta);
      state := state.(input := "");
      if !Truthy(state.issue) {
        Push(Bot, cat.copy.reminder, NoMeta);
        return;
      }
      if current.Some? && !state.complete {
        HandlePromptAnswer(t);
        return;
      }
      HandleProcess(t, apiBase, outcome);
    }

    /** The mount effect: a non-blank `context` parameter is sent as the first message. */
    method SeedContext(context: Option<string>, apiBase: string, outcome: FetchOutcome)
      requires Valid()
      modifies this
      ensures state == TriageSession.SeedContext(cat, old(state), context,
                         AssistantReply(cat, Seeded(old(state), ContextText(context)), apiBase, outcome))
      ensures Valid()
    {
      SeedInv(cat, state, context, AssistantReply(cat, Seeded(state, ContextText(context)), apiBase, outcome));
      var ctx := ContextText(context);
      if ctx == "" {
        return;
      }
      Push(User, ctx, NoMeta);
      state := state.(accepted := true);
      state := state.(input := "");
      HandleProcess(ctx, apiBase, outcome);
    }

    /** The steps of `escalate` around its remote calls, ending with `notice` as a system message. */
    method PostNotice(notice: string)
      modifies this
      ensures state == Append(old(state).(escalated := true, loading := false), System, notice, NoMeta)
    {
      state := state.(loading := true);
      state := state.(escalated := true);
      Push(System, notice, NoMeta);
      state := state.(loading := false);
    }

    /**
     * `escalate`, given what the identity service (`me`), the ticket service (`created`) and
     * the follow-up posts (`syncFailAt`) answer, and the clock (`now`). Returns the remote
     * calls made.
     */
    method Escalate(me: Reply<Identity>, created: Reply<CreatedTicket>, syncFailAt: nat, now: nat)
      returns (calls: seq<RemoteCall>)
      requires Valid()
      modifies this
      ensures (state, calls) == TriageSession.Escalate(old(state), EscalationFor(cat, old(state), me, created, syncFailAt, now))
      ensures Valid()
    {
      EscalateInv(cat, state, EscalationFor(cat, state, me, created, syncFailAt, now));
      if state.escalated {
        return [];
      }
      var attempt := EscalationFor(cat, state, me, created, syncFailAt, now);
      PostNotice(attempt.text);
      calls := attempt.calls;
    }

    /** `handleEscalationRequest`. */
    method HandleEscalationRequest(me: Reply<Identity>, created: Reply<CreatedTicket>, syncFailAt: nat, now: nat)
      returns (calls: seq<RemoteCall>)
      requires Valid()
      modifies this
      ensures (state, calls) == TriageSession.HandleEscalationRequest(old(state),
                                  EscalationFor(cat, old(state).(pendingFb := None), me, created, syncFailAt, now))
      ensures Valid()
    {
      state := state.(pendingFb := None);
      calls := Escalate(me, created, syncFailAt, now);
    }
  }
}
