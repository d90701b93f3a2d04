/**
 * The invariant of the chat triage (app/tabs/chatbot.tsx) and its preservation: every state
 * reachable from the mounted screen through the user's actions keeps message ids fresh and
 * distinct, shows the feedback buttons only under a bot message, never runs the step index
 * past the flow, keys the answers by exactly the prompts already answered, and is complete
 * exactly when every prompt of the chosen issue has been answered.
 */
module TriageInvariant {
  import opened Wrappers
  import opened Strings
  import opened TriageCatalog
  import opened TriageText
  import opened Assistant
  import opened Conversation
  import opened Escalation
  import opened TriageSession

  /** Every id is below the counter, and no two messages share one. */
  predicate IdsFresh(msgs: seq<Message>, nextId: nat) {
    (forall i :: 0 <= i < |msgs| ==> msgs[i].id < nextId)
    && (forall i, j :: 0 <= i < j < |msgs| ==> msgs[i].id != msgs[j].id)
  }

  predicate IsBotMessage(msgs: seq<Message>, id: nat) {
    exists i :: 0 <= i < |msgs| && msgs[i].id == id && msgs[i].sender == Bot
  }

  /** The prompt ids answered so far. */
  function AnsweredIds(cat: Catalog, s: Session): seq<string>
    requires Typed(cat, s) && s.stepIndex <= |Prompts(cat, s)|
  {
    PromptIds(Prompts(cat, s))[..s.stepIndex]
  }

  ghost predicate TriageConsistent(cat: Catalog, s: Session)
    requires Typed(cat, s)
  {
    && (s.category.None? ==> s.issue.None?)
    && (!Truthy(s.issue) ==> s.stepIndex == 0 && s.answers == map[] && !s.complete)
    && s.stepIndex <= |Prompts(cat, s)|
    && (Truthy(s.issue) ==> (s.complete <==> s.stepIndex == |Prompts(cat, s)|))
    && (forall k :: k in s.answers <==> k in AnsweredIds(cat, s))
    && (s.complete ==> s.playbookSent)
  }

  ghost predicate Inv(cat: Catalog, s: Session) {
    && WellFormed(cat)
    && Typed(cat, s)
    && IdsFresh(s.messages, s.nextId)
    && (s.pendingFb.Some? ==> IsBotMessage(s.messages, s.pendingFb.value))
    && TriageConsistent(cat, s)
    && !s.loading
  }

  /**
   * What the user can do on the screen. `Send` carries what the assistant call resolves to,
   * should the text reach it, and `RequestEscalation` what the escalation's remote calls
   * produce: the invariant holds whatever the services answer.
   */
  datatype Action =
    | Accept
    | SelectCategory(id: string)
    | SelectOption(meta: Meta, option: string)
    | RestartFlow
    | ResetCategory
    | TypeInput(text: string)
    | Send(reply: string)
    | RequestEscalation(attempt: Attempt)

  function Step(cat: Catalog, s: Session, a: Action): Session
    requires Typed(cat, s)
  {
    match a
    case Accept => HandleAccept(cat, s)
    case SelectCategory(id) => HandleCategorySelect(cat, s, id)
    case SelectOption(meta, option) => HandleOptionSelect(cat, s, meta, option)
    case RestartFlow => RestartTriageFlow(cat, s)
    case ResetCategory => HandleResetCategory(cat, s)
    case TypeInput(text) => SetInput(s, text)
    case Send(reply) => HandleSend(cat, s, reply)
    case RequestEscalation(attempt) => HandleEscalationRequest(s, attempt).0
  }

  /** The state after `actions`, one after another (a state outside the types ends the run). */
  ghost function Run(cat: Catalog, s: Session, actions: seq<Action>): Session
    decreases |actions|
  {
    if |actions| == 0 || !Typed(cat, s) then s else Run(cat, Step(cat, s, actions[0]), actions[1..])
  }

  /** A state reached from `s` keeps `s`'s transcript as a prefix, and never takes back acceptance or escalation. */
  predicate Extends(s: Session, t: Session) {
    && s.messages <= t.messages
    && s.nextId <= t.nextId
    && (s.accepted ==> t.accepted)
    && (s.escalated ==> t.escalated)
  }

  // ----- the transcript -----

  lemma BotMessageKept(msgs: seq<Message>, more: seq<Message>, id: nat)
    requires IsBotMessage(msgs, id)
    ensures IsBotMessage(msgs + more, id)
  {
    var i :| 0 <= i < |msgs| && msgs[i].id == id && msgs[i].sender == Bot;
    assert (msgs + more)[i] == msgs[i];
  }

  lemma BotMessageAt(msgs: seq<Message>, i: nat)
    requires i < |msgs| && msgs[i].sender == Bot
    ensures IsBotMessage(msgs, msgs[i].id)
  {
  }

  /** Appending keeps ids fresh and distinct and keeps the feedback target. */
  lemma AppendKeeps(s: Session, sender: Sender, text: string, meta: Meta)
    requires IdsFresh(s.messages, s.nextId)
    ensures var t := Append(s, sender, text, meta);
      && IdsFresh(t.messages, t.nextId)
      && t.messages == s.messages + [Message(s.nextId, sender, text, meta)]
      && (s.pendingFb.Some? && IsBotMessage(s.messages, s.pendingFb.value) ==> IsBotMessage(t.messages, s.pendingFb.value))
      && (sender == Bot ==> IsBotMessage(t.messages, s.nextId))
  {
    var t := Append(s, sender, text, meta);
    if s.pendingFb.Some? && IsBotMessage(s.messages, s.pendingFb.value) {
      BotMessageKept(s.messages, [Message(s.nextId, sender, text, meta)], s.pendingFb.value);
    }
    if sender == Bot {
      BotMessageAt(t.messages, |s.messages|);
    }
  }

  /** A state with the invariant, modulo the feedback target, which the caller re-establishes. */
  ghost predicate InvButFeedback(cat: Catalog, s: Session) {
    WellFormed(cat) && Typed(cat, s) && IdsFresh(s.messages, s.nextId) && TriageConsistent(cat, s) && !s.loading
  }

  lemma InitialInv(cat: Catalog)
    requires WellFormed(cat)
    ensures Inv(cat, Initial(cat))
  {
    var s := Initial(cat);
    assert AnsweredIds(cat, s) == [];
  }

  // ----- preservation, handler by handler -----

  lemma AcceptInv(cat: Catalog, s: Session)
    requires Inv(cat, s)
    ensures Inv(cat, HandleAccept(cat, s)) && Extends(s, HandleAccept(cat, s))
  {
    if !s.accepted {
      AppendKeeps(s.(accepted := true), User, cat.copy.accept, NoMeta);
    }
  }

  /** After the resets no issue is chosen and nothing is answered. */
  lemma ResetTriageConsistent(cat: Catalog, s: Session, c: Option<string>)
    requires !s.loading && Typed(cat, s.(category := c))
    ensures var t := ResetTriage(s).(category := c);
      Typed(cat, t) && TriageConsistent(cat, t) && t.pendingFb.None? && t.issue.None?
  {
    var t := ResetTriage(s).(category := c);
    assert AnsweredIds(cat, t) == [];
  }

  lemma IssueSelectionKeeps(cat: Catalog, s: Session, flow: Flow, customText: Option<string>)
    requires IdsFresh(s.messages, s.nextId)
    ensures var t := PromptIssueSelection(cat, s, flow, customText);
      IdsFresh(t.messages, t.nextId) && s.messages <= t.messages && s.nextId <= t.nextId
      && t == s.(messages := t.messages, nextId := t.nextId)
      && (s.pendingFb.Some? && IsBotMessage(s.messages, s.pendingFb.value) ==> IsBotMessage(t.messages, s.pendingFb.value))
  {
    if |flow.issues| > 0 {
      AppendKeeps(s, Bot, customText.GetOr(cat.copy.issueQuestion), IssueOptions(flow.issues));
    }
  }

  lemma CategorySelectInv(cat: Catalog, s: Session, id: string)
    requires Inv(cat, s)
    ensures Inv(cat, HandleCategorySelect(cat, s, id)) && Extends(s, HandleCategorySelect(cat, s, id))
  {
    var choice := FindCategory(cat.categories, id);
    if choice.Some? {
      var s1 := ResetTriage(s).(category := Some(id));
      ResetTriageConsistent(cat, s, Some(id));
      var s2 := Append(s1, User, cat.copy.categoryAck + choice.value.display, NoMeta);
      AppendKeeps(s1, User, cat.copy.categoryAck + choice.value.display, NoMeta);
      var s3 := Append(s2, Bot, cat.copy.categoryIntro + choice.value.display + cat.copy.categoryIntroEnd, NoMeta);
      AppendKeeps(s2, Bot, cat.copy.categoryIntro + choice.value.display + cat.copy.categoryIntroEnd, NoMeta);
      IssueSelectionKeeps(cat, s3, cat.flows[id], None);
    }
  }

  lemma RestartInv(cat: Catalog, s: Session)
    requires Inv(cat, s)
    ensures Inv(cat, RestartTriageFlow(cat, s)) && Extends(s, RestartTriageFlow(cat, s))
  {
    if s.category.Some? {
      assert s.(category := s.category) == s;
      ResetTriageConsistent(cat, s, s.category);
      assert ResetTriage(s).(category := s.category) == ResetTriage(s);
      IssueSelectionKeeps(cat, ResetTriage(s), cat.flows[s.category.value], Some(cat.copy.restart));
    }
  }

  lemma ResetCategoryInv(cat: Catalog, s: Session)
    requires Inv(cat, s)
    ensures Inv(cat, HandleResetCategory(cat, s)) && Extends(s, HandleResetCategory(cat, s))
  {
    if s.category.Some? {
      ResetTriageConsistent(cat, s, None);
      AppendKeeps(ResetTriage(s).(category := None), Bot, cat.copy.reset, NoMeta);
    }
  }

  lemma AskPromptKeeps(s: Session, p: Prompt)
    requires IdsFresh(s.messages, s.nextId)
    ensures var t := AskPrompt(s, p);
      IdsFresh(t.messages, t.nextId) && s.messages <= t.messages && s.nextId <= t.nextId
      && t == s.(messages := t.messages, nextId := t.nextId)
      && (s.pendingFb.Some? && IsBotMessage(s.messages, s.pendingFb.value) ==> IsBotMessage(t.messages, s.pendingFb.value))
  {
    AppendKeeps(s, Bot, FormatPromptText(p), if OffersOptions(p) then PromptChoice(p.id, p.options) else NoMeta);
  }

  lemma IssueSelectInv(cat: Catalog, s: Session, issue: string)
    requires Inv(cat, s)
    ensures Inv(cat, HandleIssueSelect(cat, s, issue)) && Extends(s, HandleIssueSelect(cat, s, issue))
  {
    if s.category.Some? {
      var flow := cat.flows[s.category.value];
      assert |flow.prompts| > 0;
      var s1 := ResetTriage(s).(issue := Some(issue));
      assert AnsweredIds(cat, s1) == [];
      var s2 := Append(s1, User, cat.copy.issueAck + issue, NoMeta);
      AppendKeeps(s1, User, cat.copy.issueAck + issue, NoMeta);
      var s3 := Append(s2, Bot, cat.copy.promptsIntro, NoMeta);
      AppendKeeps(s2, Bot, cat.copy.promptsIntro, NoMeta);
      AskPromptKeeps(s3, flow.prompts[0]);
    }
  }

  /** `PromptIds(ps)[..i + 1]` adds exactly the id of prompt `i`. */
  lemma AnsweredIdsStep(ps: seq<Prompt>, i: nat)
    requires i < |ps|
    ensures PromptIds(ps)[..i + 1] == PromptIds(ps)[..i] + [ps[i].id]
  {
  }

  /** Two messages with the next two ids, in either order, keep the ids fresh and distinct. */
  lemma AppendPairFresh(msgs: seq<Message>, n: nat, a: Message, b: Message)
    requires IdsFresh(msgs, n)
    requires {a.id, b.id} == {n, n + 1}
    ensures IdsFresh(msgs + [a, b], n + 2)
  {
  }

  /** Finalizing a state with a category and a truthy issue that was not yet complete. */
  lemma FinalizeCompletes(cat: Catalog, s: Session)
    requires Typed(cat, s) && s.category.Some? && Truthy(s.issue) && IdsFresh(s.messages, s.nextId)
    ensures var t := Finalize(cat, s, false, None);
      && t.complete && t.playbookSent && t.pendingFb == Some(s.nextId)
      && IdsFresh(t.messages, t.nextId) && IsBotMessage(t.messages, s.nextId)
      && s.messages <= t.messages && s.nextId <= t.nextId
      && t == s.(complete := true, playbookSent := true, messages := t.messages, nextId := t.nextId, pendingFb := t.pendingFb)
  {
    var t := Finalize(cat, s, false, None);
    var n := |s.messages|;
    assert |t.messages| == n + 2 && t.messages == s.messages + [t.messages[n], t.messages[n + 1]];
    AppendPairFresh(s.messages, s.nextId, t.messages[n], t.messages[n + 1]);
    BotMessageAt(t.messages, |s.messages| + 1);
  }

  /** The answered state before the next prompt is asked or the triage is finalized. */
  function Answered(cat: Catalog, s: Session, answer: string): Session
    requires Typed(cat, s) && s.stepIndex < |Prompts(cat, s)|
  {
    s.(answers := s.answers[Prompts(cat, s)[s.stepIndex].id := answer], stepIndex := s.stepIndex + 1)
  }

  /** Recording an answer keeps the triage consistent, the step index one further. */
  lemma AnsweredConsistent(cat: Catalog, s: Session, answer: string)
    requires Typed(cat, s) && TriageConsistent(cat, s) && s.category.Some? && Truthy(s.issue)
    requires s.stepIndex < |Prompts(cat, s)|
    ensures var a := Answered(cat, s, answer);
      Typed(cat, a) && a.stepIndex <= |Prompts(cat, a)|
      && (forall k :: k in a.answers <==> k in AnsweredIds(cat, a))
  {
    AnsweredIdsStep(Prompts(cat, s), s.stepIndex);
  }

  /** An answer before the last prompt: the next prompt is asked. */
  lemma AnswerMidInv(cat: Catalog, s: Session, answer: string)
    requires Inv(cat, s) && s.category.Some? && Truthy(s.issue) && s.stepIndex + 1 < |Prompts(cat, s)|
    ensures var t := AskPrompt(Answered(cat, s, answer), Prompts(cat, s)[s.stepIndex + 1]);
      Inv(cat, t) && Extends(s, t)
  {
    var a := Answered(cat, s, answer);
    AnsweredConsistent(cat, s, answer);
    assert TriageConsistent(cat, a);
    AskPromptKeeps(a, Prompts(cat, s)[s.stepIndex + 1]);
  }

  /** The answer to the last prompt: the triage is finalized. */
  lemma AnswerLastInv(cat: Catalog, s: Session, answer: string)
    requires Inv(cat, s) && s.category.Some? && Truthy(s.issue) && s.stepIndex + 1 == |Prompts(cat, s)|
    ensures var s1 := s.(answers := s.answers[Prompts(cat, s)[s.stepIndex].id := answer]);
      var t := Finalize(cat, s1, false, None).(stepIndex := s.stepIndex + 1);
      Inv(cat, t) && Extends(s, t)
  {
    var s1 := s.(answers := s.answers[Prompts(cat, s)[s.stepIndex].id := answer]);
    AnsweredConsistent(cat, s, answer);
    FinalizeCompletes(cat, s1);
    var t := Finalize(cat, s1, false, None).(stepIndex := s.stepIndex + 1);
    assert t == Answered(cat, s, answer).(complete := true, playbookSent := true, messages := t.messages,
                                          nextId := t.nextId, pendingFb := t.pendingFb);
    assert TriageConsistent(cat, t);
  }

  lemma AnswerMidShape(cat: Catalog, s: Session, answer: string)
    requires Typed(cat, s) && s.category.Some? && Truthy(s.issue) && s.stepIndex + 1 < |Prompts(cat, s)|
    ensures HandlePromptAnswer(cat, s, answer) == AskPrompt(Answered(cat, s, answer), Prompts(cat, s)[s.stepIndex + 1])
  {
  }

  lemma AnswerLastShape(cat: Catalog, s: Session, answer: string)
    requires Typed(cat, s) && s.category.Some? && Truthy(s.issue) && s.stepIndex + 1 == |Prompts(cat, s)|
    ensures HandlePromptAnswer(cat, s, answer)
      == Finalize(cat, s.(answers := s.answers[Prompts(cat, s)[s.stepIndex].id := answer]), s.complete, None).(stepIndex := s.stepIndex + 1)
  {
  }

  lemma PromptAnswerInv(cat: Catalog, s: Session, answer: string)
    requires Inv(cat, s)
    ensures Inv(cat, HandlePromptAnswer(cat, s, answer)) && Extends(s, HandlePromptAnswer(cat, s, answer))
  {
    if s.category.Some? && Truthy(s.issue) && s.stepIndex < |Prompts(cat, s)| {
      assert !s.complete;
      if s.stepIndex + 1 < |Prompts(cat, s)| {
        AnswerMidShape(cat, s, answer);
        AnswerMidInv(cat, s, answer);
      } else {
        AnswerLastShape(cat, s, answer);
        AnswerLastInv(cat, s, answer);
      }
    }
  }

  lemma PromptChoiceInv(cat: Catalog, s: Session, promptId: string, option: string)
    requires Inv(cat, s)
    ensures var t := HandlePromptChoiceSelect(cat, s, promptId, option);
      Inv(cat, t) && Extends(s, t)
  {
    if HandlePromptChoiceSelect(cat, s, promptId, option) != s {
      var s1 := Append(s, User, option, NoMeta);
      AppendKeeps(s, User, option, NoMeta);
      assert Prompts(cat, s1) == Prompts(cat, s);
      assert AnsweredIds(cat, s1) == AnsweredIds(cat, s);
      PromptAnswerInv(cat, s1, option);
    }
  }

  lemma OptionSelectInv(cat: Catalog, s: Session, meta: Meta, option: string)
    requires Inv(cat, s)
    ensures Inv(cat, HandleOptionSelect(cat, s, meta, option)) && Extends(s, HandleOptionSelect(cat, s, meta, option))
  {
    match meta
    case IssueOptions(_) => IssueSelectInv(cat, s, option);
    case PromptChoice(promptId, _) => PromptChoiceInv(cat, s, promptId, option);
    case NoMeta =>
  }

  lemma ProcessInv(cat: Catalog, s: Session, userText: string, reply: string)
    requires InvButFeedback(cat, s)
    ensures var t := HandleProcess(cat, s, userText, reply);
      Inv(cat, t) && Extends(s, t)
  {
    var s1 := s.(lastUserText := userText);
    var sel := SelectedCategory(cat, s);
    if !s.playbookSent && sel.Some? {
      var g := GuideText(cat, sel.value);
      assert HandleProcess(cat, s, userText, reply) == Append(s1, Bot, g, NoMeta).(playbookSent := true, pendingFb := Some(s.nextId));
      BotReplyKeeps(cat, s, userText, g, true);
    } else {
      var text := if reply != "" then reply else cat.copy.emptyReply;
      assert HandleProcess(cat, s, userText, reply) == Append(s1, Bot, text, NoMeta).(pendingFb := Some(s.nextId), loading := false);
      BotReplyKeeps(cat, s, userText, text, s.playbookSent);
    }
  }

  /** A bot reply that carries the feedback buttons keeps the invariant, whatever its text. */
  lemma BotReplyKeeps(cat: Catalog, s: Session, userText: string, text: string, sent: bool)
    requires InvButFeedback(cat, s) && (s.playbookSent ==> sent)
    ensures var t := Append(s.(lastUserText := userText), Bot, text, NoMeta).(playbookSent := sent, pendingFb := Some(s.nextId), loading := false);
      Inv(cat, t) && Extends(s, t)
  {
    AppendKeeps(s.(lastUserText := userText), Bot, text, NoMeta);
  }

  /** Appending the user's message keeps the invariant (the feedback target included). */
  lemma PostedInv(cat: Catalog, s: Session, text: string)
    requires Inv(cat, s)
    ensures Inv(cat, Posted(s, text)) && Extends(s, Posted(s, text))
    ensures Prompts(cat, Posted(s, text)) == Prompts(cat, s)
  {
    AppendKeeps(s, User, text, NoMeta);
    assert AnsweredIds(cat, Posted(s, text)) == AnsweredIds(cat, s);
  }

  lemma SendInv(cat: Catalog, s: Session, reply: string)
    requires Inv(cat, s)
    ensures Inv(cat, HandleSend(cat, s, reply)) && Extends(s, HandleSend(cat, s, reply))
  {
    var t := Trim(s.input);
    if !(t == "" || s.loading || !s.accepted || s.category.None?) {
      PostedInv(cat, s, t);
      if !Truthy(s.issue) {
        AppendKeeps(Posted(s, t), Bot, cat.copy.reminder, NoMeta);
      } else if CurrentPrompt(cat, s).Some? && !s.complete {
        PromptAnswerInv(cat, Posted(s, t), t);
      } else {
        ProcessInv(cat, Posted(s, t), t, reply);
      }
    }
  }

  lemma EscalateInv(cat: Catalog, s: Session, attempt: Attempt)
    requires Inv(cat, s)
    ensures var t := Escalate(s, attempt).0;
      Inv(cat, t) && Extends(s, t)
  {
    if !s.escalated {
      AppendKeeps(s.(escalated := true, loading := false), System, attempt.text, NoMeta);
    }
  }

  /** The mount effect keeps the invariant. */
  lemma SeedInv(cat: Catalog, s: Session, context: Option<string>, reply: string)
    requires Inv(cat, s)
    ensures var t := SeedContext(cat, s, context, reply);
      Inv(cat, t) && Extends(s, t)
  {
    var ctx := ContextText(context);
    if ctx != "" {
      PostedInv(cat, s, ctx);
      ProcessInv(cat, Seeded(s, ctx), ctx, reply);
    }
  }

  lemma EscalationRequestInv(cat: Catalog, s: Session, attempt: Attempt)
    requires Inv(cat, s)
    ensures var t := HandleEscalationRequest(s, attempt).0;
      Inv(cat, t) && Extends(s, t)
  {
    var s0 := s.(pendingFb := None);
    if !s0.escalated {
      AppendKeeps(s0.(escalated := true, loading := false), System, attempt.text, NoMeta);
    }
  }

  /** Every action keeps the invariant and only ever extends the transcript. */
  lemma StepInv(cat: Catalog, s: Session, a: Action)
    requires Inv(cat, s)
    ensures Inv(cat, Step(cat, s, a)) && Extends(s, Step(cat, s, a))
  {
    match a
    case Accept => AcceptInv(cat, s);
    case SelectCategory(id) => CategorySelectInv(cat, s, id);
    case SelectOption(meta, option) => OptionSelectInv(cat, s, meta, option);
    case RestartFlow => RestartInv(cat, s);
    case ResetCategory => ResetCategoryInv(cat, s);
    case TypeInput(text) =>
    case Send(reply) => SendInv(cat, s, reply);
    case RequestEscalation(attempt) => EscalationRequestInv(cat, s, attempt);
  }

  /** Every state reachable through the actions satisfies the invariant. */
  lemma {:induction false} RunInv(cat: Catalog, s: Session, actions: seq<Action>)
    requires Inv(cat, s)
    ensures Inv(cat, Run(cat, s, actions)) && Extends(s, Run(cat, s, actions))
    decreases |actions|
  {
    if |actions| > 0 {
      StepInv(cat, s, actions[0]);
      RunInv(cat, Step(cat, s, actions[0]), actions[1..]);
    }
  }

  /** Every state the mounted screen reaches, over well-formed tables, satisfies the invariant. */
  lemma ReachableInv(cat: Catalog, actions: seq<Action>)
    requires WellFormed(cat)
    ensures Inv(cat, Run(cat, Initial(cat), actions))
  {
    InitialInv(cat);
    RunInv(cat, Initial(cat), actions);
  }

  /**
   * The same for a screen opened with a `context` parameter: the seed effect runs once, on
   * mount, before any action.
   */
  lemma SeededReachableInv(cat: Catalog, context: Option<string>, reply: string, actions: seq<Action>)
    requires WellFormed(cat)
    ensures Inv(cat, Run(cat, SeedContext(cat, Initial(cat), context, reply), actions))
  {
    InitialInv(cat);
    SeedInv(cat, Initial(cat), context, reply);
    RunInv(cat, SeedContext(cat, Initial(cat), context, reply), actions);
  }
}
