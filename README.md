# HelpLine mobile app: chat triage and screen logic, in Dafny

This project models the HelpLine support app, a React Native client for a ticketing backend. About half of it is the chat screen (`app/tabs/chatbot.tsx`). There a user goes through these steps:

- accepts the data-protection notice;
- picks a category, then one of that category's listed problems;
- answers the category's scripted questions.

The user then receives the category's follow-up guide. From there the user can either chat with an assistant or escalate to a human analyst, which opens a ticket.

The rest covers the small pieces of logic in the other screens:

- the article search and category chips;
- the ticket list: filters, query, which endpoint is used, and how tickets are normalised;
- the report export to CSV;
- the registration guards and the department list;
- the body of the registration request;
- the manager test and greeting on the home screen;
- the initial and role line on the profile screen;
- the assistant client with its offline responder.

## How the model is organised

- **Chat screen: a pure state machine.** The chat screen's state is a `Session` value. Module `TriageSession` defines one transition function per handler.
- **Chat screen: the invariant.** `TriageInvariant` proves that every handler keeps an invariant `Inv`. Every reachable state therefore satisfies it (`ReachableInv`). `Inv` means:
  - message ids are fresh and distinct;
  - the feedback buttons sit under a bot message;
  - the step index and the recorded answers agree with the flow;
  - a complete triage has sent its guide.
- **Chat screen: the class.** `Chatbot.ChatScreen` is the screen itself. Its handlers are methods that update its `state` field one setter at a time, in the order the source calls the setters. Each method is proved to end in the state the transition function gives, and to keep `Inv`.
- **Tables.** The app's categories, flows, guides and fixed texts are one `Catalog` value, `TriageCatalog.CATALOG`. It is proved well formed once; the transitions are stated over any well-formed catalogue.
- **Remote calls are inputs.** These include:
  - the assistant call;
  - `/auth/me`;
  - `POST /tickets` and its follow-up posts;
  - the list, profile, register and department calls;
  - the clock used in the provisional protocol.

  Each handler takes the outcome of each call as a parameter, so every property holds for every answer the services could give.
- **Ticket screen.** It is a class, `Tickets.TicketsScreen`, whose filter lists and load state change in place.
- **Other screens.** Their derivations are functions on values.
- **Query strings.** They are built as in the source, one `set` after another. The building methods are proved against `Services.Lookup`.

## Model

| member | source | states |
|---|---|---|
| TriageCatalog.FindCategory | app/tabs/chatbot.tsx:342 | `find` by id returns a catalogued category with that id, and returns nothing exactly when no category has the id |
| TriageCatalog.CategoryIds | app/tabs/chatbot.tsx:39-46 | the categories' ids, in order, are the six ids of the category table |
| TriageCatalog.FlowKeys | app/tabs/chatbot.tsx:120-260 | the flow table is keyed by exactly the category ids |
| TriageCatalog.GuideKeys | app/tabs/chatbot.tsx:48-119 | the guide table is keyed by the category ids plus `default` |
| TriageCatalog.CategoryFound | app/tabs/chatbot.tsx:39-46 | every category id is found in the category list |
| TriageCatalog.CategoryIdListed | app/tabs/chatbot.tsx:39-46 | a listed category's id is one of the category ids |
| TriageCatalog.CategoriesHaveFlows | app/tabs/chatbot.tsx:692 | every listed category has a flow, so `TRIAGE_FLOWS[categoryId]` is always defined |
| TriageCatalog.CategoriesHaveGuides | app/tabs/chatbot.tsx:282 | every listed category has a follow-up guide |
| TriageCatalog.FlowsHaveGuides | app/tabs/chatbot.tsx:282 | every flow's category has its own guide |
| TriageCatalog.FlowsAreCatalogued | app/tabs/chatbot.tsx:120-260 | every flow belongs to a listed category |
| TriageCatalog.GuidesAreCatalogued | app/tabs/chatbot.tsx:48-119 | every guide except `default` belongs to a category with a flow, and the `default` guide exists |
| TriageCatalog.DefaultKeyIsNotACategory | app/tabs/chatbot.tsx:282 | no category is called `default`, so `category ?? 'default'` never picks another category's guide |
| TriageCatalog.CategoryIdsUnique | app/tabs/chatbot.tsx:39-46 | category ids are pairwise distinct |
| TriageCatalog.PromptIdsUnique | app/tabs/chatbot.tsx:120-260 | within each flow, prompt ids are distinct, so answers keyed by prompt id never collide |
| TriageCatalog.FindCategoryCatalogued | app/tabs/chatbot.tsx:671-672 | an id is found exactly when it has a flow |
| TriageCatalog.FlowsNonEmpty | app/tabs/chatbot.tsx:120-260 | every flow offers four issues and asks two or three prompts |
| TriageCatalog.TablesCovered | app/tabs/chatbot.tsx:39-260 | the app's three tables cover each other (categories, flows, guides, `default`) |
| TriageCatalog.TablesUsable | app/tabs/chatbot.tsx:120-260 | every flow of the app has issues, at least one prompt and distinct prompt ids |
| TriageCatalog.TextsUsable | app/tabs/chatbot.tsx:619 | the fixed fallback reply is not blank and there are quick replies |
| TriageCatalog.CatalogWellFormed | app/tabs/chatbot.tsx:39-260 | the app's tables and texts satisfy everything the triage relies on |
| TriageText.FormatPromptText | app/tabs/chatbot.tsx:262-267 | the text is the question, followed by the choose-an-option hint exactly when the prompt is a choice prompt with options |
| TriageText.NumberedSteps | app/tabs/chatbot.tsx:283 | one line per step, line `i` being `i+1. ` followed by step `i` |
| TriageText.GuideLines | app/tabs/chatbot.tsx:281-285 | when no step or title holds a line break, the guide's lines are the title and then `i. step` for each step, in order |
| TriageText.FollowUpMessageShape | app/tabs/chatbot.tsx:281-285 | the follow-up message starts with the guide's title line and contains every numbered step |
| TriageText.BuildTriageSummaryLines | app/tabs/chatbot.tsx:269-279 | the `forEach` loop that pushes lines builds exactly `SummaryLines` |
| TriageText.AnswerLinesBound | app/tabs/chatbot.tsx:272-277 | at most one line per prompt |
| TriageText.AnswerLinesComplete | app/tabs/chatbot.tsx:273-276 | every prompt with a truthy answer appears as `question: answer` |
| TriageText.AnswerLinesSound | app/tabs/chatbot.tsx:273-276 | every line is the line of some prompt with a truthy answer |
| TriageText.SummaryShape | app/tabs/chatbot.tsx:270-271 | the summary is empty exactly when the issue is falsy, otherwise it starts with the issue line, and its length is bounded by 1 + the number of prompts |
| TriageSession.SelectedCategory | app/tabs/chatbot.tsx:341-344 | `selectedCategory` is present exactly when a category id is set, and then it is the catalogued category with that id |
| TriageSession.CurrentPrompt | app/tabs/chatbot.tsx:348-351 | `currentPrompt` is present exactly when there is a category, a truthy issue and a prompt at the step index, and then it is that prompt |
| TriageSession.Bulleted | app/tabs/chatbot.tsx:610 | every summary line is prefixed by `- `, with the order and count kept |
| Keywords.MentionsAnyWitness | src/services/chatgpt.ts:13 | an `includes` chain holds exactly when one of its words occurs in the text |
| Keywords.FirstGroup | app/tabs/chatbot.tsx:575-580 | the index of the first keyword group the text mentions: that group matches and no earlier one does |
| Keywords.FirstGroupUnique | app/tabs/chatbot.tsx:575-580 | any index with the first-match property is the one `FirstGroup` returns |
| Conversation.ToChatMessages | app/tabs/chatbot.tsx:614-617 | one chat message per message, with the role mapped (user, system, all others assistant) and the text kept |
| Conversation.HistoryLines | app/tabs/chatbot.tsx:716 | one `sender: text` line per message, in order |
| Conversation.HistoryBound | app/tabs/chatbot.tsx:716 | the history is at most 8000 characters (Unicode scalars) long and is a prefix of the full joined transcript |
| Conversation.HistoryMentionsEveryMessage | app/tabs/chatbot.tsx:716 | when the transcript fits in 8000 characters (Unicode scalars), every message appears in the history |
| Assistant.LastUserMessage | src/services/chatgpt.ts:11 | a user message of the list when there is one, and nothing exactly when there is none; `LastUserMessageSkips` and `LastUserMessageAppend` pin it to the latest one |
| Assistant.RespostaMockFirstMatch | src/services/chatgpt.ts:10-23 | the offline reply is the reply of the first keyword group the lower-cased latest user text mentions, or the default |
| Assistant.RespostaMockIgnoresLaterReplies | src/services/chatgpt.ts:11 | non-user messages after the latest user message do not change the reply |
| Assistant.RespostaMockIgnoresEarlier | src/services/chatgpt.ts:11 | messages before the latest user message do not change the reply |
| Assistant.RespostaMockIgnoresCase | src/services/chatgpt.ts:12 | texts equal up to ASCII case get the same reply |
| Assistant.RespostaMockWithoutUser | src/services/chatgpt.ts:12 | without a user message, the reply is the default one |
| Assistant.LastUserMessageSkips | src/services/chatgpt.ts:11 | appending non-user messages keeps the latest user message |
| Assistant.LastUserMessageAppend | src/services/chatgpt.ts:11 | a suffix that holds a user message decides the latest user message |
| Assistant.FirstTruthy | src/services/chatgpt.ts:41 | `a \|\| b \|\| c` returns the first truthy value, and is truthy exactly when one of them is |
| Assistant.ServedCases | src/services/chatgpt.ts:26-46 | with a backend and a backend text, the reply is that text trimmed; otherwise it is the offline reply |
| Assistant.RespostaMockNonEmpty | src/services/chatgpt.ts:10-23 | the offline reply is never empty |
| Assistant.ReplyOrFallback | src/services/chatgpt.ts:25-47 | `enviarParaChatGPT` returns the trimmed backend text when one comes back, and otherwise the offline reply |
| Assistant.EmptyReplyOnlyFromBlankBackendText | src/services/chatgpt.ts:41-43 | the reply is empty exactly when the backend sent a text made only of whitespace |
| Escalation.ClassifyFirstMatch | app/tabs/chatbot.tsx:572-581 | without a selected category, the first keyword group the lower-cased text mentions decides the ticket category |
| Escalation.ClassificationIsTabled | app/tabs/chatbot.tsx:700-723 | every classification is a key of the category-id table, so its id is between 1 and 6 |
| Escalation.CategoryIdsDistinct | app/tabs/chatbot.tsx:702-709 | distinct classifier names get distinct ids |
| Escalation.UnknownCategoryIsOutros | app/tabs/chatbot.tsx:723 | a name outside the table is filed like `Outros` |
| Escalation.LevelIds | app/tabs/chatbot.tsx:583-584 | the level id is 2 for Hardware and Rede, 3 for Software and Sistema Operacional, and 1 otherwise |
| Escalation.Title | app/tabs/chatbot.tsx:715 | the title is at most 120 characters (Unicode scalars), is a prefix of the last user text, is all of it when it fits, and is the default title when there is none |
| Escalation.SyncPosts | app/tabs/chatbot.tsx:734-751 | three follow-up posts when there is a last user text, two otherwise |
| Escalation.EscalationOutcomes | app/tabs/chatbot.tsx:696-774 | when both services answer, the chat shows the routing notice with the returned protocol; otherwise it shows the provisional `HL-` protocol |
| Escalation.SyncFailuresAreSwallowed | app/tabs/chatbot.tsx:752-754 | the text shown does not depend on how far the follow-up posts got |
| Escalation.EscalationCalls | app/tabs/chatbot.tsx:713-751 | `/auth/me` is asked first; a ticket is opened only when it answered; the follow-up posts go to the ticket only when the ticket service answered too, and stop at the first one that fails |
| Escalation.DraftShape | app/tabs/chatbot.tsx:719-729 | every ticket has a bounded title, the truncated history, a tabled category, a level id, high priority and origin `mobile` |
| TriageInvariant.InitialInv | app/tabs/chatbot.tsx:292-315 | the mounted screen satisfies the invariant |
| TriageInvariant.AcceptInv | app/tabs/chatbot.tsx:659-668 | accepting keeps the invariant and extends the transcript |
| TriageInvariant.CategorySelectInv | app/tabs/chatbot.tsx:670-694 | selecting a category keeps the invariant |
| TriageInvariant.RestartInv | app/tabs/chatbot.tsx:488-499 | restarting the flow keeps the invariant |
| TriageInvariant.ResetCategoryInv | app/tabs/chatbot.tsx:501-515 | resetting the category keeps the invariant |
| TriageInvariant.IssueSelectInv | app/tabs/chatbot.tsx:527-550 | selecting an issue keeps the invariant |
| TriageInvariant.PromptAnswerInv | app/tabs/chatbot.tsx:552-570 | answering a prompt keeps the invariant |
| TriageInvariant.PromptChoiceInv | app/tabs/chatbot.tsx:477-486 | a choice button keeps the invariant |
| TriageInvariant.OptionSelectInv | app/tabs/chatbot.tsx:517-525 | an option button keeps the invariant |
| TriageInvariant.ProcessInv | app/tabs/chatbot.tsx:586-634 | `handleProcess` re-establishes the invariant, the feedback target included |
| TriageInvariant.PostedInv | app/tabs/chatbot.tsx:639-641 | echoing the user's text keeps the invariant and the flow |
| TriageInvariant.SendInv | app/tabs/chatbot.tsx:636-657 | sending keeps the invariant |
| TriageInvariant.EscalateInv | app/tabs/chatbot.tsx:696-774 | escalating keeps the invariant, whatever the services answer |
| TriageInvariant.SeedInv | app/tabs/chatbot.tsx:323-332 | seeding the chat from a context parameter keeps the invariant |
| TriageInvariant.EscalationRequestInv | app/tabs/chatbot.tsx:776-779 | an escalation request keeps the invariant |
| TriageInvariant.StepInv | app/tabs/chatbot.tsx:437-779 | every user action keeps the invariant and only extends the transcript; acceptance and escalation are never undone |
| TriageInvariant.RunInv | app/tabs/chatbot.tsx:437-779 | any sequence of actions keeps the invariant |
| TriageInvariant.ReachableInv | app/tabs/chatbot.tsx:289-779 | every state a screen mounted without a `context` parameter reaches satisfies the invariant |
| TriageInvariant.SeededReachableInv | app/tabs/chatbot.tsx:323-332 | a screen mounted with a `context` parameter runs the seed effect once, before any action, and every state it then reaches satisfies the invariant too |
| TriageInvariant.FinalizeCompletes | app/tabs/chatbot.tsx:460-475 | finalizing an incomplete triage marks it complete and its guide sent, appends two messages with fresh ids, puts the feedback under the bot message with the earlier id, and changes nothing else |
| TriageProperties.AcceptOnce | app/tabs/chatbot.tsx:659-668 | accepting appends the consent message once; a second accept changes nothing |
| TriageProperties.SelectableIffCatalogued | app/tabs/chatbot.tsx:671-672 | over covered tables, an id is found exactly when it has a flow |
| TriageProperties.UnknownCategoryIgnored | app/tabs/chatbot.tsx:672 | an id without a flow leaves the state unchanged |
| TriageProperties.CategorySelect | app/tabs/chatbot.tsx:670-694 | selecting a catalogued category sets it, clears the triage, and appends the two acknowledgements and the issue options |
| TriageProperties.ResetCategory | app/tabs/chatbot.tsx:501-515 | resetting clears the category and the triage and says so; without a category it does nothing |
| TriageProperties.RestartKeepsCategory | app/tabs/chatbot.tsx:488-499 | restarting keeps the category, clears the triage and offers the same issues again |
| TriageProperties.IssueSelectStartsFlow | app/tabs/chatbot.tsx:527-550 | choosing an issue records it, clears the answers, and asks the first prompt after the two acknowledgements |
| TriageProperties.TwoThenPrompt | app/tabs/chatbot.tsx:544-546 | two messages and a prompt are appended in that order with consecutive ids |
| TriageProperties.AnswerAsksNext | app/tabs/chatbot.tsx:557-569 | before the last prompt, the answer is stored under the prompt's id, the index advances and the next prompt is asked |
| TriageProperties.AnswerCompletes | app/tabs/chatbot.tsx:559-563 | the last answer completes the triage and sends the guide |
| TriageProperties.AnswerStep | app/tabs/chatbot.tsx:552-570 | every answer is stored under the current prompt's id and advances the index by one |
| TriageProperties.FinalizeOnce | app/tabs/chatbot.tsx:463 | finalizing a complete triage does nothing, so the guide is sent at most once |
| TriageProperties.CompletionIsFinal | app/tabs/chatbot.tsx:478 | once complete, neither a typed nor a chosen answer changes anything |
| TriageProperties.ChoiceCountsOnlyForCurrentPrompt | app/tabs/chatbot.tsx:477-486 | a choice button counts exactly when it belongs to the prompt being asked in a live triage; otherwise nothing changes |
| TriageProperties.SendIgnored | app/tabs/chatbot.tsx:637-638 | blank text, a pending call, no consent or no category: sending does nothing |
| TriageProperties.SendWithoutIssue | app/tabs/chatbot.tsx:643-649 | with no issue, the text is echoed and the user is reminded to pick one |
| TriageProperties.PostedThenBot | app/tabs/chatbot.tsx:639-647 | echo plus one bot message: two messages more and the input cleared |
| TriageProperties.SendToPrompt | app/tabs/chatbot.tsx:651-654 | while a prompt is asked, the trimmed text is echoed and taken as its answer |
| TriageProperties.SendToAssistant | app/tabs/chatbot.tsx:656 | otherwise the echoed text goes to `handleProcess` |
| TriageProperties.SendAnswersPrompt | app/tabs/chatbot.tsx:636-654 | on a reachable state with a pending prompt, sending records the answer and advances the triage |
| TriageProperties.ProcessSendsGuide | app/tabs/chatbot.tsx:589-596 | the first free text after a category is chosen gets the guide, not the assistant |
| TriageProperties.ProcessShowsReply | app/tabs/chatbot.tsx:598-633 | otherwise the assistant's reply is appended with the feedback under it and the spinner off |
| TriageProperties.NoPromptMeansComplete | app/tabs/chatbot.tsx:651 | on a reachable state with an issue and no pending prompt, the triage is complete and its guide sent |
| TriageProperties.PostedAfterGuide | app/tabs/chatbot.tsx:598-624 | after the guide, a sent text is followed by the assistant's reply |
| TriageProperties.FreeTextReachesAssistant | app/tabs/chatbot.tsx:651-656 | on a reachable state, free text after the triage always reaches the assistant |
| TriageProperties.SeedContextAsks | app/tabs/chatbot.tsx:323-332 | a blank context changes nothing; otherwise it is sent as the first user message with consent taken as given |
| TriageProperties.SeededThenReply | app/tabs/chatbot.tsx:330 | the seeded text, sent without a category, goes straight to the assistant |
| TriageProperties.AssistantBubble | app/tabs/chatbot.tsx:619 | the bubble shows the assistant's answer when it has text, and the fixed prompt otherwise |
| TriageProperties.ConversationShape | app/tabs/chatbot.tsx:602-612 | the assistant sees the summary, then the category context, then the transcript and the new text |
| TriageProperties.EscalateOnce | app/tabs/chatbot.tsx:697 | a second escalation does nothing and makes no call |
| TriageProperties.EscalationNotice | app/tabs/chatbot.tsx:776-779 | a request hides the feedback buttons, marks the chat escalated and posts the notice as a system message |
| TriageProperties.QuickRepliesShown | app/tabs/chatbot.tsx:358-361 | quick replies are shown exactly when the triage of a chosen category is complete |
| TriageProperties.PlaceholderFollowsPrompt | app/tabs/chatbot.tsx:367-369 | while a prompt is asked, the placeholder is the prompt's own, or else its question |
| Chatbot.ChatScreen.constructor | app/tabs/chatbot.tsx:292-315 | the mounted screen holds only the welcome message and satisfies the invariant |
| Chatbot.ChatScreen.Push | app/tabs/chatbot.tsx:445 | one message with a fresh id is appended |
| Chatbot.ChatScreen.ClearTriage | app/tabs/chatbot.tsx:491-496 | the shared resets, one setter after another |
| Chatbot.ChatScreen.HandleAccept | app/tabs/chatbot.tsx:659-668 | the new state is `TriageSession.HandleAccept` of the old one, and the invariant holds |
| Chatbot.ChatScreen.PromptIssueSelection | app/tabs/chatbot.tsx:437-446 | the issue options are appended when the flow has issues |
| Chatbot.ChatScreen.AskPrompt | app/tabs/chatbot.tsx:448-458 | the prompt message is appended, with buttons for a choice prompt |
| Chatbot.ChatScreen.CloseTriage | app/tabs/chatbot.tsx:464-474 | the triage is marked complete and the guide and closing messages are appended, the closing message getting the earlier id and the feedback |
| Chatbot.ChatScreen.FinalizeStructuredTriage | app/tabs/chatbot.tsx:460-475 | the new state is `Finalize` of the old one |
| Chatbot.ChatScreen.HandleCategorySelect | app/tabs/chatbot.tsx:670-694 | the new state is the transition's result, and the invariant holds |
| Chatbot.ChatScreen.RestartTriageFlow | app/tabs/chatbot.tsx:488-499 | the new state is the transition's result, and the invariant holds |
| Chatbot.ChatScreen.HandleResetCategory | app/tabs/chatbot.tsx:501-515 | the new state is the transition's result, and the invariant holds |
| Chatbot.ChatScreen.HandleIssueSelect | app/tabs/chatbot.tsx:527-550 | the new state is the transition's result, and the invariant holds |
| Chatbot.ChatScreen.HandlePromptAnswer | app/tabs/chatbot.tsx:552-570 | the new state is the transition's result |
| Chatbot.ChatScreen.HandlePromptChoiceSelect | app/tabs/chatbot.tsx:477-486 | the new state is the transition's result, and the invariant holds |
| Chatbot.ChatScreen.HandleOptionSelect | app/tabs/chatbot.tsx:517-525 | the new state is the transition's result, and the invariant holds |
| Chatbot.ChatScreen.SetInput | app/tabs/chatbot.tsx:300 | only the input changes, and the invariant holds |
| Chatbot.ChatScreen.ShowGuide | app/tabs/chatbot.tsx:589-596 | the guide is appended with the feedback under it, and the playbook is marked sent |
| Chatbot.ChatScreen.ShowAnswer | app/tabs/chatbot.tsx:619-632 | the reply, or the fixed prompt when it is empty, is appended with the feedback under it and the spinner off |
| Chatbot.ChatScreen.HandleProcess | app/tabs/chatbot.tsx:586-634 | the new state is the transition's result for the reply the assistant call resolves to |
| Chatbot.ChatScreen.HandleSend | app/tabs/chatbot.tsx:636-657 | the new state is the transition's result, and the invariant holds |
| Chatbot.ChatScreen.SeedContext | app/tabs/chatbot.tsx:323-332 | the new state is the mount effect's result, and the invariant holds |
| Chatbot.ChatScreen.PostNotice | app/tabs/chatbot.tsx:756-772 | the chat is marked escalated, the spinner is off, and the notice is appended as a system message |
| Chatbot.ChatScreen.Escalate | app/tabs/chatbot.tsx:696-774 | the new state and the calls made are `Escalate`'s result for the services' answers, and the invariant holds |
| Chatbot.ChatScreen.HandleEscalationRequest | app/tabs/chatbot.tsx:776-779 | the feedback is hidden, then the screen escalates, and the invariant holds |
| Articles.FallbackContentNonBlank | app/tabs/artigos.tsx:20-49 | no fallback text is blank |
| Articles.ArticleContentChoice | app/tabs/artigos.tsx:51-56 | the trimmed content if any, else the category's fallback, else the default text |
| Articles.ContentBlankOnlyWhenMissing | app/tabs/artigos.tsx:51-56 | the shown text is blank exactly for a missing article |
| Articles.CategoryNames | app/tabs/artigos.tsx:68 | exactly the non-empty categories of the list |
| Articles.Uniq | app/tabs/artigos.tsx:68-69 | each value once, and the same values |
| Articles.UniqFirstOccurrence | app/tabs/artigos.tsx:69 | values come in the order of their first occurrence |
| Articles.CategoriesListed | app/tabs/artigos.tsx:67-70 | the categories are distinct and are exactly the non-empty categories of the list |
| Articles.ChipsStartWithAll | app/tabs/artigos.tsx:74-80 | the chips are `Tudo` followed by the categories |
| Articles.Items | app/tabs/artigos.tsx:89-101 | exactly the articles that match the category and the text |
| Articles.ItemsInOrder | app/tabs/artigos.tsx:91 | filtering keeps the list's order: it distributes over concatenation |
| Articles.ItemsOfOne | app/tabs/artigos.tsx:91-99 | one article is kept exactly when it matches |
| Articles.BlankQueryListsAll | app/tabs/artigos.tsx:90-95 | a blank query with the `Tudo` chip lists every article |
| Articles.CategoryChipFilters | app/tabs/artigos.tsx:103-104 | a category chip keeps exactly that category's articles whose text matches |
| Tickets.NormalizeReadsPascalCase | app/tabs/chamados.tsx:37-47 | a ticket sent with PascalCase keys is read back unchanged |
| Tickets.NormalizeReadsCamelCase | app/tabs/chamados.tsx:37-47 | a ticket sent with camelCase keys is read back unchanged |
| Tickets.NormalizePrefersPascalCase | app/tabs/chamados.tsx:37-47 | when both spellings are present, the PascalCase one wins |
| Tickets.NormalizeDefaults | app/tabs/chamados.tsx:37-47 | a null or empty ticket gets every default (`''`, `—`, `(Sem título)`, null) |
| Tickets.PrioridadeCor | app/tabs/chamados.tsx:134-146 | red exactly for Critica or Alta, yellow exactly for Media, green exactly for Baixa, grey exactly otherwise |
| Tickets.Without | app/tabs/chamados.tsx:124 | the item is gone, and every other value is kept |
| Tickets.ToggleItem | app/tabs/chamados.tsx:123-126 | the item's membership flips, the other values stay, and a new item goes at the end |
| Tickets.ToggleTwice | app/tabs/chamados.tsx:123-126 | toggling an unselected item twice gives the list back |
| Tickets.BuildQuery | app/tabs/chamados.tsx:79-87 | `page` and `pageSize` come first, and each filter key holds its first selection exactly when that is truthy |
| Tickets.UsersSeeTheirOwn | app/tabs/chamados.tsx:66-69 | a profile whose roles are all empty or `user` in any case prefers `/tickets/mine` |
| Tickets.AnalystsSeeAll | app/tabs/chamados.tsx:68-69 | one non-empty role other than `user` shows all tickets |
| Tickets.NormalizeAll | app/tabs/chamados.tsx:96 | one normalised ticket per item |
| Tickets.NoLoadBeforeProfile | app/tabs/chamados.tsx:90 | before the preference is known, nothing is requested and nothing changes |
| Tickets.EndpointFollowsPreference | app/tabs/chamados.tsx:93-95 | the request goes to `/tickets/mine` exactly when the user's own tickets are preferred, with the query |
| Tickets.LoadShowsTickets | app/tabs/chamados.tsx:95-97 | a successful load shows the normalised items and clears the error and the spinner |
| Tickets.LoadFailure | app/tabs/chamados.tsx:98-108 | a failure shows the error text, except for a 403 with a status while all tickets are shown, which switches to the user's own |
| Tickets.ForbiddenIsShownAsError | app/tabs/chamados.tsx:99-105 | as written, a 403 from the service is shown as `HTTP 403` and never switches to `/tickets/mine` |
| Tickets.ForbiddenSwitchesToMine | app/tabs/chamados.tsx:100-103 | with the status attached, a 403 switches to `/tickets/mine` without an error |
| Tickets.TicketsScreen.constructor | app/tabs/chamados.tsx:50-60 | no selections, no preference, no items, no error |
| Tickets.TicketsScreen.ResolvePreference | app/tabs/chamados.tsx:62-77 | only the preference changes, to the profile's |
| Tickets.TicketsScreen.Toggle | app/tabs/chamados.tsx:123-126 | only the chosen filter list is toggled |
| Tickets.TicketsScreen.LimparFiltros | app/tabs/chamados.tsx:128-132 | the three lists are cleared and nothing else changes |
| Tickets.TicketsScreen.Query | app/tabs/chamados.tsx:79-87 | the query for the current selections, page 1 and size 20 |
| Tickets.TicketsScreen.Carregar | app/tabs/chamados.tsx:89-109 | the new load state and the request are `Load`'s, and the selections are kept |
| Reports.ToggleOne | docs/web/Relatorios.mobile.tsx:67-70 | at most one selection: cleared if the value was selected, otherwise exactly the value |
| Reports.ToggleSwitches | docs/web/Relatorios.mobile.tsx:67-70 | pressing a chip twice clears it; pressing another one switches to it |
| Reports.BuildReportQuery | docs/web/Relatorios.mobile.tsx:31-39 | each key holds its value exactly when that value is truthy, with at most five entries |
| Reports.RowFields | docs/web/Relatorios.mobile.tsx:74-81 | six fields per row |
| Reports.Escaped | docs/web/Relatorios.mobile.tsx:82 | no `;` is left, and the length is kept |
| Reports.HeaderHasNoNewline | docs/web/Relatorios.mobile.tsx:73 | the header line holds no line break |
| Reports.CsvStartsWithHeader | docs/web/Relatorios.mobile.tsx:82 | the first line of the export is the header, whatever the rows hold |
| Reports.RecordHasSixFields | docs/web/Relatorios.mobile.tsx:74-82 | each record splits on `;` into its six escaped fields; the day field is at most 10 characters (Unicode scalars) |
| Reports.RecordIsOneLine | docs/web/Relatorios.mobile.tsx:74-82 | a row without line breaks gives a one-line record |
| Reports.CsvOneRecordPerItem | docs/web/Relatorios.mobile.tsx:72-84 | the export's lines are the header and then exactly one record per row, in order |
| Reports.ReportErrorText | docs/web/Relatorios.mobile.tsx:50-52 | a message with `403` gives the permission text; any other message is shown as is; an empty one gives the load-failed text |
| Reports.Carregar | docs/web/Relatorios.mobile.tsx:41-56 | the placeholder load leaves no rows, no error and no spinner |
| Reports.LoadedExportIsHeaderOnly | docs/web/Relatorios.mobile.tsx:47-48 | after a load, the export is the header alone |
| Services.ErrorText | app/tabs/chamados.tsx:105 | `userMessage`, else `message`, else the fallback; never empty when the fallback is not |
| Services.FirstSelected | app/tabs/chamados.tsx:83 | the first selection exactly when it is truthy |
| Services.NonEmpty | docs/web/Relatorios.mobile.tsx:33-34 | the text exactly when it is truthy |
| Services.SetIfPresent | docs/web/Relatorios.mobile.tsx:33 | the key then holds the value if present and nothing otherwise, every other key is unchanged, and the entry goes at the end |
| Services.SetSelections | app/tabs/chamados.tsx:83-85 | each selection key holds its first truthy selection, and other keys are unchanged |
| Registration.Validate | app/register.tsx:30-44 | the required-fields message exactly when a field is empty; the email message exactly when all are filled and the emails differ; the password message exactly when the emails agree and the passwords differ; nothing exactly when all checks pass |
| Registration.ParamsFor | app/register.tsx:46-54 | the name, email and password are copied; the department is the selected one; the token is absent exactly when empty; role `user`; origin `mobile` |
| Registration.HandleRegister | app/register.tsx:30-63 | `registerUser` is called exactly when validation passes, and with `ParamsFor`; a validation error is shown without navigating; the spinner ends off |
| Registration.RegisterSettles | app/register.tsx:55-59 | a valid form reaches `/login` exactly when the call succeeds; a failure shows `userMessage \|\| message \|\| 'Falha no cadastro.'` |
| Registration.EmailMismatchFirst | app/register.tsx:36-43 | an email mismatch is reported even when the passwords differ too |
| Registration.InitialDepartments | app/register.tsx:10-22 | the fallback list, with `Geral` selected |
| Registration.LoadDepartments | app/register.tsx:65-86 | a non-empty list replaces the list and selects its first name; an empty list keeps both; a failure keeps both and shows the error's message; the spinner ends off |
| Registration.PickDepartment | app/register.tsx:205-208 | a listed department becomes the selection |
| Registration.LoadKeepsSelectionListed | app/register.tsx:70-75 | the selection stays one of the listed departments |
| Registration.FallbackKept | app/register.tsx:70 | on the first load, an empty list or a failure keeps the fallback list and `Geral` |
| Auth.BuildRegisterBody | src/services/auth.ts:26-37 | name, email and password are copied; the department defaults to `Geral`; the role is always `User`; the origin defaults to `mobile`; `inviteToken` is present exactly when the token is truthy, with its value |
| Home.SomeManagerRole | app/home.tsx:83 | true exactly when some role is truthy and exactly `Analyst` or `Admin` |
| Home.IsManager | app/home.tsx:83 | false without a profile or roles; otherwise exactly when some role is a manager role |
| Home.RolesAreCaseSensitive | app/home.tsx:83 | `admin` and `analyst` are not manager roles, and `Admin` after a null and a `user` is one |
| Home.Cards | app/home.tsx:84 | the manager cards exactly for a manager, the user cards otherwise (2 and 3 of them) |
| Home.CardRoutes | app/home.tsx:19-58 | both card sets lead to the tickets and the articles; only the user cards lead to the chat |
| Home.FirstName | app/home.tsx:85 | never empty; `Usuario` without a name; otherwise a space-free prefix of the name, or `Usuario` |
| Home.FirstNameIsFirstWord | app/home.tsx:85 | for a name not starting with a space, the whole first word: it ends at the first space or at the end |
| Home.LeadingSpaceFallsBack | app/home.tsx:85 | a name starting with a space greets `Usuario` |
| Home.FetchProfile | app/home.tsx:66-77 | a reply becomes the profile; a failure keeps the profile and shows `userMessage \|\| message \|\| fallback`; the spinner ends off |
| Home.FailedLoadShowsUserView | app/home.tsx:66-85 | after a failed first load: the user cards, `Usuario`, and a non-empty error |
| Perfil.LoadPerfil | app/tabs/perfil.tsx:16-25 | a reply sets name, email and roles (none when absent); a failure changes nothing |
| Perfil.InitialSource | app/tabs/perfil.tsx:28 | the trimmed name when present, else the trimmed email, else `U` |
| Perfil.Initial | app/tabs/perfil.tsx:27-30 | one character that is not whitespace: `U` when the trimmed source is empty, else its first character upper-cased |
| Perfil.NameTakesPrecedence | app/tabs/perfil.tsx:28 | when a name is present, the email does not matter |
| Perfil.BlankNameHidesEmail | app/tabs/perfil.tsx:28-29 | a name of spaces gives `U` even when the email would give a letter |
| Perfil.InitialOfVisible | app/tabs/perfil.tsx:27-30 | when the text picked (the name if present, else the email) starts and ends with a visible character, the initial is its first character upper-cased |
| Perfil.InitialOfPlainName | app/tabs/perfil.tsx:27-30 | `maria` gives `M`; no name and `joao@x.com` gives `J` |
| Perfil.RoleLabel | app/tabs/perfil.tsx:32 | `User` without roles; otherwise every role appears in the label |
| Perfil.RoleLabelShapes | app/tabs/perfil.tsx:32 | one role is shown as is; two are shown as `a / b` |
| Perfil.DisplayName | app/tabs/perfil.tsx:41 | the name, or `Usuario` when it is empty |
| Perfil.FailedLoadShowsFallbacks | app/tabs/perfil.tsx:21-41 | after a failed load: `Usuario`, `User` and `U` |

## Left out

- Rendering, styles, scrolling, keyboard listeners, the typing indicator's timers, the simulated reply delay (`sleep`), and navigation beyond the route a handler moves to. These are presentation concerns.
- Concurrency and React's batching. Handlers run one after another, each to completion, and `setX((prev) => ...)` and `setX(v)` both apply in program order. The one place where a closure's stale snapshot could differ is `handleIssueSelect` on a flow with no prompts: it calls `finalizeStructuredTriage` with the old `triageComplete`. Every flow of the app has prompts (`TriageCatalog.FlowsNonEmpty`), so that branch is dead. The model says so with an `assert false`.
- Message ids. `newMessageId` combines the clock and a random number. The model uses a counter (`nextId`) and proves only what the app needs: that ids are fresh and distinct.
- Separate state variables. The screen's `useState` variables live together in one `Session` value held by `ChatScreen.state`. Each setter is one field update of that value.
- The `catch` of `handleProcess`. `enviarParaChatGPT` never rejects: every failure of `fetch` becomes the offline reply. The catch branch is therefore unreachable and is not modelled.
- `keyboardVisible`, `inputFocused` and `showContextDetails`. These are view-only state.
- `fetch`, `getJson`, `postJson`, `getMe`, `loginUser`, `getDepartments`, `getFaq`, `getPopularFaq`, `Share.share` and `clearToken`. They are I/O. Their outcomes are inputs of the handlers that use them. src/services/api.ts is not part of this model beyond the shape of the errors it throws.
- `loginUser` and `getMe` in src/services/auth.ts. They are bare calls with no logic of their own.
- Lower- and upper-casing use ASCII letters only (`Strings.Lower`, `Strings.Upper`). JavaScript's `toLowerCase` and `toUpperCase` also map other Unicode letters. `toUpperCase` can also turn one character into two (`ß`); `Perfil.Initial` does not model that.
- Escalation.Title: the 120-character cut of `.slice(0, 120)` is counted in Unicode scalars, while JavaScript counts UTF-16 code units. The bound agrees with the source only for text inside the Basic Multilingual Plane; a text of astral characters (emoji) keeps up to twice as many code units in the model. A cut through a surrogate pair cannot be expressed with Dafny's `char`.
- Escalation.DraftShape: the title and description bounds are in Unicode scalars, for the same reason as `Escalation.Title`.
- Conversation.History: `.slice(0, 8000)` is modelled as a cut after 8000 Unicode scalars rather than 8000 UTF-16 code units, so on text outside the Basic Multilingual Plane the model keeps more of the transcript than the source.
- Conversation.HistoryBound: the 8000 bound and the prefix are in Unicode scalars, for the same reason as `Conversation.History`.
- Conversation.HistoryMentionsEveryMessage: "fits in 8000" is measured in Unicode scalars. An emoji-heavy transcript that fits in the model can be cut by the source, which then loses its later messages.
- Reports.RowFields: `.slice(0, 10)` of the day is a cut after 10 Unicode scalars, not 10 UTF-16 code units. The two agree for text inside the Basic Multilingual Plane, which includes ISO dates.
- Reports.RecordHasSixFields: "the day field is at most 10 characters" counts Unicode scalars, for the same reason as `Reports.RowFields`.
- Perfil.Initial: `charAt(0)` takes one UTF-16 code unit. The model takes one Unicode scalar value, so a name starting with an astral character differs.
- `formatDate` in app/tabs/artigos.tsx and the date labels in the ticket cards. They depend on the locale and the clock.
- The report screen's effect that sets `from` and `to` to today's date (docs/web/Relatorios.mobile.tsx:58-65). It reads the clock. The query is modelled for any `from` and `to`.
- Reports.Carregar: the placeholder's `try` cannot throw, so its `catch` is unreachable. `Reports.ReportErrorText` states what that catch would show.
- Reports: `String(r.Qtde)` is modelled for integers only. `r.Dia || ''` is modelled with `''` for a missing day.
- Unmounting. The `alive` and `active` flags of the ticket and register effects are not modelled: a reply that arrives after unmounting is applied as if the screen were still mounted.
- `onRefresh`, the popular-articles list and `openChatWith` (a navigation with the article as the chat's context; the chat side is `SeedContext`).
- Registration.LoadDepartments: `err.message` may be `undefined`. The model keeps it as a missing value (`None`), which the screen shows as nothing.

## Findings

| source | as written | input that shows it | evidently intended | confidence | as-written member | corrected member |
|---|---|---|---|---|---|---|
| app/tabs/chamados.tsx:99-104 | the fallback to `/tickets/mine` reads `err.status`, but the errors the service layer throws (src/services/api.ts:36-42) carry only a message `HTTP 403...` and no status | an analyst-looking profile whose `/tickets` request is refused with 403: the screen shows `HTTP 403` instead of switching to the user's own tickets | on a 403 from `/tickets`, switch to `/tickets/mine` without an error | medium, not executed | Tickets.ForbiddenIsShownAsError | Tickets.ForbiddenSwitchesToMine |
