/**
 * Escalation of a chat to a human analyst (app/tabs/chatbot.tsx, `classify`, `levelFor` and
 * `escalate`): the ticket category and level derived from the conversation, the ticket that
 * is opened, the follow-up messages posted to it, and the one system message the chat shows.
 * The identity and ticket services are inputs: each either throws or returns a body.
 */
module Escalation {
  import opened Wrappers
  import opened Strings
  import opened Keywords
  import opened TriageCatalog
  import opened Conversation

  /** `classify`: the selected category's ticket name, else the first keyword group that matches. */
  function Classify(selected: Option<Category>, t: string): string {
    if selected.Some? then selected.value.ticketName
    else
      var s := Lower(t);
      if Contains(s, "impressora") || Contains(s, "monitor") || Contains(s, "teclado") then "Hardware"
      else if Contains(s, "wi-fi") || Contains(s, "rede") || Contains(s, "vpn") then "Rede"
      else if Contains(s, "windows") || Contains(s, "linux") || Contains(s, "sistema operacional") then "Sistema Operacional"
      else if Contains(s, "senha") || Contains(s, "acesso") || Contains(s, "login") then "Acesso/Security"
      else if Contains(s, "sistema") || Contains(s, "aplicativo") || Contains(s, "software") then "Software"
      else "Outros"
  }

  /** The classifier's keyword groups in the order they are tried, and the name each one yields. */
  const CLASSIFY_GROUPS: seq<seq<string>> := [
    ["impressora", "monitor", "teclado"],
    ["wi-fi", "rede", "vpn"],
    ["windows", "linux", "sistema operacional"],
    ["senha", "acesso", "login"],
    ["sistema", "aplicativo", "software"]
  ]
  const CLASSIFY_NAMES: seq<string> := ["Hardware", "Rede", "Sistema Operacional", "Acesso/Security", "Software", "Outros"]

  /** Without a selected category, the first group the lower-cased text mentions decides the name. */
  lemma ClassifyFirstMatch(t: string)
    ensures Classify(None, t) == CLASSIFY_NAMES[FirstGroup(Lower(t), CLASSIFY_GROUPS)]
  {
    var s := Lower(t);
    forall g | 0 <= g < 5
      ensures MentionsAny(s, CLASSIFY_GROUPS[g]) <==>
        Contains(s, CLASSIFY_GROUPS[g][0]) || Contains(s, CLASSIFY_GROUPS[g][1]) || Contains(s, CLASSIFY_GROUPS[g][2])
    {
      var w := CLASSIFY_GROUPS[g];
      assert |w| == 3;
      assert w[1..][0] == w[1] && w[1..][1..][0] == w[2] && |w[1..][1..][1..]| == 0;
    }
    var r := if Contains(s, "impressora") || Contains(s, "monitor") || Contains(s, "teclado") then 0
      else if Contains(s, "wi-fi") || Contains(s, "rede") || Contains(s, "vpn") then 1
      else if Contains(s, "windows") || Contains(s, "linux") || Contains(s, "sistema operacional") then 2
      else if Contains(s, "senha") || Contains(s, "acesso") || Contains(s, "login") then 3
      else if Contains(s, "sistema") || Contains(s, "aplicativo") || Contains(s, "software") then 4
      else 5;
    FirstGroupUnique(s, CLASSIFY_GROUPS, r);
  }

  /** `levelFor`. */
  function LevelFor(cat: string): string {
    if cat == "Hardware" || cat == "Rede" then "N2"
    else if cat == "Software" || cat == "Sistema Operacional" then "N3"
    else "N1"
  }

  const CATEGORY_IDS: map<string, int> := map[
    "Hardware" := 1, "Software" := 2, "Rede" := 3, "Sistema Operacional" := 4, "Acesso/Security" := 5, "Outros" := 6]
  const LEVEL_IDS: map<string, int> := map["N1" := 1, "N2" := 2, "N3" := 3]
  const PRIORITY_IDS: map<string, int> := map["Baixa" := 1, "Media" := 2, "Alta" := 3, "Critica" := 4]

  /** `categoryId[categoria] ?? 6`. */
  function CategoryIdFor(name: string): int {
    if name in CATEGORY_IDS then CATEGORY_IDS[name] else 6
  }

  /** `levelId[nivel] ?? 1`. */
  function LevelIdFor(level: string): int {
    if level in LEVEL_IDS then LEVEL_IDS[level] else 1
  }

  /**
   * Whatever the text, the classification of a conversation with no category or with a
   * catalogued one is a name of the id table, so the fallback id 6 is never needed for it.
   */
  lemma ClassificationIsTabled(selected: Option<Category>, t: string)
    requires selected.Some? ==> selected.value in TRIAGE_CATEGORIES
    ensures Classify(selected, t) in CATEGORY_IDS
    ensures Classify(selected, t) in CLASSIFY_NAMES
    ensures 1 <= CategoryIdFor(Classify(selected, t)) <= 6
  {
  }

  /** The category id table gives each classifier name its own id. */
  lemma CategoryIdsDistinct(a: string, b: string)
    requires a in CATEGORY_IDS && b in CATEGORY_IDS && a != b
    ensures CATEGORY_IDS[a] != CATEGORY_IDS[b]
  {
  }

  /** A name outside the table is filed exactly like "Outros". */
  lemma UnknownCategoryIsOutros(name: string)
    requires name !in CATEGORY_IDS
    ensures CategoryIdFor(name) == CategoryIdFor("Outros")
  {
  }

  /** The level of every name, as an id: N2 for Hardware and Rede, N3 for Software and Sistema Operacional, N1 otherwise. */
  lemma LevelIds(cat: string)
    ensures LevelFor(cat) in LEVEL_IDS
    ensures LevelIdFor(LevelFor(cat)) == (if cat in {"Hardware", "Rede"} then 2
                                         else if cat in {"Software", "Sistema Operacional"} then 3 else 1)
  {
  }

  /** `priorityId.Alta`: every escalated ticket is opened with high priority. */
  const ESCALATION_PRIORITY: int := PRIORITY_IDS["Alta"]

  const DEFAULT_TITLE: string := "Solicitacao de suporte"
  const TITLE_LIMIT: nat := 120
  const DESCRIPTION_PREFIX: string := "Resumo da conversa com o bot:\n"

  /** `(lastUserText || 'Solicitacao de suporte').slice(0, 120)`. */
  function Title(lastUserText: string): (r: string)
    ensures |r| <= TITLE_LIMIT
    ensures lastUserText == "" ==> r == DEFAULT_TITLE
    ensures lastUserText != "" ==> StartsWith(lastUserText, r) && (|lastUserText| <= TITLE_LIMIT ==> r == lastUserText)
  {
    Take(if lastUserText != "" then lastUserText else DEFAULT_TITLE, TITLE_LIMIT)
  }

  /** The body of `POST /tickets`. */
  datatype TicketDraft = TicketDraft(
    requesterId: Option<string>, title: string, description: string,
    categoryId: int, levelId: int, priorityId: int,
    assigneeId: Option<int>, initialStatusId: Option<int>, origin: string)

  function Draft(requesterId: Option<string>, lastUserText: string, categoria: string, history: string): TicketDraft {
    TicketDraft(requesterId, Title(lastUserText), DESCRIPTION_PREFIX + history,
                CategoryIdFor(categoria), LevelIdFor(LevelFor(categoria)), ESCALATION_PRIORITY,
                None, None, "mobile")
  }

  /** `GET /auth/me`'s body; only the user id is read. */
  datatype Identity = Identity(userId: Option<string>)

  /** `POST /tickets`'s body, whose id and protocol may come in either case. */
  datatype CreatedTicket = CreatedTicket(ticketId: Option<string>, TicketId: Option<string>,
                                         protocol: Option<string>, Protocol: Option<string>)

  /** What a remote call did: it threw, or it returned a body (`None` for `null`). */
  datatype Reply<T> = Raised | Returned(body: Option<T>)

  /** The remote calls `escalate` makes, in order. */
  datatype RemoteCall =
    | GetMe
    | CreateTicket(draft: TicketDraft)
    | PostTicketMessage(ticket: string, senderType: string, senderUserId: Option<string>, content: string)

  /** A missing value as a template literal prints it. */
  function Shown(v: Option<string>): string {
    v.GetOr("undefined")
  }

  const SUCCESS_PREFIX: string := "Chamado encaminhado. Categoria: "
  const FALLBACK_PREFIX: string := "Chamado encaminhado. Protocolo provisorio: "
  const PROVISIONAL_PREFIX: string := "HL-"

  function SuccessText(categoria: string, protocol: string): string {
    SUCCESS_PREFIX + categoria + ". Protocolo: " + protocol + ". Aguarde atendimento aqui."
  }

  /** `'HL-' + Date.now()`, with the clock reading as an input. */
  function ProvisionalProtocol(now: nat): string {
    PROVISIONAL_PREFIX + NatToString(now)
  }

  function FallbackText(now: nat): string {
    FALLBACK_PREFIX + ProvisionalProtocol(now) + "."
  }

  /** The follow-up posts to the new ticket, in order: the user's last text (when any), the routing note, the history. */
  function SyncPosts(ticket: string, requesterId: Option<string>, lastUserText: string, categoria: string,
                     protocol: string, history: string): (r: seq<RemoteCall>)
    ensures |r| == if lastUserText != "" then 3 else 2
  {
    (if lastUserText != "" then [PostTicketMessage(ticket, "user", requesterId, lastUserText)] else [])
    + [PostTicketMessage(ticket, "sistema", None, "Encaminhado. Categoria: " + categoria + ". Protocolo: " + protocol + "."),
       PostTicketMessage(ticket, "sistema", None, "Historico:\n" + history)]
  }

  /** What one escalation attempt shows in the chat and which calls it made. */
  datatype Attempt = Attempt(text: string, calls: seq<RemoteCall>)

  /**
   * The body of `escalate`'s `try`. `syncFailAt` is the index of the first follow-up post that
   * fails (none fails when it is past the last), and `now` is the clock reading used by the fallback.
   */
  function EscalationAttempt(selected: Option<Category>, lastUserText: string, msgs: seq<Message>,
                             me: Reply<Identity>, created: Reply<CreatedTicket>, syncFailAt: nat, now: nat): Attempt {
    var categoria := Classify(selected, lastUserText);
    if me.Raised? || me.body.None? then Attempt(FallbackText(now), [GetMe])
    else
      var requesterId := me.body.value.userId;
      var history := History(msgs);
      var draft := Draft(requesterId, lastUserText, categoria, history);
      if created.Raised? || created.body.None? then Attempt(FallbackText(now), [GetMe, CreateTicket(draft)])
      else
        var t := created.body.value;
        var ticket := Shown(OrElse(t.ticketId, t.TicketId));
        var protocol := Shown(OrElse(t.protocol, t.Protocol));
        var posts := SyncPosts(ticket, requesterId, lastUserText, categoria, protocol, history);
        var attempted := if syncFailAt < |posts| then posts[..syncFailAt + 1] else posts;
        Attempt(SuccessText(categoria, protocol), [GetMe, CreateTicket(draft)] + attempted)
  }

  /** Both services answered with a body. */
  predicate ServicesAnswered(me: Reply<Identity>, created: Reply<CreatedTicket>) {
    me.Returned? && me.body.Some? && created.Returned? && created.body.Some?
  }

  /** The protocol the ticket service returned, as the chat prints it. */
  function ReturnedProtocol(created: Reply<CreatedTicket>): string
    requires created.Returned? && created.body.Some?
  {
    Shown(OrElse(created.body.value.protocol, created.body.value.Protocol))
  }

  /**
   * The two outcomes: when both services answer, the chat shows the ticket's category and
   * protocol; otherwise it shows an `HL-` provisional protocol made from the clock reading.
   * Failing follow-up posts never turn the first outcome into the second.
   */
  lemma EscalationOutcomes(selected: Option<Category>, lastUserText: string, msgs: seq<Message>,
                           me: Reply<Identity>, created: Reply<CreatedTicket>, syncFailAt: nat, now: nat)
    ensures var a := EscalationAttempt(selected, lastUserText, msgs, me, created, syncFailAt, now);
      if ServicesAnswered(me, created) then
        a.text == SuccessText(Classify(selected, lastUserText), ReturnedProtocol(created))
        && Contains(a.text, ReturnedProtocol(created))
      else
        a.text == FallbackText(now) && Contains(a.text, PROVISIONAL_PREFIX + NatToString(now))
  {
    var categoria := Classify(selected, lastUserText);
    if ServicesAnswered(me, created) {
      var p := ReturnedProtocol(created);
      ContainsMiddle(SUCCESS_PREFIX + categoria + ". Protocolo: ", p, ". Aguarde atendimento aqui.");
    } else {
      ContainsMiddle(FALLBACK_PREFIX, ProvisionalProtocol(now), ".");
    }
  }

  /** The text shown does not depend on how far the follow-up posts got. */
  lemma SyncFailuresAreSwallowed(selected: Option<Category>, lastUserText: string, msgs: seq<Message>,
                                 me: Reply<Identity>, created: Reply<CreatedTicket>, f1: nat, f2: nat, now: nat)
    ensures EscalationAttempt(selected, lastUserText, msgs, me, created, f1, now).text
         == EscalationAttempt(selected, lastUserText, msgs, me, created, f2, now).text
  {
  }

  /**
   * The identity is asked for first; a ticket is opened only when it answered, and messages
   * are posted to it only when the ticket service answered too, stopping at the first failure.
   */
  lemma EscalationCalls(selected: Option<Category>, lastUserText: string, msgs: seq<Message>,
                        me: Reply<Identity>, created: Reply<CreatedTicket>, syncFailAt: nat, now: nat)
    ensures var calls := EscalationAttempt(selected, lastUserText, msgs, me, created, syncFailAt, now).calls;
      && |calls| >= 1 && calls[0] == GetMe
      && (me.Raised? || me.body.None? ==> calls == [GetMe])
      && (me.Returned? && me.body.Some? ==> |calls| >= 2 && calls[1].CreateTicket?)
      && (!ServicesAnswered(me, created) ==> |calls| <= 2)
      && (ServicesAnswered(me, created) ==>
            (var posts := if lastUserText != "" then 3 else 2;
             |calls| - 2 == if syncFailAt < posts then syncFailAt + 1 else posts)
            && forall i :: 2 <= i < |calls| ==> calls[i].PostTicketMessage?)
  {
  }

  /** Every ticket the chat opens has a bounded title, the truncated history and fixed routing. */
  lemma DraftShape(requesterId: Option<string>, lastUserText: string, selected: Option<Category>, msgs: seq<Message>)
    requires selected.Some? ==> selected.value in TRIAGE_CATEGORIES
    ensures var d := Draft(requesterId, lastUserText, Classify(selected, lastUserText), History(msgs));
      && |d.title| <= TITLE_LIMIT
      && d.description == DESCRIPTION_PREFIX + History(msgs)
      && |d.description| <= |DESCRIPTION_PREFIX| + HISTORY_LIMIT
      && 1 <= d.categoryId <= 6 && 1 <= d.levelId <= 3 && d.priorityId == 3
      && d.assigneeId.None? && d.initialStatusId.None? && d.origin == "mobile"
  {
    ClassificationIsTabled(selected, lastUserText);
    LevelIds(Classify(selected, lastUserText));
    HistoryBound(msgs);
  }
}
