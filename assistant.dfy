/**
 * The assistant client (src/services/chatgpt.ts): a keyword-based development responder and
 * the reply extraction around the one remote call, which falls back to that responder on
 * every failure so that no error ever reaches the chat screen.
 */
module Assistant {
  import opened Wrappers
  import opened Strings
  import opened Keywords

  datatype Role = UserRole | AssistantRole | SystemRole

  datatype ChatMessage = ChatMessage(role: Role, content: string)

  /** The three places a backend reply may carry its text: `message`, `content`, `choices[0].message.content`. */
  datatype ReplyBody = ReplyBody(message: Option<string>, content: Option<string>, choiceContent: Option<string>)

  /**
   * What the `POST /chat` call produced: it threw (network failure or an unparsable body),
   * answered with a non-ok status, or answered ok with a JSON body (`None` for `null`).
   */
  datatype FetchOutcome = Threw | NotOk | Ok(body: Option<ReplyBody>)

  const WIFI_REPLY: string :=
    "Vamos verificar sua conex\U{E3}o: 1) Confirme se o Wi\U{2011}Fi est\U{E1} ativo; 2) Desligue/ligue o roteador; 3) Teste outra rede. Se persistir, informe o SSID e se h\U{E1} erro espec\U{ED}fico."
  const ACCESS_REPLY: string :=
    "Para acesso/senha: 1) Tente redefini\U{E7}\U{E3}o no portal; 2) Verifique se h\U{E1} bloqueio por tentativas; 3) Informe usu\U{E1}rio/sistema afetado (sem dados sens\U{ED}veis)."
  const PRINTER_REPLY: string :=
    "Para impressoras: 1) Verifique cabos/energia; 2) Veja se a fila est\U{E1} pausada; 3) Reinstale drivers; 4) Informe modelo/erro exibido."
  const DEFAULT_REPLY: string :=
    "Certo! Para ajudar melhor, descreva o que acontece, quando come\U{E7}ou, qual sistema/equipamento est\U{E1} envolvido e se h\U{E1} mensagem de erro. Posso sugerir passos de diagn\U{F3}stico em seguida."

  /** The keyword groups of the responder, in the order they are tried. */
  const MOCK_GROUPS: seq<seq<string>> := [["wifi", "wi-fi", "rede"], ["senha", "acesso", "login"], ["impressora"]]

  /** The reply of each group, and the default reply after them. */
  const MOCK_REPLIES: seq<string> := [WIFI_REPLY, ACCESS_REPLY, PRINTER_REPLY, DEFAULT_REPLY]

  /** `[...mensagens].reverse().find((m) => m.role === 'user')`: the latest user message. */
  function LastUserMessage(msgs: seq<ChatMessage>): (r: Option<ChatMessage>)
    ensures r.Some? ==> r.value in msgs && r.value.role == UserRole
    ensures r.None? <==> forall m :: m in msgs ==> m.role != UserRole
    decreases |msgs|
  {
    if |msgs| == 0 then None
    else if msgs[|msgs| - 1].role == UserRole then Some(msgs[|msgs| - 1])
    else LastUserMessage(msgs[..|msgs| - 1])
  }

  /** `respostaMock`. */
  function RespostaMock(msgs: seq<ChatMessage>): string {
    var last := LastUserMessage(msgs);
    var texto := Lower(if last.Some? then last.value.content else "");
    if Contains(texto, "wifi") || Contains(texto, "wi-fi") || Contains(texto, "rede") then WIFI_REPLY
    else if Contains(texto, "senha") || Contains(texto, "acesso") || Contains(texto, "login") then ACCESS_REPLY
    else if Contains(texto, "impressora") then PRINTER_REPLY
    else DEFAULT_REPLY
  }

  /** The text the responder inspects: the latest user message's content, lower-cased, or empty. */
  function InspectedText(msgs: seq<ChatMessage>): string {
    var last := LastUserMessage(msgs);
    Lower(if last.Some? then last.value.content else "")
  }

  /** The responder answers with the reply of the first keyword group the inspected text mentions. */
  lemma RespostaMockFirstMatch(msgs: seq<ChatMessage>)
    ensures RespostaMock(msgs) == MOCK_REPLIES[FirstGroup(InspectedText(msgs), MOCK_GROUPS)]
  {
    var t := InspectedText(msgs);
    assert MOCK_GROUPS[0][1..] == ["wi-fi", "rede"] && MOCK_GROUPS[0][1..][1..] == ["rede"];
    assert MOCK_GROUPS[1][1..] == ["acesso", "login"] && MOCK_GROUPS[1][1..][1..] == ["login"];
    assert MentionsAny(t, MOCK_GROUPS[0]) <==> Contains(t, "wifi") || Contains(t, "wi-fi") || Contains(t, "rede");
    assert MentionsAny(t, MOCK_GROUPS[1]) <==> Contains(t, "senha") || Contains(t, "acesso") || Contains(t, "login");
    assert MentionsAny(t, MOCK_GROUPS[2]) <==> Contains(t, "impressora");
    var r := if MentionsAny(t, MOCK_GROUPS[0]) then 0
      else if MentionsAny(t, MOCK_GROUPS[1]) then 1
      else if MentionsAny(t, MOCK_GROUPS[2]) then 2
      else 3;
    FirstGroupUnique(t, MOCK_GROUPS, r);
  }

  /** Only the latest user message matters: messages of other roles after it change nothing. */
  lemma RespostaMockIgnoresLaterReplies(msgs: seq<ChatMessage>, later: seq<ChatMessage>)
    requires forall m :: m in later ==> m.role != UserRole
    ensures RespostaMock(msgs + later) == RespostaMock(msgs)
  {
    LastUserMessageSkips(msgs, later);
  }

  /** Nor do the messages before it. */
  lemma RespostaMockIgnoresEarlier(earlier: seq<ChatMessage>, msgs: seq<ChatMessage>)
    requires exists m :: m in msgs && m.role == UserRole
    ensures RespostaMock(earlier + msgs) == RespostaMock(msgs)
  {
    LastUserMessageAppend(earlier, msgs);
  }

  /** Matching ignores case: texts equal up to ASCII case get the same reply. */
  lemma RespostaMockIgnoresCase(msgs: seq<ChatMessage>, m: ChatMessage, m': ChatMessage)
    requires m.role == UserRole && m'.role == UserRole && Lower(m.content) == Lower(m'.content)
    ensures RespostaMock(msgs + [m]) == RespostaMock(msgs + [m'])
  {
    assert (msgs + [m])[..|msgs + [m]| - 1] == msgs;
    assert (msgs + [m'])[..|msgs + [m']| - 1] == msgs;
  }

  /** With no user message at all, the responder gives its default reply. */
  lemma RespostaMockWithoutUser(msgs: seq<ChatMessage>)
    requires forall m :: m in msgs ==> m.role != UserRole
    ensures RespostaMock(msgs) == DEFAULT_REPLY
  {
    assert Lower("") == "";
  }

  lemma {:induction false} LastUserMessageSkips(msgs: seq<ChatMessage>, later: seq<ChatMessage>)
    requires forall m :: m in later ==> m.role != UserRole
    ensures LastUserMessage(msgs + later) == LastUserMessage(msgs)
    decreases |later|
  {
    if |later| > 0 {
      var all := msgs + later;
      assert all[|all| - 1] == later[|later| - 1];
      assert all[..|all| - 1] == msgs + later[..|later| - 1];
      LastUserMessageSkips(msgs, later[..|later| - 1]);
    } else {
      assert msgs + later == msgs;
    }
  }

  lemma {:induction false} LastUserMessageAppend(earlier: seq<ChatMessage>, msgs: seq<ChatMessage>)
    requires exists m :: m in msgs && m.role == UserRole
    ensures LastUserMessage(earlier + msgs) == LastUserMessage(msgs)
    decreases |msgs|
  {
    var all := earlier + msgs;
    assert all[|all| - 1] == msgs[|msgs| - 1];
    if msgs[|msgs| - 1].role != UserRole {
      assert all[..|all| - 1] == earlier + msgs[..|msgs| - 1];
      var m :| m in msgs && m.role == UserRole;
      assert m in msgs[..|msgs| - 1] by {
        var k :| 0 <= k < |msgs| && msgs[k] == m;
        assert k < |msgs| - 1;
        assert msgs[..|msgs| - 1][k] == m;
      }
      LastUserMessageAppend(earlier, msgs[..|msgs| - 1]);
    }
  }

  /** `a || b || c` over optional strings: the first truthy one, if any. */
  function FirstTruthy(a: Option<string>, b: Option<string>, c: Option<string>): (r: Option<string>)
    ensures Truthy(r) <==> Truthy(a) || Truthy(b) || Truthy(c)
    ensures Truthy(r) ==> r == (if Truthy(a) then a else if Truthy(b) then b else c)
  {
    if Truthy(a) then a else if Truthy(b) then b else c
  }

  /**
   * The reply extraction of `enviarParaChatGPT`: what the call resolves to when `fallback` is
   * what the development responder would answer for the same messages.
   */
  function Served(apiBase: string, outcome: FetchOutcome, fallback: string): string {
    if apiBase == "" then fallback
    else match outcome
      case Threw => fallback
      case NotOk => fallback
      case Ok(body) =>
        var conteudo := if body.Some? then FirstTruthy(body.value.message, body.value.content, body.value.choiceContent) else None;
        if !Truthy(conteudo) then fallback else Trim(conteudo.value)
  }

  /** `enviarParaChatGPT`, with the configured API base and the outcome of the call as inputs. */
  function EnviarParaChatGPT(apiBase: string, outcome: FetchOutcome, msgs: seq<ChatMessage>): string {
    Served(apiBase, outcome, RespostaMock(msgs))
  }

  /** The text the backend supplied, if it supplied one: `message`, else `content`, else the first choice. */
  function BackendText(outcome: FetchOutcome): Option<string> {
    if outcome.Ok? && outcome.body.Some? then
      var b := outcome.body.value;
      if Truthy(b.message) then b.message
      else if Truthy(b.content) then b.content
      else if Truthy(b.choiceContent) then b.choiceContent
      else None
    else None
  }

  /** The extraction serves the trimmed backend text when there is one, and the fallback otherwise. */
  lemma ServedCases(apiBase: string, outcome: FetchOutcome, fallback: string)
    ensures apiBase != "" && BackendText(outcome).Some? ==>
      Served(apiBase, outcome, fallback) == Trim(BackendText(outcome).value)
    ensures apiBase == "" || BackendText(outcome).None? ==> Served(apiBase, outcome, fallback) == fallback
  {
  }

  /** The responder never answers with an empty text. */
  lemma RespostaMockNonEmpty(msgs: seq<ChatMessage>)
    ensures RespostaMock(msgs) != ""
  {
    assert |DEFAULT_REPLY| > 0 && |WIFI_REPLY| > 0 && |ACCESS_REPLY| > 0 && |PRINTER_REPLY| > 0;
  }

  /**
   * The reply is the trimmed backend text when a backend is configured and it supplied one;
   * on every other path (no backend, failure, non-ok status, no text) it is the responder's.
   */
  lemma ReplyOrFallback(apiBase: string, outcome: FetchOutcome, msgs: seq<ChatMessage>)
    ensures apiBase != "" && BackendText(outcome).Some? ==>
      EnviarParaChatGPT(apiBase, outcome, msgs) == Trim(BackendText(outcome).value)
    ensures apiBase == "" || BackendText(outcome).None? ==>
      EnviarParaChatGPT(apiBase, outcome, msgs) == RespostaMock(msgs)
  {
    ServedCases(apiBase, outcome, RespostaMock(msgs));
  }

  /** The reply can only be empty when the backend supplied nothing but whitespace. */
  lemma EmptyReplyOnlyFromBlankBackendText(apiBase: string, outcome: FetchOutcome, msgs: seq<ChatMessage>)
    ensures EnviarParaChatGPT(apiBase, outcome, msgs) == "" <==>
      apiBase != "" && BackendText(outcome).Some? && AllSpace(BackendText(outcome).value)
  {
    ServedCases(apiBase, outcome, RespostaMock(msgs));
    RespostaMockNonEmpty(msgs);
  }
}
