/**
 * The static tables of the chat triage (app/tabs/chatbot.tsx): the support categories, the
 * per-category flow of candidate issues and scripted prompts, and the follow-up guides.
 */
module TriageCatalog {
  import opened Wrappers

  /** `display` is the source's `label` (a reserved word in Dafny). */
  datatype Category = Category(id: string, display: string, description: string, ticketName: string)

  datatype PromptKind = Choice | Text

  /** A scripted question; `options` is empty for text prompts, `placeholder` optional. */
  datatype Prompt = Prompt(id: string, question: string, kind: PromptKind, options: seq<string>, placeholder: Option<string>)

  datatype Flow = Flow(issues: seq<string>, prompts: seq<Prompt>)

  datatype Guide = Guide(title: string, steps: seq<string>)

  const TRIAGE_CATEGORIES: seq<Category> := [
    Category("hardware", "Hardware", "Computadores, impressoras e outros equipamentos.", "Hardware"),
    Category("software", "Software", "Aplicativos corporativos e sistemas internos.", "Software"),
    Category("rede", "Rede", "Wi-Fi, VPN, links e queda de conexao.", "Rede"),
    Category("acesso", "Acesso/Security", "Senhas, MFA, bloqueios e perfis.", "Acesso/Security"),
    Category("infra", "Infraestrutura/Servicos", "Servidores, banco de dados, cloud e backups.", "Sistema Operacional"),
    Category("outros", "Outros", "Quando nao encaixar nas opcoes acima.", "Outros")
  ]

  /** The key of the guide used when no category is selected. */
  const DEFAULT_GUIDE_KEY: string := "default"

  const FOLLOWUP_GUIDE: map<string, Guide> := map[
    "hardware" := Guide("Vamos tentar mais algumas verificacoes rapidas:", [
      "Desligue o equipamento totalmente e aguarde 30 segundos antes de ligar de novo.",
      "Teste outro cabo de energia ou tomada e confirme se ha ventilacao livre.",
      "Desconecte perifericos desnecessarios (HD externo, impressora etc.) para ver se algum deles causa travamento."]),
    "software" := Guide("Algumas outras acoes que costumam ajudar:", [
      "Feche o aplicativo e abra novamente apos limpar arquivos temporarios ou cache.",
      "Verifique se ha atualizacoes pendentes do sistema e do app.",
      "Teste o mesmo acesso em outro navegador ou maquina para comparar."]),
    "rede" := Guide("Confirme estes pontos antes de encaminharmos:", [
      "Alterne entre Wi-Fi e cabo para ver se algum deles funciona melhor.",
      "Reinicie modem/roteador novamente e aguarde 2 minutos antes de conectar.",
      "Confirme com outra pessoa da equipe se a rede esta ok para ela."]),
    "acesso" := Guide("Mais alguns passos de acesso:", [
      "Verifique se Caps Lock ou Num Lock estao ligados ao digitar a senha.",
      "Tente redefinir a senha pelo portal oficial e aguarde 5 minutos.",
      "Caso use MFA, confirme se o app/token esta sincronizado com o horario do celular."]),
    "infra" := Guide("Antes de acionar o analista revise:", [
      "Valide se outros servicos dependentes estao respondendo normalmente.",
      "Se possuir permissao, reinicie o servico especifico e observe os logs basicos.",
      "Anote o horario exato e qualquer codigo de erro apresentado."]),
    "outros" := Guide("Vamos registrar mais alguns detalhes rapidos:", [
      "Relembre o que mudou antes do problema (instalacao, atualizacao, queda de energia).",
      "Veja se acontece com outra pessoa ou dispositivo.",
      "Separe prints e horarios aproximados para anexarmos no chamado."]),
    DEFAULT_GUIDE_KEY := Guide("Revise estes pontos antes de escalarmos:", [
      "Reinicie o equipamento ou servico afetado e aguarde 1 minuto antes de testar.",
      "Teste com outro cabo, navegador ou usuario para comparar.",
      "Separe prints ou mensagens de erro para enviar ao analista."])
  ]

  const TRIAGE_FLOWS: map<string, Flow> := map[
    "hardware" := Flow(
      ["Computador nao liga", "Equipamento lento ou travando",
       "Periferico (mouse/teclado/impressora) com falha", "Outro em hardware"],
      [Prompt("hardware-equipamento", "Qual equipamento voce esta usando?", Choice,
              ["Notebook corporativo", "Desktop", "Impressora", "Outro dispositivo"], None),
       Prompt("hardware-erro", "Aparece algum erro ou luz de alerta? Se sim, descreva.", Text,
              [], Some("Ex.: Tela preta, bip, codigo de erro")),
       Prompt("hardware-acao", "O que acontece quando voce liga ou tenta usar o equipamento?", Text,
              [], Some("Ex.: Desliga sozinho, fica travado, nao responde..."))]),
    "software" := Flow(
      ["Aplicativo nao abre", "Sistema lento ou travando",
       "Erro em funcionalidade especifica", "Outro em software"],
      [Prompt("software-sistema", "Qual sistema ou aplicativo esta com problema?", Text,
              [], Some("Ex.: ERP, e-mail, navegador...")),
       Prompt("software-erro", "Aparece alguma mensagem de erro? Digite exatamente o que ve na tela.", Text,
              [], Some("Mensagem apresentada")),
       Prompt("software-acao", "O que acontece quando voce tenta usar o recurso?", Text,
              [], Some("Ex.: Fecha sozinho, fica carregando, nao salva..."))]),
    "rede" := Flow(
      ["Sem internet", "VPN nao conecta", "Wi-Fi lento/caindo", "Outro em rede"],
      [Prompt("rede-medio", "Como voce esta conectado?", Choice,
              ["Wi-Fi corporativo", "Cabo de rede", "4G/Hotspot", "Nao sei"], None),
       Prompt("rede-impacto", "Quantas pessoas sao impactadas?", Choice,
              ["Somente eu", "Minha equipe", "Unidade inteira", "Nao sei informar"], None),
       Prompt("rede-comportamento", "O que acontece quando tenta navegar ou conectar? Informe qualquer codigo.", Text,
              [], Some("Ex.: Sem acesso a sites, VPN desconecta, sinal fraco..."))]),
    "acesso" := Flow(
      ["Esqueci/minha senha venceu", "Usuario bloqueado", "Problema com MFA", "Sem permissao"],
      [Prompt("acesso-sistema", "Qual sistema voce tenta acessar?", Text,
              [], Some("Ex.: E-mail, ERP, VPN...")),
       Prompt("acesso-erro", "Qual mensagem aparece ao tentar fazer login?", Text,
              [], Some("Mensagem ou codigo exibido")),
       Prompt("acesso-impacto", "Esse bloqueio impede alguma atividade urgente? Conte rapidamente.", Text,
              [], None)]),
    "infra" := Flow(
      ["Servidor fora do ar", "Banco de dados lento", "Backup falhou", "Outro em infraestrutura"],
      [Prompt("infra-servico", "Qual servico/servidor esta impactado?", Text,
              [], Some("Nome ou endereco do servico")),
       Prompt("infra-impacto", "Qual o impacto percebido pelos usuarios ou sistemas?", Text,
              [], Some("Sem acesso, lentidao, integracao parada...")),
       Prompt("infra-inicio", "Quando o problema comecou e algo mudou antes disso?", Text,
              [], Some("Ex.: desde ontem 14h, apos atualizacao..."))]),
    "outros" := Flow(
      ["Duvida geral", "Solicitacao de melhoria", "Suporte presencial", "Outro assunto"],
      [Prompt("outros-contexto", "Resuma o contexto do que precisa ou do incidente.", Text, [], None),
       Prompt("outros-impacto", "Existe algum impacto ou urgencia associada? Descreva.", Text, [], None)])
  ]

  /** The first category with that id at or after position `from`. */
  function FindCategoryFrom(cats: seq<Category>, id: string, from: nat): (r: Option<Category>)
    requires from <= |cats|
    ensures r.Some? ==> exists j :: from <= j < |cats| && cats[j] == r.value && r.value.id == id
    ensures r.None? <==> forall j :: from <= j < |cats| ==> cats[j].id != id
    decreases |cats| - from
  {
    if from == |cats| then None
    else if cats[from].id == id then Some(cats[from])
    else FindCategoryFrom(cats, id, from + 1)
  }

  /** `TRIAGE_CATEGORIES.find((c) => c.id === id)`: the first category with that id. */
  function FindCategory(cats: seq<Category>, id: string): (r: Option<Category>)
    ensures r.Some? ==> r.value in cats && r.value.id == id
    ensures r.None? <==> forall c :: c in cats ==> c.id != id
  {
    FindCategoryFrom(cats, id, 0)
  }

  /** No two values of a sequence coincide. */
  predicate Distinct<T(==)>(xs: seq<T>) {
    forall i, j :: 0 <= i < j < |xs| ==> xs[i] != xs[j]
  }

  function PromptIds(ps: seq<Prompt>): (ids: seq<string>)
    ensures |ids| == |ps| && forall i :: 0 <= i < |ps| ==> ids[i] == ps[i].id
  {
    seq(|ps|, i requires 0 <= i < |ps| => ps[i].id)
  }

  function CategoryIdList(cats: seq<Category>): (ids: seq<string>)
    ensures |ids| == |cats| && forall i :: 0 <= i < |cats| ==> ids[i] == cats[i].id
  {
    seq(|cats|, i requires 0 <= i < |cats| => cats[i].id)
  }

  /** The category ids, in catalogue order. */
  const CATEGORY_IDS: seq<string> := ["hardware", "software", "rede", "acesso", "infra", "outros"]

  lemma CategoryIds()
    ensures CategoryIdList(TRIAGE_CATEGORIES) == CATEGORY_IDS
  {
  }

  /** The flows are keyed by exactly the category ids. */
  lemma FlowKeys()
    ensures TRIAGE_FLOWS.Keys == set k | k in CATEGORY_IDS
  {
  }

  /** The guides are keyed by the category ids and the default key. */
  lemma GuideKeys()
    ensures FOLLOWUP_GUIDE.Keys == (set k | k in CATEGORY_IDS) + {DEFAULT_GUIDE_KEY}
  {
  }

  /** Every category id is found in the catalogue. */
  lemma CategoryFound(id: string)
    requires id in CATEGORY_IDS
    ensures FindCategory(TRIAGE_CATEGORIES, id).Some?
  {
    CategoryIds();
    var i :| 0 <= i < |CATEGORY_IDS| && CATEGORY_IDS[i] == id;
    assert CategoryIdList(TRIAGE_CATEGORIES)[i] == TRIAGE_CATEGORIES[i].id;
    assert TRIAGE_CATEGORIES[i] in TRIAGE_CATEGORIES;
  }

  /** A catalogued category's id is one of the category ids. */
  lemma CategoryIdListed(c: Category)
    requires c in TRIAGE_CATEGORIES
    ensures c.id in CATEGORY_IDS
  {
    CategoryIds();
    var i :| 0 <= i < |TRIAGE_CATEGORIES| && TRIAGE_CATEGORIES[i] == c;
    assert CategoryIdList(TRIAGE_CATEGORIES)[i] == c.id;
  }

  /** Completeness: every catalogued category has a flow and a follow-up guide. */
  lemma CategoriesHaveFlows()
    ensures forall c :: c in TRIAGE_CATEGORIES ==> c.id in TRIAGE_FLOWS
  {
    FlowKeys();
    forall c | c in TRIAGE_CATEGORIES ensures c.id in TRIAGE_FLOWS {
      CategoryIdListed(c);
    }
  }

  lemma CategoriesHaveGuides()
    ensures forall c :: c in TRIAGE_CATEGORIES ==> c.id in FOLLOWUP_GUIDE
  {
    GuideKeys();
    forall c | c in TRIAGE_CATEGORIES ensures c.id in FOLLOWUP_GUIDE {
      CategoryIdListed(c);
    }
  }

  /** Every flow has a follow-up guide of its own. */
  lemma FlowsHaveGuides()
    ensures forall k :: k in TRIAGE_FLOWS ==> k in FOLLOWUP_GUIDE
  {
    FlowKeys();
    GuideKeys();
  }

  /** Conversely, every flow belongs to a catalogued category. */
  lemma FlowsAreCatalogued()
    ensures forall k :: k in TRIAGE_FLOWS ==> FindCategory(TRIAGE_CATEGORIES, k).Some?
  {
    FlowKeys();
    forall k | k in TRIAGE_FLOWS ensures FindCategory(TRIAGE_CATEGORIES, k).Some? {
      CategoryFound(k);
    }
  }

  /** Every guide but the default one belongs to a category that has a flow. */
  lemma GuidesAreCatalogued()
    ensures forall k :: k in FOLLOWUP_GUIDE ==> k == DEFAULT_GUIDE_KEY || k in TRIAGE_FLOWS
    ensures DEFAULT_GUIDE_KEY in FOLLOWUP_GUIDE
  {
    FlowKeys();
    GuideKeys();
  }

  /** No category is called `default`, so the default guide never shadows a category's. */
  lemma DefaultKeyIsNotACategory()
    ensures DEFAULT_GUIDE_KEY !in TRIAGE_FLOWS
  {
    FlowKeys();
  }

  /** Category ids are unique, so `find` by id is unambiguous. */
  lemma CategoryIdsUnique()
    ensures Distinct(CategoryIdList(TRIAGE_CATEGORIES))
  {
    CategoryIds();
  }

  /** Within each flow, prompt ids are unique, so answers keyed by prompt id never collide. */
  lemma PromptIdsUnique(id: string)
    requires id in TRIAGE_FLOWS
    ensures Distinct(PromptIds(TRIAGE_FLOWS[id].prompts))
  {
  }

  /** Every catalogued category is found by its own id, and only catalogued ids are found. */
  lemma FindCategoryCatalogued(id: string)
    ensures FindCategory(TRIAGE_CATEGORIES, id).Some? <==> id in TRIAGE_FLOWS
  {
    CategoriesHaveFlows();
    FlowsAreCatalogued();
  }

  /** Every flow offers issues and has at least one prompt, so selecting an issue always asks. */
  lemma FlowsNonEmpty(id: string)
    requires id in TRIAGE_FLOWS
    ensures |TRIAGE_FLOWS[id].issues| == 4 && 2 <= |TRIAGE_FLOWS[id].prompts| <= 3
  {
  }


  // ----- the screen's fixed texts -----

  const WELCOME_TEXT: string :=
    "Bem-vindo ao chat da HelpLine! Este canal faz a triagem inicial. Suas informacoes serao tratadas conforme a LGPD (Lei 13.709/2018). Ao continuar, voce concorda com o uso dos dados para atendimento tecnico."
  const ACCEPT_TEXT: string := "Concordo com os termos de tratamento de dados (LGPD) para suporte tecnico."
  const CATEGORY_ACK_PREFIX: string := "Categoria escolhida: "
  const CATEGORY_INTRO_PREFIX: string := "Perfeito, vamos tratar "
  const CATEGORY_INTRO_SUFFIX: string :=
    ". Escolha abaixo o tipo de problema e responda as perguntas rapidas para direcionarmos melhor."
  const ISSUE_QUESTION: string :=
    "Qual opcao representa melhor o problema? Toque para selecionar e seguir com algumas perguntas."
  const RESTART_TEXT: string := "Sem problemas, escolha novamente a opcao que melhor representa a situacao:"
  const RESET_TEXT: string := "Tudo certo! Escolha uma nova categoria para continuarmos."
  const ISSUE_ACK_PREFIX: string := "Problema selecionado: "
  const PROMPTS_INTRO: string := "Entendido. Vou fazer algumas perguntas rapidas para coletar informacoes essenciais:"
  const NO_PROMPTS_INTRO: string := "Entendido. Vou registrar esse problema e ja envio orientacoes basicas."
  const CLOSING_TEXT: string :=
    "Caso precise complementar com prints ou passos realizados, escreva aqui. Se precisar de ajuda humana, toque em \"Falar com um analista\"."
  const REMINDER_TEXT: string := "Selecione um dos problemas listados acima para continuar a triagem."
  const CONTEXT_PREFIX: string := "Categoria selecionada pelo usuario: "
  const SUMMARY_HEADER: string := "Resumo estruturado:\n"
  const EMPTY_REPLY_TEXT: string := "Certo! Me conte um pouco mais..."
  const DEFAULT_QUICK_REPLIES: seq<string> := ["Rede fora do ar", "Senha ou acesso", "Sistema travando", "Ajuda com hardware"]

  const CONSENT_PLACEHOLDER: string := "Confirme a LGPD para iniciar o atendimento"
  const CATEGORY_PLACEHOLDER: string := "Selecione uma categoria para continuar"
  const ISSUE_PLACEHOLDER: string := "Escolha um problema listado acima"
  const MESSAGE_PLACEHOLDER: string := "Digite sua mensagem..."

  /**
   * The chat screen's fixed texts: the welcome and consent messages, the acknowledgements and
   * introductions each handler posts, the closing and reminder messages, the assistant-path
   * texts, the default quick replies and the input placeholders.
   */
  datatype Copy = Copy(
    welcome: string,
    accept: string,
    categoryAck: string,
    categoryIntro: string,
    categoryIntroEnd: string,
    issueQuestion: string,
    restart: string,
    reset: string,
    issueAck: string,
    promptsIntro: string,
    noPromptsIntro: string,
    closing: string,
    reminder: string,
    contextPrefix: string,
    summaryHeader: string,
    emptyReply: string,
    quickReplies: seq<string>,
    consentPlaceholder: string,
    categoryPlaceholder: string,
    issuePlaceholder: string,
    messagePlaceholder: string)

  const COPY: Copy := Copy(
    WELCOME_TEXT,
    ACCEPT_TEXT,
    CATEGORY_ACK_PREFIX,
    CATEGORY_INTRO_PREFIX,
    CATEGORY_INTRO_SUFFIX,
    ISSUE_QUESTION,
    RESTART_TEXT,
    RESET_TEXT,
    ISSUE_ACK_PREFIX,
    PROMPTS_INTRO,
    NO_PROMPTS_INTRO,
    CLOSING_TEXT,
    REMINDER_TEXT,
    CONTEXT_PREFIX,
    SUMMARY_HEADER,
    EMPTY_REPLY_TEXT,
    DEFAULT_QUICK_REPLIES,
    CONSENT_PLACEHOLDER,
    CATEGORY_PLACEHOLDER,
    ISSUE_PLACEHOLDER,
    MESSAGE_PLACEHOLDER)

  /** The three tables and the fixed texts together, as the chat screen consults them. */
  datatype Catalog = Catalog(categories: seq<Category>, flows: map<string, Flow>, guides: map<string, Guide>, copy: Copy)

  const CATALOG: Catalog := Catalog(TRIAGE_CATEGORIES, TRIAGE_FLOWS, FOLLOWUP_GUIDE, COPY)

  /** Every category has a flow and a guide, every flow a category, and there is a default guide. */
  ghost predicate Covered(c: Catalog) {
    && (forall x :: x in c.categories ==> x.id in c.flows && x.id in c.guides)
    && (forall k :: k in c.flows ==> FindCategory(c.categories, k).Some?)
    && DEFAULT_GUIDE_KEY in c.guides
  }

  /** Every flow offers issues, asks at least one prompt, and keys its prompts uniquely. */
  ghost predicate FlowsUsable(c: Catalog) {
    forall k :: k in c.flows ==>
      && |c.flows[k].issues| > 0 && |c.flows[k].prompts| > 0
      && Distinct(PromptIds(c.flows[k].prompts))
  }

  /** The fallback reply is never blank and there are quick replies to offer. */
  ghost predicate CopyUsable(c: Catalog) {
    c.copy.emptyReply != "" && c.copy.quickReplies != []
  }

  /** The properties of the tables and texts the chat triage relies on. */
  ghost predicate WellFormed(c: Catalog) {
    Covered(c) && FlowsUsable(c) && CopyUsable(c)
  }

  /** The app's tables are covered, whatever texts go with them. */
  lemma TablesCovered(copy: Copy)
    ensures Covered(Catalog(TRIAGE_CATEGORIES, TRIAGE_FLOWS, FOLLOWUP_GUIDE, copy))
  {
    CategoriesHaveFlows();
    CategoriesHaveGuides();
    FlowsAreCatalogued();
    GuidesAreCatalogued();
  }

  /** The app's flows are usable, whatever texts go with them. */
  lemma TablesUsable(copy: Copy)
    ensures FlowsUsable(Catalog(TRIAGE_CATEGORIES, TRIAGE_FLOWS, FOLLOWUP_GUIDE, copy))
  {
    forall k | k in TRIAGE_FLOWS
      ensures |TRIAGE_FLOWS[k].issues| > 0 && |TRIAGE_FLOWS[k].prompts| > 0 && Distinct(PromptIds(TRIAGE_FLOWS[k].prompts))
    {
      FlowsNonEmpty(k);
      PromptIdsUnique(k);
    }
  }

  /** The app's texts are usable, whatever tables go with them. */
  lemma TextsUsable(categories: seq<Category>, flows: map<string, Flow>, guides: map<string, Guide>)
    ensures CopyUsable(Catalog(categories, flows, guides, COPY))
  {
    assert |EMPTY_REPLY_TEXT| > 0;
  }

  /** The app's own tables and texts are well formed. */
  lemma CatalogWellFormed()
    ensures WellFormed(CATALOG)
  {
    TablesCovered(COPY);
    TablesUsable(COPY);
    TextsUsable(TRIAGE_CATEGORIES, TRIAGE_FLOWS, FOLLOWUP_GUIDE);
  }
}
