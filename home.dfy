/**
 * The home screen (app/home.tsx): the profile load, the manager test on the profile's roles,
 * the choice between the two card sets, and the first name in the greeting.
 */
module Home {
  import opened Wrappers
  import opened Strings
  import opened Services

  /** The part of `MeResponse` the screen reads; `roles` entries may be `null`. */
  datatype Me = Me(name: Option<string>, roles: Option<seq<Option<string>>>)

  /** A shortcut card: where it leads, and what it shows. */
  datatype Card = Card(title: string, description: string, color: string, route: string, icon: string)

  const CHAMADOS_ROUTE: string := "/tabs/chamados"
  const ARTIGOS_ROUTE: string := "/tabs/artigos"
  const CHATBOT_ROUTE: string := "/tabs/chatbot"

  const MANAGER_CARDS: seq<Card> := [
    Card("Chamados", "Visualize e organize todos os chamados da empresa.", "#2563EB", CHAMADOS_ROUTE, "ticket-outline"),
    Card("Base de conhecimento", "Cadastre ou revise artigos importantes para o time.", "#16A34A", ARTIGOS_ROUTE, "book-outline")
  ]

  const USER_CARDS: seq<Card> := [
    Card("Chat", "Converse com nosso assistente virtual.", "#2563EB", CHATBOT_ROUTE, "chatbubble-ellipses-outline"),
    Card("Artigos uteis", "Consulte artigos para resolver problemas comuns.", "#16A34A", ARTIGOS_ROUTE, "book-outline"),
    Card("Meus chamados", "Acompanhe o status dos seus tickets.", "#7C3AED", CHAMADOS_ROUTE, "list-outline")
  ]

  /** The two roles that see the manager cards, compared exactly. */
  predicate ManagerRole(role: Option<string>) {
    Truthy(role) && (role.value == "Analyst" || role.value == "Admin")
  }

  /** `roles.some(role => role && ["Analyst", "Admin"].includes(role))`, scanning from the left. */
  function SomeManagerRole(roles: seq<Option<string>>): (r: bool)
    ensures r <==> exists i :: 0 <= i < |roles| && ManagerRole(roles[i])
    decreases |roles|
  {
    if |roles| == 0 then false
    else if ManagerRole(roles[0]) then true
    else
      var rest := SomeManagerRole(roles[1..]);
      assert forall i :: 1 <= i < |roles| ==> roles[i] == roles[1..][i - 1];
      rest
  }

  /** `isManager`: `false` while there is no profile or the profile has no roles. */
  function IsManager(profile: Option<Me>): (r: bool)
    ensures r <==> profile.Some? && profile.value.roles.Some?
                   && exists i :: 0 <= i < |profile.value.roles.value| && ManagerRole(profile.value.roles.value[i])
  {
    match profile
    case None => false
    case Some(me) =>
      match me.roles
      case None => false
      case Some(roles) => SomeManagerRole(roles)
  }

  /** The comparison is case-sensitive: a lower-case role name is not a manager role. */
  lemma RolesAreCaseSensitive()
    ensures !IsManager(Some(Me(None, Some([Some("admin"), Some("analyst")]))))
    ensures IsManager(Some(Me(None, Some([None, Some("user"), Some("Admin")]))))
  {
    var lower: seq<Option<string>> := [Some("admin"), Some("analyst")];
    assert !ManagerRole(lower[0]) && !ManagerRole(lower[1]);
    var mixed: seq<Option<string>> := [None, Some("user"), Some("Admin")];
    assert ManagerRole(mixed[2]);
  }

  /** `cards`. */
  function Cards(isManager: bool): (r: seq<Card>)
    ensures isManager <==> r == MANAGER_CARDS
    ensures !isManager <==> r == USER_CARDS
    ensures |r| == if isManager then 2 else 3
  {
    if isManager then MANAGER_CARDS else USER_CARDS
  }

  function Routes(cards: seq<Card>): (r: seq<string>)
    ensures |r| == |cards| && forall i :: 0 <= i < |cards| ==> r[i] == cards[i].route
  {
    seq(|cards|, i requires 0 <= i < |cards| => cards[i].route)
  }

  /** Both card sets lead to the tickets and the articles; only the user set leads to the chat. */
  lemma CardRoutes(isManager: bool)
    ensures CHAMADOS_ROUTE in Routes(Cards(isManager)) && ARTIGOS_ROUTE in Routes(Cards(isManager))
    ensures CHATBOT_ROUTE in Routes(Cards(isManager)) <==> !isManager
  {
    var rs := Routes(Cards(isManager));
    assert CHATBOT_ROUTE[6] == 'c' && CHAMADOS_ROUTE[6] == 'c' && ARTIGOS_ROUTE[6] == 'a';
    assert CHATBOT_ROUTE[9] == 't' && CHAMADOS_ROUTE[9] == 'm';
    if isManager {
      assert rs[0] == CHAMADOS_ROUTE && rs[1] == ARTIGOS_ROUTE;
      assert rs == [CHAMADOS_ROUTE, ARTIGOS_ROUTE];
    } else {
      assert rs[0] == CHATBOT_ROUTE && rs[1] == ARTIGOS_ROUTE && rs[2] == CHAMADOS_ROUTE;
    }
  }

  const FALLBACK_NAME: string := "Usuario"

  /** `firstName`: the name up to its first space, or `"Usuario"` when that is empty or there is no name. */
  function FirstName(profile: Option<Me>): (r: string)
    ensures r != ""
    ensures (profile.None? || profile.value.name.None?) ==> r == FALLBACK_NAME
    ensures profile.Some? && profile.value.name.Some? ==>
      (r == FALLBACK_NAME || (StartsWith(profile.value.name.value, r) && ' ' !in r))
  {
    if profile.None? || profile.value.name.None? then FALLBACK_NAME
    else
      var first := Split(profile.value.name.value, ' ')[0];
      SplitFirstIsPrefix(profile.value.name.value, ' ');
      if first != "" then first else FALLBACK_NAME
  }

  /** The greeting uses the whole first word of the name: the text ends at a space or at the end. */
  lemma FirstNameIsFirstWord(me: Me)
    requires me.name.Some? && |me.name.value| > 0 && me.name.value[0] != ' '
    ensures StartsWith(me.name.value, FirstName(Some(me))) && ' ' !in FirstName(Some(me))
    ensures |FirstName(Some(me))| == |me.name.value| || me.name.value[|FirstName(Some(me))|] == ' '
  {
    var s := me.name.value;
    SplitFirstIsPrefix(s, ' ');
    assert Split(s, ' ')[0] == [s[0]] + Split(s[1..], ' ')[0];
  }

  /** A name that starts with a space greets `"Usuario"`, whatever follows. */
  lemma LeadingSpaceFallsBack(me: Me)
    requires me.name.Some? && |me.name.value| > 0 && me.name.value[0] == ' '
    ensures FirstName(Some(me)) == FALLBACK_NAME
  {
  }

  // ----- the profile load -----

  const PROFILE_LOAD_FAILED: string := "Nao foi possivel carregar seu perfil."

  datatype HomeState = HomeState(profile: Option<Me>, loading: bool, error: Option<string>)

  /** The state before the first load settles. */
  function InitialHome(): (st: HomeState)
    ensures st.profile.None? && st.loading && st.error.None?
  {
    HomeState(None, true, None)
  }

  /** `fetchProfile`, with `reply` standing for how `getMe` settles; a failure keeps the old profile. */
  function FetchProfile(st: HomeState, reply: Response<Me>): (t: HomeState)
    ensures !t.loading
    ensures reply.Succeeded? ==> t.profile == Some(reply.value) && t.error.None?
    ensures reply.Failed? ==> t.profile == st.profile && t.error == Some(ErrorText(reply.error, PROFILE_LOAD_FAILED))
  {
    var started := st.(error := None, loading := true);
    var settled :=
      match reply
      case Succeeded(me) => started.(profile := Some(me))
      case Failed(e) => started.(error := Some(ErrorText(e, PROFILE_LOAD_FAILED)));
    settled.(loading := false)
  }

  /** A failed first load leaves the user cards and the fallback greeting, with a message. */
  lemma FailedLoadShowsUserView(e: ServiceError)
    ensures !IsManager(FetchProfile(InitialHome(), Failed(e)).profile)
    ensures Cards(IsManager(FetchProfile(InitialHome(), Failed(e)).profile)) == USER_CARDS
    ensures FirstName(FetchProfile(InitialHome(), Failed(e)).profile) == FALLBACK_NAME
    ensures FetchProfile(InitialHome(), Failed(e)).error.Some?
    ensures FetchProfile(InitialHome(), Failed(e)).error.value != ""
  {
  }
}
