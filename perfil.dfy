/**
 * The profile screen (app/tabs/perfil.tsx): the avatar's initial, the role line and the shown
 * name, all derived from the `getMe` reply.
 */
module Perfil {
  import opened Wrappers
  import opened Strings
  import opened Services

  /** The part of `getMe`'s reply the screen stores. */
  datatype Me = Me(name: string, email: string, roles: Option<seq<string>>)

  /** The screen's three state variables. */
  datatype PerfilState = PerfilState(name: string, email: string, roles: seq<string>)

  function InitialPerfil(): (st: PerfilState)
    ensures st.name == "" && st.email == "" && st.roles == []
  {
    PerfilState("", "", [])
  }

  /** The load: a reply replaces all three, with missing roles read as none; a failure is ignored. */
  function LoadPerfil(st: PerfilState, reply: Response<Me>): (t: PerfilState)
    ensures reply.Failed? ==> t == st
    ensures reply.Succeeded? ==> t.name == reply.value.name && t.email == reply.value.email
    ensures reply.Succeeded? ==> t.roles == reply.value.roles.GetOr([])
  {
    match reply
    case Failed(_) => st
    case Succeeded(me) => st.(name := me.name).(email := me.email).(roles := me.roles.GetOr([]))
  }

  const DEFAULT_INITIAL: string := "U"

  /** The text the initial is taken from: `(name || email || 'U').trim()`. */
  function InitialSource(name: string, email: string): (r: string)
    ensures name != "" ==> r == Trim(name)
    ensures name == "" && email != "" ==> r == Trim(email)
    ensures name == "" && email == "" ==> r == DEFAULT_INITIAL
  {
    var picked := if name != "" then name else if email != "" then email else DEFAULT_INITIAL;
    TrimKeepsVisibleEnds(DEFAULT_INITIAL);
    Trim(picked)
  }

  /** A text that starts and ends with a visible character is its own trim. */
  lemma TrimKeepsVisibleEnds(s: string)
    requires |s| > 0 && !IsSpace(s[0]) && !IsSpace(s[|s| - 1])
    ensures Trim(s) == s
  {
    assert TrimStart(s) == s;
    assert TrimEnd(s) == s;
  }

  /** `initial`: the source's first character in upper case, or `'U'` when the source is blank. */
  function Initial(name: string, email: string): (r: string)
    ensures |r| == 1
    ensures InitialSource(name, email) == "" ==> r == DEFAULT_INITIAL
    ensures InitialSource(name, email) != "" ==> r == [UpperChar(InitialSource(name, email)[0])]
    ensures !IsSpace(r[0])
  {
    var source := InitialSource(name, email);
    if source != "" then
      UpperKeepsNonSpace(source[0]);
      [UpperChar(source[0])]
    else DEFAULT_INITIAL
  }

  /** Upper-casing never turns a visible character into whitespace. */
  lemma UpperKeepsNonSpace(c: char)
    requires !IsSpace(c)
    ensures !IsSpace(UpperChar(c))
  {
  }

  /** The name, when present, decides the initial; the e-mail is used only without a name. */
  lemma NameTakesPrecedence(name: string, email: string, email2: string)
    requires name != ""
    ensures Initial(name, email) == Initial(name, email2)
  {
  }

  /**
   * A name made only of spaces is still present, so it hides the e-mail: the initial is `'U'`
   * even when the e-mail could have given one.
   */
  lemma BlankNameHidesEmail(email: string)
    requires Trim(email) != ""
    ensures Initial(" ", email) == DEFAULT_INITIAL
    ensures Initial("", email) == [UpperChar(Trim(email)[0])]
  {
    assert AllSpace(" ");
  }

  /** The initial of a lower-case ASCII name is its capitalised first letter. */
  lemma InitialOfPlainName()
    ensures Initial("maria", "m@x.com") == "M"
    ensures Initial("", "joao@x.com") == "J"
  {
    var name, email := "maria", "joao@x.com";
    assert name[0] == 'm' && name[|name| - 1] == 'a';
    InitialOfVisible(name, email, name);
    assert email[0] == 'j' && email[|email| - 1] == 'm';
    InitialOfVisible("", email, email);
  }

  /** When the text the initial comes from has visible ends, the initial is its first letter upper-cased. */
  lemma InitialOfVisible(name: string, email: string, source: string)
    requires source == if name != "" then name else email
    requires |source| > 0 && !IsSpace(source[0]) && !IsSpace(source[|source| - 1])
    ensures Initial(name, email) == [UpperChar(source[0])]
  {
    TrimKeepsVisibleEnds(source);
  }

  const DEFAULT_ROLE_LABEL: string := "User"
  const ROLE_SEPARATOR: string := " / "

  /** `roleLabel`. */
  function RoleLabel(roles: seq<string>): (r: string)
    ensures roles == [] ==> r == DEFAULT_ROLE_LABEL
    ensures forall k :: 0 <= k < |roles| ==> Contains(r, roles[k])
  {
    if |roles| > 0 then
      JoinShowsEveryRole(roles);
      Join(roles, ROLE_SEPARATOR)
    else DEFAULT_ROLE_LABEL
  }

  lemma JoinShowsEveryRole(roles: seq<string>)
    ensures forall k :: 0 <= k < |roles| ==> Contains(Join(roles, ROLE_SEPARATOR), roles[k])
  {
    forall k | 0 <= k < |roles|
      ensures Contains(Join(roles, ROLE_SEPARATOR), roles[k])
    {
      JoinContainsPart(roles, ROLE_SEPARATOR, k);
    }
  }

  /** A single role is shown as it is; two are shown with the separator between them. */
  lemma RoleLabelShapes(a: string, b: string)
    ensures RoleLabel([a]) == a
    ensures RoleLabel([a, b]) == a + ROLE_SEPARATOR + b
  {
    assert [a, b][1..] == [b];
    assert Join([b], ROLE_SEPARATOR) == b;
  }

  const FALLBACK_NAME: string := "Usuario"

  /** The name line: the name, or `"Usuario"` when it is empty. */
  function DisplayName(name: string): (r: string)
    ensures r != ""
    ensures name != "" ==> r == name
    ensures name == "" ==> r == FALLBACK_NAME
  {
    if name != "" then name else FALLBACK_NAME
  }

  /** Before the load settles, and after a failed one, the screen shows the three fallbacks. */
  lemma FailedLoadShowsFallbacks(e: ServiceError)
    ensures DisplayName(LoadPerfil(InitialPerfil(), Failed(e)).name) == FALLBACK_NAME
    ensures RoleLabel(LoadPerfil(InitialPerfil(), Failed(e)).roles) == DEFAULT_ROLE_LABEL
    ensures Initial(LoadPerfil(InitialPerfil(), Failed(e)).name, LoadPerfil(InitialPerfil(), Failed(e)).email) == DEFAULT_INITIAL
  {
    var t := LoadPerfil(InitialPerfil(), Failed(e));
    assert t == InitialPerfil();
    assert InitialSource("", "") == DEFAULT_INITIAL;
    assert UpperChar('U') == 'U';
  }
}
