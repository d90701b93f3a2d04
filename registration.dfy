/**
 * The registration screen (app/register.tsx): the guard chain of `handleRegister` in front of
 * `registerUser`, and the department list, which starts as a fixed fallback and is replaced by
 * the service's list when that list is not empty.
 */
module Registration {
  import opened Wrappers
  import opened Strings
  import opened Services
  import Auth

  /** The text fields of the form. */
  datatype Form = Form(nome: string, email: string, confirmEmail: string, senha: string, confirmSenha: string, analystToken: string)

  const MSG_REQUIRED: string := "Preencha todos os campos obrigatorios."
  const MSG_EMAILS: string := "Os emails precisam ser iguais."
  const MSG_PASSWORDS: string := "As senhas devem coincidir."
  const MSG_FAILED: string := "Falha no cadastro."

  /** None of the five required fields is empty. */
  predicate AllFilled(f: Form) {
    f.nome != "" && f.email != "" && f.confirmEmail != "" && f.senha != "" && f.confirmSenha != ""
  }

  /** The message the guards of `handleRegister` stop with, or `None` when all of them pass. */
  function Validate(f: Form): (r: Option<string>)
    ensures r == Some(MSG_REQUIRED) <==> !AllFilled(f)
    ensures r == Some(MSG_EMAILS) <==> AllFilled(f) && f.email != f.confirmEmail
    ensures r == Some(MSG_PASSWORDS) <==> AllFilled(f) && f.email == f.confirmEmail && f.senha != f.confirmSenha
    ensures r.None? <==> AllFilled(f) && f.email == f.confirmEmail && f.senha == f.confirmSenha
  {
    MessagesDistinct();
    if !AllFilled(f) then Some(MSG_REQUIRED)
    else if f.email != f.confirmEmail then Some(MSG_EMAILS)
    else if f.senha != f.confirmSenha then Some(MSG_PASSWORDS)
    else None
  }

  lemma MessagesDistinct()
    ensures MSG_REQUIRED != MSG_EMAILS && MSG_REQUIRED != MSG_PASSWORDS && MSG_EMAILS != MSG_PASSWORDS
  {
    assert MSG_REQUIRED[0] == 'P' && MSG_EMAILS[0] == 'O' && MSG_PASSWORDS[0] == 'A';
  }

  /** The parameters `handleRegister` passes to `registerUser`. */
  function ParamsFor(f: Form, department: string): (p: Auth.RegisterParams)
    ensures p.name == f.nome && p.email == f.email && p.password == f.senha
    ensures p.department == Some(department)
    ensures p.inviteToken.None? <==> f.analystToken == ""
    ensures p.inviteToken.Some? ==> p.inviteToken.value == f.analystToken
    ensures p.role == Some("user") && p.origin == Some("mobile")
  {
    Auth.RegisterParams(f.nome, f.email, f.senha, Some(department), NonEmpty(f.analystToken), Some("user"), Some("mobile"))
  }

  /**
   * What a press of the register button leaves behind: the error shown, the call made (if any),
   * whether the screen moved to `/login`, and the spinner flag.
   */
  datatype RegisterOutcome = RegisterOutcome(erro: Option<string>, sent: Option<Auth.RegisterParams>, toLogin: bool, loading: bool)

  /** `handleRegister`, with `reply` standing for how the `registerUser` call settles. */
  function HandleRegister(f: Form, department: string, reply: Response<()>): (o: RegisterOutcome)
    ensures !o.loading
    ensures o.sent.Some? <==> Validate(f).None?
    ensures o.sent.Some? ==> o.sent.value == ParamsFor(f, department)
    ensures Validate(f).Some? ==> o.erro == Validate(f) && !o.toLogin
  {
    match Validate(f)
    case Some(msg) => RegisterOutcome(Some(msg), None, false, false)
    case None =>
      var params := ParamsFor(f, department);
      match reply
      case Succeeded(_) => RegisterOutcome(None, Some(params), true, false)
      case Failed(e) => RegisterOutcome(Some(ErrorText(e, MSG_FAILED)), Some(params), false, false)
  }

  /** A valid form leads to `/login` exactly when the call succeeds, and a failure is always explained. */
  lemma RegisterSettles(f: Form, department: string, reply: Response<()>)
    requires Validate(f).None?
    ensures HandleRegister(f, department, reply).toLogin <==> reply.Succeeded?
    ensures HandleRegister(f, department, reply).erro.None? <==> reply.Succeeded?
    ensures reply.Failed? ==> HandleRegister(f, department, reply).erro == Some(ErrorText(reply.error, MSG_FAILED))
  {
  }

  /** An email mismatch is reported even when the passwords differ as well. */
  lemma EmailMismatchFirst(f: Form)
    requires AllFilled(f) && f.email != f.confirmEmail
    ensures Validate(f) == Some(MSG_EMAILS)
    ensures Validate(f.(senha := f.confirmSenha + "x")) == Some(MSG_EMAILS)
  {
    assert AllFilled(f.(senha := f.confirmSenha + "x"));
  }

  // ----- the department list -----

  /** A department the service lists; the screen keeps only its name. */
  datatype Department = Department(name: string)

  const FALLBACK_DEPARTMENTS: seq<string> := ["Geral", "Recursos Humanos", "Comercial", "Financeiro", "TI", "Operacoes", "Suporte"]

  /** The state the department picker and its load use. */
  datatype DepartmentState = DepartmentState(available: seq<string>, department: string, loading: bool, error: Option<string>)

  /** Before any load: the fallback list, its first entry selected. */
  function InitialDepartments(): (st: DepartmentState)
    ensures st.available == FALLBACK_DEPARTMENTS && st.department == "Geral"
    ensures st.department == st.available[0] && !st.loading && st.error.None?
  {
    DepartmentState(FALLBACK_DEPARTMENTS, FALLBACK_DEPARTMENTS[0], false, None)
  }

  /** The selection is one of the listed departments. */
  predicate SelectionListed(st: DepartmentState) {
    st.department in st.available
  }

  function Names(list: seq<Department>): (r: seq<string>)
    ensures |r| == |list| && forall i :: 0 <= i < |list| ==> r[i] == list[i].name
  {
    seq(|list|, i requires 0 <= i < |list| => list[i].name)
  }

  /** The department effect: the load starts, then `reply` settles it. */
  function LoadDepartments(st: DepartmentState, reply: Response<seq<Department>>): (t: DepartmentState)
    ensures !t.loading
    ensures reply.Succeeded? && |reply.value| > 0 ==>
      t.available == Names(reply.value) && t.department == reply.value[0].name && t.error.None?
    ensures reply.Succeeded? && |reply.value| == 0 ==>
      t.available == st.available && t.department == st.department && t.error.None?
    ensures reply.Failed? ==> t.available == st.available && t.department == st.department && t.error == reply.error.message
  {
    var started := st.(loading := true, error := None);
    var settled :=
      match reply
      case Succeeded(list) =>
        if |list| == 0 then started
        else
          var names := Names(list);
          started.(available := names).(department := names[0])
      case Failed(e) => started.(error := e.message);
    settled.(loading := false)
  }

  /** Picking an entry of the list in the modal. */
  function PickDepartment(st: DepartmentState, item: string): (t: DepartmentState)
    requires item in st.available
    ensures SelectionListed(t) && t.department == item && t.available == st.available
  {
    st.(department := item)
  }

  /** Loading keeps the selection among the listed departments. */
  lemma LoadKeepsSelectionListed(st: DepartmentState, reply: Response<seq<Department>>)
    requires SelectionListed(st)
    ensures SelectionListed(LoadDepartments(st, reply))
  {
    var t := LoadDepartments(st, reply);
    if reply.Succeeded? && |reply.value| > 0 {
      assert t.available[0] == t.department;
    }
  }

  /** On the first load, an empty list or a failure keeps the fallback list and `"Geral"`. */
  lemma FallbackKept(reply: Response<seq<Department>>)
    requires reply.Failed? || |reply.value| == 0
    ensures LoadDepartments(InitialDepartments(), reply).available == FALLBACK_DEPARTMENTS
    ensures LoadDepartments(InitialDepartments(), reply).department == "Geral"
  {
  }
}
