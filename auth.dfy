/**
 * The request body `registerUser` (src/services/auth.ts) sends to `/auth/register`: a literal
 * with the defaults filled in, to which the invite token is added only when it is truthy.
 */
module Auth {
  import opened Wrappers
  import opened Strings

  /** The parameters of `registerUser`; the optional ones are `None` when absent. */
  datatype RegisterParams = RegisterParams(
    name: string,
    email: string,
    password: string,
    department: Option<string>,
    inviteToken: Option<string>,
    role: Option<string>,
    origin: Option<string>)

  /** A JSON request body's string fields, by key. */
  type Body = map<string, string>

  const REGISTER_ENDPOINT: string := "/auth/register"
  const DEFAULT_DEPARTMENT: string := "Geral"
  const DEFAULT_ORIGIN: string := "mobile"
  /** The role every self-registered account asks for, whatever the caller passes. */
  const REGISTER_ROLE: string := "User"

  /** The keys of the body literal, which is built before the invite token is considered. */
  predicate LiteralKeys(body: Body) {
    && "name" in body && "email" in body && "password" in body
    && "department" in body && "role" in body && "origin" in body
  }

  /** `registerUser`'s body, built as the source builds it. */
  method BuildRegisterBody(params: RegisterParams) returns (body: Body)
    ensures LiteralKeys(body)
    ensures body["name"] == params.name && body["email"] == params.email && body["password"] == params.password
    ensures body["department"] == params.department.GetOr(DEFAULT_DEPARTMENT)
    ensures body["role"] == REGISTER_ROLE
    ensures body["origin"] == params.origin.GetOr(DEFAULT_ORIGIN)
    ensures "inviteToken" in body <==> Truthy(params.inviteToken)
    ensures "inviteToken" in body ==> body["inviteToken"] == params.inviteToken.value
    ensures |body.Keys| == if Truthy(params.inviteToken) then 7 else 6
  {
    body := map[
      "name" := params.name,
      "email" := params.email,
      "password" := params.password,
      "department" := params.department.GetOr(DEFAULT_DEPARTMENT),
      "role" := REGISTER_ROLE,
      "origin" := params.origin.GetOr(DEFAULT_ORIGIN)];
    LiteralKeysDistinct(params, body);
    if Truthy(params.inviteToken) {
      body := body["inviteToken" := params.inviteToken.value];
    }
  }

  /** The six literal keys are distinct, and none of them is `inviteToken`. */
  lemma LiteralKeysDistinct(params: RegisterParams, body: Body)
    requires body == map[
      "name" := params.name,
      "email" := params.email,
      "password" := params.password,
      "department" := params.department.GetOr(DEFAULT_DEPARTMENT),
      "role" := REGISTER_ROLE,
      "origin" := params.origin.GetOr(DEFAULT_ORIGIN)]
    ensures body.Keys == {"name", "email", "password", "department", "role", "origin"}
    ensures |body.Keys| == 6 && "inviteToken" !in body
    ensures body["name"] == params.name && body["email"] == params.email && body["password"] == params.password
    ensures body["department"] == params.department.GetOr(DEFAULT_DEPARTMENT)
    ensures body["role"] == REGISTER_ROLE && body["origin"] == params.origin.GetOr(DEFAULT_ORIGIN)
  {
    assert |"name"| == 4 && |"email"| == 5 && |"password"| == 8 && |"department"| == 10 && |"role"| == 4 && |"origin"| == 6;
    assert "name"[0] != "role"[0];
  }
}
