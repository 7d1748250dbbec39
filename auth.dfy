/**
 * AuthParams: the builder of the `auth` object of an Identity API v3 token
 * request.  Each builder copies the accumulated parameters, replaces one
 * top-level key (`identity` or `scope`) and returns a new builder; the
 * receiver is never changed, which the value semantics of the model make
 * automatic.
 */
module Auth {
  import opened Wrappers
  import opened Json

  datatype AuthParams = AuthParams(params: Fields)

  /** `AuthParams(params)`: `params or dict()`, so `None` and `{}` both give
      an empty dict and any other dict is kept. */
  function NewAuthParams(params: Option<Fields>): (a: AuthParams)
    ensures params.None? ==> a.params == []
    ensures params.Some? ==> a.params == params.value
  {
    match params
    case None => AuthParams([])
    case Some(fs) => AuthParams(fs)
  }

  /** `{"methods": ["token"], "token": {"id": token}}` */
  function TokenIdentity(token: Json): Json {
    JObj([("methods", JArr([JStr("token")])), ("token", JObj([("id", token)]))])
  }

  /** `{"methods": ["password"], "password": {"user": {"domain": {"name": domain}, "name": username, "password": password}}}` */
  function PasswordIdentity(domain: Json, username: Json, password: Json): Json {
    JObj([
      ("methods", JArr([JStr("password")])),
      ("password", JObj([
        ("user", JObj([
          ("domain", JObj([("name", domain)])),
          ("name", username),
          ("password", password)]))]))])
  }

  /** `{"project": {"id": project_id}}` */
  function ProjectScope(projectId: Json): Json {
    JObj([("project", JObj([("id", projectId)]))])
  }

  /** `use_token`: `identity` becomes the token identity, nothing else changes. */
  function UseToken(a: AuthParams, token: Json): (r: AuthParams)
    ensures Get(r.params, "identity") == Some(TokenIdentity(token))
    ensures forall k :: k != "identity" ==> Get(r.params, k) == Get(a.params, k)
  {
    AuthParams(Put(a.params, "identity", TokenIdentity(token)))
  }

  /** `use_password`: `identity` becomes the password identity, nothing else changes. */
  function UsePassword(a: AuthParams, domain: Json, username: Json, password: Json): (r: AuthParams)
    ensures Get(r.params, "identity") == Some(PasswordIdentity(domain, username, password))
    ensures forall k :: k != "identity" ==> Get(r.params, k) == Get(a.params, k)
  {
    AuthParams(Put(a.params, "identity", PasswordIdentity(domain, username, password)))
  }

  /** `use_project_id`: `scope` becomes the project scope, nothing else changes. */
  function UseProjectId(a: AuthParams, projectId: Json): (r: AuthParams)
    ensures Get(r.params, "scope") == Some(ProjectScope(projectId))
    ensures forall k :: k != "scope" ==> Get(r.params, k) == Get(a.params, k)
  {
    AuthParams(Put(a.params, "scope", ProjectScope(projectId)))
  }

  /** `as_dict`: a copy of the accumulated parameters, as a JSON object whose
      every key reads what the builder holds. */
  function AsDict(a: AuthParams): (d: Json)
    ensures d.JObj?
    ensures forall k :: Index(d, JStr(k)) == (if Get(a.params, k).Some? then Ok(Get(a.params, k).value) else Err(KeyError(JStr(k))))
  {
    JObj(a.params)
  }

  /** Replacing a top-level key twice keeps only the second value, in the
      position the key had: the last builder call for a key wins. */
  lemma {:induction false} PutTwice(fs: Fields, k: string, v1: Json, v2: Json)
    ensures Put(Put(fs, k, v1), k, v2) == Put(fs, k, v2)
  {
    if fs != [] && fs[0].0 != k {
      PutTwice(fs[1..], k, v1, v2);
      assert Put(fs, k, v1)[1..] == Put(fs[1..], k, v1);
    }
  }

  /** Switching from a password to a token keeps the scope and forgets the
      password entirely. */
  lemma TokenReplacesPassword(a: AuthParams, domain: Json, username: Json, password: Json, token: Json)
    ensures UseToken(UsePassword(a, domain, username, password), token) == UseToken(a, token)
  {
    PutTwice(a.params, "identity", PasswordIdentity(domain, username, password), TokenIdentity(token));
  }

  /** Rescoping keeps only the last project. */
  lemma RescopeKeepsLast(a: AuthParams, p1: Json, p2: Json)
    ensures UseProjectId(UseProjectId(a, p1), p2) == UseProjectId(a, p2)
  {
    PutTwice(a.params, "scope", ProjectScope(p1), ProjectScope(p2));
  }

  /** A builder chain only ever adds keys at the end, so existing keys keep
      their order and no key appears twice. */
  lemma BuildersKeepKeys(a: AuthParams, token: Json, projectId: Json)
    requires UniqueKeys(a.params)
    ensures UniqueKeys(UseProjectId(UseToken(a, token), projectId).params)
    ensures Keys(a.params) <= Keys(UseProjectId(UseToken(a, token), projectId).params)
  {
    var b := UseToken(a, token).params;
    var c := UseProjectId(UseToken(a, token), projectId).params;
    PutKeys(a.params, "identity", TokenIdentity(token));
    PutKeepsUnique(a.params, "identity", TokenIdentity(token));
    assert Keys(a.params) <= Keys(b);
    PutKeys(b, "scope", ProjectScope(projectId));
    PutKeepsUnique(b, "scope", ProjectScope(projectId));
    assert Keys(b) <= Keys(c);
  }

  /** The parameters a scoped connection authenticates with: exactly an
      identity by token followed by a scope by project. */
  lemma ScopedParamsExact(token: Json, projectId: Json)
    ensures UseProjectId(UseToken(NewAuthParams(None), token), projectId).params
            == [("identity", TokenIdentity(token)), ("scope", ProjectScope(projectId))]
  {
    var b := [("identity", TokenIdentity(token))];
    assert UseToken(NewAuthParams(None), token).params == b;
    assert Put(b, "scope", ProjectScope(projectId)) == [b[0]] + Put(b[1..], "scope", ProjectScope(projectId));
  }

  /** A password login scoped to a project, then switched to a token, keeps
      the project scope and carries the token identity. */
  lemma PasswordProjectThenToken(a: AuthParams, domain: Json, username: Json, password: Json, projectId: Json, token: Json)
    ensures var r := UseToken(UseProjectId(UsePassword(a, domain, username, password), projectId), token);
            && Get(r.params, "identity") == Some(TokenIdentity(token))
            && Get(r.params, "scope") == Some(ProjectScope(projectId))
            && forall k :: k != "identity" && k != "scope" ==> Get(r.params, k) == Get(a.params, k)
  {
  }
}
