/**
 * Reading the response of an Identity API v3 token request: the token
 * from the `X-Subject-Token` header, the user name, the project id and the
 * service catalog from the body.
 */
module Tokens {
  import opened Wrappers
  import opened Json

  /** Header names are lower-cased: header lookup is case-insensitive. */
  const SubjectTokenHeader := "x-subject-token"

  /** A response: its headers, keyed by lower-cased name (the headers
      dictionary of `requests` compares names without regard to case), its
      body parsed as JSON (None when the body is not JSON) and its raw text. */
  datatype Response = Response(headers: map<string, string>, body: Option<Json>, text: string)

  /** What the token response yields. */
  datatype TokenInfo = TokenInfo(token: string, username: Json, projectId: Json, catalog: seq<Json>)

  /** `response.json()` */
  function ParseJson(resp: Response): Outcome<Json> {
    match resp.body
    case Some(j) => Ok(j)
    case None => Err(JsonDecodeError)
  }

  /** `token["user"]["name"]` */
  function UserName(token: Json): Outcome<Json> {
    var user :- Index(token, JStr("user"));
    Index(user, JStr("name"))
  }

  /** `token.get("project", {}).get("id")`: None without a project. */
  function ProjectIdIn(token: Json): Outcome<Json> {
    var project :- DictGet(token, JStr("project"), JObj([]));
    DictGet(project, JStr("id"), JNull)
  }

  /** The entries of `token.get("catalog", [])`: none without a catalog. */
  function CatalogIn(token: Json): Outcome<seq<Json>> {
    var catalog :- DictGet(token, JStr("catalog"), JArr([]));
    Iterate(catalog)
  }

  /** What the body of the token response yields, read in the order
      `__init__` reads it: the user name, the project id, the catalog. */
  function ReadTokenBody(json: Json): (r: Outcome<(Json, Json, seq<Json>)>)
    ensures Index(json, JStr("token")).Err? ==> r == Err(Index(json, JStr("token")).error)
    ensures var token := Index(json, JStr("token"));
            token.Ok? ==>
              && (UserName(token.value).Err? ==> r == Err(UserName(token.value).error))
              && (r.Ok? <==> UserName(token.value).Ok? && ProjectIdIn(token.value).Ok? && CatalogIn(token.value).Ok?)
              && (r.Ok? ==> r.value == (UserName(token.value).value, ProjectIdIn(token.value).value, CatalogIn(token.value).value))
  {
    var token :- Index(json, JStr("token"));
    var username :- UserName(token);
    var projectId :- ProjectIdIn(token);
    var entries :- CatalogIn(token);
    Ok((username, projectId, entries))
  }

  /** The token from the `X-Subject-Token` header, then the body. */
  function ParseToken(resp: Response): (r: Outcome<TokenInfo>)
    ensures SubjectTokenHeader !in resp.headers ==> r == Err(KeyError(JStr("X-Subject-Token")))
    ensures SubjectTokenHeader in resp.headers && resp.body.None? ==> r == Err(JsonDecodeError)
    ensures r.Ok? ==> SubjectTokenHeader in resp.headers && r.value.token == resp.headers[SubjectTokenHeader]
    ensures SubjectTokenHeader in resp.headers && resp.body.Some? ==>
              && (r.Ok? <==> ReadTokenBody(resp.body.value).Ok?)
              && (r.Ok? ==> (r.value.username, r.value.projectId, r.value.catalog) == ReadTokenBody(resp.body.value).value)
              && (r.Err? ==> r.error == ReadTokenBody(resp.body.value).error)
  {
    if SubjectTokenHeader !in resp.headers then Err(KeyError(JStr("X-Subject-Token")))
    else
      var json :- ParseJson(resp);
      var (username, projectId, entries) :- ReadTokenBody(json);
      Ok(TokenInfo(resp.headers[SubjectTokenHeader], username, projectId, entries))
  }

  /** A token response body as Keystone writes it: the user, optionally the
      project, and the catalog. */
  function TokenBody(username: Json, project: Option<Json>, catalog: seq<Json>): Json {
    var user := ("user", JObj([("name", username)]));
    var cat := ("catalog", JArr(catalog));
    match project
    case Some(id) => JObj([("token", JObj([user, ("project", JObj([("id", id)])), cat]))])
    case None => JObj([("token", JObj([user, cat]))])
  }

  /** Parsing a token response gives back what it was built from. */
  lemma ParseScopedTokenBody(token: string, headers: map<string, string>, username: Json, projectId: Json, catalog: seq<Json>, text: string)
    requires SubjectTokenHeader in headers && headers[SubjectTokenHeader] == token
    ensures ParseToken(Response(headers, Some(TokenBody(username, Some(projectId), catalog)), text))
            == Ok(TokenInfo(token, username, projectId, catalog))
  {
    ReadScopedTokenBody(username, projectId, catalog);
  }

  lemma ReadScopedTokenBody(username: Json, projectId: Json, catalog: seq<Json>)
    ensures ReadTokenBody(TokenBody(username, Some(projectId), catalog)) == Ok((username, projectId, catalog))
  {
    var fs := [("user", JObj([("name", username)])), ("project", JObj([("id", projectId)])), ("catalog", JArr(catalog))];
    assert TokenBody(username, Some(projectId), catalog) == JObj([("token", JObj(fs))]);
    ReadScopedFields(username, projectId, catalog);
  }

  lemma ReadScopedFields(username: Json, projectId: Json, catalog: seq<Json>)
    ensures ReadTokenBody(JObj([("token", JObj([("user", JObj([("name", username)])), ("project", JObj([("id", projectId)])), ("catalog", JArr(catalog))]))]))
            == Ok((username, projectId, catalog))
  {
    var fs := [("user", JObj([("name", username)])), ("project", JObj([("id", projectId)])), ("catalog", JArr(catalog))];
    ScopedTokenFields(username, projectId, catalog);
    assert Index(JObj([("token", JObj(fs))]), JStr("token")) == Ok(JObj(fs));
  }

  lemma ScopedTokenFields(username: Json, projectId: Json, catalog: seq<Json>)
    ensures var tok := JObj([("user", JObj([("name", username)])), ("project", JObj([("id", projectId)])), ("catalog", JArr(catalog))]);
            UserName(tok) == Ok(username) && ProjectIdIn(tok) == Ok(projectId) && CatalogIn(tok) == Ok(catalog)
  {
    var fs := [("user", JObj([("name", username)])), ("project", JObj([("id", projectId)])), ("catalog", JArr(catalog))];
    ThirdField(fs);
    ReadUser(fs, username);
    ReadProject(fs, projectId);
    ReadCatalog(fs, catalog);
  }

  lemma ReadUser(fs: Fields, username: Json)
    requires Get(fs, "user") == Some(JObj([("name", username)]))
    ensures UserName(JObj(fs)) == Ok(username)
  {
  }

  lemma ReadProject(fs: Fields, projectId: Json)
    requires Get(fs, "project") == Some(JObj([("id", projectId)]))
    ensures ProjectIdIn(JObj(fs)) == Ok(projectId)
  {
  }

  lemma ReadCatalog(fs: Fields, catalog: seq<Json>)
    requires Get(fs, "catalog") == Some(JArr(catalog))
    ensures CatalogIn(JObj(fs)) == Ok(catalog)
  {
  }

  /** Lookups in a three-field object. */
  lemma ThirdField(fs: Fields)
    requires |fs| == 3 && fs[0].0 == "user" && fs[1].0 == "project" && fs[2].0 == "catalog"
    ensures Get(fs, "user") == Some(fs[0].1)
    ensures Get(fs, "project") == Some(fs[1].1)
    ensures Get(fs, "catalog") == Some(fs[2].1)
  {
    assert Get(fs, "project") == Get(fs[1..], "project");
    assert Get(fs, "catalog") == Get(fs[1..], "catalog") == Get(fs[2..], "catalog");
  }

  /** An unscoped token has no project: the project id is None. */
  lemma ParseUnscopedTokenBody(token: string, headers: map<string, string>, username: Json, catalog: seq<Json>, text: string)
    requires SubjectTokenHeader in headers && headers[SubjectTokenHeader] == token
    ensures ParseToken(Response(headers, Some(TokenBody(username, None, catalog)), text))
            == Ok(TokenInfo(token, username, JNull, catalog))
  {
    ReadUnscopedTokenBody(username, catalog);
  }

  lemma ReadUnscopedTokenBody(username: Json, catalog: seq<Json>)
    ensures ReadTokenBody(TokenBody(username, None, catalog)) == Ok((username, JNull, catalog))
  {
    var fs := [("user", JObj([("name", username)])), ("catalog", JArr(catalog))];
    assert TokenBody(username, None, catalog) == JObj([("token", JObj(fs))]);
    UnscopedTokenFields(username, catalog);
    assert Index(JObj([("token", JObj(fs))]), JStr("token")) == Ok(JObj(fs));
  }

  lemma UnscopedTokenFields(username: Json, catalog: seq<Json>)
    ensures var tok := JObj([("user", JObj([("name", username)])), ("catalog", JArr(catalog))]);
            UserName(tok) == Ok(username) && ProjectIdIn(tok) == Ok(JNull) && CatalogIn(tok) == Ok(catalog)
  {
    var fs := [("user", JObj([("name", username)])), ("catalog", JArr(catalog))];
    SecondField(fs);
    ReadUser(fs, username);
    NoProject(fs);
    ReadCatalog(fs, catalog);
  }

  lemma NoProject(fs: Fields)
    requires Get(fs, "project") == None
    ensures ProjectIdIn(JObj(fs)) == Ok(JNull)
  {
  }

  /** Lookups in a two-field object. */
  lemma SecondField(fs: Fields)
    requires |fs| == 2 && fs[0].0 == "user" && fs[1].0 == "catalog"
    ensures Get(fs, "user") == Some(fs[0].1)
    ensures Get(fs, "project") == None
    ensures Get(fs, "catalog") == Some(fs[1].1)
  {
    assert Get(fs, "project") == Get(fs[1..], "project") == Get(fs[2..], "project");
    assert Get(fs, "catalog") == Get(fs[1..], "catalog");
  }
}
