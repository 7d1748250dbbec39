/**
 * The root OpenStack connection: it authenticates against the Identity
 * service, keeps the token, the user name, the project id and the
 * endpoints of the service catalog, and acts as the auth hook of its HTTP
 * session.
 *
 * The HTTP layer is a parameter: `post` maps the JSON body of the token
 * request to the response (or to the error the layer raised).
 */
module Connections {
  import opened Wrappers
  import opened Json
  import opened Text
  import opened Urls
  import opened Auth
  import opened Tokens
  import opened Catalogs

  const AuthTokenHeader := "x-auth-token"

  /** The interface and TLS setting a connection uses when the caller names none. */
  const DefaultInterface := "public"
  const DefaultVerify := true

  /** The HTTP session: whether it verifies TLS and whether it was closed. */
  class Session {
    var verify: bool
    var closed: bool

    constructor(verify: bool)
      ensures this.verify == verify && !closed
    {
      this.verify := verify;
      closed := false;
    }

    method Close()
      modifies this
      ensures closed && verify == old(verify)
    {
      closed := true;
    }
  }

  /** An outgoing request, as the auth hook sees it. */
  class Request {
    var headers: map<string, string>

    constructor(headers: map<string, string>)
      ensures this.headers == headers
    {
      this.headers := headers;
    }
  }

  /** Where a scoped connection takes its project id from: a project
      resource (its `.id`) or the id itself. */
  datatype ProjectRef = ProjectResource(id: Json) | ProjectId(value: Json)

  function ProjectIdOf(p: ProjectRef): Json {
    match p
    case ProjectResource(id) => id
    case ProjectId(v) => v
  }

  /** The JSON body of the token request. */
  function AuthRequestBody(params: AuthParams): (b: Json)
    ensures b.JObj? && Keys(b.fields) == ["auth"]
    ensures Index(b, JStr("auth")) == Ok(AsDict(params))
  {
    JObj([("auth", AsDict(params))])
  }

  class Connection {
    const authUrl: string
    const params: AuthParams
    const interface: string
    const verify: bool
    const session: Session
    /** None until the token response has been read (the attribute does
        not exist yet). */
    var token: Option<string>
    var username: Json
    var projectId: Json
    var endpoints: map<string, string>

    /** The part of `__init__` before the token request. */
    constructor Init(authUrl: string, params: AuthParams, interface: string, verify: bool)
      ensures this.authUrl == RStrip(authUrl, '/')
      ensures this.params == params && this.interface == interface && this.verify == verify
      ensures fresh(session) && session.verify == verify && !session.closed
      ensures token.None? && username == JNull && projectId == JNull && endpoints == map[]
    {
      this.authUrl := RStrip(authUrl, '/');
      this.params := params;
      this.interface := interface;
      this.verify := verify;
      session := new Session(verify);
      token := None;
      username := JNull;
      projectId := JNull;
      endpoints := map[];
    }

    /** `__call__`: the auth hook sets the token header once there is a
        token and leaves the request alone before that. */
    method Authorize(request: Request) returns (r: Request)
      modifies request
      ensures r == request
      ensures token.Some? ==> request.headers == old(request.headers)[AuthTokenHeader := token.value]
      ensures token.None? ==> request.headers == old(request.headers)
    {
      if token.Some? {
        request.headers := request.headers[AuthTokenHeader := token.value];
      }
      r := request;
    }

    /** The catalog loop of `__init__`: endpoints are added entry by entry,
        a later entry of the same type replacing an earlier one. */
    method FillEndpoints(entries: seq<Json>) returns (o: Outcome<()>)
      modifies this`endpoints
      ensures o.Ok? <==> Catalog(entries, interface).Ok?
      ensures o.Ok? ==> endpoints == Catalog(entries, interface).value
      ensures o.Err? ==> o.error == Catalog(entries, interface).error
    {
      ghost var cs := Contributions(entries, interface);
      endpoints := map[];
      var i := 0;
      while i < |entries|
        invariant 0 <= i <= |entries|
        invariant Fold(cs[..i]) == Ok(endpoints)
      {
        var e := EntryEndpoint(entries[i], interface);
        assert cs[..i + 1][..i] == cs[..i] && cs[i] == e;
        if e.Err? {
          FoldErrorPersists(cs, i + 1);
          return Err(e.error);
        }
        if e.value.Some? {
          endpoints := endpoints[e.value.value.0 := e.value.value.1];
        }
        i := i + 1;
      }
      assert cs[..i] == cs;
      o := Ok(());
    }

    /** `scoped_connection`: a new connection to the same Identity service,
        interface and TLS setting, authenticated by this connection's token
        and scoped to the project; the token request carries exactly the
        token identity and the project scope. */
    method Scoped(project: ProjectRef, post: Json -> Outcome<Response>) returns (r: Outcome<Connection>, ghost s: Session)
      ensures token.None? ==> r == Err(AttributeError("token"))
      ensures token.Some? ==>
                var p := UseProjectId(UseToken(NewAuthParams(None), JStr(token.value)), ProjectIdOf(project));
                && p.params == [("identity", TokenIdentity(JStr(token.value))), ("scope", ProjectScope(ProjectIdOf(project)))]
                && Authenticates(r, s, authUrl, p, interface, verify, post)
    {
      if token.None? {
        return Err(AttributeError("token")), session;
      }
      var p := UseProjectId(UseToken(NewAuthParams(None), JStr(token.value)), ProjectIdOf(project));
      ScopedParamsExact(JStr(token.value), ProjectIdOf(project));
      r, s := Connect(authUrl, p, interface, verify, post);
    }
  }

  /** The connection keeps the arguments it was created with, the Identity
      URL without trailing slashes. */
  predicate Configured(c: Connection, authUrl: string, params: AuthParams, interface: string, verify: bool) {
    && c.authUrl == RStrip(authUrl, '/')
    && c.params == params && c.interface == interface && c.verify == verify
  }

  /** The connection holds what the token response carried. */
  predicate Holds(c: Connection, info: TokenInfo)
    reads c
  {
    && c.token == Some(info.token)
    && c.username == info.username && c.projectId == info.projectId
    && Catalog(info.catalog, c.interface).Ok?
    && c.endpoints == Catalog(info.catalog, c.interface).value
  }

  /**
   * The outcome of creating a connection: when the token request fails, its
   * error, and the session is closed exactly for an ApiError; otherwise a
   * new connection exactly when the token response parses and its catalog
   * reads, holding what the response carried, and else the error of the
   * token response or, when that parses, of its catalog.
   */
  predicate Authenticates(r: Outcome<Connection>, session: Session, authUrl: string, params: AuthParams,
                          interface: string, verify: bool, post: Json -> Outcome<Response>)
    reads session, if r.Ok? then {r.value} else {}
  {
    var sent := post(AuthRequestBody(params));
    && session.verify == verify
    && (sent.Err? ==> r == Err(sent.error) && (session.closed <==> sent.error == ApiError))
    && (sent.Ok? ==>
          && !session.closed
          && (r.Ok? <==> ParseToken(sent.value).Ok? && Catalog(ParseToken(sent.value).value.catalog, interface).Ok?)
          && (r.Err? ==> r.error == if ParseToken(sent.value).Err? then ParseToken(sent.value).error
                                    else Catalog(ParseToken(sent.value).value.catalog, interface).error)
          && (r.Ok? ==>
                && r.value.session == session
                && Configured(r.value, authUrl, params, interface, verify)
                && Holds(r.value, ParseToken(sent.value).value)))
  }

  /**
   * `Connection(auth_url, params, interface, verify)`: authenticate with
   * the token request, then read the token response.  An ApiError from the
   * token request closes the session before it propagates; other errors
   * leave it open.
   */
  method Connect(authUrl: string, params: AuthParams, interface: string, verify: bool, post: Json -> Outcome<Response>)
    returns (r: Outcome<Connection>, ghost session: Session)
    ensures fresh(session) && (r.Ok? ==> fresh(r.value))
    ensures Authenticates(r, session, authUrl, params, interface, verify, post)
  {
    var c := new Connection.Init(authUrl, params, interface, verify);
    session := c.session;
    var response := post(AuthRequestBody(params));
    if response.Err? {
      if response.error == ApiError {
        c.session.Close();
      }
      return Err(response.error), session;
    }
    var parsed := ParseToken(response.value);
    if parsed.Err? {
      return Err(parsed.error), session;
    }
    var info := parsed.value;
    c.token := Some(info.token);
    c.username := info.username;
    c.projectId := info.projectId;
    var o := c.FillEndpoints(info.catalog);
    if o.Err? {
      return Err(o.error), session;
    }
    r := Ok(c);
  }

  /** `Connection(auth_url, params)`: the public interface, TLS verified. */
  method ConnectByDefault(authUrl: string, params: AuthParams, post: Json -> Outcome<Response>)
    returns (r: Outcome<Connection>, ghost session: Session)
    ensures fresh(session) && (r.Ok? ==> fresh(r.value))
    ensures Authenticates(r, session, authUrl, params, DefaultInterface, DefaultVerify, post)
    ensures r.Ok? ==> r.value.interface == "public" && r.value.verify
  {
    r, session := Connect(authUrl, params, DefaultInterface, DefaultVerify, post);
  }
}
