/**
 * OpenStack service connections: how a Service subclass attaches itself to
 * the root connection under an accessor name, how the accessor builds the
 * service from the catalog endpoint and the root connection's project id,
 * and how a manager finds the root manager of a resource that belongs to
 * another service.
 *
 * A service class is described by its class attributes; a resource class by
 * its name and the service class it is attached to.  Which resources a
 * service has a root manager for is the set of its `RootResource`
 * attributes.
 */
module Services {
  import opened Wrappers
  import opened Json
  import opened Text
  import opened Connections

  /** The class attributes of a Service subclass: `catalog_type`, an
      optional explicit `name`, `path_prefix`, and the resource classes it
      declares root managers for. */
  datatype ServiceClass = ServiceClass(catalogType: Option<string>, name: Option<string>, pathPrefix: Option<string>, roots: set<string>)

  /** A resource class and the service class it belongs to. */
  datatype ResourceClass = ResourceClass(name: string, service: ServiceClass)

  /** `if cls.catalog_type:` — only a class with a non-empty catalog type
      attaches itself to the root connection. */
  predicate Registers(cls: ServiceClass) {
    cls.catalogType.Some? && cls.catalogType.value != ""
  }

  /** The accessor name: the declared `name`, else the catalog type with
      every `-` turned into `_`. */
  function AccessorName(cls: ServiceClass): (n: string)
    requires Registers(cls)
    ensures cls.name.Some? ==> n == cls.name.value
    ensures cls.name.None? ==> |n| == |cls.catalogType.value| && '-' !in n
    ensures cls.name.None? ==> forall i :: 0 <= i < |n| ==>
              n[i] == cls.catalogType.value[i] || (cls.catalogType.value[i] == '-' && n[i] == '_')
  {
    match cls.name
    case Some(n) => n
    case None => ReplaceChar(cls.catalogType.value, '-', '_')
  }

  /** The accessors of the root connection after `__init_subclass__` ran for
      `cls`: a registering class takes its accessor name, replacing whatever
      was there; every other accessor is kept. */
  function Register(accessors: map<string, ServiceClass>, cls: ServiceClass): (r: map<string, ServiceClass>)
    ensures Registers(cls) ==> AccessorName(cls) in r && r[AccessorName(cls)] == cls
    ensures r.Keys == if Registers(cls) then accessors.Keys + {AccessorName(cls)} else accessors.Keys
    ensures forall k :: k in accessors && !(Registers(cls) && k == AccessorName(cls)) ==> r[k] == accessors[k]
  {
    if Registers(cls) then accessors[AccessorName(cls) := cls] else accessors
  }

  /** The root connection class, whose attributes `__init_subclass__` sets. */
  class ServiceRegistry {
    var accessors: map<string, ServiceClass>

    constructor()
      ensures accessors == map[]
    {
      accessors := map[];
    }

    /** `Service.__init_subclass__`: `setattr(Connection, name, descriptor)`. */
    method InitSubclass(cls: ServiceClass)
      modifies this
      ensures accessors == Register(old(accessors), cls)
    {
      if cls.catalogType.Some? && cls.catalogType.value != "" {
        accessors := accessors[AccessorName(cls) := cls];
      }
    }
  }

  /** `str(project_id)` for the values a project id takes: a string, or
      `None` for an unscoped connection. */
  function PyStr(j: Json): (r: Outcome<string>)
    ensures j.JStr? ==> r == Ok(j.s)
    ensures j.JNull? ==> r == Ok("None")
    ensures r.Err? <==> !(j.JStr? || j.JNull? || j.JBool?)
  {
    match j
    case JStr(s) => Ok(s)
    case JNull => Ok("None")
    case JBool(b) => Ok(if b then "True" else "False")
    case _ => Err(Unsupported)
  }

  const ProjectIdField := "project_id"

  /** `Service.__init__`: a truthy path prefix is formatted with the project
      id; a missing or empty one is kept as it is. */
  function TemplatedPrefix(prefix: Option<string>, projectId: Json): (r: Outcome<Option<string>>)
    ensures prefix.None? || prefix.value == "" ==> r == Ok(prefix)
    ensures r.Ok? ==> r.value.Some? == prefix.Some?
    ensures prefix.Some? && prefix.value != "" ==>
              (r.Ok? <==> FormatField(prefix.value, ProjectIdField, PyStr(projectId)).Ok?)
    ensures prefix.Some? && prefix.value != "" && r.Ok? ==>
              r.value == Some(FormatField(prefix.value, ProjectIdField, PyStr(projectId)).value)
    ensures prefix.Some? && prefix.value != "" && r.Err? ==>
              r.error == FormatField(prefix.value, ProjectIdField, PyStr(projectId)).error
  {
    match prefix
    case None => Ok(None)
    case Some(p) =>
      if p == "" then Ok(prefix)
      else
        match FormatField(p, ProjectIdField, PyStr(projectId))
        case Ok(s) => Ok(Some(s))
        case Err(e) => Err(e)
  }

  /** A prefix without a placeholder (`/v2.1`, `/v2`) is left unchanged,
      whatever the project id. */
  lemma PrefixWithoutPlaceholder(p: string, projectId: Json)
    requires NoBraces(p)
    ensures TemplatedPrefix(Some(p), projectId) == Ok(Some(p))
  {
    if p != "" {
      FormatNoBraces(p, ProjectIdField, PyStr(projectId));
    }
  }

  /** A prefix with one `{project_id}` placeholder takes the text of the
      project id in its place: the id itself when scoped, `None` when not. */
  lemma PrefixWithPlaceholder(a: string, b: string, projectId: Json)
    requires NoBraces(a) && NoBraces(b)
    ensures PyStr(projectId).Ok? ==>
              TemplatedPrefix(Some(a + "{project_id}" + b), projectId) == Ok(Some(a + PyStr(projectId).value + b))
    ensures PyStr(projectId).Err? ==>
              TemplatedPrefix(Some(a + "{project_id}" + b), projectId) == Err(PyStr(projectId).error)
  {
    var t := a + "{project_id}" + b;
    assert t[|a|] == '{';
    assert t == a + "{" + ProjectIdField + "}" + b;
    if PyStr(projectId).Ok? {
      FormatOneField(a, b, ProjectIdField, PyStr(projectId).value);
    } else {
      FailingPlaceholder(a, b, PyStr(projectId));
    }
  }

  /** The text of the value is needed exactly when the placeholder occurs. */
  lemma {:induction false} FailingPlaceholder(a: string, b: string, value: Outcome<string>)
    requires NoBraces(a) && value.Err?
    ensures FormatField(a + "{project_id}" + b, ProjectIdField, value) == Err(value.error)
  {
    var t := a + "{project_id}" + b;
    if a == [] {
      var n := |ProjectIdField| + 1;
      assert t[1..n] == ProjectIdField && t[n] == '}' && t[0] == '{' && t[1] == 'p';
    } else {
      assert a[0] in a;
      assert NoBraces(a[1..]) by {
        forall c | c in a[1..] ensures c in a {}
      }
      FailingPlaceholder(a[1..], b, value);
      assert t[1..] == a[1..] + "{project_id}" + b;
      assert t[0] == a[0];
    }
  }

  /** What a service is built with: its base URL and its templated path
      prefix. */
  datatype ServiceState = ServiceState(url: string, pathPrefix: Option<string>)

  /**
   * `ServiceDescriptor.get_service` followed by `Service.__init__`: the base
   * URL is the catalog endpoint of the service's type (a KeyError when the
   * catalog has none), and the path prefix is templated with the root
   * connection's project id.
   */
  function Instantiate(cls: ServiceClass, endpoints: map<string, string>, projectId: Json): (r: Outcome<ServiceState>)
    ensures cls.catalogType.None? ==> r == Err(KeyError(JNull))
    ensures cls.catalogType.Some? && cls.catalogType.value !in endpoints ==> r == Err(KeyError(JStr(cls.catalogType.value)))
    ensures cls.catalogType.Some? && cls.catalogType.value in endpoints ==>
              (r.Ok? <==> TemplatedPrefix(cls.pathPrefix, projectId).Ok?)
    ensures r.Ok? ==> cls.catalogType.Some? && cls.catalogType.value in endpoints
                      && r.value.url == endpoints[cls.catalogType.value]
                      && r.value.pathPrefix == TemplatedPrefix(cls.pathPrefix, projectId).value
  {
    match cls.catalogType
    case None => Err(KeyError(JNull))
    case Some(ct) =>
      if ct !in endpoints then Err(KeyError(JStr(ct)))
      else
        var prefix :- TemplatedPrefix(cls.pathPrefix, projectId);
        Ok(ServiceState(endpoints[ct], prefix))
  }

  /** A service connection; its path prefix is reassigned once, when it is
      templated. */
  class Service {
    const cls: ServiceClass
    const url: string
    var pathPrefix: Option<string>

    /** The base connection's part of `__init__`: the prefix is the class's. */
    constructor(cls: ServiceClass, url: string)
      ensures this.cls == cls && this.url == url && pathPrefix == cls.pathPrefix
    {
      this.cls := cls;
      this.url := url;
      pathPrefix := cls.pathPrefix;
    }

    function State(): ServiceState
      reads this
    {
      ServiceState(url, pathPrefix)
    }

    /** The templating step of `Service.__init__`. */
    method TemplatePrefix(projectId: Json) returns (o: Outcome<()>)
      modifies this`pathPrefix
      ensures var t := TemplatedPrefix(old(pathPrefix), projectId);
              && (t.Ok? ==> o.Ok? && pathPrefix == t.value)
              && (t.Err? ==> o == Err(t.error) && pathPrefix == old(pathPrefix))
    {
      if pathPrefix.Some? && pathPrefix.value != "" {
        var f := FormatField(pathPrefix.value, ProjectIdField, PyStr(projectId));
        if f.Err? {
          return Err(f.error);
        }
        pathPrefix := Some(f.value);
      }
      o := Ok(());
    }
  }

  /** The service accessor of a root connection, on first access. */
  method GetService(c: Connection, cls: ServiceClass) returns (r: Outcome<Service>)
    ensures r.Ok? <==> Instantiate(cls, c.endpoints, c.projectId).Ok?
    ensures r.Ok? ==> fresh(r.value) && r.value.cls == cls
                      && r.value.State() == Instantiate(cls, c.endpoints, c.projectId).value
    ensures r.Err? ==> r.error == Instantiate(cls, c.endpoints, c.projectId).error
  {
    if cls.catalogType.None? {
      return Err(KeyError(JNull));
    }
    var ct := cls.catalogType.value;
    if ct !in c.endpoints {
      return Err(KeyError(JStr(ct)));
    }
    var s := new Service(cls, c.endpoints[ct]);
    var o := s.TemplatePrefix(c.projectId);
    if o.Err? {
      return Err(o.error);
    }
    r := Ok(s);
  }

  /** The root manager of a resource class in a built service. */
  datatype RootManager = RootManager(service: ServiceState, resource: string)

  const NoManagerMessage := "Unable to locate manager for embedded resource"

  /**
   * `ResourceManager.related_manager`: the accessor is always derived from
   * the target's catalog type (a declared `name` is not consulted), looked
   * up on the root connection, built, and asked for its root manager of the
   * target class.
   */
  function RelatedManager(target: ResourceClass, accessors: map<string, ServiceClass>,
                          endpoints: map<string, string>, projectId: Json): (r: Outcome<RootManager>)
    ensures target.service.catalogType.None? ==> r == Err(AttributeError("replace"))
    ensures target.service.catalogType.Some? && ReplaceChar(target.service.catalogType.value, '-', '_') !in accessors
            ==> r == Err(AttributeError(ReplaceChar(target.service.catalogType.value, '-', '_')))
    ensures r.Ok? ==> target.service.catalogType.Some?
                      && var svc := accessors[ReplaceChar(target.service.catalogType.value, '-', '_')];
                      && target.name in svc.roots
                      && Instantiate(svc, endpoints, projectId) == Ok(r.value.service)
                      && r.value.resource == target.name
    ensures target.service.catalogType.Some? && ReplaceChar(target.service.catalogType.value, '-', '_') in accessors ==>
              var svc := accessors[ReplaceChar(target.service.catalogType.value, '-', '_')];
              && (Instantiate(svc, endpoints, projectId).Err? ==> r == Err(Instantiate(svc, endpoints, projectId).error))
              && (Instantiate(svc, endpoints, projectId).Ok? && target.name !in svc.roots ==> r == Err(RuntimeError(NoManagerMessage)))
              && (Instantiate(svc, endpoints, projectId).Ok? && target.name in svc.roots ==>
                    r == Ok(RootManager(Instantiate(svc, endpoints, projectId).value, target.name)))
  {
    match target.service.catalogType
    case None => Err(AttributeError("replace"))
    case Some(ct) =>
      var name := ReplaceChar(ct, '-', '_');
      if name !in accessors then Err(AttributeError(name))
      else
        var svc := accessors[name];
        var built :- Instantiate(svc, endpoints, projectId);
        if target.name in svc.roots then Ok(RootManager(built, target.name))
        else Err(RuntimeError(NoManagerMessage))
  }

  /**
   * For a service that declares no `name`, registration and cross-service
   * resolution agree: once the service class is registered, a resource of
   * it resolves through the service built from its catalog endpoint, and
   * the failures are exactly a missing catalog type (KeyError) and a missing
   * root manager (RuntimeError).
   */
  lemma RelatedAfterRegister(accessors: map<string, ServiceClass>, target: ResourceClass,
                             endpoints: map<string, string>, projectId: Json)
    requires Registers(target.service) && target.service.name.None?
    ensures var ct := target.service.catalogType.value;
            var r := RelatedManager(target, Register(accessors, target.service), endpoints, projectId);
            && (ct !in endpoints ==> r == Err(KeyError(JStr(ct))))
            && (ct in endpoints && TemplatedPrefix(target.service.pathPrefix, projectId).Ok? ==>
                  if target.name in target.service.roots
                  then r == Ok(RootManager(ServiceState(endpoints[ct], TemplatedPrefix(target.service.pathPrefix, projectId).value), target.name))
                  else r == Err(RuntimeError(NoManagerMessage)))
  {
    var ct := target.service.catalogType.value;
    assert AccessorName(target.service) == ReplaceChar(ct, '-', '_');
  }

  /** A service that declares a `name` other than its derived one is
      registered under that name, yet resolution looks for the derived name
      and fails with an AttributeError, whatever the catalog holds. */
  lemma DeclaredNameIsNotFound(target: ResourceClass, endpoints: map<string, string>, projectId: Json)
    requires Registers(target.service) && target.service.name.Some?
    requires target.service.name.value != ReplaceChar(target.service.catalogType.value, '-', '_')
    ensures Register(map[], target.service).Keys == {target.service.name.value}
    ensures RelatedManager(target, Register(map[], target.service), endpoints, projectId)
            == Err(AttributeError(ReplaceChar(target.service.catalogType.value, '-', '_')))
  {
  }

  /** A catalog type with one hyphen between two hyphen-free parts, such
      as `block-storage`, is reached with an underscore in its place. */
  lemma HyphenatedAccessor(x: string, y: string)
    requires '-' !in x && '-' !in y
    ensures AccessorName(ServiceClass(Some(x + "-" + y), None, None, {})) == x + "_" + y
  {
    ReplaceOne(x, y, '-', '_');
  }
}
