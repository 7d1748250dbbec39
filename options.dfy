/**
 * The resource options of an OpenStack resource class (`Meta`), and the
 * envelope keys that ResourceOptions and UnmanagedResourceOptions derive
 * from the endpoint when the class does not declare them.
 *
 * An options dict maps option names to a string or `None`; a key that is
 * not in the dict is an option the class did not declare, and reads as
 * `None` (Lookup).
 */
module Options {
  import opened Wrappers
  import opened Json
  import opened Text

  type Meta = map<string, Option<string>>

  const EndpointKey := "endpoint"
  const ListKey := "resource_list_key"
  const LinksKey := "resource_links_key"
  const ResourceKey := "resource_key"

  /** The value of an option: what the class declared, else `None`. */
  function Lookup(m: Meta, k: string): Option<string> {
    if k in m then m[k] else None
  }

  /** `if endpoint:` — an endpoint is given and is not the empty string. */
  predicate HasEndpoint(m: Meta) {
    Lookup(m, EndpointKey).Some? && Lookup(m, EndpointKey).value != ""
  }

  function EndpointOf(m: Meta): string
    requires HasEndpoint(m)
  {
    Lookup(m, EndpointKey).value
  }

  /** `'{}'.format(x)` for a string-or-None option. */
  function Shown(o: Option<string>): string {
    match o
    case None => "None"
    case Some(s) => s
  }

  /**
   * The options ResourceOptions ends up with, key by key: a declared key
   * keeps its value; with an endpoint, the list key defaults to the
   * endpoint without its surrounding slashes, the links key to the list key
   * followed by `_links`, and the resource key to the list key without its
   * last character.  Taking `[:-1]` of a list key declared as `None` is a
   * TypeError.
   */
  function DeriveOptions(declared: Meta): (r: Outcome<Meta>)
    ensures !HasEndpoint(declared) ==> r == Ok(declared)
    ensures r.Err? <==>
              HasEndpoint(declared) && ResourceKey !in declared
              && ListKey in declared && declared[ListKey].None?
    ensures r.Err? ==> r.error == TypeError
    ensures r.Ok? ==> forall k :: k in declared ==> k in r.value && r.value[k] == declared[k]
    ensures r.Ok? && HasEndpoint(declared) ==>
              r.value.Keys == declared.Keys + {ListKey, LinksKey, ResourceKey}
    ensures r.Ok? && HasEndpoint(declared) && ListKey !in declared ==>
              r.value[ListKey] == Some(Strip(EndpointOf(declared), '/'))
    ensures r.Ok? && HasEndpoint(declared) && LinksKey !in declared ==>
              r.value[LinksKey] == Some(Shown(r.value[ListKey]) + "_links")
    ensures r.Ok? && HasEndpoint(declared) && ResourceKey !in declared ==>
              r.value[ListKey].Some? && r.value[ResourceKey] == Some(DropLast(r.value[ListKey].value))
  {
    if !HasEndpoint(declared) then Ok(declared)
    else
      var list := if ListKey in declared then declared[ListKey] else Some(Strip(EndpointOf(declared), '/'));
      if ResourceKey !in declared && list.None? then Err(TypeError)
      else
        var derived := map[
          ListKey := list,
          LinksKey := Some(Shown(list) + "_links"),
          ResourceKey := if list.Some? then Some(DropLast(list.value)) else None];
        Ok(map k | k in declared.Keys + derived.Keys :: if k in declared then declared[k] else derived[k])
  }

  /** `ResourceOptions.__init__`: the options dict is updated in place, one
      missing key after the other. */
  method ResourceOptionsInit(options: Meta) returns (r: Outcome<Meta>)
    ensures r == DeriveOptions(options)
  {
    var opts := options;
    if HasEndpoint(opts) {
      var endpoint := EndpointOf(opts);
      if ListKey !in opts {
        opts := opts[ListKey := Some(Strip(endpoint, '/'))];
      }
      if LinksKey !in opts {
        opts := opts[LinksKey := Some(Shown(opts[ListKey]) + "_links")];
      }
      if ResourceKey !in opts {
        if opts[ListKey].None? {
          assert ListKey in options && options[ListKey].None?;
          assert DeriveOptions(options) == Err(TypeError);
          return Err(TypeError);
        }
        opts := opts[ResourceKey := Some(DropLast(opts[ListKey].value))];
      }
      DerivedIsUnique(options, opts);
    }
    r := Ok(opts);
  }

  /** The derived options are the one dict that keeps the declared keys and
      adds the three envelope keys by the derivation rules. */
  lemma DerivedIsUnique(declared: Meta, opts: Meta)
    requires HasEndpoint(declared)
    requires opts.Keys == declared.Keys + {ListKey, LinksKey, ResourceKey}
    requires forall k :: k in declared ==> opts[k] == declared[k]
    requires ListKey !in declared ==> opts[ListKey] == Some(Strip(EndpointOf(declared), '/'))
    requires LinksKey !in declared ==> opts[LinksKey] == Some(Shown(opts[ListKey]) + "_links")
    requires ResourceKey !in declared ==> opts[ListKey].Some? && opts[ResourceKey] == Some(DropLast(opts[ListKey].value))
    ensures DeriveOptions(declared) == Ok(opts)
  {
    var d := DeriveOptions(declared);
    assert d.Ok? && d.value.Keys == opts.Keys;
    assert forall k :: k in opts ==> opts[k] == d.value[k];
    assert opts == d.value;
  }

  /** The options UnmanagedResourceOptions ends up with: with an endpoint and
      no declared resource key, the key is the endpoint without its
      surrounding slashes; nothing else is derived. */
  function DeriveUnmanaged(declared: Meta): (r: Meta)
    ensures forall k :: k in declared ==> k in r && r[k] == declared[k]
    ensures r.Keys == if HasEndpoint(declared) then declared.Keys + {ResourceKey} else declared.Keys
    ensures HasEndpoint(declared) && ResourceKey !in declared ==>
              r[ResourceKey] == Some(Strip(EndpointOf(declared), '/'))
  {
    if HasEndpoint(declared) && ResourceKey !in declared
    then declared[ResourceKey := Some(Strip(EndpointOf(declared), '/'))]
    else declared
  }

  /** `UnmanagedResourceOptions.__init__`, updating the dict in place. */
  method UnmanagedOptionsInit(options: Meta) returns (r: Meta)
    ensures r == DeriveUnmanaged(options)
  {
    r := options;
    var endpoint := Lookup(r, EndpointKey);
    if endpoint.Some? && endpoint.value != "" {
      if ResourceKey !in r {
        r := r[ResourceKey := Some(Strip(endpoint.value, '/'))];
      }
    }
  }

  /** Deriving is idempotent: the derived options derive nothing more. */
  lemma DeriveOptionsIdempotent(declared: Meta)
    requires DeriveOptions(declared).Ok?
    ensures DeriveOptions(DeriveOptions(declared).value) == DeriveOptions(declared)
  {
    var r := DeriveOptions(declared).value;
    if HasEndpoint(declared) {
      assert Lookup(r, EndpointKey) == Lookup(declared, EndpointKey);
      assert ListKey in r && LinksKey in r && ResourceKey in r;
      FullyDeclaredIsFixed(r);
    }
  }

  /** Options that declare all three envelope keys derive nothing. */
  lemma FullyDeclaredIsFixed(m: Meta)
    requires HasEndpoint(m) && ListKey in m && LinksKey in m && ResourceKey in m
    ensures DeriveOptions(m) == Ok(m)
  {
    var d := DeriveOptions(m);
    assert d.Ok? && d.value.Keys == m.Keys;
    assert forall k :: k in m ==> d.value[k] == m[k];
    assert d.value == m;
  }

  /** The three envelope keys after derivation, each the declared one when
      there is one and the derived one otherwise. */
  lemma DerivedLookups(declared: Meta)
    requires HasEndpoint(declared) && DeriveOptions(declared).Ok?
    ensures var o := DeriveOptions(declared).value;
            var list := if ListKey in declared then declared[ListKey] else Some(Strip(EndpointOf(declared), '/'));
            && Lookup(o, ListKey) == list
            && Lookup(o, LinksKey) == (if LinksKey in declared then declared[LinksKey] else Some(Shown(list) + "_links"))
            && Lookup(o, ResourceKey) == (if ResourceKey in declared then declared[ResourceKey]
                                          else if list.Some? then Some(DropLast(list.value)) else None)
  {
  }

  /** With an endpoint and no declared keys, the derived keys are all fixed
      by the endpoint: the resource key is the stripped endpoint minus its
      last character. */
  lemma DerivedFromEndpointOnly(declared: Meta)
    requires HasEndpoint(declared)
    requires ListKey !in declared && LinksKey !in declared && ResourceKey !in declared
    ensures var s := Strip(EndpointOf(declared), '/');
            && DeriveOptions(declared).Ok?
            && Lookup(DeriveOptions(declared).value, ListKey) == Some(s)
            && Lookup(DeriveOptions(declared).value, LinksKey) == Some(s + "_links")
            && Lookup(DeriveOptions(declared).value, ResourceKey) == Some(DropLast(s))
  {
  }

  /** The `manager_cls` of a resource class: rackit's plain manager
      (`Resource`) or the manager of `ResourceWithDetail`. */
  datatype ManagerKind = PlainManager | DetailManager

  /** `AuthProject` is a plain `Resource`. */
  const AuthProjectManager := PlainManager

  /** `AuthProject` declares its endpoint and its list key. */
  const AuthProjectMeta: Meta := map[EndpointKey := Some("/auth/projects"), ListKey := Some("projects")]

  lemma AuthProjectMetaShape()
    ensures HasEndpoint(AuthProjectMeta) && EndpointOf(AuthProjectMeta) == "/auth/projects"
    ensures ListKey in AuthProjectMeta && AuthProjectMeta[ListKey] == Some("projects")
    ensures LinksKey !in AuthProjectMeta && ResourceKey !in AuthProjectMeta
  {
  }

  lemma AuthProjectStrings()
    ensures Shown(Some("projects")) + "_links" == "projects_links"
    ensures DropLast("projects") == "project"
  {
  }

  /** The options of `AuthProject`: the declared list key, and the links
      key and resource key derived from it. */
  lemma AuthProjectOptions()
    ensures DeriveOptions(AuthProjectMeta).Ok?
    ensures var o := DeriveOptions(AuthProjectMeta).value;
            && Lookup(o, EndpointKey) == Some("/auth/projects")
            && Lookup(o, ListKey) == Some("projects")
            && Lookup(o, LinksKey) == Some("projects_links")
            && Lookup(o, ResourceKey) == Some("project")
  {
    AuthProjectMetaShape();
    DerivedLookups(AuthProjectMeta);
    AuthProjectStrings();
  }
}
