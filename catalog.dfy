/**
 * The service catalog of a token: for each entry, the first endpoint on
 * the connection's interface, reduced to its base URL and stored under the
 * entry's type.
 */
module Catalogs {
  import opened Wrappers
  import opened Json
  import opened Urls

  /**
   * `next(ep['url'] for ep in entry['endpoints'] if ep['interface'] == interface)`:
   * the `url` of the first endpoint on the interface, None (StopIteration)
   * when no endpoint is on it.  Endpoints after the chosen one are never read.
   */
  function EndpointUrl(entry: Json, interface: string): (r: Outcome<Option<Json>>)
    ensures Index(entry, JStr("endpoints")).Err? ==> r == Err(Index(entry, JStr("endpoints")).error)
    ensures Index(entry, JStr("endpoints")).Ok? && Index(entry, JStr("endpoints")).value.JArr? ==>
              r == FirstWhere(Index(entry, JStr("endpoints")).value.items, "interface", JStr(interface), "url")
    ensures Index(entry, JStr("endpoints")).Ok? && Index(entry, JStr("endpoints")).value.JNum? ==> r == Err(TypeError)
  {
    var eps :- Index(entry, JStr("endpoints"));
    var items :- Iterate(eps);
    FirstWhere(items, "interface", JStr(interface), "url")
  }

  /**
   * One catalog entry: the `url` of the first endpoint on the interface,
   * reduced to its base URL, under the entry's `type`; None when no endpoint
   * is on the interface (the entry is skipped).  The url is evaluated before
   * the type.  A list or dict type cannot be a dict key (TypeError); other
   * non-string urls and types are outside this model (Unsupported).
   */
  function EntryEndpoint(entry: Json, interface: string): (r: Outcome<Option<(string, string)>>)
    ensures r.Ok? && r.value.Some? ==> SplitUrl(r.value.value.1).path == ""
    ensures EndpointUrl(entry, interface).Err? ==> r == Err(EndpointUrl(entry, interface).error)
    ensures EndpointUrl(entry, interface) == Ok(None) <==> r == Ok(None)
    ensures var found := EndpointUrl(entry, interface);
            found.Ok? && found.value.Some? && !found.value.value.JStr? ==> r == Err(Unsupported)
    ensures var found, ty := EndpointUrl(entry, interface), Index(entry, JStr("type"));
            found.Ok? && found.value.Some? && found.value.value.JStr? ==>
              && (ty.Err? ==> r == Err(ty.error))
              && (ty.Ok? && (ty.value.JArr? || ty.value.JObj?) ==> r == Err(TypeError))
              && (ty.Ok? && ty.value.JStr? ==> r == Ok(Some((ty.value.s, StripPath(found.value.value.s)))))
  {
    match EndpointUrl(entry, interface)
    case Err(e) => Err(e)
    case Ok(None) => Ok(None)
    case Ok(Some(url)) =>
      if !url.JStr? then Err(Unsupported)
      else
        match Index(entry, JStr("type"))
        case Err(e) => Err(e)
        case Ok(ty) =>
          if ty.JArr? || ty.JObj? then Err(TypeError)
          else if !ty.JStr? then Err(Unsupported)
          else Ok(Some((ty.s, StripPath(url.s))))
  }

  /** The entry's endpoint is the first one on the interface: endpoints
      before it, on other interfaces, and endpoints after it do not matter. */
  lemma EntryEndpointChoosesFirst(entry: Json, interface: string, eps: seq<Json>, i: nat, u: string, t: string)
    requires Index(entry, JStr("endpoints")) == Ok(JArr(eps))
    requires i < |eps| && SelectedAt(eps, i, "interface", JStr(interface))
    requires Index(eps[i], JStr("url")) == Ok(JStr(u))
    requires Index(entry, JStr("type")) == Ok(JStr(t))
    ensures EntryEndpoint(entry, interface) == Ok(Some((t, StripPath(u))))
  {
    assert EndpointUrl(entry, interface) == Picked(eps[i], "url");
  }

  /** An entry none of whose endpoints is on the interface is skipped. */
  lemma EntryWithoutInterface(entry: Json, interface: string, eps: seq<Json>)
    requires Index(entry, JStr("endpoints")) == Ok(JArr(eps))
    requires forall i :: 0 <= i < |eps| ==> Skipped(eps[i], "interface", JStr(interface))
    ensures EntryEndpoint(entry, interface) == Ok(None)
  {
    assert EndpointUrl(entry, interface) == Ok(None);
  }

  /** An endpoint as the identity service lists it. */
  function EndpointJson(interface: string, url: string): Json {
    JObj([("interface", JStr(interface)), ("url", JStr(url))])
  }

  /** A catalog entry of the given type listing the given endpoints. */
  function EntryJson(ty: string, eps: seq<Json>): Json {
    JObj([("type", JStr(ty)), ("endpoints", JArr(eps))])
  }

  /** The endpoints of a `compute` entry that lists an internal endpoint
      before a public one. */
  function TwoInterfaces(internalUrl: string, publicUrl: string): seq<Json> {
    [EndpointJson("internal", internalUrl), EndpointJson("public", publicUrl)]
  }

  /** Each interface picks its own endpoint, whichever is listed first. */
  lemma PublicAndInternal(internalUrl: string, publicUrl: string)
    ensures EntryEndpoint(EntryJson("compute", TwoInterfaces(internalUrl, publicUrl)), "public")
              == Ok(Some(("compute", StripPath(publicUrl))))
    ensures EntryEndpoint(EntryJson("compute", TwoInterfaces(internalUrl, publicUrl)), "internal")
              == Ok(Some(("compute", StripPath(internalUrl))))
  {
    var eps := TwoInterfaces(internalUrl, publicUrl);
    EntryRead("compute", eps);
    TwoInterfacesRead(internalUrl, publicUrl);
    EntryEndpointChoosesFirst(EntryJson("compute", eps), "internal", eps, 0, internalUrl, "compute");
    EntryEndpointChoosesFirst(EntryJson("compute", eps), "public", eps, 1, publicUrl, "compute");
  }

  /** An interface neither endpoint is on skips the entry. */
  lemma NeitherInterface(internalUrl: string, publicUrl: string)
    ensures EntryEndpoint(EntryJson("compute", TwoInterfaces(internalUrl, publicUrl)), "admin") == Ok(None)
  {
    var eps := TwoInterfaces(internalUrl, publicUrl);
    EntryRead("compute", eps);
    TwoInterfacesRead(internalUrl, publicUrl);
    EntryWithoutInterface(EntryJson("compute", eps), "admin", eps);
  }

  lemma EntryRead(ty: string, eps: seq<Json>)
    ensures Index(EntryJson(ty, eps), JStr("endpoints")) == Ok(JArr(eps))
    ensures Index(EntryJson(ty, eps), JStr("type")) == Ok(JStr(ty))
  {
    EntryFields(EntryJson(ty, eps).fields);
  }

  lemma TwoInterfacesRead(internalUrl: string, publicUrl: string)
    ensures var eps := TwoInterfaces(internalUrl, publicUrl);
            && |eps| == 2
            && SelectedAt(eps, 0, "interface", JStr("internal"))
            && SelectedAt(eps, 1, "interface", JStr("public"))
            && Index(eps[0], JStr("url")) == Ok(JStr(internalUrl))
            && Index(eps[1], JStr("url")) == Ok(JStr(publicUrl))
            && Skipped(eps[0], "interface", JStr("admin")) && Skipped(eps[1], "interface", JStr("admin"))
  {
    EndpointRead("internal", internalUrl);
    EndpointRead("public", publicUrl);
    InterfacesDiffer();
  }

  lemma InterfacesDiffer()
    ensures JStr("internal") != JStr("public") && JStr("admin") != JStr("public") && JStr("admin") != JStr("internal")
  {
    assert "internal"[0] != "public"[0] && "admin"[0] != "public"[0] && "admin"[0] != "internal"[0];
  }

  lemma EndpointRead(interface: string, url: string)
    ensures Index(EndpointJson(interface, url), JStr("interface")) == Ok(JStr(interface))
    ensures Index(EndpointJson(interface, url), JStr("url")) == Ok(JStr(url))
  {
    EndpointFields(EndpointJson(interface, url).fields);
  }

  lemma EntryFields(fs: Fields)
    requires |fs| == 2 && fs[0].0 == "type" && fs[1].0 == "endpoints"
    ensures Get(fs, "type") == Some(fs[0].1)
    ensures Get(fs, "endpoints") == Some(fs[1].1)
  {
    assert "type" != "endpoints";
    assert Get(fs, "endpoints") == Get(fs[1..], "endpoints");
  }

  lemma EndpointFields(fs: Fields)
    requires |fs| == 2 && fs[0].0 == "interface" && fs[1].0 == "url"
    ensures Get(fs, "interface") == Some(fs[0].1)
    ensures Get(fs, "url") == Some(fs[1].1)
  {
    assert "interface" != "url";
    assert Get(fs, "url") == Get(fs[1..], "url");
  }

  /** What one catalog entry contributes: an endpoint (type, base URL),
      nothing, or an error. */
  type Contribution = Outcome<Option<(string, string)>>

  /** The contribution yields an endpoint for catalog type `t`. */
  predicate Yields(c: Contribution, t: string) {
    c.Ok? && c.value.Some? && c.value.value.0 == t
  }

  /** The contribution of every entry, in catalog order. */
  function Contributions(entries: seq<Json>, interface: string): (cs: seq<Contribution>)
    ensures |cs| == |entries|
    ensures forall i :: 0 <= i < |entries| ==> cs[i] == EntryEndpoint(entries[i], interface)
  {
    seq(|entries|, i requires 0 <= i < |entries| => EntryEndpoint(entries[i], interface))
  }

  /** The endpoints after the given contributions in order, or the first
      error: the loop runs to the end exactly when every entry reads. */
  function Fold(cs: seq<Contribution>): (r: Outcome<map<string, string>>)
    ensures r.Ok? <==> forall i :: 0 <= i < |cs| ==> cs[i].Ok?
    ensures r.Err? ==> exists i :: 0 <= i < |cs| && cs[i] == Err(r.error) && forall j :: 0 <= j < i ==> cs[j].Ok?
    decreases |cs|
  {
    if cs == [] then Ok(map[])
    else
      var n := |cs| - 1;
      assert forall i :: 0 <= i < n ==> cs[..n][i] == cs[i];
      match Fold(cs[..n])
      case Err(e) => Err(e)
      case Ok(before) =>
        match cs[n]
        case Err(e) => Err(e)
        case Ok(c) => Ok(if c.Some? then before[c.value.0 := c.value.1] else before)
  }

  /** The endpoints of a catalog read on the given interface: every stored
      URL is a base URL, and the catalog reads exactly when every entry does. */
  function Catalog(entries: seq<Json>, interface: string): (r: Outcome<map<string, string>>)
    ensures r.Ok? <==> forall i :: 0 <= i < |entries| ==> EntryEndpoint(entries[i], interface).Ok?
    ensures r.Ok? ==> forall t :: t in r.value ==> SplitUrl(r.value[t]).path == ""
  {
    var cs := Contributions(entries, interface);
    if Fold(cs).Ok? then FoldPathless(cs); Fold(cs) else Fold(cs)
  }

  /** Once a prefix fails, the whole fold fails the same way. */
  lemma {:induction false} FoldErrorPersists(cs: seq<Contribution>, k: nat)
    requires k <= |cs| && Fold(cs[..k]).Err?
    ensures Fold(cs) == Fold(cs[..k])
    decreases |cs| - k
  {
    if k < |cs| {
      assert cs[..k + 1][..k] == cs[..k];
      FoldErrorPersists(cs, k + 1);
    } else {
      assert cs[..k] == cs;
    }
  }

  /** A catalog type has an endpoint exactly when some contribution yields it. */
  lemma {:induction false} FoldKeys(cs: seq<Contribution>, t: string)
    requires Fold(cs).Ok?
    ensures t in Fold(cs).value <==> exists i :: 0 <= i < |cs| && Yields(cs[i], t)
    decreases |cs|
  {
    if cs != [] {
      var n := |cs| - 1;
      var pre := cs[..n];
      FoldKeys(pre, t);
      assert forall i :: 0 <= i < n ==> pre[i] == cs[i];
      if exists i :: 0 <= i < |cs| && Yields(cs[i], t) {
        var i :| 0 <= i < |cs| && Yields(cs[i], t);
        if i < n {
          assert Yields(pre[i], t);
        }
      }
      if t in Fold(pre).value {
        var i :| 0 <= i < n && Yields(pre[i], t);
        assert Yields(cs[i], t);
      }
    }
  }

  /** The endpoint of a catalog type comes from the last contribution that yields it. */
  lemma {:induction false} FoldLastWins(cs: seq<Contribution>, i: nat, t: string)
    requires Fold(cs).Ok?
    requires i < |cs| && Yields(cs[i], t)
    requires forall j :: i < j < |cs| ==> !Yields(cs[j], t)
    ensures t in Fold(cs).value && Fold(cs).value[t] == cs[i].value.value.1
    decreases |cs|
  {
    var n := |cs| - 1;
    var pre := cs[..n];
    if i < n {
      assert pre[i] == cs[i];
      assert forall j :: i < j < n ==> pre[j] == cs[j];
      CatalogFoldPrefixOk(cs);
      FoldLastWins(pre, i, t);
      assert !Yields(cs[n], t);
    }
  }

  /** Every stored endpoint was contributed by some entry. */
  lemma {:induction false} FoldValueFrom(cs: seq<Contribution>, t: string)
    requires Fold(cs).Ok? && t in Fold(cs).value
    ensures exists i :: 0 <= i < |cs| && Yields(cs[i], t) && cs[i].value.value.1 == Fold(cs).value[t]
    decreases |cs|
  {
    var n := |cs| - 1;
    var pre := cs[..n];
    if !Yields(cs[n], t) {
      FoldValueFrom(pre, t);
      var i :| 0 <= i < n && Yields(pre[i], t) && pre[i].value.value.1 == Fold(pre).value[t];
      assert pre[i] == cs[i];
    }
  }

  lemma CatalogFoldPrefixOk(cs: seq<Contribution>)
    requires cs != [] && Fold(cs).Ok?
    ensures Fold(cs[..|cs| - 1]).Ok?
  {
  }

  /** A fold of base URLs stores only base URLs. */
  lemma FoldPathless(cs: seq<Contribution>)
    requires Fold(cs).Ok?
    requires forall i :: 0 <= i < |cs| && cs[i].Ok? && cs[i].value.Some? ==> SplitUrl(cs[i].value.value.1).path == ""
    ensures forall t :: t in Fold(cs).value ==> SplitUrl(Fold(cs).value[t]).path == ""
  {
    forall t | t in Fold(cs).value ensures SplitUrl(Fold(cs).value[t]).path == "" {
      FoldValueFrom(cs, t);
    }
  }
}
