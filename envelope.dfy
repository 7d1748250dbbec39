/**
 * How OpenStack resource managers read and write the JSON envelopes around
 * entities: a page of a list sits under the list key with its paging links
 * under the links key, and a single entity sits under the resource key (or
 * is the whole body when the resource key is empty or `None`).
 */
module Envelope {
  import opened Wrappers
  import opened Json
  import opened Options

  /** `if resource_key:` — the resource key, when it is a non-empty string. */
  function ResourceKeyOf(opts: Meta): (k: Option<string>)
    ensures k.Some? <==> Lookup(opts, ResourceKey).Some? && Lookup(opts, ResourceKey).value != ""
    ensures k.Some? ==> k.value == Lookup(opts, ResourceKey).value
  {
    match Lookup(opts, ResourceKey)
    case Some(k) => if k != "" then Some(k) else None
    case None => None
  }

  /**
   * `extract_list`: the list under the list key, and the `href` of the first
   * link whose `rel` is `"next"` (JNull when there is none, and also when
   * that `href` is itself null).  Links are read lazily: a link after the
   * first `"next"` one is never looked at.
   */
  function ExtractList(body: Json, opts: Meta): (r: Outcome<(Json, Json)>)
    ensures r.Ok? ==> body.JObj? && Index(body, KeyOf(Lookup(opts, ListKey))) == Ok(r.value.0)
    ensures Index(body, KeyOf(Lookup(opts, ListKey))).Err? ==> r == Err(Index(body, KeyOf(Lookup(opts, ListKey))).error)
    ensures Index(body, KeyOf(Lookup(opts, ListKey))).Ok?
            && (Lookup(opts, LinksKey).None? || Get(body.fields, Lookup(opts, LinksKey).value).None?)
            ==> r == Ok((Index(body, KeyOf(Lookup(opts, ListKey))).value, JNull))
    ensures var data, links := Index(body, KeyOf(Lookup(opts, ListKey))), DictGet(body, KeyOf(Lookup(opts, LinksKey)), JArr([]));
            data.Ok? ==>
              && (links.Err? ==> r == Err(links.error))
              && (links.Ok? && Iterate(links.value).Err? ==> r == Err(Iterate(links.value).error))
              && (links.Ok? && Iterate(links.value).Ok? ==>
                    var found := FirstWhere(Iterate(links.value).value, "rel", JStr("next"), "href");
                    && (found.Err? ==> r == Err(found.error))
                    && (found.Ok? ==> r == Ok((data.value, if found.value.Some? then found.value.value else JNull))))
  {
    var data :- Index(body, KeyOf(Lookup(opts, ListKey)));
    match DictGet(body, KeyOf(Lookup(opts, LinksKey)), JArr([]))
    case Err(e) => Err(e)
    case Ok(links) =>
      var items :- Iterate(links);
      var next :- FirstWhere(items, "rel", JStr("next"), "href");
      Ok((data, if next.Some? then next.value else JNull))
  }

  /** A paging link as the API writes it. */
  datatype Link = Link(rel: string, href: string)

  function LinkJson(l: Link): Json {
    JObj([("href", JStr(l.href)), ("rel", JStr(l.rel))])
  }

  function LinkJsons(links: seq<Link>): (js: seq<Json>)
    ensures |js| == |links|
  {
    if links == [] then [] else [LinkJson(links[0])] + LinkJsons(links[1..])
  }

  /** Reference definition of the next page: the `href` of the first `next` link. */
  function NextHref(links: seq<Link>): Json {
    if links == [] then JNull
    else if links[0].rel == "next" then JStr(links[0].href)
    else NextHref(links[1..])
  }

  /** A page of a list response: the items under the list key and the
      links under the links key. */
  function ListPage(listKey: string, linksKey: string, items: seq<Json>, links: seq<Link>): Json {
    JObj([(listKey, JArr(items)), (linksKey, JArr(LinkJsons(links)))])
  }

  lemma {:induction false} FirstNextLink(links: seq<Link>)
    ensures FirstWhere(LinkJsons(links), "rel", JStr("next"), "href")
            == Ok(if NextHref(links).JNull? then None else Some(NextHref(links)))
  {
    if links != [] {
      var js := LinkJsons(links);
      assert js[0] == LinkJson(links[0]);
      assert Index(js[0], JStr("rel")) == Ok(JStr(links[0].rel));
      assert Index(js[0], JStr("href")) == Ok(JStr(links[0].href));
      if links[0].rel != "next" {
        assert js[1..] == LinkJsons(links[1..]);
        FirstNextLink(links[1..]);
      }
    }
  }

  /** Reading a page gives back its items and the first `next` link. */
  lemma ListPageRoundTrip(opts: Meta, items: seq<Json>, links: seq<Link>)
    requires Lookup(opts, ListKey).Some? && Lookup(opts, LinksKey).Some?
    requires Lookup(opts, ListKey) != Lookup(opts, LinksKey)
    ensures ExtractList(ListPage(Lookup(opts, ListKey).value, Lookup(opts, LinksKey).value, items, links), opts)
            == Ok((JArr(items), NextHref(links)))
  {
    var l := Lookup(opts, ListKey).value;
    var k := Lookup(opts, LinksKey).value;
    var body := ListPage(l, k, items, links);
    TwoFields(l, JArr(items), k, JArr(LinkJsons(links)));
    assert Index(body, KeyOf(Lookup(opts, ListKey))) == Ok(JArr(items));
    assert DictGet(body, KeyOf(Lookup(opts, LinksKey)), JArr([])) == Ok(JArr(LinkJsons(links)));
    FirstNextLink(links);
  }

  /** Lookups in a two-field object. */
  lemma TwoFields(a: string, x: Json, b: string, y: Json)
    requires a != b
    ensures Get([(a, x), (b, y)], a) == Some(x) && Get([(a, x), (b, y)], b) == Some(y)
  {
    assert Get([(a, x), (b, y)], b) == Get([(b, y)], b);
  }

  /** The last page carries no `next` link, or no links at all. */
  lemma LastPage(opts: Meta, items: seq<Json>)
    requires Lookup(opts, ListKey).Some? && Lookup(opts, LinksKey).Some?
    requires Lookup(opts, ListKey) != Lookup(opts, LinksKey)
    ensures ExtractList(JObj([(Lookup(opts, ListKey).value, JArr(items))]), opts) == Ok((JArr(items), JNull))
    ensures ExtractList(ListPage(Lookup(opts, ListKey).value, Lookup(opts, LinksKey).value, items, []), opts)
            == Ok((JArr(items), JNull))
  {
    var l := Lookup(opts, ListKey).value;
    var k := Lookup(opts, LinksKey).value;
    var body := JObj([(l, JArr(items))]);
    assert Get(body.fields, l) == Some(JArr(items));
    assert Get(body.fields, k) == Get([], k) == None;
    assert Index(body, KeyOf(Lookup(opts, ListKey))) == Ok(JArr(items));
    ListPageRoundTrip(opts, items, []);
  }

  /** `extract_one`: the entity under the resource key, or the whole body. */
  function ExtractOne(body: Json, opts: Meta): (r: Outcome<Json>)
    ensures ResourceKeyOf(opts).None? ==> r == Ok(body)
    ensures ResourceKeyOf(opts).Some? && body.JObj? ==>
              (r.Ok? <==> ResourceKeyOf(opts).value in Keys(body.fields))
    ensures ResourceKeyOf(opts).Some? && r.Ok? ==>
              body.JObj? && Get(body.fields, ResourceKeyOf(opts).value) == Some(r.value)
  {
    match ResourceKeyOf(opts)
    case Some(k) => Index(body, JStr(k))
    case None => Ok(body)
  }

  /** `prepare_params`: the parameters rackit prepared, nested under the
      resource key when there is one; reading the entity back out of the
      result gives the parameters. */
  function PrepareParams(params: Json, opts: Meta): (r: Json)
    ensures ExtractOne(r, opts) == Ok(params)
    ensures ResourceKeyOf(opts).None? ==> r == params
    ensures ResourceKeyOf(opts).Some? ==> r.JObj? && Keys(r.fields) == [ResourceKeyOf(opts).value]
  {
    match ResourceKeyOf(opts)
    case Some(k) => JObj([(k, params)])
    case None => params
  }

  /** Unwrapping is the left inverse of nesting for bodies with only the
      resource key: nesting the unwrapped entity gives the body back. */
  lemma ExtractThenPrepare(body: Json, opts: Meta)
    requires ResourceKeyOf(opts).Some? && body.JObj? && Keys(body.fields) == [ResourceKeyOf(opts).value]
    ensures ExtractOne(body, opts).Ok?
    ensures PrepareParams(ExtractOne(body, opts).value, opts) == body
  {
    assert |body.fields| == 1 && body.fields[0].0 == ResourceKeyOf(opts).value;
  }

  /** `UnmanagedResource._fetch`: the document under the resource key; a
      missing or `None` resource key is a KeyError. */
  function UnmanagedFetch(document: Json, opts: Meta): (r: Outcome<Json>)
    ensures r.Ok? <==> document.JObj? && Lookup(opts, ResourceKey).Some? && Lookup(opts, ResourceKey).value in Keys(document.fields)
    ensures r.Ok? ==> Get(document.fields, Lookup(opts, ResourceKey).value) == Some(r.value)
    ensures document.JObj? && r.Err? ==> r.error == KeyError(KeyOf(Lookup(opts, ResourceKey)))
  {
    Index(document, KeyOf(Lookup(opts, ResourceKey)))
  }

  /** A list fetch as rackit's page-following loop receives it. */
  datatype FetchAll = FetchAll(endpoint: string, params: Fields, partial: bool)

  /** `ResourceWithDetailManager.all`: the detail listing lives under
      `/detail` and returns full entities, the plain one partial ones. */
  function DetailAll(preparedUrl: string, detail: bool, params: Fields): (r: FetchAll)
    ensures r.params == params && r.partial == !detail
    ensures r.endpoint == if detail then preparedUrl + "/detail" else preparedUrl
  {
    FetchAll(if detail then preparedUrl + "/detail" else preparedUrl, params, !detail)
  }

  /** `all()` is called with `detail` left at this default. */
  const DefaultDetail := true

  /** `manager.all(**params)` with no `detail` argument: a detail manager
      fetches the full entities from `<url>/detail`, a plain manager the
      full entities from `<url>` itself. */
  function ListAll(kind: ManagerKind, preparedUrl: string, params: Fields): (r: FetchAll)
    ensures r.params == params && !r.partial
    ensures kind.DetailManager? ==> r == DetailAll(preparedUrl, DefaultDetail, params)
    ensures kind.PlainManager? <==> r.endpoint == preparedUrl
  {
    match kind
    case DetailManager => DetailAll(preparedUrl, DefaultDetail, params)
    case PlainManager => FetchAll(preparedUrl, params, false)
  }
}
