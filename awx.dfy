/**
 * The AWX variant of the resource managers: AWX pages carry their items
 * under `results` and the URL of the next page under `next`; inventories
 * are copied by a POST to their `copy` sub-URL; job templates are launched
 * through the `launch` action.
 */
module Awx {
  import opened Wrappers
  import opened Json
  import opened Actions

  /**
   * `ResourceManager.extract_list`: the items are exactly `json["results"]`
   * and the next cursor is `json.get("next")`, JNull when the key is absent.
   * A body without `results` is a KeyError, not an empty page.
   */
  function ExtractList(body: Json): (r: Outcome<(Json, Json)>)
    ensures r.Ok? <==> body.JObj? && "results" in Keys(body.fields)
    ensures !body.JObj? ==> r == Err(TypeError)
    ensures body.JObj? && "results" !in Keys(body.fields) ==> r == Err(KeyError(JStr("results")))
    ensures r.Ok? ==> Get(body.fields, "results") == Some(r.value.0)
    ensures r.Ok? && "next" in Keys(body.fields) ==> Get(body.fields, "next") == Some(r.value.1)
    ensures r.Ok? && "next" !in Keys(body.fields) ==> r.value.1 == JNull
  {
    match body
    case JObj(fs) =>
      if Get(fs, "results").None? then Err(KeyError(JStr("results")))
      else
        var next := if Get(fs, "next").Some? then Get(fs, "next").value else JNull;
        Ok((Get(fs, "results").value, next))
    case _ => Err(TypeError)
  }

  /** A page as the AWX API writes it. */
  function Page(count: nat, next: Json, previous: Json, results: seq<Json>): Json {
    JObj([("count", JNum(count as real)), ("next", next), ("previous", previous), ("results", JArr(results))])
  }

  /** Reading a page gives back its items and its next cursor, a null
      cursor on the last page included. */
  lemma PageRoundTrip(count: nat, next: Json, previous: Json, results: seq<Json>)
    ensures ExtractList(Page(count, next, previous, results)) == Ok((JArr(results), next))
  {
    var fs := Page(count, next, previous, results).fields;
    PageFields(fs);
  }

  lemma PageFields(fs: Fields)
    requires |fs| == 4 && fs[0].0 == "count" && fs[1].0 == "next" && fs[2].0 == "previous" && fs[3].0 == "results"
    ensures Get(fs, "next") == Some(fs[1].1)
    ensures Get(fs, "results") == Some(fs[3].1)
  {
    assert Get(fs, "next") == Get(fs[1..], "next");
    assert Get(fs, "results") == Get(fs[1..], "results") == Get(fs[2..], "results") == Get(fs[3..], "results");
  }

  /** A body with results but no `next` key is a last page. */
  lemma ResultsOnly(results: seq<Json>)
    ensures ExtractList(JObj([("results", JArr(results))])) == Ok((JArr(results), JNull))
  {
    assert Get([("results", JArr(results))], "next") == Get([], "next");
  }

  /** A body without `results` is an error even when it says the list is empty. */
  lemma EmptyCountIsNoPage(next: Json)
    ensures ExtractList(JObj([("count", JNum(0.0)), ("next", next)])) == Err(KeyError(JStr("results")))
  {
    var fs := [("count", JNum(0.0)), ("next", next)];
    assert Get(fs, "results") == Get(fs[1..], "results") == Get(fs[2..], "results");
  }

  /** What `prepare_url` is given: a resource instance, addressed by its
      primary key (`id`), or the key itself. */
  datatype ResourceOrKey = Instance(id: Json) | Key(key: Json)

  function KeyOfTarget(t: ResourceOrKey): Json {
    match t
    case Instance(id) => id
    case Key(k) => k
  }

  /** A POST to a sub-URL of one resource: the resource's key, the segment
      appended to its URL, and the JSON body. */
  datatype SubPost = SubPost(key: Json, segment: string, body: Json)

  /** The request of `InventoryManager.copy`: the `copy` sub-URL of the
      inventory, and a body that holds exactly the new name. */
  function CopyRequest(target: ResourceOrKey, name: Json): (p: SubPost)
    ensures p.key == KeyOfTarget(target) && p.segment == "copy"
    ensures p.body.JObj? && Keys(p.body.fields) == ["name"]
    ensures Index(p.body, JStr("name")) == Ok(name)
  {
    SubPost(KeyOfTarget(target), "copy", JObj([("name", name)]))
  }

  /**
   * `InventoryManager.copy`: POST the copy request, then extract the single
   * new inventory from the response.  The HTTP layer (`post`) and the
   * manager's `extract_one` are parameters.
   */
  function InventoryManagerCopy(target: ResourceOrKey, name: Json, post: SubPost -> Outcome<Json>,
                                extractOne: Json -> Outcome<Json>): (r: Outcome<Json>)
    ensures post(CopyRequest(target, name)).Err? ==> r == Err(post(CopyRequest(target, name)).error)
    ensures post(CopyRequest(target, name)).Ok? ==> r == extractOne(post(CopyRequest(target, name)).value)
  {
    var response :- post(CopyRequest(target, name));
    extractOne(response)
  }

  /** `Inventory.copy`: the inventory passes itself to its manager's copy,
      which addresses it by its primary key, so the request is the one the
      manager would send for that key. */
  function InventoryCopy(id: Json, name: Json, post: SubPost -> Outcome<Json>, extractOne: Json -> Outcome<Json>): (r: Outcome<Json>)
    ensures r == InventoryManagerCopy(Key(id), name, post, extractOne)
  {
    InventoryManagerCopy(Instance(id), name, post, extractOne)
  }

  /** `JobTemplate.launch`: the `launch` action with the caller's body. */
  function Launch(body: Json): (a: ActionCall)
    ensures a.action == "launch" && a.body == body
  {
    ActionCall("launch", body)
  }
}
