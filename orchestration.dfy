/**
 * The orchestration service: `Stack` derives its keys from `/stacks`, and
 * `OrchestrationService` is reached as `orchestration` with the path prefix
 * `/v1/{project_id}`, the one prefix that takes the project id.
 */
module Orchestration {
  import opened Wrappers
  import opened Json
  import opened Text
  import opened Options
  import opened Envelope
  import opened Services

  /** `Stack` is a plain `Resource`. */
  const StackManager := PlainManager

  const StackMeta: Meta := map[EndpointKey := Some("/stacks")]

  const OrchestrationService := ServiceClass(Some("orchestration"), None, Some("/v1/{project_id}"), {"Stack"})

  lemma StackMetaShape()
    ensures HasEndpoint(StackMeta) && EndpointOf(StackMeta) == ['/'] + "stacks"
    ensures ListKey !in StackMeta && LinksKey !in StackMeta && ResourceKey !in StackMeta
  {
  }

  lemma StackStrings()
    ensures Strip(['/'] + "stacks", '/') == "stacks"
    ensures "stacks" + "_links" == "stacks_links" && DropLast("stacks") == "stack"
  {
    var x := "stacks";
    assert x[0] != '/' && x[|x| - 1] != '/';
    StripLeading(x, '/');
    assert DropLast(x) == x[..|x| - 1] == "stack";
  }

  /** `Stack` (endpoint `/stacks`) derives `stacks`, `stacks_links` and
      `stack`. */
  lemma StackOptions()
    ensures DeriveOptions(StackMeta).Ok?
    ensures var o := DeriveOptions(StackMeta).value;
            && Lookup(o, ListKey) == Some("stacks")
            && Lookup(o, LinksKey) == Some("stacks_links")
            && Lookup(o, ResourceKey) == Some("stack")
  {
    StackMetaShape();
    DerivedFromEndpointOnly(StackMeta);
    StackStrings();
  }

  /** A page of stacks is read from the `stacks` envelope, a single stack
      from under `stack`. */
  lemma StackEnvelopes(items: seq<Json>, links: seq<Link>, entity: Json)
    ensures DeriveOptions(StackMeta).Ok?
    ensures ExtractList(ListPage("stacks", "stacks_links", items, links), DeriveOptions(StackMeta).value)
            == Ok((JArr(items), NextHref(links)))
    ensures ExtractOne(JObj([("stack", entity)]), DeriveOptions(StackMeta).value) == Ok(entity)
  {
    StackOptions();
    ListPageRoundTrip(DeriveOptions(StackMeta).value, items, links);
  }

  lemma OrchestrationPrefix(projectId: Json)
    ensures PyStr(projectId).Ok? ==>
              TemplatedPrefix(OrchestrationService.pathPrefix, projectId) == Ok(Some("/v1/" + PyStr(projectId).value))
    ensures PyStr(projectId).Err? ==>
              TemplatedPrefix(OrchestrationService.pathPrefix, projectId) == Err(PyStr(projectId).error)
  {
    OrchestrationTemplate();
    PrefixWithPlaceholder("/v1/", "", projectId);
    if PyStr(projectId).Ok? {
      assert "/v1/" + PyStr(projectId).value + "" == "/v1/" + PyStr(projectId).value;
    }
  }

  lemma OrchestrationTemplate()
    ensures OrchestrationService.pathPrefix == Some("/v1/" + "{project_id}" + "")
    ensures NoBraces("/v1/") && NoBraces("")
  {
    assert OrchestrationService.pathPrefix == Some("/v1/{project_id}");
    TemplateSplit();
  }

  lemma TemplateSplit()
    ensures "/v1/{project_id}" == "/v1/" + "{project_id}" + ""
  {
  }

  /**
   * `OrchestrationService` is the `orchestration` accessor.  Its base URL is
   * the `orchestration` catalog endpoint (a KeyError when there is none) and
   * its prefix is `/v1/` followed by the root connection's project id, or
   * by `None` for an unscoped connection.
   */
  lemma OrchestrationServiceBuilt(endpoints: map<string, string>, projectId: Json)
    ensures Registers(OrchestrationService) && AccessorName(OrchestrationService) == "orchestration"
    ensures "orchestration" !in endpoints ==>
              Instantiate(OrchestrationService, endpoints, projectId) == Err(KeyError(JStr("orchestration")))
    ensures "orchestration" in endpoints && projectId.JStr? ==>
              Instantiate(OrchestrationService, endpoints, projectId)
              == Ok(ServiceState(endpoints["orchestration"], Some("/v1/" + projectId.s)))
    ensures "orchestration" in endpoints && projectId.JNull? ==>
              Instantiate(OrchestrationService, endpoints, projectId)
              == Ok(ServiceState(endpoints["orchestration"], Some("/v1/None")))
  {
    OrchestrationAccessor();
    OrchestrationPrefix(projectId);
    if projectId.JNull? {
      assert PyStr(projectId) == Ok("None");
      UnscopedPrefix();
    }
  }

  lemma UnscopedPrefix()
    ensures "/v1/" + "None" == "/v1/None"
  {
  }

  lemma OrchestrationAccessor()
    ensures Registers(OrchestrationService) && AccessorName(OrchestrationService) == "orchestration"
  {
    OrchestrationHasNoHyphen();
  }

  lemma OrchestrationHasNoHyphen()
    ensures ReplaceChar("orchestration", '-', '_') == "orchestration"
  {
    ReplaceAbsent("orchestration", '-', '_');
  }
}
