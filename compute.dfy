/**
 * The compute service: the options of its resources, the bodies of the
 * server actions, and the service itself (`compute`, prefix `/v2.1`).
 * Flavors and servers are listed through the detail manager; limits are an
 * unmanaged document whose absolute limits are embedded in it.
 */
module Compute {
  import opened Wrappers
  import opened Json
  import opened Text
  import opened Options
  import opened Envelope
  import opened Services
  import opened Actions
  import opened Images

  const PrimaryKeyField := "primary_key_field"

  const FlavorMeta: Meta := map[EndpointKey := Some("/flavors")]
  const KeypairMeta: Meta := map[EndpointKey := Some("/os-keypairs"), ListKey := Some("keypairs"), PrimaryKeyField := Some("name")]
  const VolumeAttachmentMeta: Meta := map[
    EndpointKey := Some("/os-volume_attachments"),
    ListKey := Some("volumeAttachments"),
    ResourceKey := Some("volumeAttachment")]
  const ServerMeta: Meta := map[EndpointKey := Some("/servers")]
  const LimitsMeta: Meta := map[EndpointKey := Some("/limits")]
  const AbsoluteLimitsMeta: Meta := map[]

  /** Flavors and servers are `ResourceWithDetail`s, key pairs and volume
      attachments plain `Resource`s. */
  const FlavorManager := DetailManager
  const ServerManager := DetailManager
  const KeypairManager := PlainManager
  const VolumeAttachmentManager := PlainManager

  const ComputeService := ServiceClass(Some("compute"), None, Some("/v2.1"), {"Flavor", "Keypair", "Server"})

  /** The three keys derived from an endpoint alone. */
  predicate DerivedKeys(declared: Meta, list: string, links: string, resource: string) {
    && DeriveOptions(declared).Ok?
    && Lookup(DeriveOptions(declared).value, ListKey) == Some(list)
    && Lookup(DeriveOptions(declared).value, LinksKey) == Some(links)
    && Lookup(DeriveOptions(declared).value, ResourceKey) == Some(resource)
  }

  lemma FlavorMetaShape()
    ensures HasEndpoint(FlavorMeta) && EndpointOf(FlavorMeta) == ['/'] + "flavors"
    ensures ListKey !in FlavorMeta && LinksKey !in FlavorMeta && ResourceKey !in FlavorMeta
  {
  }

  lemma FlavorStrings()
    ensures Strip(['/'] + "flavors", '/') == "flavors"
    ensures "flavors" + "_links" == "flavors_links" && DropLast("flavors") == "flavor"
  {
    var x := "flavors";
    assert x[0] != '/' && x[|x| - 1] != '/';
    StripLeading(x, '/');
    assert DropLast(x) == x[..|x| - 1] == "flavor";
  }

  /** `Flavor` (endpoint `/flavors`) derives `flavors`, `flavors_links`
      and `flavor`. */
  lemma FlavorOptions()
    ensures DerivedKeys(FlavorMeta, "flavors", "flavors_links", "flavor")
  {
    FlavorMetaShape();
    DerivedFromEndpointOnly(FlavorMeta);
    FlavorStrings();
  }

  lemma ServerMetaShape()
    ensures HasEndpoint(ServerMeta) && EndpointOf(ServerMeta) == ['/'] + "servers"
    ensures ListKey !in ServerMeta && LinksKey !in ServerMeta && ResourceKey !in ServerMeta
  {
  }

  lemma ServerStrings()
    ensures Strip(['/'] + "servers", '/') == "servers"
    ensures "servers" + "_links" == "servers_links" && DropLast("servers") == "server"
  {
    var x := "servers";
    assert x[0] != '/' && x[|x| - 1] != '/';
    StripLeading(x, '/');
    assert DropLast(x) == x[..|x| - 1] == "server";
  }

  /** `Server` (endpoint `/servers`) derives `servers`, `servers_links` and
      `server`. */
  lemma ServerOptions()
    ensures DerivedKeys(ServerMeta, "servers", "servers_links", "server")
  {
    ServerMetaShape();
    DerivedFromEndpointOnly(ServerMeta);
    ServerStrings();
  }

  lemma KeypairMetaShape()
    ensures HasEndpoint(KeypairMeta)
    ensures ListKey in KeypairMeta && KeypairMeta[ListKey] == Some("keypairs")
    ensures LinksKey !in KeypairMeta && ResourceKey !in KeypairMeta
    ensures PrimaryKeyField in KeypairMeta && KeypairMeta[PrimaryKeyField] == Some("name")
  {
  }

  /** `Keypair` declares the list key `keypairs`; the links key and the
      resource key follow from it, and the primary key field `name` is
      kept. */
  lemma KeypairOptions()
    ensures DerivedKeys(KeypairMeta, "keypairs", "keypairs_links", "keypair")
    ensures Lookup(DeriveOptions(KeypairMeta).value, PrimaryKeyField) == Some("name")
  {
    KeypairMetaShape();
    DerivedLookups(KeypairMeta);
    assert Shown(Some("keypairs")) + "_links" == "keypairs_links";
    assert DropLast("keypairs") == "keypair";
  }

  lemma VolumeAttachmentMetaShape()
    ensures HasEndpoint(VolumeAttachmentMeta)
    ensures ListKey in VolumeAttachmentMeta && VolumeAttachmentMeta[ListKey] == Some("volumeAttachments")
    ensures ResourceKey in VolumeAttachmentMeta && VolumeAttachmentMeta[ResourceKey] == Some("volumeAttachment")
    ensures LinksKey !in VolumeAttachmentMeta
  {
  }

  /** `VolumeAttachment` keeps both declared keys; only the links key is
      derived. */
  lemma VolumeAttachmentOptions()
    ensures DerivedKeys(VolumeAttachmentMeta, "volumeAttachments", "volumeAttachments_links", "volumeAttachment")
  {
    VolumeAttachmentMetaShape();
    DerivedLookups(VolumeAttachmentMeta);
    assert Shown(Some("volumeAttachments")) + "_links" == "volumeAttachments_links";
  }

  /** A volume attachment is read from and written under
      `volumeAttachment`. */
  lemma VolumeAttachmentEnvelope(entity: Json)
    ensures DeriveOptions(VolumeAttachmentMeta).Ok?
    ensures PrepareParams(entity, DeriveOptions(VolumeAttachmentMeta).value) == JObj([("volumeAttachment", entity)])
    ensures ExtractOne(JObj([("volumeAttachment", entity)]), DeriveOptions(VolumeAttachmentMeta).value) == Ok(entity)
  {
    VolumeAttachmentOptions();
  }

  lemma LimitsStrings()
    ensures Strip(['/'] + "limits", '/') == "limits"
  {
    StripLeading("limits", '/');
  }

  /** `Limits` (unmanaged, endpoint `/limits`) reads its document under
      `limits`; `AbsoluteLimits` has no endpoint, so nothing is derived and
      fetching it on its own is a KeyError for the `None` key. */
  lemma LimitsOptions(document: Fields)
    ensures Lookup(DeriveUnmanaged(LimitsMeta), ResourceKey) == Some("limits")
    ensures UnmanagedFetch(JObj(document), DeriveUnmanaged(LimitsMeta)) ==
              if Get(document, "limits").Some? then Ok(Get(document, "limits").value) else Err(KeyError(JStr("limits")))
    ensures DeriveUnmanaged(AbsoluteLimitsMeta) == AbsoluteLimitsMeta
    ensures UnmanagedFetch(JObj(document), DeriveUnmanaged(AbsoluteLimitsMeta)) == Err(KeyError(JNull))
  {
    assert HasEndpoint(LimitsMeta) && EndpointOf(LimitsMeta) == ['/'] + "limits" && ResourceKey !in LimitsMeta;
    LimitsStrings();
    assert !HasEndpoint(AbsoluteLimitsMeta);
  }

  /** By default flavors and servers are listed from `<url>/detail`, while
      key pairs, volume attachments and images are listed from `<url>`;
      asked for no detail, flavors come partial from `<url>`. */
  lemma DefaultListings(url: string, params: Fields)
    ensures ListAll(FlavorManager, url, params) == FetchAll(url + "/detail", params, false)
    ensures ListAll(ServerManager, url, params) == FetchAll(url + "/detail", params, false)
    ensures ListAll(KeypairManager, url, params) == FetchAll(url, params, false)
    ensures ListAll(VolumeAttachmentManager, url, params) == FetchAll(url, params, false)
    ensures ListAll(ImageManager, url, params) == FetchAll(url, params, false)
    ensures DetailAll(url, false, params) == FetchAll(url, params, true)
  {
    assert url + "/detail" != url by {
      assert |url + "/detail"| != |url|;
    }
  }

  /** What a server action asks for. */
  datatype ServerCommand = Start | Stop | Reboot(rebootType: Json)

  /** `Server.start`, `Server.stop` and `Server.reboot`: all three post to
      the `action` endpoint of the server, with a one-key body naming the
      action. */
  function ServerAction(c: ServerCommand): (a: ActionCall)
    ensures a.action == "action" && a.body.JObj? && |a.body.fields| == 1
    ensures c.Reboot? ==> Index(a.body, JStr("reboot")) == Ok(JObj([("type", c.rebootType)]))
    ensures !c.Reboot? ==> Index(a.body, JStr(if c.Start? then "os-start" else "os-stop")) == Ok(JNull)
  {
    match c
    case Start => ActionCall("action", JObj([("os-start", JNull)]))
    case Stop => ActionCall("action", JObj([("os-stop", JNull)]))
    case Reboot(t) => ActionCall("action", JObj([("reboot", JObj([("type", t)]))]))
  }

  /** A left inverse of ServerAction: it recovers the command from an
      action call, which shows that no two commands post the same body.
      The client itself never reads action bodies. */
  function ParseServerAction(a: ActionCall): Option<ServerCommand> {
    if a.action != "action" || !a.body.JObj? || |a.body.fields| != 1 then None
    else
      var (name, arg) := a.body.fields[0];
      if name == "os-start" && arg == JNull then Some(Start)
      else if name == "os-stop" && arg == JNull then Some(Stop)
      else if name == "reboot" && arg.JObj? && |arg.fields| == 1 && arg.fields[0].0 == "type" then Some(Reboot(arg.fields[0].1))
      else None
  }

  /** Each action body says which action it is: reading it back gives the
      command, so no two commands share a body. */
  lemma ServerActionRoundTrip(c: ServerCommand)
    ensures ParseServerAction(ServerAction(c)) == Some(c)
  {
  }

  lemma ServerActionsDistinct(c1: ServerCommand, c2: ServerCommand)
    requires c1 != c2
    ensures ServerAction(c1) != ServerAction(c2)
  {
    ServerActionRoundTrip(c1);
    ServerActionRoundTrip(c2);
  }

  /** `ComputeService` is the `compute` accessor, built from the `compute`
      catalog endpoint with its `/v2.1` prefix unchanged. */
  lemma ComputeServiceBuilt(endpoints: map<string, string>, projectId: Json)
    ensures Registers(ComputeService) && AccessorName(ComputeService) == "compute"
    ensures "compute" in endpoints ==>
              Instantiate(ComputeService, endpoints, projectId) == Ok(ServiceState(endpoints["compute"], Some("/v2.1")))
    ensures "compute" !in endpoints ==> Instantiate(ComputeService, endpoints, projectId) == Err(KeyError(JStr("compute")))
  {
    ComputeHasNoHyphen();
    PrefixWithoutPlaceholder("/v2.1", projectId);
  }

  lemma ComputeHasNoHyphen()
    ensures ReplaceChar("compute", '-', '_') == "compute"
  {
    ReplaceAbsent("compute", '-', '_');
  }

  /** `Server.image` embeds an image, which belongs to the image service:
      once that service is registered, the image's manager is the image
      service's root manager, built from the `image` endpoint; without an
      `image` endpoint the lookup is a KeyError. */
  lemma ServerImageResolution(accessors: map<string, ServiceClass>, endpoints: map<string, string>, projectId: Json)
    ensures "image" in endpoints ==>
              RelatedManager(ImageResource, Register(accessors, ImageService), endpoints, projectId)
              == Ok(RootManager(ServiceState(endpoints["image"], Some("/v2")), "Image"))
    ensures "image" !in endpoints ==>
              RelatedManager(ImageResource, Register(accessors, ImageService), endpoints, projectId)
              == Err(KeyError(JStr("image")))
  {
    ImageServiceBuilt(endpoints, projectId);
    RelatedAfterRegister(accessors, ImageResource, endpoints, projectId);
  }
}
