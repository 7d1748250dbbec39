/**
 * The image service: `Image` declares `resource_key = None`, so single
 * images are read and written without an envelope while lists keep the
 * derived `images` envelope; `ImageService` is reached as `image` and its
 * `/v2` prefix has no placeholder.
 */
module Images {
  import opened Wrappers
  import opened Json
  import opened Text
  import opened Options
  import opened Envelope
  import opened Services

  /** `Image` is a plain `Resource`. */
  const ImageManager := PlainManager

  const ImageMeta: Meta := map[EndpointKey := Some("/images"), ResourceKey := None]

  const ImageService := ServiceClass(Some("image"), None, Some("/v2"), {"Image"})

  const ImageResource := ResourceClass("Image", ImageService)

  lemma ImageMetaShape()
    ensures HasEndpoint(ImageMeta) && EndpointOf(ImageMeta) == "/images"
    ensures ListKey !in ImageMeta && LinksKey !in ImageMeta
    ensures ResourceKey in ImageMeta && ImageMeta[ResourceKey] == None
  {
  }

  lemma ImageStrings()
    ensures Strip("/images", '/') == "images"
    ensures Shown(Some("images")) + "_links" == "images_links"
  {
    var x := "images";
    assert x[0] != '/' && x[|x| - 1] != '/';
    assert "/images" == ['/'] + x;
    StripLeading(x, '/');
    assert Shown(Some(x)) == x;
  }

  /** The options of `Image`: list key and links key derived from the
      endpoint, the declared `None` resource key kept. */
  lemma ImageOptions()
    ensures DeriveOptions(ImageMeta).Ok?
    ensures var o := DeriveOptions(ImageMeta).value;
            && Lookup(o, ListKey) == Some("images")
            && Lookup(o, LinksKey) == Some("images_links")
            && Lookup(o, ResourceKey) == None
  {
    ImageMetaShape();
    DerivedLookups(ImageMeta);
    ImageStrings();
  }

  /** Without a resource key an image is the whole body, both ways. */
  lemma ImageWithoutEnvelope(body: Json, params: Json)
    ensures DeriveOptions(ImageMeta).Ok?
    ensures ExtractOne(body, DeriveOptions(ImageMeta).value) == Ok(body)
    ensures PrepareParams(params, DeriveOptions(ImageMeta).value) == params
  {
    ImageOptions();
  }

  /** A page of images is read from the `images` envelope. */
  lemma ImagePage(items: seq<Json>, links: seq<Link>)
    ensures DeriveOptions(ImageMeta).Ok?
    ensures ExtractList(ListPage("images", "images_links", items, links), DeriveOptions(ImageMeta).value)
            == Ok((JArr(items), NextHref(links)))
  {
    ImageOptions();
    ListPageRoundTrip(DeriveOptions(ImageMeta).value, items, links);
  }

  /** `ImageService` is the `image` accessor, built from the `image`
      catalog endpoint with its `/v2` prefix unchanged. */
  lemma ImageServiceBuilt(endpoints: map<string, string>, projectId: Json)
    ensures Registers(ImageService) && AccessorName(ImageService) == "image"
    ensures "image" in endpoints ==>
              Instantiate(ImageService, endpoints, projectId) == Ok(ServiceState(endpoints["image"], Some("/v2")))
    ensures "image" !in endpoints ==> Instantiate(ImageService, endpoints, projectId) == Err(KeyError(JStr("image")))
  {
    ReplaceAbsent("image", '-', '_');
    PrefixWithoutPlaceholder("/v2", projectId);
  }
}
