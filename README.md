# jasmin-cloud OpenStack and AWX REST client core, in Dafny

This project models the REST client layer that jasmin-cloud builds on the
`rackit` library. Every HTTP response is taken as a given JSON value. The
layer covers:

- **`AuthParams`.** Builds the `auth` object of an Identity API v3 token
  request.
- **Root `Connection`.** Authenticates, reads the token response (token,
  user name, project id), and reduces the service catalog to one base URL
  per catalog type. It then acts as the auth hook that sets
  `X-Auth-Token`, and can open a connection scoped to a project.
- **Service classes.** Each registers itself on the root connection under
  an accessor name, is built from its catalog endpoint, and has the
  project id templated into its path prefix.
- **Cross-service lookup.** `related_manager` finds the manager of an
  embedded resource that lives in another service.
- **Resource options.** `ResourceOptions` and `UnmanagedResourceOptions`
  derive the JSON envelope keys from a resource's endpoint.
- **Envelopes.** How lists, single entities and request bodies are read
  from and written into those envelopes.
- **Error messages.** The depth-first search for an error `message`.
- **Declarative tables.** The compute, image and orchestration resource
  and service tables built on all of the above.
- **AWX.** The `results`/`next` page envelope and the inventory-copy and
  job-template-launch requests.

Modules and files:

| file | module | models |
|---|---|---|
| `wrappers.dfy` | `Wrappers` | `Option` and `Result` |
| `json.dfy` | `Json` | JSON values with ordered dict fields; Python exceptions as `Error`; dict lookup, `get`, item assignment, iteration; the lazy `next(... for ... if ...)` search |
| `text.dfy` | `Text` | `strip`, `rstrip`, `[:-1]`, `replace`, `lower`, `split`, and `str.format` with one `{project_id}` field |
| `urls.dfy` | `Urls` | `urlsplit(u)._replace(path='').geturl()` |
| `auth.dfy` | `Auth` | `AuthParams` |
| `tokens.dfy` | `Tokens` | reading the token response |
| `catalog.dfy` | `Catalogs` | the catalog loop of `Connection.__init__`, as a fold |
| `connection.dfy` | `Connections` | `Connection` as a class: `__init__`, `__call__`, `scoped_connection` |
| `options.dfy` | `Options` | `ResourceOptions`, `UnmanagedResourceOptions`, `AuthProject` |
| `envelope.dfy` | `Envelope` | `extract_list`, `extract_one`, `prepare_params`, `UnmanagedResource._fetch`, `ResourceWithDetailManager.all` |
| `errors.dfy` | `ErrorMessages` | `_find_message`, `extract_error_message` |
| `services.dfy` | `Services` | `__init_subclass__`, `ServiceDescriptor.get_service`, `Service.__init__`, `related_manager` |
| `actions.dfy` | `Actions` | a custom action call |
| `compute.dfy`, `image.dfy`, `orchestration.dfy` | `Compute`, `Images`, `Orchestration` | the resource and service tables |
| `awx.dfy` | `Awx` | the AWX managers |

Python's `None` is `JNull`. A dict is a sequence of fields in insertion
order. Python exceptions are values of `Json.Error`, and each operation
returns an `Outcome`.

The options dict of a resource class is a map from option name to an
optional string. An option the class does not declare is read as `None`
(see "Left out").

`Connection`, its `Session`, an outgoing `Request`, the class registry
behind `__init_subclass__`, and a `Service` are classes whose methods update
their fields. The rest is functions on values.

`related_manager` always derives the accessor name from the catalog type
(`catalog_type.replace('-', '_')`). `__init_subclass__` registers a service
under its declared `name` when it has one. Both behaviours are modelled as
written, and `Services.DeclaredNameIsNotFound` states what follows for a
service with a declared name. None of the three services in the core
declares one.

## Model

| member | source | states |
|---|---|---|
| Auth.NewAuthParams | jasmin_cloud/provider/openstack/api/core.py:23-24 | no parameters give an empty dict; given parameters are kept |
| Auth.UseToken | jasmin_cloud/provider/openstack/api/core.py:26-32 | `identity` becomes `{"methods": ["token"], "token": {"id": token}}`; every other key reads as before |
| Auth.UsePassword | jasmin_cloud/provider/openstack/api/core.py:34-52 | `identity` becomes the password identity with domain, user name and password; every other key reads as before |
| Auth.UseProjectId | jasmin_cloud/provider/openstack/api/core.py:54-60 | `scope` becomes `{"project": {"id": project_id}}`; every other key reads as before |
| Auth.AsDict | jasmin_cloud/provider/openstack/api/core.py:62-66 | a dict in which every key reads what the builder holds, and a missing key is a KeyError |
| Auth.PutTwice | jasmin_cloud/provider/openstack/api/core.py:30-31 | updating a key twice equals updating it once with the second value, in the same position |
| Auth.TokenReplacesPassword | jasmin_cloud/provider/openstack/api/core.py:26-52 | `use_token` after `use_password` is `use_token` alone: no trace of the password remains |
| Auth.RescopeKeepsLast | jasmin_cloud/provider/openstack/api/core.py:54-60 | scoping twice keeps only the last project |
| Auth.BuildersKeepKeys | jasmin_cloud/provider/openstack/api/core.py:26-60 | builder chains keep keys unique and keep the existing keys in order |
| Auth.PasswordProjectThenToken | jasmin_cloud/provider/openstack/api/core.py:26-60 | password, then project, then token: token identity, the project scope kept, all other keys unchanged |
| Auth.ScopedParamsExact | jasmin_cloud/provider/openstack/api/core.py:284 | the scoped connection's parameters are exactly the token identity followed by the project scope |
| Json.PutKeys | jasmin_cloud/provider/openstack/api/core.py:31 | dict update keeps the position of an existing key and appends a new key |
| Json.PutKeepsUnique | jasmin_cloud/provider/openstack/api/core.py:31 | dict update keeps the keys unique |
| Json.FirstWhere | jasmin_cloud/provider/openstack/api/core.py:253-257 | no match exactly when every item is passed over; when an item is the first match, the result is its field; a found value is the field of the first match |
| Text.RStrip | jasmin_cloud/provider/openstack/api/core.py:221 | the Identity URL loses exactly its trailing `/`s: a prefix of the input, followed only by `/`, not itself ending in `/` |
| Text.RStripIdempotent | jasmin_cloud/provider/openstack/api/core.py:221 | stripping the stored Identity URL again changes nothing |
| Text.Strip | jasmin_cloud/provider/openstack/api/core.py:167 | the stripped endpoint neither starts nor ends with `/`, and an endpoint without surrounding `/` is kept |
| Text.StripIsSlice | jasmin_cloud/provider/openstack/api/core.py:167 | the stripped endpoint is a slice of the input with only `/` before and after it |
| Text.DropLast | jasmin_cloud/provider/openstack/api/core.py:176 | `[:-1]` is the input without its last character, and the empty string stays empty |
| Text.ReplaceChar | jasmin_cloud/provider/openstack/api/core.py:103 | every `-` becomes `_`, every other character stays, and the length is kept |
| Text.ReplaceAbsent | jasmin_cloud/provider/openstack/api/core.py:103 | a catalog type without `-` is left as it is |
| Text.ReplaceOne | jasmin_cloud/provider/openstack/api/core.py:103 | a single `-` between two hyphen-free parts becomes `_` and nothing else changes |
| Text.FormatOneField | jasmin_cloud/provider/openstack/api/core.py:330 | a single `{name}` between brace-free text is replaced by the value and nothing else changes |
| Text.FormatNoBraces | jasmin_cloud/provider/openstack/api/core.py:330 | formatting a template without braces leaves it unchanged |
| Urls.SplitScheme | jasmin_cloud/provider/openstack/api/core.py:261 | when the first `:` follows a letter and only scheme characters, the scheme is the lower-cased text before it and the rest follows it; otherwise no scheme and the whole URL is the rest |
| Urls.SplitUrl | jasmin_cloud/provider/openstack/api/core.py:261 | the parts have the shape `urlsplit` gives: a lower-case scheme, a network location without `/`, `?` or `#`, a path without `?` or `#`, a query without `#` |
| Urls.JoinThenSplit | jasmin_cloud/provider/openstack/api/core.py:261 | splitting a URL built from parts with an empty path gives the parts back |
| Urls.StripPath | jasmin_cloud/provider/openstack/api/core.py:261 | the base URL, split again, has an empty path and the scheme, network location, query and fragment of the catalog URL |
| Urls.StripPathIdempotent | jasmin_cloud/provider/openstack/api/core.py:261 | stripping the path twice is stripping it once |
| Tokens.ParseToken | jasmin_cloud/provider/openstack/api/core.py:243-250 | no `X-Subject-Token` header is a KeyError; a body that is not JSON is a decode error; the token is the header value; otherwise it succeeds exactly when the body reads, with the user name, project id and catalog read from the body, and fails with the body's first failing read |
| Tokens.ReadTokenBody | jasmin_cloud/provider/openstack/api/core.py:245-250 | a body without `token` is a KeyError; otherwise the user name, project id and catalog of the token, read in that order, the first failing read giving the error |
| Tokens.ParseScopedTokenBody | jasmin_cloud/provider/openstack/api/core.py:243-250 | a scoped token response gives back its token, user name, project id and catalog |
| Tokens.ParseUnscopedTokenBody | jasmin_cloud/provider/openstack/api/core.py:247 | a token response without a project gives project id `None` |
| Catalogs.EndpointUrl | jasmin_cloud/provider/openstack/api/core.py:253-257 | a missing `endpoints` is its error; for a list of endpoints, the `url` of the first whose `interface` matches, None when none does |
| Catalogs.EntryEndpoint | jasmin_cloud/provider/openstack/api/core.py:250-261 | an error finding the endpoint propagates; no endpoint on the interface skips the entry; a string url with a string type gives the type and the base URL of the url; a list or dict type is a TypeError; a stored base URL has an empty path |
| Catalogs.EntryEndpointChoosesFirst | jasmin_cloud/provider/openstack/api/core.py:253-261 | for every entry, the endpoint stored is the one of the first endpoint on the interface, whatever comes after it |
| Catalogs.EntryWithoutInterface | jasmin_cloud/provider/openstack/api/core.py:253-259 | an entry none of whose endpoints is on the interface is skipped |
| Catalogs.PublicAndInternal | jasmin_cloud/provider/openstack/api/core.py:253-261 | an entry listing an internal endpoint before a public one gives the public base URL on `public` and the internal one on `internal` |
| Catalogs.NeitherInterface | jasmin_cloud/provider/openstack/api/core.py:258-259 | that entry is skipped on an interface neither endpoint is on |
| Catalogs.Fold | jasmin_cloud/provider/openstack/api/core.py:249-261 | the loop runs to the end exactly when every entry reads; otherwise its error is that of the first entry that fails |
| Catalogs.Catalog | jasmin_cloud/provider/openstack/api/core.py:249-261 | the catalog reads exactly when every entry reads, and every URL it stores has an empty path |
| Catalogs.FoldErrorPersists | jasmin_cloud/provider/openstack/api/core.py:249-261 | an error in one entry ends the loop with that error |
| Catalogs.FoldKeys | jasmin_cloud/provider/openstack/api/core.py:249-261 | a type has an endpoint exactly when some entry yields that type |
| Catalogs.FoldLastWins | jasmin_cloud/provider/openstack/api/core.py:261 | the endpoint of a type is the one from the last entry of that type |
| Catalogs.FoldValueFrom | jasmin_cloud/provider/openstack/api/core.py:249-261 | every stored endpoint comes from some entry of that type |
| Connections.AuthRequestBody | jasmin_cloud/provider/openstack/api/core.py:237 | the token request body is `{"auth": params.as_dict()}` and nothing else |
| Connections.Session.Close | jasmin_cloud/provider/openstack/api/core.py:240 | closing marks the session closed and keeps its TLS setting |
| Connections.Connection.Init | jasmin_cloud/provider/openstack/api/core.py:219-233 | the URL without trailing slashes, the arguments kept, and a new open session with the TLS setting |
| Connections.Connection.Authorize | jasmin_cloud/provider/openstack/api/core.py:263-270 | with a token, sets `X-Auth-Token` and leaves the other headers alone; without one, the request is unchanged; the same request is returned |
| Connections.Connection.FillEndpoints | jasmin_cloud/provider/openstack/api/core.py:249-261 | the loop's endpoints equal the catalog fold, and its error is the fold's error |
| Connections.Connect | jasmin_cloud/provider/openstack/api/core.py:219-261 | a failed token request propagates its error and closes the session exactly for an ApiError; otherwise a new connection exactly when the response parses and its catalog reads, holding its token, user, project and endpoints, and else the error of the response or of its catalog |
| Connections.ConnectByDefault | jasmin_cloud/provider/openstack/api/core.py:219 | without an interface or TLS setting, the connection uses the public interface and verifies TLS |
| Connections.Connection.Scoped | jasmin_cloud/provider/openstack/api/core.py:272-287 | without a token an AttributeError; otherwise a connection authenticated with exactly this token and the project's id |
| Options.DeriveOptions | jasmin_cloud/provider/openstack/api/core.py:160-178 | with an endpoint, the missing list key, links key and resource key are derived and declared ones kept; a declared `None` list key with no resource key is a TypeError; without an endpoint nothing changes |
| Options.ResourceOptionsInit | jasmin_cloud/provider/openstack/api/core.py:160-178 | the in-place updates produce the derived options |
| Options.DerivedIsUnique | jasmin_cloud/provider/openstack/api/core.py:165-177 | options with the declared keys and the derived keys are the derivation's result |
| Options.DeriveOptionsIdempotent | jasmin_cloud/provider/openstack/api/core.py:165-177 | deriving twice is deriving once |
| Options.DerivedLookups | jasmin_cloud/provider/openstack/api/core.py:165-177 | each envelope key reads the declared value, else the derived one |
| Options.DerivedFromEndpointOnly | jasmin_cloud/provider/openstack/api/core.py:165-177 | with no declared keys, list key `e`, links key `e_links` and resource key `e[:-1]`, where `e` is the stripped endpoint |
| Options.DeriveUnmanaged | jasmin_cloud/provider/openstack/api/core.py:70-78 | with an endpoint and no resource key, the resource key is the stripped endpoint; everything declared is kept |
| Options.UnmanagedOptionsInit | jasmin_cloud/provider/openstack/api/core.py:70-78 | the in-place update produces the derived unmanaged options |
| Options.AuthProjectOptions | jasmin_cloud/provider/openstack/api/core.py:199-207 | `AuthProject` has list key `projects`, links key `projects_links` and resource key `project` |
| Envelope.ResourceKeyOf | jasmin_cloud/provider/openstack/api/core.py:129 | the resource key counts only when it is a non-empty string |
| Envelope.ExtractList | jasmin_cloud/provider/openstack/api/core.py:112-125 | the data is the body under the list key, and a missing list key is its error; without links the next page is `None`; otherwise the links value is iterated and the next page is the `href` of the first link whose `rel` is `next` (`None` when there is none); a links value that cannot be read or iterated, or a link that cannot be read before that one, is the error |
| Envelope.FirstNextLink | jasmin_cloud/provider/openstack/api/core.py:117-124 | the next page is the `href` of the first link whose `rel` is `next` |
| Envelope.ListPageRoundTrip | jasmin_cloud/provider/openstack/api/core.py:112-125 | reading a page written with the list and links keys gives its items and its first `next` link |
| Envelope.LastPage | jasmin_cloud/provider/openstack/api/core.py:117-124 | a page without links, or with no `next` link, has no next page |
| Envelope.ExtractOne | jasmin_cloud/provider/openstack/api/core.py:127-132 | without a resource key the body itself; with one, the value under it, and an error exactly when it is missing |
| Envelope.PrepareParams | jasmin_cloud/provider/openstack/api/core.py:134-140 | parameters nested under the resource key when there is one; extracting them back gives the parameters |
| Envelope.ExtractThenPrepare | jasmin_cloud/provider/openstack/api/core.py:127-140 | nesting an extracted entity gives back a body that holds only the resource key |
| Envelope.UnmanagedFetch | jasmin_cloud/provider/openstack/api/core.py:88-90 | the document under the resource key; a KeyError exactly when it is missing or `None` |
| Envelope.DetailAll | jasmin_cloud/provider/openstack/api/core.py:149-153 | the detail listing fetches `<url>/detail` and full entities; without detail, `<url>` and partial entities |
| Envelope.ListAll | jasmin_cloud/provider/openstack/api/core.py:149-153 | with `detail` at its default, a detail manager lists full entities from `<url>/detail` and a plain manager full entities from `<url>` |
| ErrorMessages.FindMessage | jasmin_cloud/provider/openstack/api/core.py:332-341 | a non-dict gives `None`; a dict's own `message` is the result even when falsy; any other result is `None` or one of the messages the search can reach |
| ErrorMessages.SearchValues | jasmin_cloud/provider/openstack/api/core.py:338-341 | the loop over a dict's values gives `None` or a truthy message reachable from those values |
| ErrorMessages.FindMessageIsFirstCandidate | jasmin_cloud/provider/openstack/api/core.py:332-341 | the search finds the first truthy message in depth-first key order; a dict's own `message` hides everything below it |
| ErrorMessages.SearchValuesIsFirstCandidate | jasmin_cloud/provider/openstack/api/core.py:338-341 | the loop over a dict's values returns the first truthy result |
| ErrorMessages.ExtractErrorMessage | jasmin_cloud/provider/openstack/api/core.py:343-356 | a non-JSON body gives the text; otherwise the first truthy message, and the text when there is none |
| ErrorMessages.NestedMessage | jasmin_cloud/provider/openstack/api/core.py:332-356 | the usual nested OpenStack error gives its message |
| ErrorMessages.UnsearchedAndFalsy | jasmin_cloud/provider/openstack/api/core.py:334-356 | messages inside lists are not found, and an empty message falls back to the text |
| ErrorMessages.OwnMessageShadows | jasmin_cloud/provider/openstack/api/core.py:335-336 | a dict's own message wins over deeper ones |
| ErrorMessages.KeyOrder | jasmin_cloud/provider/openstack/api/core.py:338-341 | a falsy message is passed over for the next value in key order |
| Services.AccessorName | jasmin_cloud/provider/openstack/api/core.py:319 | the declared name, else the catalog type with every `-` turned into `_` and everything else unchanged |
| Services.Register | jasmin_cloud/provider/openstack/api/core.py:314-322 | a class with a catalog type is added under its accessor name; other accessors are unchanged; a class without one adds nothing |
| Services.ServiceRegistry.InitSubclass | jasmin_cloud/provider/openstack/api/core.py:314-322 | the registry becomes the registration of the class |
| Services.PyStr | jasmin_cloud/provider/openstack/api/core.py:330 | what `str.format` writes for a string, `None` or a boolean project id |
| Services.TemplatedPrefix | jasmin_cloud/provider/openstack/api/core.py:327-330 | a missing or empty prefix is kept; otherwise the prefix formatted with the project id, and the formatting error when it fails |
| Services.PrefixWithoutPlaceholder | jasmin_cloud/provider/openstack/api/core.py:327-330 | a prefix without braces is unchanged by templating |
| Services.PrefixWithPlaceholder | jasmin_cloud/provider/openstack/api/core.py:327-330 | `a{project_id}b` becomes `a` + the project id + `b` |
| Services.FailingPlaceholder | jasmin_cloud/provider/openstack/api/core.py:330 | a project id that cannot be written makes templating fail with that error |
| Services.Instantiate | jasmin_cloud/provider/openstack/api/core.py:301-303 | a service is built from the endpoint of its catalog type, and a missing type is a KeyError |
| Services.Service.constructor | jasmin_cloud/provider/openstack/api/core.py:324-325 | the service keeps its class, its URL and the class's prefix |
| Services.Service.TemplatePrefix | jasmin_cloud/provider/openstack/api/core.py:326-330 | the prefix becomes the templated prefix, or stays and the error is returned |
| Services.GetService | jasmin_cloud/provider/openstack/api/core.py:301-303 | a new service exactly when it can be built from the connection's endpoints and project id, in the state built |
| Services.RelatedManager | jasmin_cloud/provider/openstack/api/core.py:97-110 | no catalog type is an AttributeError; the accessor derived from it must exist (else an AttributeError); an error building that service propagates; a service without a root manager for the class is a RuntimeError; otherwise its root manager for the class |
| Services.RelatedAfterRegister | jasmin_cloud/provider/openstack/api/core.py:97-110 | after registration without a declared name, resolution fails exactly for a missing endpoint or a missing root manager |
| Services.DeclaredNameIsNotFound | jasmin_cloud/provider/openstack/api/core.py:101-104 | a service registered under a declared name that differs from the derived one is not found by `related_manager` |
| Services.HyphenatedAccessor | jasmin_cloud/provider/openstack/api/core.py:319 | a catalog type with one hyphen between hyphen-free parts (`block-storage`) is reached with an underscore in its place (`block_storage`) |
| Compute.FlavorOptions | jasmin_cloud/provider/openstack/api/compute.py:22-29 | `Flavor` has keys `flavors`, `flavors_links` and `flavor` |
| Compute.ServerOptions | jasmin_cloud/provider/openstack/api/compute.py:55-61 | `Server` has keys `servers`, `servers_links` and `server` |
| Compute.KeypairOptions | jasmin_cloud/provider/openstack/api/compute.py:32-40 | `Keypair` has keys `keypairs`, `keypairs_links` and `keypair`, and keeps primary key field `name` |
| Compute.VolumeAttachmentOptions | jasmin_cloud/provider/openstack/api/compute.py:43-51 | `VolumeAttachment` keeps its declared keys and derives `volumeAttachments_links` |
| Compute.VolumeAttachmentEnvelope | jasmin_cloud/provider/openstack/api/compute.py:48-51 | a single attachment is nested under, and read from, `volumeAttachment` |
| Compute.LimitsOptions | jasmin_cloud/provider/openstack/api/compute.py:85-111 | `Limits` reads its document under `limits`; `AbsoluteLimits` has no endpoint, so a fetch by its options is a KeyError |
| Compute.DefaultListings | jasmin_cloud/provider/openstack/api/compute.py:22-61 | flavors and servers, being `ResourceWithDetail`s, are listed from `<url>/detail` by default; key pairs, volume attachments and images from `<url>`; flavors without detail come partial from `<url>` |
| Compute.ServerAction | jasmin_cloud/provider/openstack/api/compute.py:75-82 | start, stop and reboot post action `action` with `{"os-start": None}`, `{"os-stop": None}` and `{"reboot": {"type": t}}` |
| Compute.ServerActionRoundTrip | jasmin_cloud/provider/openstack/api/compute.py:75-82 | reading an action body back gives the command |
| Compute.ServerActionsDistinct | jasmin_cloud/provider/openstack/api/compute.py:75-82 | different commands post different bodies |
| Compute.ComputeServiceBuilt | jasmin_cloud/provider/openstack/api/compute.py:114-120 | accessor `compute`, built from the `compute` endpoint with prefix `/v2.1`, or a KeyError without that endpoint |
| Compute.ServerImageResolution | jasmin_cloud/provider/openstack/api/compute.py:72 | a server's embedded image resolves to the image service's root manager, or a KeyError without an `image` endpoint |
| Images.ImageOptions | jasmin_cloud/provider/openstack/api/image.py:14-22 | `Image` has keys `images` and `images_links`, and its declared `None` resource key |
| Images.ImageWithoutEnvelope | jasmin_cloud/provider/openstack/api/image.py:21-22 | a single image is the whole body in both directions |
| Images.ImagePage | jasmin_cloud/provider/openstack/api/image.py:14-22 | a page of images is read from the `images` envelope |
| Images.ImageServiceBuilt | jasmin_cloud/provider/openstack/api/image.py:25-31 | accessor `image`, built from the `image` endpoint with prefix `/v2`, or a KeyError |
| Orchestration.StackOptions | jasmin_cloud/provider/openstack/api/orchestration.py:14-20 | `Stack` has keys `stacks`, `stacks_links` and `stack` |
| Orchestration.StackEnvelopes | jasmin_cloud/provider/openstack/api/orchestration.py:14-20 | stacks are listed from `stacks`/`stacks_links` and read singly from `stack` |
| Orchestration.OrchestrationPrefix | jasmin_cloud/provider/openstack/api/orchestration.py:29 | the prefix becomes `/v1/` + the project id, or fails as the project id does |
| Orchestration.OrchestrationServiceBuilt | jasmin_cloud/provider/openstack/api/orchestration.py:23-29 | accessor `orchestration`; built with prefix `/v1/<project id>`, `/v1/None` when unscoped; a KeyError without the endpoint |
| Orchestration.OrchestrationAccessor | jasmin_cloud/provider/openstack/api/orchestration.py:28 | catalog type `orchestration` registers as accessor `orchestration` |
| Awx.ExtractList | jasmin_cloud/provider/cluster_engine/awx/api.py:16-18 | the items are exactly `results`, a missing one is a KeyError; the cursor is `next`, `None` when absent |
| Awx.PageRoundTrip | jasmin_cloud/provider/cluster_engine/awx/api.py:16-18 | reading an AWX page gives its results and its next cursor |
| Awx.ResultsOnly | jasmin_cloud/provider/cluster_engine/awx/api.py:18 | a body without `next` has no next page |
| Awx.EmptyCountIsNoPage | jasmin_cloud/provider/cluster_engine/awx/api.py:18 | a body without `results` is a KeyError, not an empty page |
| Awx.CopyRequest | jasmin_cloud/provider/cluster_engine/awx/api.py:81-83 | the copy POST goes to the inventory's `copy` sub-URL with body `{"name": name}` and nothing else |
| Awx.InventoryManagerCopy | jasmin_cloud/provider/cluster_engine/awx/api.py:81-84 | an error of the POST propagates; otherwise the entity extracted from the response |
| Awx.InventoryCopy | jasmin_cloud/provider/cluster_engine/awx/api.py:99-100 | copying through the inventory is the manager's copy of the inventory addressed by its key |
| Awx.Launch | jasmin_cloud/provider/cluster_engine/awx/api.py:64-65 | launching is the `launch` action with the caller's body |

## Left out

- HTTP transport is not modelled: `requests` sessions, `api_post`, status handling, basic auth. The token request is a parameter `post` from request body to response or error, and a session is only a TLS flag and a closed flag.
- `rackit` itself is not part of this model: `prepare_url`, `_fetch_all` and its page-following loop, `make_instance`, `super().prepare_params`, `_action`, `root_manager`, and the `CachedProperty` caching behind `ServiceDescriptor`. A service's root managers are the set of resource names it declares; a listing is the record rackit receives; an action is its name and body.
- Resource `aliases`, `defaults`, `cache_keys`, `update_http_verb`, nested and embedded resource descriptors, and `NestedEndpoint` are `rackit` attribute plumbing and are not modelled, apart from the primary key field of `Keypair`.
- The AWX `Connection` (its `path_prefix`, basic-auth session and root resources) and the AWX resource endpoints are declarations consumed by `rackit` and are not modelled.
- Awx.InventoryManagerCopy: `rackit`'s base `extract_one` and `make_instance` are not part of this model; the extraction is a parameter and the result is the extracted JSON, not a resource instance.
- Awx.CopyRequest: the URL is the inventory's key plus the `copy` segment; how `prepare_url` turns that into a path is `rackit`'s and is not modelled. An inventory is addressed by its `id`.
- Catalogs.EntryEndpoint: a catalog `url` that is not a string, or a `type` that is a number, boolean or `None`, gives `Unsupported`. In Python, `urlsplit` of a truthy non-string raises an AttributeError (it has no `decode`), while a falsy one (`None`, `0`, `[]`, `{}`) goes on and yields the base URL `b''`; a number, boolean or `None` type is a valid dict key.
- Services.PyStr: a number, list or dict project id gives `Unsupported`, because Python's `str` of those is not modelled.
- Text.FormatField: format conversions and specs (`{project_id!r}`, `{project_id:>8}`, attribute and index access) give `Unsupported`. Other fields and stray braces are a `FormatError`.
- Urls.SplitUrl: `urlsplit` is modelled without the stripping of leading whitespace and control characters, without the removal of tab, carriage return and line feed anywhere in the URL, and without the `ValueError`s for malformed IPv6 hosts and for network locations that change under Unicode normalisation.
- Services.RelatedManager: `getattr` on the root connection finds only the accessors registered by service classes; other attributes of the connection are not modelled.
- Options.Lookup: an option a resource class does not declare is read as `None`. This is an assumption about `rackit`'s options class, which is not part of this model; the `AbsoluteLimits` KeyError in Compute.LimitsOptions rests on it.
- Envelope.ListAll: a plain manager's listing is taken to fetch full entities from the prepared URL; `rackit`'s `ResourceManager.all` is not part of this model.
- Tokens.Response: header names are stored lower-cased and looked up lower-cased, standing for the case-insensitive headers of `requests`; responses whose header map holds mixed-case names are outside the model.
- Logging is not modelled.
