# d4science-hub, modelled in Dafny

d4science-hub extends JupyterHub for the D4Science research infrastructure.
It has two parts:

- **The authenticator** (`D4ScienceOauthenticator`). After the upstream
  OAuth login it makes two UMA ticket exchanges: one for the hub's client,
  one for the user's *context* (the virtual research environment chosen at
  login). It verifies both tickets with the identity provider's public
  keys, which it caches. It then stores the client ticket's permissions,
  the context ticket's roles, the JupyterHub resource catalog from the
  Information System and an optional DataMiner (WPS) endpoint in
  `auth_state`. Before a spawn it copies the namespace, the label, the
  context token and the decoded context into the spawner.
- **The spawner** (`D4ScienceSpawner`, a KubeSpawner). From `auth_state` it
  builds:
  - the list of launch profiles the user may choose from;
  - the extra volumes and mounts the catalog grants, read-only unless the
    permission is `Read-Write` or the user is a data manager;
  - the notebook arguments;
  - the workspace sidecar or security context.

Modules:

- `Hub` — the shared wrappers (`Option`, `Result`, `Error`), JSON-like
  values and generic sequence identities.
- `Strings` — the Python `str` operations the code uses: `strip`, `lower`,
  `replace`, `rindex`, `rsplit`, `removeprefix`, `in`, string order.
- `OrderedDict` — a Python dict with its insertion order.
- `Sorting` — Python's stable `sorted` with a key function.
- `Catalog` — the resource catalog and `build_resource_options`.
- `Profiles` — `profile_list` as a specification function, with its
  properties.
- `Session` — the `auth_state` dictionary.
- `Spawner` — class `D4ScienceSpawner`. Its fields are the spawner state the
  hooks update.
- `Authenticator` — class `D4ScienceAuthenticator`. Its fields are the login
  arguments and the public-key cache.

The methods that loop or change state are proved equal to specification
functions over the old state, and the lemmas state what those functions
guarantee.

Oracles stand in for HTTP, JWT, `quote_plus`/`unquote` and base64. They are
function-typed fields of the `Network`, `Jwt` and `Codec` datatypes, so
every property holds whatever the servers answer. For the authenticator,
each outcome also records the requests sent, in order, and the key cache
afterwards.

## Model

| member | source | states |
|---|---|---|
| `Spawner.D4ScienceSpawner.constructor` | d4science_hub/spawner.py:152-161 | Permissions and kept options start empty. The configured volumes and mounts are remembered as the originals. The image moves to the override repository only when one is configured. |
| `Spawner.D4ScienceSpawner.GetArgs` | d4science_hub/spawner.py:167-178 | Six fixed notebook arguments come first, then the host's own arguments unchanged. The fifth and sixth arguments are the two default-URL flags; both carry `/rstudio` when the server name mentions RStudio in any case, and the host's default URL otherwise. |
| `Spawner.NotebookUrlIgnoresCase` | d4science_hub/spawner.py:170 | The URL choice does not depend on the letter case of the server name. |
| `Spawner.TestGetArgs` | tests/test_spawner.py:63-84 | An unnamed server keeps `/foo`; a server named `RStudio` gets `/rstudio`. |
| `Spawner.D4ScienceSpawner.GetVolumeName` | d4science_hub/spawner.py:180-181 | The name has the length of the stripped name. Position for position, a dash stands exactly where the stripped name has a space or a dash. Every other character is the stripped name's character lower-cased (an ASCII capital moves up by 32), so every character that is neither upper-case nor a space is kept. The stripped name is a slice of the name with only whitespace cut from either end. |
| `Spawner.VolumeNameIdempotent` | d4science_hub/spawner.py:180-181 | Applying `get_volume_name` to one of its own results changes nothing. |
| `Spawner.VolumeNameShape` | d4science_hub/spawner.py:180-181 | A volume name has no space and no upper-case ASCII letter. |
| `Spawner.D4ScienceSpawner.BuildResourceOptions` | d4science_hub/spawner.py:183-212 | The loop returns exactly `Catalog.SplitCatalog` of the roles, the allowed option names and the catalog, including the partial result when a KeyError stops it. |
| `Catalog.SplitCatalogSpec` | d4science_hub/spawner.py:183-212 | Only the entries before the first malformed volume option are processed. Of those, a server option is kept, tagged with its profile name, exactly when its `@role` is empty or held and the name is allowed. Every processed volume option maps its name to its last permission. |
| `Catalog.RunStopsAtFirstMalformed` | d4science_hub/spawner.py:186-211 | The result is what the entries before the first malformed one give. The loop stopped exactly when such an entry exists. |
| `Catalog.RunStopsAt` | d4science_hub/spawner.py:206-211 | The first entry whose `VolumeOption` lacks `Name` or `Permission` ends the loop. That entry and everything after it contribute nothing. |
| `Catalog.RunClean` | d4science_hub/spawner.py:190-209 | Without a malformed entry the kept options are the eligible ones in catalog order. The volume dictionary denotes name-to-last-permission. |
| `Catalog.KeptMembers` | d4science_hub/spawner.py:193-205 | An option is among the kept ones iff some catalog entry contributes it. An entry contributes an option, tagged with its profile name, iff it has a `ServerOption`, its `@role` is absent, empty or held by the user, and its name is among the allowed option names. |
| `Catalog.VolumesIgnoreRoles` | d4science_hub/spawner.py:206-209 | Volume options, and whether the loop stops, do not depend on the roles or the allowed option names. |
| `Catalog.MissingResourcesIsEmpty` | d4science_hub/spawner.py:187 | A catalog without `genericResources` or `Resource` gives no options and no volumes. |
| `Catalog.SingleIsOneElementList` | d4science_hub/spawner.py:188-189 | A single `Resource` element is treated as a one-element list. |
| `Spawner.TestBuildOptionsRole` | tests/test_spawner.py:9-51 | An option with `@role` `foo-role` is kept for a user holding that role and dropped for a user without roles. Without `@role` it is kept for a user without roles. No volumes appear. |
| `OrderedDict.PutToMap` | d4science_hub/spawner.py:207-209 | Assigning a key in the ordered dictionary is assigning it in the mapping it denotes. |
| `OrderedDict.Put` | d4science_hub/spawner.py:207-209 | An existing key keeps its place and takes the new value. A new key goes at the end. Keys stay distinct. |
| `Session.ResourceNames` | d4science_hub/spawner.py:220 | There is a list iff every permission claim has an `rsname`. If so, it holds those names in order. |
| `Spawner.D4ScienceSpawner.AuthStateHook` | d4science_hub/spawner.py:214-254 | An absent or empty `auth_state` changes nothing. A claim without `rsname` raises before anything changes. Otherwise the hook stores the granted names and the kept options, and sets the volumes and mounts to the originals followed by the assembled ones. It raises exactly when the assembly stopped at a KeyError. |
| `Spawner.D4ScienceSpawner.AttachVolumes` | d4science_hub/spawner.py:226-248 | The loop appends exactly `Spawner.Assemble` of the volume mappings, the roles and the data-manager role over the volume options, in dictionary order, and reports its KeyError. |
| `Spawner.D4ScienceSpawner.AttachOne` | d4science_hub/spawner.py:229-248 | One step of `Spawner.Assemble`. An unmapped option changes nothing. A mapping without `volume` raises before appending. A mapping without `mount_path` raises after the volume is appended. Otherwise one volume and then one mount are appended. |
| `Spawner.AssembleComplete` | d4science_hub/spawner.py:228-248 | With every mapping complete the hook never raises. For each mapped option, in order, it adds one volume, named by `get_volume_name` and merged with the mapping's `volume`, and one mount at the mapped path. The mount is read-only unless the permission is `Read-Write` or the user holds the data-manager role. |
| `Spawner.AssembleAfterFailure` | d4science_hub/spawner.py:228-248 | After a KeyError the remaining volume options add nothing. |
| `Spawner.MappedMembers` | d4science_hub/spawner.py:228-229 | An entry is among the mapped options iff it is a volume option whose name has a mapping. |
| `Spawner.D4ScienceSpawner.ProfileList` | d4science_hub/spawner.py:256-319 | The loop returns exactly `Profiles.ProfileList` of the granted names, the kept options and the selected option name, including the KeyError of an incomplete `Memory` element. |
| `Profiles.ProfileListSpec` | d4science_hub/spawner.py:256-319 | The catalog takes part only when both the granted names and the kept options are non-empty. The result is sorted by display name and is a permutation of the catalog profiles plus the extra ones. Among equal display names the order is: default catalog profiles (last first), then the other catalog profiles, then the extra ones. It fails exactly when the catalog part fails. |
| `Profiles.CatalogProfilesSpec` | d4science_hub/spawner.py:268-314 | A profile comes from the catalog iff some option is authorised, belongs to the selected flavour and builds to it. Building fails iff some such option fails to build, which happens exactly when its `Cut` has a `Memory` lacking `#text` or `@unit` (`CutComplete` fails). A built profile takes its slug, description and default flag from the option; its display name is the option name, followed by the cut information when there is a `Cut`. |
| `Profiles.ProfileOverride` | d4science_hub/spawner.py:282-303 | The GPU block is merged only for `@gpu == "true"` and wins. Otherwise the image (rewritten to the override repository), the CPU limit and guarantee, and the memory limit appear exactly when the option declares them. The guarantee is 1 core up to a limit of 4 and 2 above; the memory limit is `#text` followed by `@unit`. |
| `Profiles.StagedShape` | d4science_hub/spawner.py:311-314 | The list before sorting holds the default profiles, last one first, then the others in option order. |
| `Profiles.StagedPermutation` | d4science_hub/spawner.py:311-314 | Staging neither drops nor duplicates a profile. |
| `Profiles.SelectedOptionName` | d4science_hub/spawner.py:262-266 | The unnamed server selects the default option name. A named server selects its name without the prefix when the prefix is there, and the whole name otherwise. |
| `Profiles.RewriteImage` | d4science_hub/spawner.py:284-286 | The rewritten image lies under the override repository and keeps the image name: its last path segment is the original image's last segment. |
| `Profiles.RewriteImageIdempotent` | d4science_hub/spawner.py:158-161 | Rewriting an already rewritten image changes nothing. |
| `Profiles.CpuGuaranteeMonotone` | d4science_hub/spawner.py:292-294 | A larger CPU limit never gets a smaller guarantee. From one core up the guarantee stays within the limit; below one core it exceeds the limit. |
| `Profiles.DefaultIsNotPinned` | d4science_hub/spawner.py:311-317 | A default profile does not stay first after sorting by display name. |
| `Sorting.SortBySortedPermutation` | d4science_hub/spawner.py:317 | `sorted` orders by key and keeps every element with its multiplicity. |
| `Sorting.SortedPairwise` | d4science_hub/spawner.py:317 | In the sorted list every earlier key is at most every later one, and a later key that is not larger is equal. |
| `Sorting.SortByStable` | d4science_hub/spawner.py:317 | Elements with equal keys keep their input order. |
| `Spawner.EndToEnd` | d4science_hub/spawner.py:256-314 | A user holding `foo-role` and granted `x` gets exactly the profile of option `x`. A user granted nothing gets no catalog profile. |
| `Spawner.D4ScienceSpawner.ConfigureWorkspace` | d4science_hub/spawner.py:321-346 | Without a token nothing changes. With one, either a sidecar carrying the token is appended or the workspace security context is set, never both. |
| `Spawner.D4ScienceSpawner.PreSpawnHook` | d4science_hub/spawner.py:354-365 | A non-empty context is annotated. `VRE` is set to the text after the context's last slash. A context without a slash raises after the annotation and before anything else changes. Otherwise the extra containers are reset and then the workspace is configured. |
| `Strings.RIndexSlashLastSegment` | d4science_hub/spawner.py:360 | Slicing after `rindex("/")` gives the longest suffix without a slash. |
| `Authenticator.D4ScienceAuthenticator.constructor` | d4science_hub/authenticator.py:52-84 | No login arguments are recorded yet and the key cache is empty. |
| `Authenticator.D4ScienceAuthenticator.GetIamPublicKeys` | d4science_hub/authenticator.py:86-115 | A non-empty cache is returned with no request. Otherwise the result, the cache and the requests sent are exactly `Authenticator.PublicKeys` of the network, the JWT oracle and the old cache. This includes the `{}` cache left when `keys` is missing, and the partial cache left by a key without `kid` or one that `from_jwk` rejects. |
| `Authenticator.KeyMapSpec` | d4science_hub/authenticator.py:110-114 | The key map holds exactly the fetched `kid`s, each bound to the converted form of the last key carrying it. |
| `Authenticator.PublicKeysFetched` | d4science_hub/authenticator.py:101-115 | A fetched key list succeeds iff every key has a `kid` and `from_jwk` accepts every key. On success the cache is the result and holds exactly those `kid`s. Otherwise the first bad key decides the error: KeyError when it lacks a `kid`, InvalidKeyError when `from_jwk` rejects it. The keys before it stay cached. |
| `Authenticator.FirstBadKey` | d4science_hub/authenticator.py:112-114 | The count of leading keys that have a `kid` and that `from_jwk` accepts, up to the first that does not. |
| `Authenticator.UmaBodySpec` | d4science_hub/authenticator.py:118-123 | The form holds the grant type, the claim-token format, the audience and the extra parameters. The extra parameters win. |
| `Authenticator.D4ScienceAuthenticator.GetUmaToken` | d4science_hub/authenticator.py:117-151 | The result, the cache and the requests are exactly `Authenticator.UmaToken`: a 403 on a failed fetch, then KeyErrors for `access_token` and the header `kid`, the public-key lookup with its errors (including a key `from_jwk` rejects), a KeyError for an unknown `kid`, and verification. |
| `Authenticator.UmaTokenVerified` | d4science_hub/authenticator.py:141-151 | A ticket is accepted only if the exchange answered with it, its header `kid` is among the public keys, and it verifies under that key; the claims are the verified ones. An unknown `kid` gives KeyError, and a ticket that does not verify is refused. |
| `Authenticator.D4ScienceAuthenticator.GetWps` | d4science_hub/authenticator.py:153-183 | The endpoint is exactly `Authenticator.Wps` and the requests exactly `Authenticator.WpsRequests`: one DataMiner request, sent only when discovery is enabled. |
| `Authenticator.WpsFromSpec` | d4science_hub/authenticator.py:173-182 | Among the access points before the first one that raises, the last Cluster endpoint wins. Without one, the endpoint found earlier is kept. |
| `Authenticator.LastCluster` | d4science_hub/authenticator.py:174-178 | There is no endpoint iff no access point is a Cluster one. Otherwise the endpoint is the text of the last Cluster access point. |
| `Authenticator.DiscoverEnabledExamples` | d4science_hub/authenticator.py:156 | Discovery is on for `true`, `TRUE`, `True` and `1`. It is off for `false`, `yes` and the empty string. |
| `Authenticator.DiscoverIgnoresCase` | d4science_hub/authenticator.py:156 | Whether discovery is on does not depend on the letter case of the flag. |
| `Authenticator.D4ScienceAuthenticator.FetchResources` | d4science_hub/authenticator.py:185-203 | A failed fetch is a 403. Otherwise the result is the fetched catalog. |
| `Authenticator.D4ScienceAuthenticator.Authenticate` | d4science_hub/authenticator.py:211-254 | The result, the cache and the requests are exactly `D4ScienceAuthenticator.AuthenticateSpec` of the recorded login arguments and the old cache. When the encoded context is absent or empty it is a 403 with no request sent and the cache untouched. |
| `Authenticator.D4ScienceAuthenticator.ContextRequired` | d4science_hub/authenticator.py:205-218 | The login ends in a 403 before any request exactly when the encoded context is absent or empty. This includes an argument whose form encoding is empty. |
| `Authenticator.D4ScienceAuthenticator.AuthenticateOk` | d4science_hub/authenticator.py:211-254 | A successful login had a context and an access token. It stores: <br>• the context, namespace and label arguments, each `quote_plus`-encoded, or `None` when absent or empty <br>• the client ticket's `authorization.permissions` <br>• the context ticket's roles for that context, none when `resource_access`, the context's entry or its `roles` is missing <br>• the context ticket as `context_token` <br>• the catalog fetched with that ticket <br>Its first request is the client ticket exchange carrying the context's claim token. |
| `Authenticator.D4ScienceAuthenticator.TicketRejected` | d4science_hub/authenticator.py:225-230 | A refused client ticket, and after it a refused context ticket, ends the login with that ticket's error. |
| `Authenticator.D4ScienceAuthenticator.HttpFailureForbids` | d4science_hub/authenticator.py:225-239 | A failed client ticket exchange ends the login with a 403. A successful login has fetched the catalog with the context token. |
| `Authenticator.StartEnvironment` | d4science_hub/authenticator.py:268-275 | The tokens, the decoded context and the DataMiner URL are written as the code writes them, including the writes made before a missing key raises. No other variable changes. |
| `Authenticator.D4ScienceAuthenticator.PreSpawnStart` | d4science_hub/authenticator.py:256-275 | An absent or empty `auth_state` changes nothing. Otherwise a non-empty namespace and label are copied and the environment becomes the one above. A missing `context_token` or `context` raises KeyError. |
| `Authenticator.D4ScienceAuthenticator.LoginToSpawn` | d4science_hub/authenticator.py:205-275 | After a successful login, both token variables of the spawn carry the context ticket. Both context variables carry the context argument, encoded at login and decoded at spawn. The namespace is set exactly when its encoded argument is non-empty. |

## Left out

- **I/O and concurrency.** HTTP, `async`/`await`, JSON parsing, `xmltodict`,
  `urlencode`, `url_path_join` and logging are left out. Fetch results are
  oracle values, and `requests` records which fetches happen, in order.
- **Oracle codecs.** JWT header parsing, signature verification and
  `RSAAlgorithm.from_jwk` are oracles. Verification and `from_jwk` may
  refuse, which stands for a signature, issuer or audience that does not
  check and for the InvalidKeyError of a key that is not RSA. What a
  converted public key is stays uninterpreted. `quote_plus`, `unquote` and
  the base64 claim token are oracles too.
- **Cores.** A `Cores` value is its text plus the real number `float` reads
  from it. Parsing and floating-point rounding are not modelled; only the
  ≤ 4 threshold is.
- **Case mapping.** `str.lower()` is modelled for ASCII letters only.
- **Dictionary keys holding None.** A key whose value is Python `None` is
  treated like a missing key. For a catalog or permission list holding
  `None`, the code would instead raise TypeError when it iterates the value.
- `Authenticator.StartEnvironment`, `Authenticator.D4ScienceAuthenticator.PreSpawnStart`:
  an `auth_state` whose `context_token` or `D4SCIENCE_WPS_URL` holds `None`
  is not modelled as the code runs it. The code writes `None` into
  `GCUBE_TOKEN`/`D4SCIENCE_TOKEN` or `DATAMINER_URL` and goes on. The model
  treats the key as absent: it raises KeyError for `context_token` and leaves
  `DATAMINER_URL` unchanged. The login itself never stores `None` under these
  keys. Whether `auth_state` is truthy (`Session.Present`) does take every key
  into account: `otherKeys` stands for the keys the model does not name.
- **Wrong node kinds.** A catalog or DataMiner node of the wrong kind is not
  modelled. For example, a single `AccessPoint`, which `xmltodict` gives as a
  dictionary, makes the loop iterate its keys, and the code raises TypeError.
- **The original volume lists.** `self._orig_volumes` is modelled as a value
  copied at construction. The aliasing between it and `self.volumes`, which
  `.copy()` breaks on the first hook, is not modelled.
- **In-place update of options.** A kept server option is modelled as a value
  paired with its `server_option_name` tag. The in-place
  `option.update(...)` on the catalog's own dictionary is not modelled.
- **Outside the core.** The context login handler, which records the
  `context`, `namespace` and `label` arguments, is left out. So are
  `load_user_options` and `custom_user_options`, `_ensure_namespace` and
  `context_namespaces`, and the parent classes.
- **Configuration defaults.** The large literal defaults of `extra_profiles`,
  `gpu_override` and `workspace_security_context` are left out. Each is a
  parameter of `Config`; the four name defaults are constants.
- **Constructor fields.** The constructor receives `name`, `default_url` and
  the environment-related fields from the host. The host's own defaults for
  those fields are not modelled.
- **Default profile order.** `spawner.py:311-312` inserts a default profile
  at index 0, and `spawner.py:317` then sorts the whole list by display name,
  so the default is not pinned first. `Profiles.DefaultIsNotPinned` shows a
  case where it ends up second.
- `Authenticator.D4ScienceAuthenticator.HttpFailureForbids`: states the 403
  only for the client ticket exchange. The 403s of discovery, the key set,
  the context ticket and the catalog fetch follow from `PublicKeys`,
  `UmaToken` and `AuthenticateSpec` directly, and are not restated
  separately.
