# DockYard core, modelled in Dafny

DockYard is a small Flask application. It turns Portainer-style app templates,
fetched from one or more URLs, into Docker containers. This project models the
sequential logic that sits between the HTTP requests and the Docker daemon, and
proves properties of that logic.

- **Template-to-container translator** (`docker_manager.dfy`, module `DockerManager`).
  - `parse_ports`, `parse_volumes` and `parse_env` are methods with the same loops
    as the source. Each is proved equal to a specification function.
  - The properties are proved about those functions: which entries are kept, under
    which key, that later entries overwrite earlier ones, that malformed entries are
    skipped, the error raised by an unhashable volume key, and that the environment
    list keeps input order and is no longer than the input.
  - The container name and the restart policy are functions.
  - `install_container_from_template` is a method over an abstract runtime,
    `DockerManager.Runtime`. The runtime is a set of existing container names, a
    log of the `pull`/`run` calls made, the fault (if any) each of those two
    calls reports, and whether a run that fails after creating its container
    leaves that container behind. The method is proved against `InstallOutcome`,
    and the order of early exits is proved from that.
- **Template cache and merge** (`template_manager.dfy`, module `TemplateManager`).
  - The module globals `_cached_templates` / `_is_updating` become the class
    `TemplateCache`.
  - `update_cached_templates` keeps the single-flight guard, source resolution, the
    first-occurrence-wins merge by `title.lower().strip()`, and the wholesale
    publish. It is proved against the pure function `Refresh`. Its class invariant
    says no two cached templates share a normalized title.
  - `get_all_templates` and `get_template_by_id` are proved against the predicate
    `LazyRead`, which states when a read triggers a refresh.
  - Fetching is a parameter: a map from URL to decoded JSON value. An absent URL
    stands for a failed request or a failed decode.
- **Request decisions** (`routes.dfy`, module `Routes`).
  - The filter-and-projection loop of `index`.
  - The empty check of `list_templates_json`.
  - The validation chain of `install_app_route` (400, 404, 400, then the
    installer's result).
  - Responses are a status code with a JSON body. An exception escaping
    `install_app_route` or `list_templates_json` becomes `Unhandled(message)`, with
    CPython's message text. An example is indexing a JSON list body with
    `'template_id'`. `index` returns a `Try`, and an exception there is its `Raise`.

Python's own behaviour is modelled in support modules:

- `py_json.dfy`: JSON values with dicts as ordered association lists; `dict.get`;
  truthiness; `==` against an int literal (`True == 1`); iteration; hashability;
  `str`/`repr`.
- `py_text.dfy`: `str.lower`, `str.replace`, `str.strip`, `str.split`, and `int()`
  on strings.
- `folds.dfy`: the generic loops shared by the modules. These are building a dict
  where the last write wins, stopping at the first unhashable key, keeping the
  present values of a sequence of options, and first-occurrence de-duplication.
- `wrappers.dfy`: `Option` and `Try`. `Try.Raise` carries the text of a Python
  exception.

Where an exception is raised but not caught, the model carries it as `Raise`
with CPython's message text. Examples:

- a non-iterable field in `parse_ports`;
- a list or dict used as a volume key;
- a non-dict template reaching `template.get`.

Behaviour of the code worth knowing, which the model follows:

- User-defined template sources are used verbatim: not trimmed, and empty strings
  are not dropped. Only the environment string is split and trimmed.
- The container name ignores any `name` field of the template. Path separators in
  it are not replaced: only spaces are.
- `parse_ports` checks only that the host part is an integer. The container part is
  kept as written, provided it has exactly one `/`.
- An empty catalog is not remembered as "already fetched". Every read of an empty
  cache with no update in progress triggers a new refresh.
- A non-dict element in a fetched template list raises `AttributeError` inside
  `update_cached_templates`. `_is_updating` then stays true and the old cache stays
  in place. From then on, every later update is skipped, and every read returns
  that old cache.

## Model

| member | source | states |
|---|---|---|
| DockerManager.PortEntryShape | dockyard_app/app/docker_manager.py:36-44 | a kept port entry is a string; its key holds no ':' and exactly one '/'; it is either the whole entry (no host port) or the part after `host:`, with value `int(host)` |
| DockerManager.HostPortEntry | dockyard_app/app/docker_manager.py:36-40 | `"h:c"` is kept, keyed `c` with value `int(h)`, exactly when `c` has one '/' and `int(h)` succeeds |
| DockerManager.ContainerPortEntry | dockyard_app/app/docker_manager.py:41-44 | `"c"` without ':' is kept as `c` mapped to None exactly when it has one '/' |
| DockerManager.SeparatorHostSkipped | dockyard_app/app/docker_manager.py:36-48 | a host part starting with one of U+001C to U+001F makes `int()` fail, so the entry is skipped |
| DockerManager.ManyColonsSkipped | dockyard_app/app/docker_manager.py:45-46 | an entry with more than one ':' is skipped |
| DockerManager.ParsePorts | dockyard_app/app/docker_manager.py:21-51 | the loop returns `Ports(field)`: `{}` for a falsy field, TypeError for a non-iterable one, and otherwise the dict built entry by entry |
| DockerManager.PortBindingsDomain | dockyard_app/app/docker_manager.py:33-44 | a key is bound exactly when some entry parses to it |
| DockerManager.PortBindingsLastWins | dockyard_app/app/docker_manager.py:40-44 | a key holds the value of the last entry that parses to it |
| DockerManager.PortBindingsSkip | dockyard_app/app/docker_manager.py:45-50 | a malformed entry anywhere in the list leaves the result as if it were absent; later entries are still processed |
| DockerManager.PortsHostExample | dockyard_app/app/docker_manager.py:25-26 | `["80:8080/tcp"]` gives `{'8080/tcp': 80}` |
| DockerManager.HostEightyEntry | dockyard_app/app/docker_manager.py:36-40 | the entry `"80:8080/tcp"` parses to key `8080/tcp` with host port 80 |
| DockerManager.PortsContainerExample | dockyard_app/app/docker_manager.py:27-28 | `["53/udp"]` gives `{'53/udp': None}` |
| DockerManager.PortsOfOne | dockyard_app/app/docker_manager.py:30-51 | a one-entry list gives the singleton dict of that entry, or `{}` if it is skipped |
| DockerManager.ParseVolumes | dockyard_app/app/docker_manager.py:54-82 | the loop returns `Volumes(field)`: `{}` for falsy, TypeError for non-iterable, otherwise the bindings or the TypeError of the first unhashable key |
| DockerManager.VolumeBindingsDomain | dockyard_app/app/docker_manager.py:67-79 | parsing succeeds exactly when every recognised entry's key is hashable, and then binds exactly the keys of the recognised entries |
| DockerManager.VolumeBindingsFirstUnhashable | dockyard_app/app/docker_manager.py:73-79 | the first recognised entry with a list or dict key raises `unhashable type` for that key |
| DockerManager.VolumeBindingsSkip | dockyard_app/app/docker_manager.py:80-81 | a non-dict or a dict without `container` leaves the result as if it were absent |
| DockerManager.VolumeEntryShape | dockyard_app/app/docker_manager.py:67-81 | a dict with `container` and `bind` asks for `bind` bound to `container`, `'ro'` exactly when `readonly` is present and truthy, else `'rw'`; with `container` only, an anonymous volume at `container`; anything else is skipped |
| DockerManager.VolumeBindingsLastWins | dockyard_app/app/docker_manager.py:73-79 | when parsing succeeds, a key holds the binding of the last recognised entry with that key |
| DockerManager.VolumeReadWriteExample | dockyard_app/app/docker_manager.py:70-73 | a dict with `container` and `bind` and no `readonly` gives `{bind: {'bind': container, 'mode': 'rw'}}` |
| DockerManager.VolumeBindExample | dockyard_app/app/docker_manager.py:68-73 | a dict with `container`, `bind` and truthy `readonly` gives `{bind: {'bind': container, 'mode': 'ro'}}` |
| DockerManager.VolumeAnonymousExample | dockyard_app/app/docker_manager.py:74-79 | a dict with `container` only gives `{container: {}}` |
| DockerManager.ParseEnv | dockyard_app/app/docker_manager.py:84-102 | the loop returns `Env(field)`: `[]` for falsy, TypeError for non-iterable, otherwise one `NAME=VALUE` per dict with `name`, in order |
| DockerManager.EnvListAppend | dockyard_app/app/docker_manager.py:94-101 | the env list of a concatenation is the concatenation of the env lists, so input order is kept |
| DockerManager.EnvListLength | dockyard_app/app/docker_manager.py:94-101 | output length is at most input length, with equality exactly when every item is a dict with `name` |
| DockerManager.EnvValuePrecedence | dockyard_app/app/docker_manager.py:98-99 | a present `value` wins, otherwise `default`, otherwise `''` |
| DockerManager.EnvDefaultExample | dockyard_app/app/docker_manager.py:94-99 | `[{name: FOO, default: bar}]` gives `["FOO=bar"]` |
| DockerManager.EnvValueExample | dockyard_app/app/docker_manager.py:94-99 | with both `default` and `value`, `value` is used |
| DockerManager.ContainerName | dockyard_app/app/docker_manager.py:120 | `title` if present, else the image up to its first ':', lower-cased with spaces replaced by '_'; a non-string image raises on `split` even when `title` is present; a non-string title raises on `lower` |
| DockerManager.NameFromImage | dockyard_app/app/docker_manager.py:120 | without `title`, `repo:tag` gives the sanitized `repo` |
| DockerManager.NameFromUntaggedImage | dockyard_app/app/docker_manager.py:120 | without `title`, an image without ':' gives itself, sanitized |
| DockerManager.RestartPolicy | dockyard_app/app/docker_manager.py:143-144 | the policy name is `restart_policy` when truthy, else `"unless-stopped"` |
| DockerManager.Translate | dockyard_app/app/docker_manager.py:134-157 | the run specification carries the image and the derived name, and exists exactly when ports, volumes and env all parse |
| DockerManager.Runtime.Exists | dockyard_app/app/docker_manager.py:123-128 | reports whether a container with the name exists |
| DockerManager.Runtime.PullImage | dockyard_app/app/docker_manager.py:131 | logs the pull and reports the configured pull fault |
| DockerManager.Runtime.RunContainer | dockyard_app/app/docker_manager.py:149-157 | logs the run, reports the configured run fault, and adds the container on success, and also on failure when a failed run leaves its created container behind |
| DockerManager.Install | dockyard_app/app/docker_manager.py:106-169 | no client gives `(False, "Docker client not available.")`; otherwise the result and the calls made are those of `InstallOutcome`, and a container under the derived name is added exactly when the install reached the run and the run succeeded or left its container |
| DockerManager.InstallNoImage | dockyard_app/app/docker_manager.py:116-118 | a missing or falsy image gives `(False, "Missing image name in template.")` with no pull and no run |
| DockerManager.InstallLeavesName | dockyard_app/app/docker_manager.py:123-159 | a container is left only after a free name and a clean pull, on a failed run only when the runtime leaves it; a second install of the same template then stops at the name conflict |
| DockerManager.InstallCallOrder | dockyard_app/app/docker_manager.py:111-159 | at most two calls; any call means the image was truthy, the name was free and the first call is the pull of the image; a second call is the run with that image and name after a clean pull; success means both calls were made |
| DockerManager.InstallConflict | dockyard_app/app/docker_manager.py:123-126 | an existing name gives `(False, "A container named '<name>' already exists.")` with no pull and no run |
| DockerManager.InstallSuccess | dockyard_app/app/docker_manager.py:115-159 | success exactly when the image is truthy, the name derives and is free, pull and run do not fail and the fields parse; the message is then `Container '<name>' started successfully.` |
| TemplateManager.TemplatesInShapes | dockyard_app/app/template_manager.py:17-23 | for every value: a list is returned as is; a dict whose `templates` entry is a list gives that list; a dict whose `templates` is not a list, a dict without `templates`, and any other value give `[]` |
| TemplateManager.StrippedPieces | dockyard_app/app/template_manager.py:66 | every kept piece is non-empty and stripped |
| TemplateManager.StrippedPiecesMembership | dockyard_app/app/template_manager.py:66 | a value is kept exactly when it is non-empty and is the stripped form of some piece |
| TemplateManager.StrippedPiecesAppend | dockyard_app/app/template_manager.py:66 | pieces are kept in input order |
| TemplateManager.ConfigSourcesOfJoin | dockyard_app/app/template_manager.py:66 | a configuration string made of comma-separated pieces gives exactly the stripped non-empty pieces, in order |
| TemplateManager.ConfigSourcesExample | dockyard_app/app/template_manager.py:66 | `" a , ,b"` gives `["a", "b"]` |
| TemplateManager.ConfigSources | dockyard_app/app/template_manager.py:64-66 | every source from the config string is non-empty, stripped and free of ',' |
| TemplateManager.ConfigSourcesJoin | dockyard_app/app/template_manager.py:66 | splitting a comma-joined list of clean URLs gives it back |
| TemplateManager.ResolveSources | dockyard_app/app/template_manager.py:58-66 | non-empty user sources are used verbatim; otherwise the clean config sources |
| TemplateManager.DedupCatalog | dockyard_app/app/template_manager.py:86-100 | the merge yields valid titles with no duplicate normalized title, and every normalized title of the input is represented |
| TemplateManager.FetchAllAppend | dockyard_app/app/template_manager.py:82-84 | fetching a longer source list fetches the extra sources after the others, so fetched lists follow source order |
| TemplateManager.ConcatAppend | dockyard_app/app/template_manager.py:82-87 | the concatenation of per-source lists distributes over appending sources |
| TemplateManager.FirstNonDict | dockyard_app/app/template_manager.py:87-88 | there is no offending element exactly when every fetched template is a dict |
| TemplateManager.FirstNonDictAt | dockyard_app/app/template_manager.py:87-88 | the first non-dict after only dicts is the offending element |
| TemplateManager.MergeTemplate | dockyard_app/app/template_manager.py:88-100 | one step of the merge extends `new_templates_data` and `processed_titles` to those of the longer input |
| TemplateManager.MergeSource | dockyard_app/app/template_manager.py:86-100 | merging one source either meets the first non-dict template or extends the merge over the whole source |
| TemplateManager.RefreshPublishesCatalog | dockyard_app/app/template_manager.py:79-105 | a completed refresh publishes a catalog holding exactly the first template of each normalized title, in source order and then within-source order |
| TemplateManager.TemplateCache.constructor | dockyard_app/app/template_manager.py:7-8 | starts empty and not updating |
| TemplateManager.TemplateCache.UpdateCachedTemplates | dockyard_app/app/template_manager.py:35-106 | skips and changes nothing while updating; otherwise publishes `Refresh` and clears the flag, `[]` when no sources; a non-dict template raises, keeps the old cache and leaves the flag set; the catalog invariant is kept |
| TemplateManager.TemplateCache.GetAllTemplates | dockyard_app/app/template_manager.py:108-118 | refreshes only when the cache is empty and no update is running, otherwise returns the cache unchanged |
| TemplateManager.IdIndex | dockyard_app/app/template_manager.py:127-133 | finds the first template whose display id equals the id, or reports that none matches |
| TemplateManager.FindById | dockyard_app/app/template_manager.py:127-133 | the loop returns the first match or None |
| TemplateManager.TemplateCache.GetTemplateById | dockyard_app/app/template_manager.py:120-133 | reads the cache lazily, then returns the first cached template whose id matches |
| TemplateManager.IdShadowing | dockyard_app/app/template_manager.py:124-130 | titles `A b` and `a_b` are both kept (the normalized titles differ) yet share the id `a_b`; lookup returns the first |
| Routes.ProjectTemplates | dockyard_app/app/routes.py:11-23 | the loop returns `Cards(ts)` |
| Routes.CardsFromListed | dockyard_app/app/routes.py:13-23 | a card is shown exactly when it projects a template with a truthy title and type 1 or 2; at most one card per template, with equality exactly when all are listed |
| Routes.CardsAppend | dockyard_app/app/routes.py:13-23 | cards keep cache order |
| Routes.CardIdResolves | dockyard_app/app/routes.py:18 | looking up a displayed id finds a template with that id, and finds the shown one when no earlier template shares the id |
| Routes.Index | dockyard_app/app/routes.py:7-25 | reads the cache lazily and shows the cards of the cache read |
| Routes.Listing | dockyard_app/app/routes.py:31-35 | 404 with the error body exactly when the cache is empty, otherwise 200 with the cache itself |
| Routes.ListTemplatesJson | dockyard_app/app/routes.py:28-35 | reads the cache lazily and answers `Listing` of it |
| Routes.RequestedId | dockyard_app/app/routes.py:40-44 | proceeds exactly when the body is a dict with `template_id`; a missing or falsy body (`0`, `false`, `""`, `[]`, `{}`) or a missing key gives 400; a list or string body that contains the key, or a non-zero number or `true` body, raises |
| Routes.CheckTemplate | dockyard_app/app/routes.py:48-56 | not found gives 404 `Template '<id>' not found.`; found with `type != 2` gives 400 naming the type; otherwise the template proceeds |
| Routes.InstallAppRoute | dockyard_app/app/routes.py:37-66 | a rejected body touches neither cache nor runtime; otherwise the lazy cache read, then the 404/400 replies with the runtime untouched, then the installer's `(success, message)` passed through, with the runtime's calls and containers as `Install` leaves them |
| PyJson.Lookup | dockyard_app/app/docker_manager.py:116 | a key is absent exactly when no field has it |
| PyJson.LookupFirst | dockyard_app/app/docker_manager.py:116 | a key that is found yields the value of the first field bound to it |
| PyJson.Iterate | dockyard_app/app/docker_manager.py:33 | iteration raises exactly on None, bool and number; a list yields its items |
| PyText.LowerIdempotent | dockyard_app/app/docker_manager.py:120 | a lower-cased string has no ASCII capitals, and lower-casing it again changes nothing |
| PyText.LowerAppend | dockyard_app/app/docker_manager.py:120 | lower-casing distributes over concatenation |
| PyText.ReplaceCharRemoves | dockyard_app/app/docker_manager.py:120 | after replacing `a` by a different `b` no `a` is left, other characters are unchanged, and a string without `a` is unchanged |
| PyText.ReplaceCharAppend | dockyard_app/app/docker_manager.py:120 | replacing distributes over concatenation |
| PyText.LowerReplaceCommute | dockyard_app/app/template_manager.py:130 | replacing then lower-casing equals lower-casing then replacing |
| PyText.Strip | dockyard_app/app/template_manager.py:93 | the result has no whitespace at either end |
| PyText.StripBounds | dockyard_app/app/template_manager.py:66 | the result is a slice of the input with only whitespace cut away |
| PyText.StripIdempotent | dockyard_app/app/template_manager.py:93 | stripping twice is stripping once |
| PyText.SplitCount | dockyard_app/app/docker_manager.py:36 | a split has one more piece than there are separators |
| PyText.SplitJoin | dockyard_app/app/docker_manager.py:36 | joining the pieces back gives the input |
| PyText.JoinSplit | dockyard_app/app/template_manager.py:66 | splitting a join of separator-free pieces gives them back |
| PyText.SplitPiecesClean | dockyard_app/app/docker_manager.py:39 | no piece contains the separator |
| PyText.PyIntRoundTrip | dockyard_app/app/docker_manager.py:40 | `int(str(n)) == n` |
| PyText.PyIntRefusesSeparator | dockyard_app/app/docker_manager.py:40 | `int()` raises ValueError on a string starting with one of U+001C to U+001F, although these are `isspace` |
| Folds.CollectLastWins | dockyard_app/app/docker_manager.py:40 | in a dict built by successive stores, a key holds the last value stored under it |
| Folds.CollectCheckedFirstRefused | dockyard_app/app/docker_manager.py:73-79 | the first refused key decides the error |
| Folds.DedupByDistinct | dockyard_app/app/template_manager.py:95-97 | first-occurrence de-duplication leaves distinct keys and keeps every key |
| Folds.DedupByIsFirsts | dockyard_app/app/template_manager.py:95-97 | a kept element is exactly one whose key did not occur earlier |

## Left out

- Docker SDK: connecting, `ping`, `containers.get`, `images.pull` and `containers.run` are replaced by the abstract `Runtime`. A missing client is a null `Runtime`. An `APIError` from `containers.get` is not modelled.
- Network and JSON decoding in `fetch_templates_from_url`: a decoded value per URL is an input, and a missing URL stands for every failure path.
- Reading the user-defined sources and `TEMPLATE_SOURCES_URL`: both are inputs to the cache methods.
- Flask machinery, logging and rendering:
  - responses are a status and a JSON body;
  - `request.get_json` is an optional decoded value, and its own 400/415 errors for non-JSON bodies are not modelled;
  - the page template is not modelled.
- Concurrency: `_is_updating` is an unlocked flag. Each update is one atomic sequential step, and nothing is claimed about interleaving.
- Python dicts keep insertion order. The port and volume results are Dafny maps, so key order is not modelled. Contents are.
- Numbers are integers only. Floats (`2.0 == 2`, a float title) are not modelled.
- In Python, `True` and `1` are the same dict key, and so are `False` and `0`. The volume map keeps them apart.
- Duplicate keys in a decoded JSON object: the model reads the first binding, while CPython's `json.loads` keeps the last one.
- PyText.Lower: lower-cases ASCII letters only; Python's Unicode case mapping is not modelled.
- PyText.PyInt: accepts ASCII digits only (with sign, surrounding whitespace and `_` between digits). The whitespace it skips is `IsIntSpace`: every `isspace` character except the ASCII separators U+001C to U+001F, which `int()` refuses; non-ASCII digits that Python's `int()` also accepts are refused. CPython's limit on integer string conversion (`sys.get_int_max_str_digits`, 4300 digits by default) is not modelled: `parse_ports` skips a host part longer than that, while the model keeps it.
- PyJson.Repr: strings are quoted with single quotes and nothing is escaped, so messages embedding a repr agree with CPython only for strings without quotes, backslashes or control characters.
- TemplateManager.IdIndex: requires every template to have a valid title, which the cache invariant guarantees. A scan over arbitrary values, where a non-string title would raise, is not modelled.
- DockerManager.Install: an APIError message built from an HTTP response object is carried as the fault's text.
- The rest of the repository is not part of this model: configuration storage, the user store, the AI client, application start-up and the scheduler, environment-variable settings, and the browser scripts.
