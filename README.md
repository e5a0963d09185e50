# Docufy backend core, modelled in Dafny

Docufy's Python backend turns scanned documents into OCR text and structured fields. Around
the OCR engine it keeps a small amount of precise, sequential logic. This project models
that logic and proves what it promises:

- **Watch-folder intake** (`Watch`, `WatchApi`):
  - a registry of folder watchers keyed by `<folder>|<recipe>`;
  - the filter that admits a new file (extension allow-list, temporary and lock files
    refused, digests seen before refused) and appends one job to the queue;
  - the worker's choice of output root;
  - the collision-free name `stem (i)suffix` under which an original moves to `Processed`.
- **Recipes** (`Recipes`, `RecipesApi`):
  - the id rule `^[A-Za-z0-9._-]{1,64}$`;
  - create (409 on an existing id), read (404), update (an upsert) and delete (`not_found`)
    over the recipes directory;
  - creation from a built-in preset;
  - the sorted listing;
  - the path-or-id reading of a recipe reference, with its allow-list of base directories.
- **Settings** (`Settings`, `SettingsApi`):
  - defaults overlaid with the stored file;
  - the whitelisted, truthy-only patch;
  - the absolute-path validation that runs before any update.
- **SharePoint helpers** (`SharePoint`):
  - the bearer header;
  - the sign-in authority URL;
  - the shaping of a Graph `driveItem`;
  - base64url padding and the three-part JWT split;
  - the "SharePoint not licensed" error text;
  - the service-plan licence scan and the capability probe;
  - the download file name.
- **OCR webhook** (`WebhookApi`):
  - the API-key gate and the input precedence;
  - the job table with its `Queued → Running → Completed | Failed` lifecycle;
  - the callback body and the polling endpoint.

Three modules are shared by the others:

- `Text` holds ASCII case mapping, `in`/`find`, `strip`, `split`/`join`, decimal numerals
  and lexicographic order with a sort.
- `Json` holds JSON values with Python truthiness.
- `Paths` holds `pathlib` names, suffixes and stems, and `resolve()` as normalisation.

State that the source mutates in place is a class with `modifies` clauses:

| class | what it holds |
|---|---|
| `Watch.Registry` | watchers, seen digests and the job queue |
| `RecipesApi.RecipeStore` | the recipes directory as a map from file name to contents |
| `Settings.SettingsStore` | the configuration file |
| `WebhookApi.JobTable` | `JOBS` and the pending background tasks |

Everything else is functions and lemmas.

The model works with what the outside world supplies; nothing is read or fetched:

- digests, "is a file", the OCR outcome, the download's success and the Graph responses
  are parameters;
- so are the working directory, the platform's notion of an absolute path and the
  environment settings;
- `json.dumps` is a function parameter.

## Model

| member | source | states |
|---|---|---|
| Watch.PassesFiltersSimplified | backend/watch.py:16-72 | the admission filter is exactly: a regular file, a lower-cased suffix in the allow-list, and a name not starting with `~$`; the explicit `.tmp`/`.part` test can never fire |
| Watch.CandidateIsNew | backend/watch.py:162 | an alternative name `stem (n)suffix` is never the original name |
| Watch.CandidateInjective | backend/watch.py:162 | different counters give different alternative names |
| Watch.ProcessedNameUnique | backend/watch.py:157-164 | at most one name is free, equal to the original when that is free, and otherwise the first free `stem (i)suffix` |
| Watch.AttemptsDiffer | backend/watch.py:159-163 | the names the rename loop tries are pairwise different |
| Watch.ProcessedName | backend/watch.py:159-164 | the rename loop ends, on a name not in the folder: the original if free, else `stem (i)suffix` for the smallest free `i >= 1` |
| Watch.OutRoot | backend/watch.py:144-145 | the output root is the job's override when it is a non-empty string, and the default otherwise |
| Watch.ProcessJob | backend/watch.py:140-171 | a result is written to `<root>/<stem>.json` and, when originals are moved, the file goes to `Processed/<free name>` beside it; an exception writes its message to `<root>/Errors/<name>.err.txt` and moves nothing |
| Watch.Registry.constructor | backend/watch.py:19-22 | the registry starts with no watchers, no digests and an empty queue |
| Watch.Registry.MaybeEnqueue | backend/watch.py:64-79 | a file that passes the filter and has a new digest adds that digest and exactly one job (path, the watcher's recipe and override, the digest) to the end of the queue; any other file changes nothing |
| Watch.Registry.OnEvent | backend/watch.py:82-86 | a creation is judged on its path, a move on its destination (its source when it has none), by `MaybeEnqueue` |
| Watch.Registry.StartWatch | backend/watch.py:89-100 | the key now maps to a watcher of this folder, recipe and override; nothing else changes |
| Watch.Registry.StopWatch | backend/watch.py:103-107 | exactly the given key is removed; an absent key changes nothing |
| Watch.Registry.StopAllWatches | backend/watch.py:110-112 | afterwards no watcher is registered; digests and queue are untouched |
| Watch.Registry.ActiveWatches | backend/watch.py:115-120 | exactly the registered keys, each mapped to itself |
| Watch.Registry.WorkerStep | backend/watch.py:134-173 | an empty queue does nothing; otherwise the oldest job leaves the queue and has the effects `ProcessJob` specifies |
| WatchApi.RecipeRef | backend/watch_api.py:30-34 | a recipe reference exists iff a path or an id is given; the path wins over the id |
| WatchApi.WatchKey | backend/watch_api.py:35 | the key is the folder, a `\|`, then the recipe reference |
| WatchApi.WatchKeyInjective | backend/watch_api.py:35 | for folders without `\|` the key determines folder and recipe |
| WatchApi.Start | backend/watch_api.py:28-43 | no recipe: 400 and no change; an active key: `already_watching` and no change; a failing start: 400 and no change; otherwise `watching` and the key is registered |
| WatchApi.Stop | backend/watch_api.py:46-51 | an inactive key gives `not_active` and no change; an active one gives `stopped` and is no longer registered |
| WatchApi.Status | backend/watch_api.py:54-57 | the active keys, exactly |
| Paths.Suffix | backend/recipes.py:42-43 | `PurePath.suffix`: the name from its last dot on when that dot is neither first nor last, and "" otherwise; a non-empty suffix is a proper tail starting with its only dot |
| Paths.StemSuffix | backend/watch.py:162 | a name is its stem followed by its suffix |
| Paths.NormalizeIsNormal | backend/recipes.py:8-9 | a resolved path has no empty, `.` or `..` component |
| Paths.NormalizeIdempotent | backend/recipes.py:19 | resolving a resolved path changes nothing |
| Recipes.Resolve | backend/recipes.py:8-15 | `Path(s).resolve()` never leaves an empty, `.` or `..` component |
| Recipes.NonBlank | backend/recipes.py:13-15 | the kept segments are exactly the segments that are not blank |
| Recipes.AllowedBasesFromSetting | backend/recipes.py:13-15 | the recipes directory is the first allowed base, and every non-blank segment of the setting, resolved, is an allowed base |
| Recipes.AllowedBaseOrigin | backend/recipes.py:13-15 | every allowed base after the first is a non-blank segment of the setting, resolved |
| Recipes.OnlyRecipesDirByDefault | backend/recipes.py:13-15 | with the setting empty the recipes directory is the only allowed base |
| Recipes.FirstBaseContaining | backend/recipes.py:21-30 | the loop answers true iff some base is a prefix of the path |
| Recipes.IsAllowed | backend/recipes.py:18-30 | `_is_allowed` is true iff the resolved path lies under some allowed base |
| Recipes.ResolveRecipePath | backend/recipes.py:33-51 | a path-like reference (a separator, or a `.json` suffix) resolves from the working directory and is refused with the ValueError unless allowed; any other reference is `<recipes dir>/<ref>.json`, unchecked |
| Recipes.IdFileIsOneComponent | backend/recipes.py:51 | an id-mode file is one plain component directly in the recipes directory |
| Recipes.PathModeStaysUnderABase | backend/recipes.py:44-48 | an accepted path-mode reference resolves under some allowed base |
| Recipes.GetRecipe | backend/recipes.py:54-61 | a refused reference gives its error, a missing file `None`, an unparsable one the decode error, else the decoded content |
| RecipesApi.ValidIdMatchesPattern | backend/recipes_api.py:155 | the character-class rule equals the regular expression, including the one trailing newline Python's `$` admits |
| RecipesApi.ValidIdMatches | backend/recipes_api.py:155 | every id the character-class rule accepts matches the regular expression |
| RecipesApi.MatchIsValid | backend/recipes_api.py:155 | every match of the regular expression is accepted by the character-class rule |
| RecipesApi.PathFor | backend/recipes_api.py:158-162 | an invalid id is 400; a valid one is `<dir>/<id>.json`, already resolved |
| RecipesApi.FileNameInjective | backend/recipes_api.py:162 | different ids use different files |
| RecipesApi.FindPreset | backend/recipes_api.py:182 | the first preset with the id, or none when no preset has it |
| RecipesApi.EveryPresetFound | backend/recipes_api.py:28-130 | each built-in preset is found by its own id |
| RecipesApi.RecipeStore.constructor | backend/recipes_api.py:12 | the store works in the resolved recipes directory, holding the files already there |
| RecipesApi.RecipeStore.ReadRecipe | backend/recipes_api.py:224-229 | 400 for an invalid id, 404 for a missing file, 400 for unparsable content, else the content |
| RecipesApi.RecipeStore.CreateRecipe | backend/recipes_api.py:213-221 | 400 or 409 leave the directory as it was; otherwise exactly the new file is added and reads back as the content |
| RecipesApi.RecipeStore.CreateFromPreset | backend/recipes_api.py:180-191 | an unknown preset is 404 before the id is checked; a known one is created like `create_recipe` with the preset's content |
| RecipesApi.RecipeStore.UpdateRecipe | backend/recipes_api.py:232-238 | only an invalid id is refused; otherwise the file is written whether or not it existed and reads back as the content |
| RecipesApi.RecipeStore.DeleteRecipe | backend/recipes_api.py:241-247 | a missing file gives `not_found` and no change; an existing one alone is removed and then reads as 404 |
| RecipesApi.RecipeStore.JsonFiles | backend/recipes_api.py:200 | the names `glob("*.json")` finds: exactly the files ending in `.json` |
| RecipesApi.RecipeStore.ItemFor | backend/recipes_api.py:201-209 | an entry's id is the file's stem, its path the file's, and its name the content's `"name"` or `None` |
| RecipesApi.RecipeStore.ListRecipes | backend/recipes_api.py:196-210 | one entry per `.json` file and no other, each that file's entry, in ascending order of file name |
| RecipesApi.NamesOfItems | backend/recipes_api.py:200-209 | entries built in the order of the sorted names are named and ordered by them |
| RecipesApi.ListedIdIsCreatedId | backend/recipes_api.py:162-208 | a recipe created under an id is listed under that id |
| Text.SortStrings | backend/recipes_api.py:200 | `sorted`: an ascending sequence of exactly the given names |
| Settings.Defaults | backend/settings.py:7-11 | the defaults hold exactly the three known keys |
| Settings.Load | backend/settings.py:13-18 | with no file exactly the defaults; a file that does not parse, or holds something other than an object, raises; an object gives every stored entry as stored and every other default key with its default |
| Settings.ApplyKeys | backend/settings.py:32-34 | a listed key with a true patch value takes that value; every other key keeps its presence and value |
| Settings.PatchIdempotent | backend/settings.py:29-36 | applying a patch twice equals applying it once |
| Settings.PatchedKeepsKeys | backend/settings.py:31-34 | a patch never removes a key |
| Settings.SavedConfigReloads | backend/settings.py:13-23 | loading the file saved from a configuration that has every default key gives that configuration back |
| Settings.SettingsStore.constructor | backend/settings.py:5-11 | the store starts from the given file and default output directory |
| Settings.SettingsStore.Get | backend/settings.py:25-27 | exactly what `_load` gives for the current file, error included; a configuration always has every default key |
| Settings.SettingsStore.Update | backend/settings.py:29-36 | when loading raises, the error and nothing saved; otherwise returns the patched loaded configuration, saves it, and a later `get` returns the same |
| Settings.SettingsStore.GetOutDir | backend/settings.py:38-39 | the stored `out_dir` when the file has one, else the default; the load error when loading raises |
| SettingsApi.PatchOf | backend/settings_api.py:29 | the patch holds exactly the fields that were given, with their values |
| SettingsApi.AsObject | backend/settings_api.py:37 | the patch as a dictionary with the same keys and string values |
| SettingsApi.FirstNotAbsolute | backend/settings_api.py:31-36 | the first checked key present with a non-absolute value, if any; none means every present checked value is absolute |
| SettingsApi.RecipeIdNotValidated | backend/settings_api.py:31 | the recipe id never affects the validation |
| SettingsApi.GetSettings | backend/settings_api.py:16-18 | exactly the configuration `settings.get` loads, or a 500 when loading raises |
| SettingsApi.PutSettings | backend/settings_api.py:27-38 | a non-absolute folder or output directory is 400 (folder first) and nothing is saved; a configuration that cannot be loaded is a 500 and nothing is saved; otherwise the reply is exactly the configuration the update saved |
| SharePoint.BearerFirstSpace | backend/sharepoint.py:109 | behind a `bearer ` prefix the first space is the seventh character |
| SharePoint.BearerFromHeader | backend/sharepoint.py:104-109 | 401 iff the header is missing or does not start with `bearer ` in any case; otherwise the text after the first space, stripped |
| SharePoint.BearerRoundTrip | backend/sharepoint.py:104-109 | `Bearer <token>` gives the token back |
| SharePoint.SchemeEnd | backend/sharepoint.py:53 | the scheme ends at the first colon exactly when the text before it is a letter followed by scheme characters; otherwise there is no scheme |
| SharePoint.NetlocOf | backend/sharepoint.py:53 | without a leading `//` there is no network location; with one it is the longest run after `//` without `/`, `?` or `#` |
| SharePoint.PathOf | backend/sharepoint.py:53 | the path is the text after the network location up to its first `?` or `#` or a parameter `;`, and all of it when there is none |
| SharePoint.ParseUrl | backend/sharepoint.py:53 | the parsed host holds no `/`, `?` or `#`, and the path no `?` or `#` |
| SharePoint.ParseUrlParts | backend/sharepoint.py:53 | `scheme://host/path` parses into the lower-cased scheme, that host and that path |
| SharePoint.RStrip | backend/sharepoint.py:57 | `rstrip`: a prefix that ends in a kept character, after which only stripped characters follow |
| SharePoint.EnvSetting | backend/sharepoint.py:37-40 | a missing variable is ""; a set one is its value with surrounding whitespace stripped |
| SharePoint.BuildAuthority | backend/sharepoint.py:43-65 | an `https` URL with host and path is used without trailing `/`; a host-only one gets `/tenant`; otherwise a tenant gives `https://login.microsoftonline.com/tenant`; an error exactly when there is neither; every authority starts with `https:` in any letter case and, when built from the tenant, ends with it |
| SharePoint.TenantUnder | backend/sharepoint.py:59-61 | `https://host/tenant` starts with `https:` and ends with `/tenant` |
| SharePoint.HttpsHostStart | backend/sharepoint.py:53-54 | a URL with scheme `https` and a host starts with `https://` and a host character |
| SharePoint.HttpsAuthorityKept | backend/sharepoint.py:57 | such a URL with trailing `/` removed still starts with `https:` |
| SharePoint.DictOr | backend/sharepoint.py:144-145 | `(v or {})`: a false value gives `{}`, and a true value that is not a dictionary has no `.get` |
| SharePoint.ShapeItem | backend/sharepoint.py:132-146 | never both file and folder; file iff `file` is true; a non-empty explicit drive id wins over `parentReference.driveId`; a true facet that is not a dictionary raises |
| SharePoint.ItemJson | backend/sharepoint.py:136-146 | the shaped dictionary has exactly the nine UI keys, each holding its field of the shaped item |
| SharePoint.ShapedItemDict | backend/sharepoint.py:132-146 | the returned dictionary holds the item's own `id`, `name`, `size`, `lastModifiedDateTime` and `webUrl`, the two flags from the facets, the `file` facet's `mimeType`, and the explicit drive id or else the parent reference's |
| SharePoint.ShapeItemTotal | backend/sharepoint.py:132-146 | an item whose facets are dictionaries or absent is always shaped |
| SharePoint.B64UrlPad | backend/sharepoint.py:151-153 | 0 to 3 `=` appended, the fewest that make the length a multiple of four |
| SharePoint.PadIdempotent | backend/sharepoint.py:152 | a padded string needs no more padding |
| SharePoint.DecodeJwt | backend/sharepoint.py:156-161 | an error unless the token has exactly two dots and both decoded parts parse; then the header and payload |
| SharePoint.MalformedPayloadEmpty | backend/sharepoint.py:160-161 | a malformed token's payload is `{}` |
| SharePoint.JwtParts | backend/sharepoint.py:158 | three dot-free parts joined by dots split back into those parts |
| SharePoint.SignatureIgnored | backend/sharepoint.py:158 | the result never depends on the signature part |
| SharePoint.UnlicensedSimplified | backend/sharepoint.py:168-177 | false for a missing or empty text; otherwise true iff the lower-cased text contains `license` and also `spo` or `sharepoint` |
| SharePoint.ScanLicenses | backend/sharepoint.py:203-213 | licensed iff some plan of some licence names SHAREPOINT or ONEDRIVE and its status is SUCCESS |
| SharePoint.ProbeCapabilities | backend/sharepoint.py:179-224 | SharePoint is licensed iff the root site answered, or (its error text does not say unlicensed and: the licence list grants it, or cannot be read and its text does not say unlicensed); OneDrive iff `/me/drive` answered |
| SharePoint.DownloadFilename | backend/sharepoint.py:522-529 | without `filename=` in the header: `document.pdf` iff the content type contains `application/pdf`, and `file` otherwise |
| SharePoint.HeaderFilenameTrimmed | backend/sharepoint.py:527 | a name taken from the header never starts or ends with `"`, `;` or a space |
| SharePoint.FilenameAfterPrefix | backend/sharepoint.py:534 | in the header the server writes, the text after the first `filename=` is the quoted name |
| SharePoint.StripQuoted | backend/sharepoint.py:527 | stripping the quotes around a name gives the name |
| SharePoint.FilenameRoundTrip | backend/sharepoint.py:527-534 | a name the server sends in its own `Content-Disposition` is read back unchanged |
| WebhookApi.RequireApiKey | backend/webhook_api.py:26-28 | a refusal is always 401 `Unauthorized` |
| WebhookApi.NoKeyAdmitsAll | backend/webhook_api.py:26-28 | with no configured key every inbound key passes, a missing one included |
| WebhookApi.KeyAdmitsOnlyItself | backend/webhook_api.py:26-28 | with a configured key, an inbound key passes iff it equals it |
| WebhookApi.OcrKwargs | backend/webhook_api.py:30-34 | exactly the options that are not `None` become arguments |
| WebhookApi.NoOptionsNoKwargs | backend/webhook_api.py:34 | with no options the engine gets no arguments |
| WebhookApi.Intake | backend/webhook_api.py:71-90 | an upload wins and leaves every option unset; else a file URL is downloaded and the options come from the body; neither is 400 |
| WebhookApi.FinishedIsFinal | backend/webhook_api.py:102-119 | a completed or failed job has no further status move |
| WebhookApi.NewRecord | backend/webhook_api.py:92-99 | a new record is `Queued`, with file id `f_<jobId>`, no result and no error |
| WebhookApi.RunLifecycle | backend/webhook_api.py:101-128 | a run goes Queued → Running → Completed on success (result set, no error) or Failed on an exception (`OCR_ERROR`, no result) |
| WebhookApi.RecordJson | backend/webhook_api.py:93-99 | a stored record has exactly the keys status, fileId, result, error and metadata, holding the status name, the file id and the JSON forms of result, error and metadata |
| WebhookApi.MaybeCallback | backend/webhook_api.py:46-54 | a callback is sent iff a callback URL is given, to that URL with the body |
| WebhookApi.CallbackCarriesIds | backend/webhook_api.py:108-127 | the callback's eventType is `ocr.completed` or `ocr.failed` by outcome, it carries jobId, `f_` fileId and correlationId, and a result iff success and an error iff failure |
| WebhookApi.JobTable.constructor | backend/webhook_api.py:13-16 | `JOBS` starts empty with no pending task |
| WebhookApi.JobTable.FreshId | backend/webhook_api.py:92 | the new job id is not in use |
| WebhookApi.JobTable.WebhookOcr | backend/webhook_api.py:56-141 | a wrong key is 401 and an intake error is returned, both with no change; otherwise a fresh id is recorded as a new queued job, its run is scheduled, and the reply gives the id, `Queued` and `/webhook/jobs/<id>` |
| WebhookApi.JobTable.BeginRun | backend/webhook_api.py:102 | the job alone becomes `Running` |
| WebhookApi.JobTable.FinishRun | backend/webhook_api.py:103-128 | the job alone is completed or failed by the outcome, and the matching callback is sent when a URL was given |
| WebhookApi.JobTable.RunNextTask | backend/webhook_api.py:101-136 | the oldest pending task's queued job is run to its end; no other job changes, and the table stays well formed |
| WebhookApi.JobTable.GetJob | backend/webhook_api.py:143-148 | 404 iff the id is unknown; otherwise `jobId` and every field of the stored record with its stored value |
| WebhookApi.JobTable.PolledFileId | backend/webhook_api.py:143-148 | a polled job reports `f_` followed by its own id |
| WebhookApi.JobTable.PolledOutcome | backend/webhook_api.py:101-120 | a polled completed job shows its text and words and no error; a failed one its message with `OCR_ERROR` and no result; an unfinished one neither |

## Left out

- Filesystem, network and process I/O: reading, writing, `mkdir`, `unlink`, temporary files and their removal, `stat`/mtime (so the listing has no `updated_at`), HTTP calls to Graph and to callback URLs, and the OCR engine itself. Their results are parameters.
- Concurrency and timing: watchdog observer threads, `_STOP` and `request_shutdown`, queue timeouts and `task_done`, `_file_is_stable`'s polling, the settings lock, and FastAPI background scheduling. The worker is modelled one step at a time, and background tasks run when `RunNextTask` is called.
- SHA-1 hashing: a digest is an opaque string.
- Real base64 and JSON decoding and `json.dumps`: JSON decoding is a parameter of `DecodeJwt`, and `dumps` is a function parameter.
- `Path.resolve()` is normalisation without symbolic links. `is_absolute` is an abstract predicate, and Windows drive letters and case-insensitive comparison are not modelled.
- Recipes.IsAllowed: the fallback string-prefix test for Pythons older than 3.9 is not modelled; the component-prefix test of `is_relative_to` is.
- `str.lower`/`str.upper` map ASCII letters only; other Unicode case mappings are not modelled.
- SharePoint.ParseUrl: keeps only the parts of `urlparse` the authority needs. Not modelled: the stripping of C0 control and whitespace characters, IPv6 bracket checks, and the rule that only some schemes take `;` parameters.
- Pydantic validation (`AnyHttpUrl`, field types) and HTTP response wrapping. Requests arrive as already validated values.
- The preset records' other fields (summary, hints, zones) and `list_presets`: presets are only an id-to-content table. This also means the zones and hints inside the preset contents are left out; each preset content is reduced to its name, language and preprocessing options.
- RecipesApi.RecipeStore.ReadRecipe: the message "Invalid JSON in <file>" leaves out the parser's exception text.
- main.py, MSAL client setup and the on-behalf-of token exchange, `_list_site_drives`, and every Graph endpoint except the decisions listed in the table.
- Watch: filesystem errors raised after a result was written, while moving the original, are not modelled.
- WebhookApi.JobTable.FreshId: `uuid4` is modelled as any id not yet in the table.
- WebhookApi.Intake: the upload name (`upload.bin` when missing) only chose the temporary file's suffix; it is kept in `Uploaded`, but nothing depends on it.
- WatchApi.Status: returns the set of active keys; the order of the list `status` returns, which is the registration order, is not modelled.
- JSON numbers are integers only; floats (for example in OCR word boxes or recipe contents) are not modelled.
- SharePoint.DecodeJwt: a failure is `DecodeError` without the `"error": str(e)` message text.
- SettingsApi.GetSettings: an exception the handlers do not catch is modelled as the framework's plain 500 reply; the framework's error handling itself is not modelled.
- WebhookApi.JobTable.WebhookOcr: the reply's HTTP status code is not modelled. The handler returns its `JSONResponse` directly, so the decorator's 202 would not apply to it; this reading is not executed.
- SharePoint.DownloadFilename: the contract does not restate the header case. `HeaderFilenameTrimmed` and `FilenameRoundTrip` state it, and a missing `Content-Type` defaults to `application/octet-stream` through `ContentTypeOr`.
- The browser front end (PDF page rendering, drag selection of a region, and coordinate transforms) is not part of this model; its source files are not among those cited here.
