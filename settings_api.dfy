/**
 * The `/settings` endpoints: `GET` returns the configuration; `PUT` drops the fields
 * left out of the request, refuses a folder or output directory that is not an
 * absolute path, and only then hands the rest to the settings update.
 */
module SettingsApi {
  import opened Wrappers
  import opened Json
  import opened Settings

  /** The body of `PUT /settings`; every field is optional. */
  datatype UpdateRequest = UpdateRequest(
    defaultWatchFolder: Option<string>,
    defaultRecipeId: Option<string>,
    outDir: Option<string>)

  /** The keys whose values must be absolute paths, in the order they are checked. */
  const PathKeys: seq<string> := ["default_watch_folder", "out_dir"]

  /** `req.model_dump(exclude_none=True)`: the fields that were given. */
  function PatchOf(req: UpdateRequest): (patch: map<string, string>)
    ensures "default_watch_folder" in patch <==> req.defaultWatchFolder.Some?
    ensures "default_recipe_id" in patch <==> req.defaultRecipeId.Some?
    ensures "out_dir" in patch <==> req.outDir.Some?
    ensures req.defaultWatchFolder.Some? ==> patch["default_watch_folder"] == req.defaultWatchFolder.value
    ensures req.defaultRecipeId.Some? ==> patch["default_recipe_id"] == req.defaultRecipeId.value
    ensures req.outDir.Some? ==> patch["out_dir"] == req.outDir.value
    ensures patch.Keys <= {"default_watch_folder", "default_recipe_id", "out_dir"}
  {
    var a := if req.defaultWatchFolder.Some? then map["default_watch_folder" := req.defaultWatchFolder.value] else map[];
    var b := if req.defaultRecipeId.Some? then a["default_recipe_id" := req.defaultRecipeId.value] else a;
    if req.outDir.Some? then b["out_dir" := req.outDir.value] else b
  }

  /** The patch as the JSON dictionary `settings.update` receives. */
  function AsObject(patch: map<string, string>): (o: Object)
    ensures o.Keys == patch.Keys && forall k :: k in patch ==> o[k] == Str(patch[k])
  {
    map k | k in patch :: Str(patch[k])
  }

  /**
   * The validation loop: the first of `keys` that is in the patch with a value that is
   * not an absolute path, if any.
   */
  function FirstNotAbsolute(patch: map<string, string>, keys: seq<string>, isAbsolute: string -> bool)
    : (r: Option<string>)
    ensures r.Some? ==> r.value in keys && r.value in patch && !isAbsolute(patch[r.value])
    ensures r.Some? ==> exists i :: 0 <= i < |keys| && keys[i] == r.value &&
                          forall j :: 0 <= j < i ==> keys[j] !in patch || isAbsolute(patch[keys[j]])
    ensures r.None? ==> forall k :: k in keys && k in patch ==> isAbsolute(patch[k])
    decreases |keys|
  {
    if |keys| == 0 then None
    else if keys[0] in patch && !isAbsolute(patch[keys[0]]) then Some(keys[0])
    else
      var rest := FirstNotAbsolute(patch, keys[1..], isAbsolute);
      if rest.Some? then
        var i :| 0 <= i < |keys[1..]| && keys[1..][i] == rest.value &&
                 forall j :: 0 <= j < i ==> keys[1..][j] !in patch || isAbsolute(patch[keys[1..][j]]);
        assert keys[i + 1] == rest.value;
        rest
      else
        assert forall k :: k in keys ==> k == keys[0] || k in keys[1..];
        rest
  }

  /** The 400 raised for a key whose value is not absolute. */
  function NotAbsolute(key: string): HttpError {
    HttpError(400, key + " must be an absolute path")
  }

  /** The recipe id is never checked for being a path: changing it never changes the verdict. */
  lemma RecipeIdNotValidated(req: UpdateRequest, id: Option<string>, isAbsolute: string -> bool)
    ensures FirstNotAbsolute(PatchOf(req), PathKeys, isAbsolute)
         == FirstNotAbsolute(PatchOf(req.(defaultRecipeId := id)), PathKeys, isAbsolute)
  {
    var p1 := PatchOf(req);
    var p2 := PatchOf(req.(defaultRecipeId := id));
    assert forall k :: k in PathKeys ==> (k in p1 <==> k in p2) && (k in p1 ==> p1[k] == p2[k]);
    assert PathKeys[1..] == ["out_dir"] && PathKeys[1..][1..] == [];
  }

  /** The reply to a request whose handler raised: the error `_load` raises is not caught. */
  const ServerError: HttpError := HttpError(500, "Internal Server Error")

  /** `GET /settings`: what `settings.get` returns, or a 500 when loading raises. */
  function GetSettings(store: SettingsStore): (r: Result<Object, HttpError>)
    reads store
    ensures Load(store.file, store.outDefault).Ok? ==> r == Ok(Load(store.file, store.outDefault).value)
    ensures Load(store.file, store.outDefault).Err? ==> r == Err(ServerError)
  {
    match store.Get()
    case Ok(cfg) => Ok(cfg)
    case Err(_) => Err(ServerError)
  }

  /**
   * `PUT /settings`: a given folder or output directory that is not absolute is refused
   * with 400 before anything is written (the folder is checked first); a configuration
   * that cannot be loaded is a 500 with nothing written; otherwise the reply is exactly
   * the configuration the update saved.
   */
  method PutSettings(store: SettingsStore, req: UpdateRequest, isAbsolute: string -> bool)
    returns (r: Result<Object, HttpError>)
    modifies store
    ensures var bad := FirstNotAbsolute(PatchOf(req), PathKeys, isAbsolute);
            var loaded := Load(old(store.file), store.outDefault);
            if bad.Some? then
              r == Err(NotAbsolute(bad.value)) && store.file == old(store.file)
            else if loaded.Err? then
              r == Err(ServerError) && store.file == old(store.file)
            else
              r == Ok(Patched(loaded.value, AsObject(PatchOf(req)))) &&
              store.file == Saved(r.value)
  {
    var patch := PatchOf(req);
    var bad := FirstNotAbsolute(patch, PathKeys, isAbsolute);
    if bad.Some? {
      return Err(NotAbsolute(bad.value));
    }
    var cfg := store.Update(AsObject(patch));
    if cfg.Err? {
      return Err(ServerError);
    }
    return Ok(cfg.value);
  }
}
