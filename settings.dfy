/**
 * Server settings: three defaults overlaid by whatever the configuration file holds,
 * and an update that takes only the three known keys, and only with a true value,
 * from a patch before saving the result.
 */
module Settings {
  import opened Wrappers
  import opened Json

  /** The keys `update` copies from a patch, in the order it visits them. */
  const Whitelist: seq<string> := ["default_watch_folder", "default_recipe_id", "out_dir"]

  /**
   * `_DEFAULTS`. `outDefault` is the `out` directory beside the backend's source files,
   * resolved, which depends on where the server is installed.
   */
  function Defaults(outDefault: string): (d: Object)
    ensures d.Keys == set k | k in Whitelist
  {
    map["default_watch_folder" := Str("C:\\Docufy\\Inbox"),
        "default_recipe_id" := Str("default"),
        "out_dir" := Str(outDefault)]
  }

  /** Why `_load` raises: `json.load` fails, or the stored value is not a dictionary to `**`-merge. */
  datatype LoadError = NotJson | NotAMapping

  /** The configuration file holds a JSON object. */
  predicate HoldsObject(file: Option<JsonFile>) {
    file.Some? && file.value.Parsed? && file.value.value.Obj?
  }

  /** The entries of a configuration file that holds a JSON object. */
  function Stored(file: Option<JsonFile>): Object
    requires HoldsObject(file)
  {
    file.value.value.fields
  }

  /**
   * `_load`: the defaults when there is no configuration file, else the defaults with
   * every stored entry laid over them (`{**_DEFAULTS, **data}`); a file that does not
   * parse, or holds a JSON value that is not an object, makes it raise.
   */
  function Load(file: Option<JsonFile>, outDefault: string): (r: Result<Object, LoadError>)
    ensures file.None? ==> r == Ok(Defaults(outDefault))
    ensures file == Some(Unparsable) ==> r == Err(NotJson)
    ensures file.Some? && file.value.Parsed? && !file.value.value.Obj? ==> r == Err(NotAMapping)
    ensures r.Ok? <==> file.None? || HoldsObject(file)
    ensures HoldsObject(file) ==> forall k :: k in Stored(file) ==> k in r.value && r.value[k] == Stored(file)[k]
    ensures HoldsObject(file) ==> forall k :: k in Defaults(outDefault) && k !in Stored(file) ==>
                                    k in r.value && r.value[k] == Defaults(outDefault)[k]
    ensures HoldsObject(file) ==> r.value.Keys == Defaults(outDefault).Keys + Stored(file).Keys
    ensures r.Ok? ==> Defaults(outDefault).Keys <= r.value.Keys
  {
    match file
    case None => Ok(Defaults(outDefault))
    case Some(Unparsable) => Err(NotJson)
    case Some(Parsed(v)) => if v.Obj? then Ok(Defaults(outDefault) + v.fields) else Err(NotAMapping)
  }


  /** `update` copies `k` from the patch: it is one of `keys` and its patch value is true. */
  predicate Copied(patch: Object, keys: seq<string>, k: string) {
    k in keys && k in patch && Truthy(patch[k])
  }

  /** The loop of `update` over `keys`: each key with a true patch value is copied into `cfg`. */
  function ApplyKeys(cfg: Object, patch: Object, keys: seq<string>): (r: Object)
    ensures forall k :: Copied(patch, keys, k) ==> k in r && r[k] == patch[k]
    ensures forall k :: !Copied(patch, keys, k) ==> (k in r <==> k in cfg) && (k in cfg ==> r[k] == cfg[k])
    decreases |keys|
  {
    if |keys| == 0 then cfg
    else
      var last := keys[|keys| - 1];
      var before := ApplyKeys(cfg, patch, keys[..|keys| - 1]);
      assert forall k :: k in keys <==> k in keys[..|keys| - 1] || k == last;
      if last in patch && Truthy(patch[last]) then before[last := patch[last]] else before
  }

  /** What `update` makes of the configuration `cfg` and the patch. */
  function Patched(cfg: Object, patch: Object): Object {
    ApplyKeys(cfg, patch, Whitelist)
  }

  /** Applying a patch twice leaves the configuration as applying it once. */
  lemma PatchIdempotent(cfg: Object, patch: Object)
    ensures Patched(Patched(cfg, patch), patch) == Patched(cfg, patch)
  {
    var once := Patched(cfg, patch);
    var twice := Patched(once, patch);
    forall k ensures (k in twice <==> k in once) && (k in twice ==> twice[k] == once[k]) {
      if Copied(patch, Whitelist, k) {
        assert twice[k] == patch[k] == once[k];
      }
    }
    assert twice.Keys == once.Keys;
  }

  /** A patch never removes a key, so a patched configuration still has every default key. */
  lemma PatchedKeepsKeys(cfg: Object, patch: Object)
    ensures cfg.Keys <= Patched(cfg, patch).Keys
  {
  }

  /** One more key of the loop: its true patch value, if any, is copied over the result so far. */
  lemma ApplyKeysStep(cfg: Object, patch: Object, keys: seq<string>, i: int)
    requires 0 <= i < |keys|
    ensures var before := ApplyKeys(cfg, patch, keys[..i]);
            ApplyKeys(cfg, patch, keys[..i + 1]) ==
              if keys[i] in patch && Truthy(patch[keys[i]]) then before[keys[i] := patch[keys[i]]] else before
  {
    assert keys[..i + 1][..i] == keys[..i];
  }

  /** A patched configuration that had every default key loads back as it was saved. */
  lemma PatchedReloads(loaded: Object, patch: Object, outDefault: string)
    requires Defaults(outDefault).Keys <= loaded.Keys
    ensures Load(Saved(Patched(loaded, patch)), outDefault) == Ok(Patched(loaded, patch))
  {
    PatchedKeepsKeys(loaded, patch);
    SavedConfigReloads(Patched(loaded, patch), outDefault);
  }

  /** The file `_save` writes: `json.dump` of the configuration, which `json.load` reads back. */
  function Saved(cfg: Object): Option<JsonFile> {
    Some(Parsed(Obj(cfg)))
  }

  /** Loading a saved configuration that has every default key gives it back unchanged. */
  lemma SavedConfigReloads(cfg: Object, outDefault: string)
    requires Defaults(outDefault).Keys <= cfg.Keys
    ensures Load(Saved(cfg), outDefault) == Ok(cfg)
  {
    var loaded := Load(Saved(cfg), outDefault).value;
    assert HoldsObject(Saved(cfg)) && Stored(Saved(cfg)) == cfg;
    assert loaded.Keys == cfg.Keys;
    assert forall k :: k in cfg ==> loaded[k] == cfg[k];
    assert loaded == cfg;
    assert Load(Saved(cfg), outDefault) == Ok(loaded);
  }

  /** The configuration file as `json.load` sees it (`None` when it does not exist), and the resolved default `out` directory. */
  class SettingsStore {
    var file: Option<JsonFile>
    const outDefault: string

    constructor (file: Option<JsonFile>, outDefault: string)
      ensures this.file == file && this.outDefault == outDefault
    {
      this.file := file;
      this.outDefault := outDefault;
    }

    /** `get`: the loaded configuration, or the error `_load` raises. */
    function Get(): (r: Result<Object, LoadError>)
      reads this
      ensures r == Load(file, outDefault)
      ensures r.Ok? ==> Defaults(outDefault).Keys <= r.value.Keys
    {
      Load(file, outDefault)
    }

    /**
     * `update`: the loaded configuration with the patch's true values for the three
     * known keys, saved and returned; a later `get` returns the same configuration.
     * When loading raises, nothing is saved.
     */
    method Update(patch: Object) returns (r: Result<Object, LoadError>)
      modifies this
      ensures Load(old(file), outDefault).Err? ==> r == Load(old(file), outDefault) && file == old(file)
      ensures Load(old(file), outDefault).Ok? ==>
                r == Ok(Patched(Load(old(file), outDefault).value, patch)) &&
                file == Saved(r.value) && Get() == r
    {
      var loadedOrError := Load(file, outDefault);
      if loadedOrError.Err? {
        return loadedOrError;
      }
      var cfg := loadedOrError.value;
      ghost var loaded := cfg;
      for i := 0 to |Whitelist|
        invariant cfg == ApplyKeys(loaded, patch, Whitelist[..i])
      {
        var k := Whitelist[i];
        ApplyKeysStep(loaded, patch, Whitelist, i);
        if k in patch && Truthy(patch[k]) {
          cfg := cfg[k := patch[k]];
        }
      }
      assert Whitelist[..|Whitelist|] == Whitelist;
      PatchedReloads(loaded, patch, outDefault);
      file := Saved(cfg);
      r := Ok(cfg);
    }

    /** `get_out_dir`: the stored `out_dir` when the file has one, else the default. */
    function GetOutDir(): (r: Result<Value, LoadError>)
      reads this
      ensures r.Err? <==> Load(file, outDefault).Err?
      ensures r.Err? ==> r.error == Load(file, outDefault).error
      ensures HoldsObject(file) && "out_dir" in Stored(file) ==> r == Ok(Stored(file)["out_dir"])
      ensures file.None? || (HoldsObject(file) && "out_dir" !in Stored(file)) ==> r == Ok(Str(outDefault))
    {
      match Get()
      case Ok(cfg) => Ok(cfg["out_dir"])
      case Err(e) => Err(e)
    }
  }
}
