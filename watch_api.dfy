/**
 * The HTTP endpoints over the watcher registry: `/watch/start` builds the key
 * `<folder>|<recipe>` and starts a watcher unless that key is active, `/watch/stop`
 * stops one, and `/watch/status` lists the active keys.
 */
module WatchApi {
  import opened Wrappers
  import opened Watch

  /** The body of `/watch/start`; absent optional fields are `None`. */
  datatype StartRequest = StartRequest(
    folder: string,
    recipeId: Option<string>,
    recipePath: Option<string>,
    outDir: Option<string>)

  /** A field that Python would treat as true: present and non-empty. */
  predicate Given(field: Option<string>) {
    field.Some? && field.value != ""
  }

  /**
   * `req.recipe_path or req.recipe_id`: the path when one is given, otherwise the id;
   * nothing when neither is given.
   */
  function RecipeRef(req: StartRequest): (r: Option<string>)
    ensures r.Some? <==> Given(req.recipePath) || Given(req.recipeId)
    ensures Given(req.recipePath) ==> r == req.recipePath
    ensures !Given(req.recipePath) && Given(req.recipeId) ==> r == req.recipeId
  {
    if Given(req.recipePath) then req.recipePath
    else if Given(req.recipeId) then req.recipeId
    else None
  }

  /** The registry key of a watcher. */
  function WatchKey(folder: string, recipeRef: string): (key: string)
    ensures |key| == |folder| + 1 + |recipeRef|
    ensures key[..|folder|] == folder && key[|folder|] == '|' && key[|folder| + 1..] == recipeRef
  {
    folder + "|" + recipeRef
  }

  /** For folders without `|`, the key determines the folder and the recipe. */
  lemma WatchKeyInjective(f1: string, r1: string, f2: string, r2: string)
    requires '|' !in f1 && '|' !in f2
    requires WatchKey(f1, r1) == WatchKey(f2, r2)
    ensures f1 == f2 && r1 == r2
  {
    var key := WatchKey(f1, r1);
    assert |f1| == |f2|;
    assert f1 == key[..|f1|] == f2;
  }

  /** The `status` and `key` of a successful `/watch/start`. */
  datatype StartReply = StartReply(status: string, key: string)

  const MissingRecipe: HttpError := HttpError(400, "Provide recipe_id or recipe_path")

  /**
   * `/watch/start`. `startFailure` is the message of the exception `start_watch` raises
   * when the folder cannot be created or watched, if it does.
   */
  method Start(reg: Registry, req: StartRequest, startFailure: Option<string>)
    returns (r: Result<StartReply, HttpError>)
    modifies reg
    ensures reg.seen == old(reg.seen) && reg.queue == old(reg.queue)
    ensures RecipeRef(req).None? ==> r == Err(MissingRecipe) && reg.observers == old(reg.observers)
    ensures RecipeRef(req).Some? ==>
              var key := WatchKey(req.folder, RecipeRef(req).value);
              if key in old(reg.observers) then
                r == Ok(StartReply("already_watching", key)) && reg.observers == old(reg.observers)
              else if startFailure.Some? then
                r == Err(HttpError(400, startFailure.value)) && reg.observers == old(reg.observers)
              else
                r == Ok(StartReply("watching", key)) &&
                reg.observers == old(reg.observers)[key := Handler(req.folder, RecipeRef(req).value, req.outDir)]
  {
    var recipeRef := RecipeRef(req);
    if recipeRef.None? {
      return Err(MissingRecipe);
    }
    var key := WatchKey(req.folder, recipeRef.value);
    if key in reg.ActiveWatches().Keys {
      return Ok(StartReply("already_watching", key));
    }
    if startFailure.Some? {
      return Err(HttpError(400, startFailure.value));
    }
    reg.StartWatch(req.folder, recipeRef.value, key, req.outDir);
    return Ok(StartReply("watching", key));
  }

  /** The reply of `/watch/stop`. */
  datatype StopReply = NotActive | Stopped(key: string)

  /** `/watch/stop`: an inactive key is reported and nothing changes; an active one is removed. */
  method Stop(reg: Registry, key: string) returns (r: StopReply)
    modifies reg
    ensures reg.seen == old(reg.seen) && reg.queue == old(reg.queue)
    ensures key !in old(reg.observers) ==> r == NotActive && reg.observers == old(reg.observers)
    ensures key in old(reg.observers) ==>
              r == Stopped(key) && reg.observers == old(reg.observers) - {key} && key !in reg.observers
  {
    if key !in reg.ActiveWatches().Keys {
      return NotActive;
    }
    reg.StopWatch(key);
    return Stopped(key);
  }

  /** `/watch/status`: the active keys. */
  function Status(reg: Registry): (active: set<string>)
    reads reg
    ensures forall k :: k in active <==> k in reg.observers
  {
    reg.ActiveWatches().Keys
  }
}
