/**
 * The `/recipes` endpoints: a directory of `<id>.json` files with create (refusing an id
 * that exists), read, update (which also creates), delete, a sorted listing, and
 * creation from one of the built-in presets.
 */
module RecipesApi {
  import opened Wrappers
  import opened Text
  import opened Json
  import opened Paths

  // ---------------------------------------------------------------- ids

  /** The characters of `[A-Za-z0-9._-]`. */
  predicate IdChar(c: char) {
    ('A' <= c <= 'Z') || ('a' <= c <= 'z') || ('0' <= c <= '9') || c == '.' || c == '_' || c == '-'
  }

  /** Between 1 and 64 characters, all from `[A-Za-z0-9._-]`. */
  predicate IdBody(s: string) {
    1 <= |s| <= 64 && forall i :: 0 <= i < |s| ==> IdChar(s[i])
  }

  /**
   * `ID_RE.match(id)` for `^[A-Za-z0-9._-]{1,64}$`. Python's `$` matches at the very end
   * and also just before a final newline, so one trailing `"\n"` is let through.
   */
  predicate ValidId(id: string) {
    IdBody(id) || (|id| >= 2 && id[|id| - 1] == '\n' && IdBody(id[..|id| - 1]))
  }

  /**
   * How the regular expression reads: some run of 1 to 64 class characters at the start,
   * after which only the end of the text, or a newline and then the end, may follow.
   */
  ghost predicate MatchesIdPattern(id: string) {
    exists k :: 1 <= k <= 64 && k <= |id| &&
                (forall i :: 0 <= i < k ==> IdChar(id[i])) &&
                (id[k..] == "" || id[k..] == "\n")
  }

  /** The character-class predicate agrees with the pattern, in both directions. */
  lemma ValidIdMatchesPattern(id: string)
    ensures ValidId(id) <==> MatchesIdPattern(id)
  {
    if ValidId(id) {
      ValidIdMatches(id);
    }
    if MatchesIdPattern(id) {
      var k :| 1 <= k <= 64 && k <= |id| &&
               (forall i :: 0 <= i < k ==> IdChar(id[i])) &&
               (id[k..] == "" || id[k..] == "\n");
      MatchIsValid(id, k);
    }
  }

  /** An id the predicate accepts matches the pattern. */
  lemma ValidIdMatches(id: string)
    requires ValidId(id)
    ensures MatchesIdPattern(id)
  {
    if IdBody(id) {
      assert id[|id|..] == "";
    } else {
      var k := |id| - 1;
      var body := id[..k];
      assert forall i :: 0 <= i < k ==> id[i] == body[i];
      assert id[k..] == [id[k]] == "\n";
    }
  }

  /** A run of class characters followed by the end, or by a newline and the end, is a valid id. */
  lemma MatchIsValid(id: string, k: int)
    requires 1 <= k <= 64 && k <= |id|
    requires forall i :: 0 <= i < k ==> IdChar(id[i])
    requires id[k..] == "" || id[k..] == "\n"
    ensures ValidId(id)
  {
    if id[k..] == "" {
      assert k == |id|;
    } else {
      assert |id[k..]| == 1;
      assert id[|id| - 1] == id[k..][0];
      var body := id[..|id| - 1];
      assert forall i :: 0 <= i < |body| ==> body[i] == id[i];
      assert IdBody(body);
    }
  }

  /** The file that holds recipe `id` in the recipes directory. */
  function FileName(id: string): string {
    id + ".json"
  }

  const InvalidId: HttpError := HttpError(400, "Invalid id. Use letters, numbers, ., _, - (≤64).")

  /** `_path_for`: the recipe's path in `dir`, or 400 for an id the pattern refuses. */
  function PathFor(dir: Path, id: string): (r: Result<Path, HttpError>)
    requires Normal(dir)
    ensures !ValidId(id) ==> r == Err(InvalidId)
    ensures ValidId(id) ==> r == Ok(dir + [id + ".json"]) && Normal(r.value)
  {
    if !ValidId(id) then Err(InvalidId)
    else
      NormalizeAppend(dir, FileName(id));
      Ok(Normalize(dir + [FileName(id)]))
  }

  /** Two valid ids name the same file only when they are the same id. */
  lemma FileNameInjective(a: string, b: string)
    requires FileName(a) == FileName(b)
    ensures a == b
  {
    assert a == FileName(a)[..|a|] && b == FileName(b)[..|b|];
  }

  // ---------------------------------------------------------------- presets

  /** A built-in recipe template; only its id, display name and content matter here. */
  datatype Preset = Preset(id: string, name: string, content: Object)

  function PreprocessOf(dpi: int, binarize: bool, denoise: bool): Object {
    var base := map["dpi" := Num(dpi), "deskew" := Bool(true)];
    var withBinarize := if binarize then base["binarize" := Bool(true)] else base;
    if denoise then withBinarize["denoise" := Bool(true)] else withBinarize
  }

  function PresetContent(name: string, preprocess: Object): Object {
    map["name" := Str(name), "language" := Str("eng"), "preprocess" := Obj(preprocess)]
  }

  /** `PRESETS`, in order. */
  const Presets: seq<Preset> := [
    Preset("invoices_basic", "Invoices (basic)",
           PresetContent("Invoices (basic)", PreprocessOf(360, true, false))),
    Preset("receipts_simple", "Receipts (thermal/basic)",
           PresetContent("Receipts (simple)", PreprocessOf(400, true, true))),
    Preset("id_card_front_us", "ID card (US driver’s license, front)",
           PresetContent("ID card (US DL front)", PreprocessOf(400, true, false))),
    Preset("bank_statement_cover", "Bank statement (cover page)",
           PresetContent("Bank statement (cover)", PreprocessOf(360, false, false)))
  ]

  /** `next((p for p in PRESETS if p["id"] == presetId), None)`: the first preset with that id. */
  function FindPreset(presets: seq<Preset>, presetId: string): (r: Option<Preset>)
    ensures r.Some? ==> exists i :: 0 <= i < |presets| && presets[i] == r.value &&
                                    r.value.id == presetId &&
                                    forall j :: 0 <= j < i ==> presets[j].id != presetId
    ensures r.None? ==> forall i :: 0 <= i < |presets| ==> presets[i].id != presetId
  {
    if |presets| == 0 then None
    else if presets[0].id == presetId then Some(presets[0])
    else
      var r := FindPreset(presets[1..], presetId);
      if r.Some? then
        var i :| 0 <= i < |presets[1..]| && presets[1..][i] == r.value && r.value.id == presetId &&
                 forall j :: 0 <= j < i ==> presets[1..][j].id != presetId;
        assert presets[i + 1] == r.value;
        r
      else r
  }

  /** Every built-in preset is found by its own id. */
  lemma EveryPresetFound(i: int)
    requires 0 <= i < |Presets|
    ensures FindPreset(Presets, Presets[i].id) == Some(Presets[i])
  {
    var r := FindPreset(Presets, Presets[i].id);
    assert r.Some?;
    var k :| 0 <= k < |Presets| && Presets[k] == r.value && r.value.id == Presets[i].id &&
             forall j :: 0 <= j < k ==> Presets[j].id != Presets[i].id;
    assert k == i;
  }

  // ---------------------------------------------------------------- the recipe directory

  const AlreadyExists: HttpError := HttpError(409, "Recipe id already exists")
  const NotFound: HttpError := HttpError(404, "Not found")
  const PresetNotFound: HttpError := HttpError(404, "Preset not found")

  /** The error `_read_json` raises for a file that does not parse. */
  function InvalidJson(file: string): HttpError {
    HttpError(400, "Invalid JSON in " + file)
  }

  /** The `status` and `id` of a successful write. */
  datatype Written = Written(status: string, id: string)

  /** The reply of a delete. */
  datatype Deleted = DeletedId(id: string) | DeleteNotFound

  /** One entry of the listing: the file's stem, its `"name"` (or `Null`), and its path. */
  datatype IndexItem = IndexItem(id: string, name: Value, path: Path)

  /** A name `glob("*.json")` matches. */
  predicate IsJsonName(f: string) {
    |f| >= 5 && f[|f| - 5..] == ".json"
  }

  /** The recipes directory: file names mapped to what `json.loads` makes of them. */
  class RecipeStore {
    const dir: Path
    var files: map<string, JsonFile>

    /** The store over the resolved directory `dir`, holding the files already in it. */
    constructor (dir: Path, files: map<string, JsonFile>)
      requires Normal(dir)
      ensures this.dir == dir && this.files == files
    {
      this.dir := dir;
      this.files := files;
    }

    /** `read_recipe`: 400 for a bad id, 404 for a missing file, the decoded content otherwise. */
    function ReadRecipe(id: string): (r: Result<Value, HttpError>)
      reads this
      ensures !ValidId(id) ==> r == Err(InvalidId)
      ensures ValidId(id) && FileName(id) !in files ==> r == Err(NotFound)
      ensures ValidId(id) && FileName(id) in files ==>
                r == match files[FileName(id)]
                     case Parsed(v) => Ok(v)
                     case Unparsable => Err(InvalidJson(FileName(id)))
    {
      if !ValidId(id) then Err(InvalidId)
      else if FileName(id) !in files then Err(NotFound)
      else match files[FileName(id)]
        case Parsed(v) => Ok(v)
        case Unparsable => Err(InvalidJson(FileName(id)))
    }

    /**
     * `create_recipe`: 400 for a bad id and 409 for an existing one, both leaving the
     * directory as it was; otherwise the content is stored under the id and reads back.
     */
    method CreateRecipe(id: string, content: Object) returns (r: Result<Written, HttpError>)
      modifies this
      ensures !ValidId(id) ==> r == Err(InvalidId) && files == old(files)
      ensures ValidId(id) && FileName(id) in old(files) ==> r == Err(AlreadyExists) && files == old(files)
      ensures ValidId(id) && FileName(id) !in old(files) ==>
                r == Ok(Written("created", id)) &&
                files == old(files)[FileName(id) := Parsed(Obj(content))] &&
                ReadRecipe(id) == Ok(Obj(content))
    {
      if !ValidId(id) {
        return Err(InvalidId);
      }
      if FileName(id) in files {
        return Err(AlreadyExists);
      }
      files := files[FileName(id) := Parsed(Obj(content))];
      return Ok(Written("created", id));
    }

    /**
     * `create_from_preset`: an unknown preset is 404 before the new id is even looked at;
     * a known one is created like `create_recipe` with the preset's content.
     */
    method CreateFromPreset(presetId: string, id: string) returns (r: Result<Written, HttpError>)
      modifies this
      ensures FindPreset(Presets, presetId).None? ==> r == Err(PresetNotFound) && files == old(files)
      ensures FindPreset(Presets, presetId).Some? ==>
                var content := FindPreset(Presets, presetId).value.content;
                (!ValidId(id) ==> r == Err(InvalidId) && files == old(files)) &&
                (ValidId(id) && FileName(id) in old(files) ==> r == Err(AlreadyExists) && files == old(files)) &&
                (ValidId(id) && FileName(id) !in old(files) ==>
                   r == Ok(Written("created", id)) &&
                   files == old(files)[FileName(id) := Parsed(Obj(content))])
    {
      var preset := FindPreset(Presets, presetId);
      if preset.None? {
        return Err(PresetNotFound);
      }
      r := CreateRecipe(id, preset.value.content);
    }

    /** `update_recipe`: 400 for a bad id; otherwise the content is written whether or not the file existed. */
    method UpdateRecipe(id: string, content: Object) returns (r: Result<Written, HttpError>)
      modifies this
      ensures !ValidId(id) ==> r == Err(InvalidId) && files == old(files)
      ensures ValidId(id) ==>
                r == Ok(Written("updated", id)) &&
                files == old(files)[FileName(id) := Parsed(Obj(content))] &&
                ReadRecipe(id) == Ok(Obj(content))
    {
      if !ValidId(id) {
        return Err(InvalidId);
      }
      files := files[FileName(id) := Parsed(Obj(content))];
      return Ok(Written("updated", id));
    }

    /** `delete_recipe`: a missing file is reported, an existing one alone is removed. */
    method DeleteRecipe(id: string) returns (r: Result<Deleted, HttpError>)
      modifies this
      ensures !ValidId(id) ==> r == Err(InvalidId) && files == old(files)
      ensures ValidId(id) && FileName(id) !in old(files) ==> r == Ok(DeleteNotFound) && files == old(files)
      ensures ValidId(id) && FileName(id) in old(files) ==>
                r == Ok(DeletedId(id)) && files == old(files) - {FileName(id)} &&
                ReadRecipe(id) == Err(NotFound)
    {
      if !ValidId(id) {
        return Err(InvalidId);
      }
      if FileName(id) !in files {
        return Ok(DeleteNotFound);
      }
      files := files - {FileName(id)};
      return Ok(DeletedId(id));
    }

    /** The files `glob("*.json")` returns. */
    function JsonFiles(): (names: set<string>)
      reads this
      ensures forall f :: f in names <==> f in files && IsJsonName(f)
    {
      set f | f in files && IsJsonName(f)
    }

    /** The listing entry of file `f`: its stem, the content's `"name"` when it is a dictionary. */
    function ItemFor(f: string): (item: IndexItem)
      reads this
      ensures item.id == Stem(f) && item.path == dir + [f]
      ensures item.name == if f in files && files[f].Parsed? && files[f].value.Obj?
                           then Get(files[f].value.fields, "name") else Null
    {
      var name := if f in files && files[f].Parsed? && files[f].value.Obj?
                  then Get(files[f].value.fields, "name") else Null;
      IndexItem(Stem(f), name, dir + [f])
    }

    /**
     * `list_recipes`: one entry per `.json` file, in ascending order of file name, each
     * the file's `ItemFor`.
     */
    method ListRecipes() returns (items: seq<IndexItem>)
      ensures |items| == |JsonFiles()|
      ensures forall i :: 0 <= i < |items| ==> Name(items[i].path) in JsonFiles() &&
                                               items[i] == ItemFor(Name(items[i].path))
      ensures forall f :: f in JsonFiles() ==> exists i :: 0 <= i < |items| && items[i] == ItemFor(f)
      ensures forall i, j :: 0 <= i < j < |items| ==>
                LexLessEq(Name(items[i].path), Name(items[j].path))
    {
      var listed := JsonFiles();
      var names := SortStrings(listed);
      items := [];
      for k := 0 to |names|
        invariant |items| == k
        invariant forall i :: 0 <= i < k ==> items[i] == ItemFor(names[i])
      {
        items := items + [ItemFor(names[k])];
      }
      NamesOfItems(items, names, dir, listed);
      forall i | 0 <= i < |items|
        ensures Name(items[i].path) in listed && items[i] == ItemFor(Name(items[i].path))
      {
        assert Name(items[i].path) == names[i];
      }
      forall f | f in listed ensures exists i :: 0 <= i < |items| && items[i] == ItemFor(f) {
        var i :| 0 <= i < |names| && names[i] == f;
        assert items[i] == ItemFor(f);
      }
    }
  }

  /** Entries whose paths are `dir` joined with sorted names are named and ordered by those names. */
  lemma NamesOfItems(items: seq<IndexItem>, names: seq<string>, dir: Path, listed: set<string>)
    requires |items| == |names| && SortedLex(names)
    requires forall x :: x in names <==> x in listed
    requires forall i :: 0 <= i < |items| ==> items[i].path == dir + [names[i]]
    ensures forall i :: 0 <= i < |items| ==> Name(items[i].path) == names[i] && names[i] in listed
    ensures forall f :: f in listed ==> exists i :: 0 <= i < |names| && names[i] == f
    ensures forall i, j :: 0 <= i < j < |items| ==> LexLessEq(Name(items[i].path), Name(items[j].path))
  {
    assert forall i :: 0 <= i < |items| ==> Name(items[i].path) == names[i];
  }

  /** A recipe created under a non-empty id is listed under that same id. */
  lemma ListedIdIsCreatedId(id: string)
    requires ValidId(id)
    ensures IsJsonName(FileName(id)) && Stem(FileName(id)) == id
  {
    JsonNameParts(id);
  }
}
