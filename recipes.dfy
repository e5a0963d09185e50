/**
 * Recipe references. A reference that looks like a path is taken relative to the
 * current directory unless it is absolute, and must lie under one of the allowed base
 * directories; any other reference is an id naming `<id>.json` in the recipes directory.
 */
module Recipes {
  import opened Wrappers
  import opened Text
  import opened Json
  import opened Paths

  /**
   * What the server was started with: its platform, the platform's notion of an absolute
   * path, its working directory, and the two environment settings (the recipes directory
   * and the `;`-separated list of further allowed bases).
   */
  datatype Config = Config(
    os: Platform,
    isAbsolute: string -> bool,
    cwd: Path,
    recipesDirSetting: string,
    allowSetting: string)

  /** `Path(s).resolve()`: a relative path is taken from the working directory. */
  function Resolve(cfg: Config, s: string): (p: Path)
    ensures Normal(p)
  {
    NormalizeIsNormal(Joined(cfg, s));
    Normalize(Joined(cfg, s))
  }

  /** `Path(s)` made absolute: as it is when absolute, else under the working directory. */
  function Joined(cfg: Config, s: string): Path {
    if cfg.isAbsolute(s) then Segments(s, Separators(cfg.os))
    else cfg.cwd + Segments(s, Separators(cfg.os))
  }

  /** `RECIPES_DIR`. */
  function RecipesDir(cfg: Config): Path {
    Resolve(cfg, cfg.recipesDirSetting)
  }

  /** The segments of a `;`-separated list that are not blank, in order. */
  function NonBlank(parts: seq<string>): (r: seq<string>)
    ensures forall i :: 0 <= i < |r| ==> r[i] in parts && StripSpace(r[i]) != ""
    ensures forall x :: x in parts && StripSpace(x) != "" ==> x in r
  {
    if |parts| == 0 then []
    else if StripSpace(parts[0]) != "" then [parts[0]] + NonBlank(parts[1..])
    else NonBlank(parts[1..])
  }

  /** Each of `parts` resolved, in order. */
  function ResolveAll(cfg: Config, parts: seq<string>): (r: seq<Path>)
    ensures |r| == |parts| && forall i :: 0 <= i < |parts| ==> r[i] == Resolve(cfg, parts[i])
  {
    if |parts| == 0 then [] else [Resolve(cfg, parts[0])] + ResolveAll(cfg, parts[1..])
  }

  /** The non-blank segments of the extra-bases setting. */
  function ExtraBases(cfg: Config): seq<string> {
    NonBlank(Split(cfg.allowSetting, ';'))
  }

  /** `ALLOWED_BASES`: the recipes directory, then every non-blank extra base, resolved. */
  function AllowedBases(cfg: Config): seq<Path> {
    [RecipesDir(cfg)] + ResolveAll(cfg, ExtraBases(cfg))
  }

  /** The recipes directory comes first, and every non-blank segment of the setting is an allowed base. */
  lemma AllowedBasesFromSetting(cfg: Config, x: string)
    ensures |AllowedBases(cfg)| >= 1 && AllowedBases(cfg)[0] == RecipesDir(cfg)
    ensures x in Split(cfg.allowSetting, ';') && StripSpace(x) != "" ==> Resolve(cfg, x) in AllowedBases(cfg)
  {
    var extra := ExtraBases(cfg);
    if x in Split(cfg.allowSetting, ';') && StripSpace(x) != "" {
      var k :| 0 <= k < |extra| && extra[k] == x;
      BaseAfterFirst(cfg, extra, k);
    }
  }

  /** Every allowed base after the first is a non-blank segment of the setting, resolved. */
  lemma AllowedBaseOrigin(cfg: Config, i: int)
    requires 1 <= i < |AllowedBases(cfg)|
    ensures var y := ExtraBases(cfg)[i - 1];
            y in Split(cfg.allowSetting, ';') && StripSpace(y) != "" && AllowedBases(cfg)[i] == Resolve(cfg, y)
  {
    var extra := ExtraBases(cfg);
    BaseAfterFirst(cfg, extra, i - 1);
  }

  /** Behind the recipes directory, the bases are the extra segments resolved in order. */
  lemma BaseAfterFirst(cfg: Config, extra: seq<string>, k: int)
    requires 0 <= k < |extra|
    ensures |[RecipesDir(cfg)] + ResolveAll(cfg, extra)| == |extra| + 1
    ensures ([RecipesDir(cfg)] + ResolveAll(cfg, extra))[k + 1] == Resolve(cfg, extra[k])
  {
  }

  /** Without the extra setting the recipes directory is the only allowed base. */
  lemma OnlyRecipesDirByDefault(cfg: Config)
    requires cfg.allowSetting == ""
    ensures AllowedBases(cfg) == [RecipesDir(cfg)]
  {
    assert Split("", ';') == [""];
    assert StripSpace("") == "";
    assert [""][1..] == [];
    assert ExtraBases(cfg) == [];
  }

  /** `p` lies under (or is) one of `bases`. */
  predicate UnderSome(bases: seq<Path>, p: Path) {
    exists i :: 0 <= i < |bases| && bases[i] <= p
  }

  /** `_is_allowed`'s question: the resolved path lies under one of the allowed bases. */
  predicate Allowed(cfg: Config, p: Path) {
    UnderSome(AllowedBases(cfg), Normalize(p))
  }

  /** `_is_allowed`: the bases are tried in order and the first one that contains the path answers. */
  method IsAllowed(cfg: Config, p: Path) returns (ok: bool)
    ensures ok <==> Allowed(cfg, p)
  {
    ok := FirstBaseContaining(AllowedBases(cfg), Normalize(p));
  }

  /** The loop of `_is_allowed`, returning as soon as one base contains the path. */
  method FirstBaseContaining(bases: seq<Path>, resolved: Path) returns (ok: bool)
    ensures ok <==> UnderSome(bases, resolved)
  {
    for i := 0 to |bases|
      invariant forall j :: 0 <= j < i ==> !(bases[j] <= resolved)
    {
      if bases[i] <= resolved {
        return true;
      }
    }
    return false;
  }

  /** A reference is a path when it holds a separator of either platform or ends in `.json`. */
  predicate LooksLikePath(recipeRef: string) {
    '/' in recipeRef || '\\' in recipeRef || Lower(Suffix(recipeRef)) == ".json"
  }

  /** Why a reference could not be loaded. */
  datatype RecipeError = ValueError(message: string) | JsonDecodeError

  const NotAllowed: RecipeError := ValueError("Recipe path not allowed by server configuration")

  /** `resolve_recipe_path`. */
  function ResolveRecipePath(cfg: Config, recipeRef: string): (r: Result<Path, RecipeError>)
    ensures LooksLikePath(recipeRef) ==>
              r == if Allowed(cfg, Joined(cfg, recipeRef)) then Ok(Normalize(Joined(cfg, recipeRef)))
                   else Err(NotAllowed)
    ensures !LooksLikePath(recipeRef) ==> r == Ok(RecipesDir(cfg) + [recipeRef + ".json"])
    ensures r.Ok? ==> Normal(r.value)
  {
    if LooksLikePath(recipeRef) then
      var p := Joined(cfg, recipeRef);
      if !Allowed(cfg, p) then Err(NotAllowed)
      else
        NormalizeIsNormal(p);
        Ok(Normalize(p))
    else
      IdFileIsOneComponent(cfg, recipeRef);
      Ok(Normalize(RecipesDir(cfg) + Segments(recipeRef + ".json", Separators(cfg.os))))
  }

  /**
   * An id without separators names a single plain file directly in the recipes
   * directory, so resolving it changes nothing.
   */
  lemma IdFileIsOneComponent(cfg: Config, recipeRef: string)
    requires '/' !in recipeRef && '\\' !in recipeRef
    ensures Normalize(RecipesDir(cfg) + Segments(recipeRef + ".json", Separators(cfg.os)))
            == RecipesDir(cfg) + [recipeRef + ".json"]
  {
    var file := recipeRef + ".json";
    NoSeparatorOneSegment(file, Separators(cfg.os));
    assert |file| >= 5;
    NormalizeAppend(RecipesDir(cfg), file);
  }

  /** A non-empty piece with no separator in it, other than ".", is a single segment. */
  lemma NoSeparatorOneSegment(s: string, seps: set<char>)
    requires forall i :: 0 <= i < |s| ==> s[i] !in seps
    requires s != "" && s != "."
    ensures Segments(s, seps) == [s]
  {
    SegmentsOfPlainPiece("", s, seps);
    assert "" + s == s;
  }

  lemma {:induction false} SegmentsOfPlainPiece(current: string, rest: string, seps: set<char>)
    requires forall i :: 0 <= i < |rest| ==> rest[i] !in seps
    requires current + rest != "" && current + rest != "."
    ensures SegmentsFrom(current, rest, seps) == [current + rest]
    decreases |rest|
  {
    if |rest| == 0 {
      assert current + rest == current;
    } else {
      assert current + rest == (current + [rest[0]]) + rest[1..];
      SegmentsOfPlainPiece(current + [rest[0]], rest[1..], seps);
    }
  }

  /** A reference accepted in path mode resolves to a file under some allowed base. */
  lemma PathModeStaysUnderABase(cfg: Config, recipeRef: string)
    requires LooksLikePath(recipeRef) && ResolveRecipePath(cfg, recipeRef).Ok?
    ensures UnderSome(AllowedBases(cfg), ResolveRecipePath(cfg, recipeRef).value)
  {
  }

  /** `get_recipe` over the files the server can see: `None` when the resolved file is missing. */
  function GetRecipe(cfg: Config, files: map<Path, JsonFile>, recipeRef: string): (r: Result<Option<Value>, RecipeError>)
    ensures ResolveRecipePath(cfg, recipeRef).Err? ==> r == Err(ResolveRecipePath(cfg, recipeRef).error)
    ensures ResolveRecipePath(cfg, recipeRef).Ok? ==>
              var p := ResolveRecipePath(cfg, recipeRef).value;
              (p !in files ==> r == Ok(None)) &&
              (p in files && files[p].Parsed? ==> r == Ok(Some(files[p].value))) &&
              (p in files && files[p].Unparsable? ==> r == Err(JsonDecodeError))
  {
    match ResolveRecipePath(cfg, recipeRef)
    case Err(e) => Err(e)
    case Ok(p) =>
      if p !in files then Ok(None)
      else if files[p].Unparsable? then Err(JsonDecodeError)
      else Ok(Some(files[p].value))
  }
}
