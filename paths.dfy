/**
 * Filesystem paths as `pathlib` treats them: a path is the sequence of its components,
 * `name`, `suffix` and `stem` follow `PurePath`, and `resolve()` is the normalisation
 * that drops empty and `.` components and lets `..` remove the component before it.
 */
module Paths {
  import opened Wrappers
  import opened Text

  /** The components of a path, root first (`PurePath.parts` without the anchor). */
  type Path = seq<string>

  /** The operating system the server runs on: it decides which characters separate components. */
  datatype Platform = Posix | Windows

  function Separators(os: Platform): set<char> {
    if os.Posix? then {'/'} else {'/', '\\'}
  }

  /** `PurePath.name`: the last component, or "" for a path without components. */
  function Name(p: Path): string {
    if |p| == 0 then "" else p[|p| - 1]
  }

  /** `PurePath.parent`. */
  function Parent(p: Path): Path {
    if |p| == 0 then [] else p[..|p| - 1]
  }

  /** `name.rfind('.')`. */
  function LastDot(name: string): (r: Option<nat>)
    ensures r.Some? ==> r.value < |name| && name[r.value] == '.'
    ensures r.Some? ==> forall j :: r.value < j < |name| ==> name[j] != '.'
    ensures r.None? ==> forall j :: 0 <= j < |name| ==> name[j] != '.'
  {
    if |name| == 0 then None
    else if name[|name| - 1] == '.' then Some(|name| - 1)
    else LastDot(name[..|name| - 1])
  }

  /**
   * `PurePath.suffix` of a final component: from its last dot on, provided that dot is
   * neither the first nor the last character; otherwise "".
   */
  function Suffix(name: string): (r: string)
    ensures r == "" || (2 <= |r| < |name| && r[0] == '.' && r == name[|name| - |r|..])
    ensures r != "" ==> forall j :: 1 <= j < |r| ==> r[j] != '.'
    ensures forall i :: (0 < i < |name| - 1 && name[i] == '.' &&
                         forall j :: i < j < |name| ==> name[j] != '.') ==> r == name[i..]
  {
    match LastDot(name)
    case Some(i) => if 0 < i < |name| - 1 then name[i..] else ""
    case None => ""
  }

  /** `PurePath.stem`: the final component without its suffix. */
  function Stem(name: string): string {
    match LastDot(name)
    case Some(i) => if 0 < i < |name| - 1 then name[..i] else name
    case None => name
  }

  /** A name is its stem followed by its suffix. */
  lemma StemSuffix(name: string)
    ensures Stem(name) + Suffix(name) == name
  {
    match LastDot(name)
    case Some(i) =>
      if 0 < i < |name| - 1 {
        assert name[..i] + name[i..] == name;
      }
    case None =>
  }

  /** A file named `<x>.json` with a non-empty `x` has stem `x` and suffix `.json`. */
  lemma {:induction false} JsonNameParts(x: string)
    requires |x| >= 1
    ensures Stem(x + ".json") == x && Suffix(x + ".json") == ".json"
  {
    var name := x + ".json";
    var i := |x|;
    assert name[i] == '.' && forall j :: i < j < |name| ==> name[j] != '.';
    assert LastDot(name) == Some(i);
    assert name[..i] == x;
    assert name[i..] == ".json";
  }

  /** The components of a path written as text: pieces between separators, without "" and ".". */
  function Segments(s: string, seps: set<char>): (p: Path)
    ensures forall i :: 0 <= i < |p| ==> p[i] != "" && p[i] != "."
    decreases |s|
  {
    SegmentsFrom("", s, seps)
  }

  function SegmentsFrom(current: string, rest: string, seps: set<char>): (p: Path)
    ensures forall i :: 0 <= i < |p| ==> p[i] != "" && p[i] != "."
    decreases |rest|
  {
    if |rest| == 0 then Component(current)
    else if rest[0] in seps then Component(current) + SegmentsFrom("", rest[1..], seps)
    else SegmentsFrom(current + [rest[0]], rest[1..], seps)
  }

  function Component(piece: string): Path {
    if piece == "" || piece == "." then [] else [piece]
  }

  /** A component that names a file or directory rather than a step of navigation. */
  predicate Plain(c: string) {
    c != "" && c != "." && c != ".."
  }

  /** A path that `resolve()` leaves as it is. */
  predicate Normal(p: Path) {
    forall i :: 0 <= i < |p| ==> Plain(p[i])
  }

  /** `resolve()` without symbolic links: `..` removes the component before it. */
  function Normalize(p: Path): Path {
    NormalizeFrom([], p)
  }

  function NormalizeFrom(done: Path, rest: Path): Path
    decreases |rest|
  {
    if |rest| == 0 then done
    else if rest[0] == "" || rest[0] == "." then NormalizeFrom(done, rest[1..])
    else if rest[0] == ".." then NormalizeFrom(Parent(done), rest[1..])
    else NormalizeFrom(done + [rest[0]], rest[1..])
  }

  lemma {:induction false} NormalizeFromNormal(done: Path, rest: Path)
    requires Normal(done)
    ensures Normal(NormalizeFrom(done, rest))
    decreases |rest|
  {
    if |rest| > 0 {
      if rest[0] == "" || rest[0] == "." {
        NormalizeFromNormal(done, rest[1..]);
      } else if rest[0] == ".." {
        NormalizeFromNormal(Parent(done), rest[1..]);
      } else {
        NormalizeFromNormal(done + [rest[0]], rest[1..]);
      }
    }
  }

  lemma {:induction false} NormalizeFromKeeps(done: Path, rest: Path)
    requires Normal(rest)
    ensures NormalizeFrom(done, rest) == done + rest
    decreases |rest|
  {
    if |rest| > 0 {
      NormalizeFromKeeps(done + [rest[0]], rest[1..]);
      assert done + [rest[0]] + rest[1..] == done + rest;
    }
  }

  /** What `resolve()` returns has no "", "." or ".." component. */
  lemma NormalizeIsNormal(p: Path)
    ensures Normal(Normalize(p))
  {
    NormalizeFromNormal([], p);
  }

  /** `resolve()` leaves a resolved path unchanged, so resolving twice is resolving once. */
  lemma NormalizeIdempotent(p: Path)
    ensures Normalize(Normalize(p)) == Normalize(p)
  {
    NormalizeIsNormal(p);
    NormalizeFromKeeps([], Normalize(p));
  }

  /** Appending a plain file name to a resolved directory gives a resolved path. */
  lemma NormalizeAppend(dir: Path, name: string)
    requires Normal(dir) && Plain(name)
    ensures Normalize(dir + [name]) == dir + [name]
  {
    NormalizeFromKeeps([], dir + [name]);
  }
}
