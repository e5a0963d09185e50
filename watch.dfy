/**
 * Watch-folder intake: the registry of active folder watchers, the filter that decides
 * whether a new file becomes a job, the queue of jobs with the set of digests already
 * seen, and what the worker does with one job (where the result or the error goes and
 * the collision-free name under which the original is moved to `Processed`).
 */
module Watch {
  import opened Wrappers
  import opened Text
  import opened Json
  import opened Paths

  /** The file extensions that are picked up, lower-cased. */
  const AllowedExts: set<string> := {".pdf", ".png", ".jpg", ".jpeg", ".tif", ".tiff"}

  /** The extensions of temporary or partial files, rejected explicitly. */
  const TempExts: set<string> := {".tmp", ".part"}

  /** The hexadecimal SHA-1 of a file's bytes; the hashing itself is not modelled. */
  type Digest = string

  /** A file waiting to be processed, with the recipe and output override of its watcher. */
  datatype Job = Job(path: Path, recipeRef: string, sha1: Digest, outDir: Option<string>)

  /** What an active watcher remembers: its folder, recipe reference and output override. */
  datatype Handler = Handler(folder: string, recipeRef: string, outDir: Option<string>)

  /** The filesystem notifications a watcher reacts to. A move may lack a destination. */
  datatype FsEvent = Created(src: Path) | Moved(src: Path, dest: Option<Path>)

  /** The path a notification is about: a move's destination when it has one. */
  function EventPath(e: FsEvent): (p: Path)
    ensures e.Created? ==> p == e.src
    ensures e.Moved? ==> p == (if e.dest.Some? then e.dest.value else e.src)
  {
    match e
    case Created(src) => src
    case Moved(src, dest) => if dest.Some? then dest.value else src
  }

  /** The lower-cased suffix of the path's final component. */
  function Ext(p: Path): string {
    Lower(Suffix(Name(p)))
  }

  /**
   * The checks a new path must pass before its digest is taken: it is a regular file,
   * its lower-cased suffix is allowed, it is not a temporary or partial file, and its
   * name does not start with `~$` (an Office lock file).
   */
  predicate PassesFilters(p: Path, isFile: bool) {
    isFile && Ext(p) in AllowedExts && !(Ext(p) in TempExts || "~$" <= Name(p))
  }

  /**
   * The allow-list alone already rejects temporary and partial files, so the filter
   * comes down to: a file, an allowed extension, and no `~$` prefix.
   */
  lemma PassesFiltersSimplified(p: Path, isFile: bool)
    ensures PassesFilters(p, isFile) <==> isFile && Ext(p) in AllowedExts && !("~$" <= Name(p))
  {
    assert forall e :: e in TempExts ==> e !in AllowedExts;
  }

  // ---------------------------------------------------------------- the Processed folder

  /** The `n`-th alternative name `stem (n)suffix` tried when `name` is taken. */
  function Candidate(name: string, n: nat): string {
    (Stem(name) + " (") + Decimal(n) + (")" + Suffix(name))
  }

  /** An alternative name is never the original one. */
  lemma CandidateIsNew(name: string, n: nat)
    ensures Candidate(name, n) != name
  {
    StemSuffix(name);
    assert |Candidate(name, n)| > |name|;
  }

  /** Different counters give different alternative names. */
  lemma CandidateInjective(name: string, m: nat, n: nat)
    requires Candidate(name, m) == Candidate(name, n)
    ensures m == n
  {
    var head, tail := Stem(name) + " (", ")" + Suffix(name);
    var dm, dn := Decimal(m), Decimal(n);
    assert |dm| == |dn|;
    MiddleOf(head, dm, tail);
    MiddleOf(head, dn, tail);
    DecimalInjective(m, n);
  }

  /**
   * `dest` is the name the original gets in a `Processed` folder holding `existing`:
   * a free name, the original name when that is free, and otherwise the alternative
   * `stem (i)suffix` with the smallest counter `i >= 1` that is free.
   */
  ghost predicate ProcessedNameOk(name: string, existing: set<string>, dest: string) {
    dest !in existing &&
    (name !in existing ==> dest == name) &&
    (name in existing ==>
       exists i :: 1 <= i && dest == Candidate(name, i) &&
                   forall j :: 1 <= j < i ==> Candidate(name, j) in existing)
  }

  /** There is only one name that can satisfy `ProcessedNameOk`. */
  lemma ProcessedNameUnique(name: string, existing: set<string>, d1: string, d2: string)
    requires ProcessedNameOk(name, existing, d1) && ProcessedNameOk(name, existing, d2)
    ensures d1 == d2
  {
    if name in existing {
      var i1 :| 1 <= i1 && d1 == Candidate(name, i1) &&
                forall j :: 1 <= j < i1 ==> Candidate(name, j) in existing;
      var i2 :| 1 <= i2 && d2 == Candidate(name, i2) &&
                forall j :: 1 <= j < i2 ==> Candidate(name, j) in existing;
      assert i1 == i2;
    }
  }

  /** The `k`-th name the rename loop tries: the original, then `stem (k)suffix`. */
  function Attempt(name: string, k: nat): string {
    if k == 0 then name else Candidate(name, k)
  }

  /** The names tried before the `k`-th. */
  function Tried(name: string, k: nat): (t: set<string>)
    ensures forall j :: 0 <= j < k ==> Attempt(name, j) in t
  {
    if k == 0 then {} else Tried(name, k - 1) + {Attempt(name, k - 1)}
  }

  /** No name is tried twice. */
  lemma {:induction false} AttemptFresh(name: string, k: nat)
    ensures Attempt(name, k) !in Tried(name, k)
  {
    if k > 0 {
      AttemptFresh(name, k - 1);
      AttemptsDiffer(name, k - 1, k);
      if Attempt(name, k) in Tried(name, k - 1) {
        TriedBelow(name, k - 1, Attempt(name, k));
        var j :| 0 <= j < k - 1 && Attempt(name, j) == Attempt(name, k);
        AttemptsDiffer(name, j, k);
      }
    }
  }

  /** Every tried name is an earlier attempt. */
  lemma {:induction false} TriedBelow(name: string, k: nat, x: string)
    requires x in Tried(name, k)
    ensures exists j :: 0 <= j < k && Attempt(name, j) == x
  {
    if x != Attempt(name, k - 1) {
      TriedBelow(name, k - 1, x);
    }
  }

  /** Different attempts give different names. */
  lemma AttemptsDiffer(name: string, j: nat, k: nat)
    requires j < k
    ensures Attempt(name, j) != Attempt(name, k)
  {
    if j == 0 {
      CandidateIsNew(name, k);
    } else if Candidate(name, j) == Candidate(name, k) {
      CandidateInjective(name, j, k);
    }
  }

  /** The rename loop: try the name, then `stem (1)suffix`, `stem (2)suffix`, … until one is free. */
  method ProcessedName(name: string, existing: set<string>) returns (dest: string)
    ensures ProcessedNameOk(name, existing, dest)
  {
    dest := name;
    var i: nat := 1;
    while dest in existing
      invariant i >= 1 && dest == Attempt(name, i - 1)
      invariant Tried(name, i - 1) <= existing
      decreases |existing - Tried(name, i - 1)|
    {
      AttemptFresh(name, i - 1);
      assert existing - Tried(name, i) < existing - Tried(name, i - 1);
      dest := Candidate(name, i);
      i := i + 1;
    }
    if name in existing {
      assert i > 1;
      assert forall j :: 1 <= j < i - 1 ==> Attempt(name, j) == Candidate(name, j);
    }
  }

  // ---------------------------------------------------------------- processing one job

  /** `job.out_dir or default`: the watcher's override when it is a non-empty string. */
  function OutRoot(jobOutDir: Option<string>, defaultOut: string): (r: string)
    ensures r == defaultOut || (jobOutDir == Some(r) && r != "")
    ensures jobOutDir.Some? && jobOutDir.value != "" ==> r == jobOutDir.value
  {
    if jobOutDir.Some? && jobOutDir.value != "" then jobOutDir.value else defaultOut
  }

  /** What the processing function delivered: text, a dictionary, or an exception. */
  datatype Outcome = ReturnedText(text: string) | ReturnedDict(dict: Object) | Raised(message: string)

  /** A change the worker makes to the filesystem: a file written under an output root, or a move. */
  datatype Effect =
    | WriteText(root: string, file: Path, text: string)
    | Replace(src: Path, dest: Path)

  /** The text written for a result: a string as it is, a dictionary as `dumps` serialises it. */
  function Payload(outcome: Outcome, dumps: Object -> string): string
    requires !outcome.Raised?
  {
    if outcome.ReturnedText? then outcome.text else dumps(outcome.dict)
  }

  /**
   * The effects of processing `job`. A result is written as `<stem>.json` under the output
   * root and, when originals are moved, the file then goes to `Processed` next to it under
   * a free name. An exception writes its message to `Errors/<name>.err.txt` under the
   * output root and leaves the file where it is.
   */
  ghost predicate JobEffects(job: Job, outcome: Outcome, dumps: Object -> string, defaultOut: string,
                       moveOriginal: bool, processed: set<string>, effects: seq<Effect>)
  {
    var root := OutRoot(job.outDir, defaultOut);
    var name := Name(job.path);
    if outcome.Raised? then
      effects == [WriteText(root, ["Errors", name + ".err.txt"], outcome.message)]
    else
      var written := WriteText(root, [Stem(name) + ".json"], Payload(outcome, dumps));
      if !moveOriginal then effects == [written]
      else
        |effects| == 2 && effects[0] == written && effects[1].Replace? &&
        effects[1] == Replace(job.path, Parent(job.path) + ["Processed", Name(effects[1].dest)]) &&
        ProcessedNameOk(name, processed, Name(effects[1].dest))
  }

  /** The body of the worker loop for one job, given what the processing function did. */
  method ProcessJob(job: Job, outcome: Outcome, dumps: Object -> string, defaultOut: string,
                    moveOriginal: bool, processed: set<string>) returns (effects: seq<Effect>)
    ensures JobEffects(job, outcome, dumps, defaultOut, moveOriginal, processed, effects)
  {
    var root := OutRoot(job.outDir, defaultOut);
    var name := Name(job.path);
    if outcome.Raised? {
      effects := [WriteText(root, ["Errors", name + ".err.txt"], outcome.message)];
      return;
    }
    effects := [WriteText(root, [Stem(name) + ".json"], Payload(outcome, dumps))];
    if moveOriginal {
      var dest := ProcessedName(name, processed);
      effects := effects + [Replace(job.path, Parent(job.path) + ["Processed", dest])];
    }
  }

  // ---------------------------------------------------------------- the registry

  /** The module-level state: active watchers by key, digests seen so far, and the job queue. */
  class Registry {
    var observers: map<string, Handler>
    var seen: set<Digest>
    var queue: seq<Job>

    constructor ()
      ensures observers == map[] && seen == {} && queue == []
    {
      observers := map[];
      seen := {};
      queue := [];
    }

    /**
     * A new path seen by watcher `h`: when it passes the filters and its digest is new,
     * the digest is remembered and exactly one job, carrying the watcher's recipe and
     * output override, joins the end of the queue; otherwise nothing changes.
     */
    method MaybeEnqueue(h: Handler, p: Path, isFile: bool, digest: Digest)
      modifies this
      ensures observers == old(observers)
      ensures PassesFilters(p, isFile) && digest !in old(seen) ==>
                seen == old(seen) + {digest} &&
                queue == old(queue) + [Job(p, h.recipeRef, digest, h.outDir)]
      ensures !(PassesFilters(p, isFile) && digest !in old(seen)) ==>
                seen == old(seen) && queue == old(queue)
    {
      if !isFile {
        return;
      }
      var ext := Lower(Suffix(Name(p)));
      if ext !in AllowedExts {
        return;
      }
      if ext in TempExts || "~$" <= Name(p) {
        return;
      }
      if digest in seen {
        return;
      }
      seen := seen + {digest};
      queue := queue + [Job(p, h.recipeRef, digest, h.outDir)];
    }

    /** `on_created` and `on_moved`: the event's path goes through `MaybeEnqueue`. */
    method OnEvent(h: Handler, e: FsEvent, isFile: bool, digest: Digest)
      modifies this
      ensures observers == old(observers)
      ensures PassesFilters(EventPath(e), isFile) && digest !in old(seen) ==>
                seen == old(seen) + {digest} &&
                queue == old(queue) + [Job(EventPath(e), h.recipeRef, digest, h.outDir)]
      ensures !(PassesFilters(EventPath(e), isFile) && digest !in old(seen)) ==>
                seen == old(seen) && queue == old(queue)
    {
      MaybeEnqueue(h, EventPath(e), isFile, digest);
    }

    /** `start_watch`: the key now names a watcher for this folder, recipe and override. */
    method StartWatch(folder: string, recipeRef: string, key: string, outDir: Option<string>)
      modifies this
      ensures observers == old(observers)[key := Handler(folder, recipeRef, outDir)]
      ensures seen == old(seen) && queue == old(queue)
    {
      observers := observers[key := Handler(folder, recipeRef, outDir)];
    }

    /** `stop_watch`: exactly the given key is removed; an absent key changes nothing. */
    method StopWatch(key: string)
      modifies this
      ensures observers == old(observers) - {key}
      ensures key !in old(observers) ==> observers == old(observers)
      ensures seen == old(seen) && queue == old(queue)
    {
      observers := observers - {key};
    }

    /** `stop_all_watches`: every registered key is stopped in turn. */
    method StopAllWatches()
      modifies this
      ensures observers == map[]
      ensures seen == old(seen) && queue == old(queue)
    {
      var keys := observers.Keys;
      while keys != {}
        invariant observers.Keys == keys
        invariant seen == old(seen) && queue == old(queue)
        decreases |keys|
      {
        var k :| k in keys;
        StopWatch(k);
        keys := keys - {k};
      }
    }

    /** `active_watches`: every registered key, mapped to itself. */
    function ActiveWatches(): (r: map<string, string>)
      reads this
      ensures r.Keys == observers.Keys
      ensures forall k :: k in r ==> r[k] == k
    {
      map k | k in observers.Keys :: k
    }

    /**
     * One round of the worker loop: with an empty queue nothing happens; otherwise the
     * first job leaves the queue and is processed.
     */
    method WorkerStep(outcome: Outcome, dumps: Object -> string, defaultOut: string,
                      moveOriginal: bool, processed: set<string>) returns (effects: seq<Effect>)
      modifies this
      ensures old(queue) == [] ==> queue == [] && effects == []
      ensures old(queue) != [] ==>
                queue == old(queue)[1..] &&
                JobEffects(old(queue)[0], outcome, dumps, defaultOut, moveOriginal, processed, effects)
      ensures observers == old(observers) && seen == old(seen)
    {
      if queue == [] {
        effects := [];
        return;
      }
      var job := queue[0];
      queue := queue[1..];
      effects := ProcessJob(job, outcome, dumps, defaultOut, moveOriginal, processed);
    }
  }
}
