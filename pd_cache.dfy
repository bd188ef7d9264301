/**
 * The `pd_cache` decorator and the `del_cached` helper.
 *
 * The file system is a `Disk`: whether the cache directory `.pd_cache`
 * exists, the files in it (by bare name) and the regular files of the
 * working directory (by name). A payload is opaque: the model stores and
 * returns it unchanged, which is all that pickling promises here.
 *
 * Each state-changing operation is a method of `Disk` whose postcondition
 * equates the new state and the result with a specification function
 * (`CallSpec`, `DelSpec`); the properties of those functions are proved in
 * module PdCacheProperties.
 */
module PdCache {
  import opened CachePaths

  /** What can be raised out of a wrapped call or `del_cached`: an OS error
      about a path, or whatever the wrapped function itself raised. */
  datatype Error = OsError(path: string) | FunctionError

  /** A Python call either returns a value or raises. */
  datatype Outcome<+T> = Returned(value: T) | Raised(error: Error)

  /** A decorated function: its `__name__` and the text of its source lines. */
  datatype Func = Func(name: string, source: string)

  /** What `del_cached` returns when the cache directory is empty. */
  const NoCachedMessage := "No cached DataFrames"

  /** The cache directory after the pruning loop of a miss for `name`. */
  function Pruned<P>(cache: map<string, P>, name: string): map<string, P> {
    map f | f in cache && !PruneSelects(name, f) :: cache[f]
  }

  /** The cache directory after the pruning loop as it is evidently meant to
      work, selecting the glob matches with a 6-character wildcard. */
  function PrunedIntended<P>(cache: map<string, P>, name: string): map<string, P> {
    map f | f in cache && !PruneSelectsIntended(name, f) :: cache[f]
  }

  /** The cache directory after a wrapped call, what the call gave back, and
      whether it invoked the wrapped function. */
  datatype CallStep<P> = CallStep(cache: map<string, P>, result: Outcome<P>, invoked: bool)

  /**
   * One call of the wrapper for function `name` whose source has fingerprint
   * `fp`; `invoke` is what the wrapped function does if it is invoked.
   * On a hit the stored payload comes back. On a miss the matching stale
   * files are pruned first, then the function is invoked; a value it
   * returns is written under the cache path and returned, an exception
   * propagates with nothing written. Without a cache directory the write
   * fails with an OS error about the cache path.
   */
  function CallSpec<P>(hasDir: bool, cache: map<string, P>, name: string, fp: string,
                       invoke: Outcome<P>): CallStep<P>
    requires |fp| == FingerprintLength
  {
    var f := CacheFile(name, fp);
    if hasDir && f in cache then
      CallStep(cache, Returned(cache[f]), false)
    else
      var pruned := Pruned(cache, name);
      match invoke
      case Raised(e) => CallStep(pruned, Raised(e), true)
      case Returned(v) =>
        if hasDir then CallStep(pruned[f := v], Returned(v), true)
        else CallStep(pruned, Raised(OsError(CachePath(name, fp))), true)
  }

  /** `listing` is what listing a directory holding the files `names` gives:
      every name once, in some order. */
  predicate IsListing(listing: seq<string>, names: set<string>) {
    && (forall i, j :: 0 <= i < j < |listing| ==> listing[i] != listing[j])
    && (forall x :: x in listing ==> x in names)
    && (forall x :: x in names ==> x in listing)
  }

  /** Index of the first listed name that is not a file in `files`, or
      `|listing|` when all of them are. */
  function FirstMissing<P>(listing: seq<string>, files: map<string, P>): (k: nat)
    ensures k <= |listing|
    ensures forall j :: 0 <= j < k ==> listing[j] in files
    ensures k < |listing| ==> listing[k] !in files
  {
    if listing == [] || listing[0] !in files then 0
    else 1 + FirstMissing(listing[1..], files)
  }

  /** The first `k` names of `listing`, as a set. */
  function Prefix(listing: seq<string>, k: nat): set<string>
    requires k <= |listing|
  {
    set j | 0 <= j < k :: listing[j]
  }

  /** The files of a directory after a bulk removal, and what the call gave
      back (`Returned(None)` stands for Python's `None`). */
  datatype DelStep<P> = DelStep(files: map<string, P>, result: Outcome<Option<string>>)

  datatype Option<+T> = None | Some(value: T)

  /**
   * `del_cached` given the cache directory's listing: an OS error when the
   * directory does not exist; the message when it is empty; otherwise each
   * listed name is removed from the WORKING directory `cwd`, in listing
   * order, up to the first that is not there, which raises.
   */
  function DelSpec<P>(hasDir: bool, listing: seq<string>, cwd: map<string, P>): DelStep<P> {
    if !hasDir then DelStep(cwd, Raised(OsError(DotCachePrefix)))
    else if |listing| == 0 then DelStep(cwd, Returned(Some(NoCachedMessage)))
    else
      var k := FirstMissing(listing, cwd);
      DelStep(cwd - Prefix(listing, k),
              if k < |listing| then Raised(OsError(listing[k])) else Returned(None))
  }

  /**
   * What `del_cached` evidently intends: remove every listed file from the
   * cache directory itself, which is then empty. Same results otherwise.
   */
  function ClearIntended<P>(hasDir: bool, listing: seq<string>, cache: map<string, P>): (s: DelStep<P>)
    requires hasDir ==> IsListing(listing, cache.Keys)
    ensures hasDir ==> s.files == map[]
    ensures !hasDir ==> s == DelStep(cache, Raised(OsError(DotCachePrefix)))
    ensures hasDir ==> s.result == if cache == map[] then Returned(Some(NoCachedMessage)) else Returned(None)
  {
    if !hasDir then DelStep(cache, Raised(OsError(DotCachePrefix)))
    else if |listing| == 0 then DelStep(cache, Returned(Some(NoCachedMessage)))
    else
      assert listing[0] in cache;
      DelStep(cache - Prefix(listing, |listing|), Returned(None))
  }

  /**
   * The file system the decorator works on.
   */
  class Disk<P> {
    /** Whether `.pd_cache` exists in the working directory. */
    var hasCacheDir: bool
    /** The files in `.pd_cache`, by bare name. */
    var cache: map<string, P>
    /** The regular files of the working directory, by name. */
    var cwd: map<string, P>

    /** The cache directory holds no file when it does not exist, and the
        working directory's regular files never include `.pd_cache` itself. */
    ghost predicate Valid()
      reads this
    {
      && (!hasCacheDir ==> cache == map[])
      && CacheDir !in cwd
    }

    constructor (hasCacheDir: bool, cache: map<string, P>, cwd: map<string, P>)
      requires !hasCacheDir ==> cache == map[]
      requires CacheDir !in cwd
      ensures Valid()
      ensures this.hasCacheDir == hasCacheDir && this.cache == cache && this.cwd == cwd
    {
      this.hasCacheDir := hasCacheDir;
      this.cache := cache;
      this.cwd := cwd;
    }

    /** Decorating a function creates `.pd_cache` when it is missing; an
        existing one is kept with its files. */
    method MakeCacheDir()
      requires Valid()
      modifies this
      ensures Valid() && hasCacheDir
      ensures cache == if old(hasCacheDir) then old(cache) else map[]
      ensures cwd == old(cwd)
    {
      if !hasCacheDir {
        hasCacheDir := true;
        cache := map[];
      }
    }

    /** The pruning loop of a miss: every glob match of `<name>_*.pkl`, taken
        in whatever order the glob lists them, is removed when its returned
        path is 20 characters longer than `name`. */
    method PruneStale(name: string)
      requires Valid()
      modifies this
      ensures Valid() && hasCacheDir == old(hasCacheDir) && cwd == old(cwd)
      ensures cache == Pruned(old(cache), name)
    {
      var globbed := set f | f in cache && GlobMatches(name, f);
      var pending := globbed;
      while pending != {}
        invariant pending <= globbed
        invariant Valid() && hasCacheDir == old(hasCacheDir) && cwd == old(cwd)
        invariant cache.Keys <= old(cache).Keys
        invariant forall f :: f in cache ==> cache[f] == old(cache)[f]
        invariant forall f :: f in old(cache) ==>
                    (f in cache <==> f in pending || !PruneSelects(name, f))
        decreases pending
      {
        var cached :| cached in pending;
        if |GlobPath(cached)| - |name| == PruneLengthDelta {
          cache := cache - {cached};
        }
        pending := pending - {cached};
      }
    }

    /**
     * A call of the wrapper `pd_cache` returns for `func`. `md5` stands for
     * the hex digest of a source text, and `invoke` for what `func` does
     * when it is invoked; `invoked` says whether it was.
     */
    method Call(func: Func, md5: string -> HexDigest, invoke: Outcome<P>)
      returns (r: Outcome<P>, invoked: bool)
      requires Valid()
      modifies this
      ensures Valid() && hasCacheDir == old(hasCacheDir) && cwd == old(cwd)
      ensures !hasCacheDir ==> cache == old(cache)
      ensures CallStep(cache, r, invoked)
           == CallSpec(old(hasCacheDir), old(cache), func.name, Fingerprint(md5(func.source)), invoke)
    {
      var fp := Fingerprint(md5(func.source));
      var f := CacheFile(func.name, fp);
      if hasCacheDir && f in cache {
        return Returned(cache[f]), false;
      }
      PruneStale(func.name);
      invoked := true;
      match invoke {
        case Raised(e) =>
          r := Raised(e);
        case Returned(v) =>
          if hasCacheDir {
            cache := cache[f := v];
            r := Returned(v);
          } else {
            r := Raised(OsError(CachePath(func.name, fp)));
          }
      }
    }

    /**
     * `del_cached`, given the order `listing` in which the cache directory
     * lists its files. The listed names are removed from the working
     * directory, not from `.pd_cache`, which keeps all its files.
     */
    method DelCached(listing: seq<string>) returns (r: Outcome<Option<string>>)
      requires Valid()
      requires hasCacheDir ==> IsListing(listing, cache.Keys)
      modifies this
      ensures Valid() && hasCacheDir == old(hasCacheDir) && cache == old(cache)
      ensures DelStep(cwd, r) == DelSpec(old(hasCacheDir), listing, old(cwd))
    {
      if !hasCacheDir {
        return Raised(OsError(DotCachePrefix));
      }
      if |listing| == 0 {
        return Returned(Some(NoCachedMessage));
      }
      var i := 0;
      while i < |listing|
        invariant 0 <= i <= |listing|
        invariant Valid() && hasCacheDir && cache == old(cache)
        invariant forall j :: 0 <= j < i ==> listing[j] in old(cwd)
        invariant cwd == old(cwd) - Prefix(listing, i)
      {
        if listing[i] !in cwd {
          assert listing[i] !in Prefix(listing, i);
          return Raised(OsError(listing[i]));
        }
        assert Prefix(listing, i + 1) == Prefix(listing, i) + {listing[i]};
        cwd := cwd - {listing[i]};
        i := i + 1;
      }
      r := Returned(None);
    }
  }
}
