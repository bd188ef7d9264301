/**
 * What a wrapped call and `del_cached` promise, proved about the
 * specification functions that the methods of `PdCache.Disk` are tied to.
 */
module PdCacheProperties {
  import opened CachePaths
  import opened PdCache

  /** Hit: the stored payload comes back, the wrapped function is not
      invoked, and the cache directory is unchanged. */
  lemma HitServesStoredPayload<P>(cache: map<string, P>, name: string, fp: string, invoke: Outcome<P>)
    requires |fp| == FingerprintLength
    requires CacheFile(name, fp) in cache
    ensures var s := CallSpec(true, cache, name, fp, invoke);
            && s.result == Returned(cache[CacheFile(name, fp)])
            && !s.invoked
            && s.cache == cache
  {
  }

  /** Miss: the call returns exactly what the function produced, and the
      cache path now holds it. */
  lemma MissStoresProducedValue<P>(cache: map<string, P>, name: string, fp: string, v: P)
    requires |fp| == FingerprintLength
    requires CacheFile(name, fp) !in cache
    ensures var s := CallSpec(true, cache, name, fp, Returned(v));
            && s.invoked
            && s.result == Returned(v)
            && CacheFile(name, fp) in s.cache && s.cache[CacheFile(name, fp)] == v
  {
  }

  /** Miss: the only files that go are those the pruning test selects, the
      only file added is the cache path, and every file kept keeps its
      contents. */
  lemma MissChangesOnlyPrunedAndNew<P>(hasDir: bool, cache: map<string, P>, name: string, fp: string,
                                       invoke: Outcome<P>)
    requires IsFingerprint(fp)
    requires CacheFile(name, fp) !in cache
    ensures var s := CallSpec(hasDir, cache, name, fp, invoke);
            && (forall f :: f in cache && PruneSelects(name, f) ==> f !in s.cache)
            && (forall f :: f in cache && !PruneSelects(name, f) ==> f in s.cache && s.cache[f] == cache[f])
            && (forall f :: f in s.cache && f !in cache ==> f == CacheFile(name, fp))
  {
  }

  /** Miss: pruning comes before the function is invoked, so when it raises
      the pruned files are already gone and no cache file is written. */
  lemma PruneHappensBeforeInvoke<P>(hasDir: bool, cache: map<string, P>, name: string, fp: string, e: Error)
    requires IsFingerprint(fp)
    requires CacheFile(name, fp) !in cache
    ensures var s := CallSpec(hasDir, cache, name, fp, Raised(e));
            && s.invoked
            && s.result == Raised(e)
            && s.cache == Pruned(cache, name)
            && CacheFile(name, fp) !in s.cache
  {
  }

  /** Two consecutive calls with an unchanged source: once the first has
      returned a value, the second returns the same value without invoking
      the function and leaves the cache directory as it was. */
  lemma ConsecutiveCallsInvokeOnce<P>(hasDir: bool, cache: map<string, P>, func: Func,
                                      md5: string -> HexDigest, first: Outcome<P>, second: Outcome<P>)
    ensures var fp := Fingerprint(md5(func.source));
            var s1 := CallSpec(hasDir, cache, func.name, fp, first);
            var s2 := CallSpec(hasDir, s1.cache, func.name, fp, second);
            s1.result.Returned? ==> !s2.invoked && s2.result == s1.result && s2.cache == s1.cache
  {
  }

  /** A changed source: when its fingerprint has no file yet, the function
      is invoked anew; the file of the previous fingerprint is not pruned
      and still holds the previous payload. */
  lemma ChangedSourceKeepsStaleEntry<P>(cache: map<string, P>, name: string, oldFp: string, newFp: string,
                                        invoke: Outcome<P>)
    requires IsFingerprint(oldFp) && IsFingerprint(newFp)
    requires CacheFile(name, oldFp) in cache
    requires CacheFile(name, newFp) !in cache
    ensures var s := CallSpec(true, cache, name, newFp, invoke);
            && s.invoked
            && CacheFile(name, oldFp) in s.cache
            && s.cache[CacheFile(name, oldFp)] == cache[CacheFile(name, oldFp)]
  {
  }

  /** A concrete instance of the above: after `load` is changed, its stale cache
      file survives beside the new one. */
  lemma StaleEntrySurvivesMiss()
    ensures var before := map[CacheFile("load", "aaaaaa") := 1];
            var s := CallSpec(true, before, "load", "bbbbbb", Returned(2));
            s.cache == map[CacheFile("load", "aaaaaa") := 1, CacheFile("load", "bbbbbb") := 2]
  {
    var stale, current := CacheFile("load", "aaaaaa"), CacheFile("load", "bbbbbb");
    assert IsFingerprint("aaaaaa");
    PruneSparesCacheFiles("load", "load", "aaaaaa");
    assert stale != current by {
      assert stale[5] != current[5];
    }
    assert Pruned(map[stale := 1], "load") == map[stale := 1];
  }

  /** With the intended pruning test, a miss that writes leaves exactly one
      cache file for the function: the one of the current fingerprint. */
  lemma {:induction false} IntendedMissKeepsOneEntry<P>(cache: map<string, P>, name: string, fp: string, v: P)
    requires IsFingerprint(fp)
    ensures var after := PrunedIntended(cache, name)[CacheFile(name, fp) := v];
            && CacheFile(name, fp) in after && after[CacheFile(name, fp)] == v
            && forall other :: IsFingerprint(other) && CacheFile(name, other) in after ==> other == fp
  {
    var after := PrunedIntended(cache, name)[CacheFile(name, fp) := v];
    forall other | IsFingerprint(other) && CacheFile(name, other) in after
      ensures other == fp
    {
      IntendedPruneSelectsOwnEntries(name, name, other);
      CacheFileFingerprint(name, other);
      CacheFileFingerprint(name, fp);
    }
  }

  /** A directory lists nothing exactly when it holds no file. */
  lemma ListingEmptyIff<P>(listing: seq<string>, cache: map<string, P>)
    requires IsListing(listing, cache.Keys)
    ensures listing == [] <==> cache == map[]
  {
    if listing != [] {
      assert listing[0] in cache;
    }
  }

  /** `del_cached` on an empty cache directory returns the message and
      removes nothing. */
  lemma DelOnEmptyDirectory<P>(cache: map<string, P>, listing: seq<string>, cwd: map<string, P>)
    requires IsListing(listing, cache.Keys)
    requires cache == map[]
    ensures DelSpec(true, listing, cwd) == DelStep(cwd, Returned(Some(NoCachedMessage)))
  {
    ListingEmptyIff(listing, cache);
  }

  /** `del_cached` when every cached name is also a file of the working
      directory: it returns `None`, and exactly those working-directory
      files are gone. */
  lemma DelRemovesSameNamedFiles<P>(cache: map<string, P>, listing: seq<string>,
                                                     cwd: map<string, P>)
    requires IsListing(listing, cache.Keys)
    requires cache != map[]
    requires cache.Keys <= cwd.Keys
    ensures DelSpec(true, listing, cwd) == DelStep(cwd - cache.Keys, Returned(None))
  {
  }

  /** `del_cached` when some cached name is not a file of the working
      directory: it raises about the first such name in listing order, after
      removing every name listed before it; names listed after it stay, and
      the files that stay keep their contents. */
  lemma DelRaisesAtFirstMissing<P>(cache: map<string, P>, listing: seq<string>,
                                                    cwd: map<string, P>)
    requires IsListing(listing, cache.Keys)
    requires !(cache.Keys <= cwd.Keys)
    ensures var s := DelSpec(true, listing, cwd);
            && s.result.Raised? && s.result.error.OsError?
            && s.result.error.path == listing[FirstMissing(listing, cwd)]
            && s.result.error.path in cache && s.result.error.path !in cwd
            && (forall x :: x in cwd && x !in s.files ==> x in cache)
            && (forall j :: 0 <= j < FirstMissing(listing, cwd) ==> listing[j] !in s.files)
            && (forall j :: FirstMissing(listing, cwd) < j < |listing| && listing[j] in cwd ==> listing[j] in s.files)
            && (forall x :: x in s.files ==> x in cwd && s.files[x] == cwd[x])
  {
  }

  /** A concrete instance: the cache directory holds one file that the working
      directory does not, so `del_cached` raises (and, by `Disk.DelCached`,
      leaves `.pd_cache` as it was). */
  lemma DelCachedRaisesOnCachedFile()
    ensures var listing := [CacheFile("load", "abcdef")];
            DelSpec<int>(true, listing, map[]) == DelStep(map[], Raised(OsError(CacheFile("load", "abcdef"))))
  {
  }

  /** A concrete instance: the working directory happens to hold a file of the
      same name as the one cached file, and that working-directory file is
      the one `del_cached` deletes. */
  lemma DelCachedDeletesWorkingFile()
    ensures var listing := [CacheFile("load", "abcdef")];
            DelSpec(true, listing, map[CacheFile("load", "abcdef") := 7]) == DelStep(map[], Returned(None))
  {
  }
}
