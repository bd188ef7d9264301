# pandas_cache in Dafny

A model of `pandas_cache`, a decorator that keeps the result of a function
on disk. The file is named after the function and a fingerprint of its
source. `pd_cache` wraps a function. A call of the wrapper computes the
fingerprint: the first 6 hex digits of the MD5 digest of the function's
source lines. If `.pd_cache/<name>_<fingerprint>.pkl` exists, the call loads
and returns it without invoking the function (a hit). Otherwise (a miss) it
runs a pruning loop over the glob `./.pd_cache/<name>_*.pkl`, then invokes
the function, writes the result under that path and returns it.
`del_cached` lists `.pd_cache` and removes every listed name.

The file system is a class `PdCache.Disk` with three fields: whether
`.pd_cache` exists, the files in it (a map from bare file name to an opaque
payload), and the regular files of the working directory. The decoration
step, the pruning loop, the wrapped call and `del_cached` are its methods.
Each method's postcondition equates the new state and the result with a
specification function: `CallSpec` for the wrapped call, `DelSpec` for
`del_cached`. Module `PdCacheProperties` proves what those functions promise.
The file names and the two string tests live in module `CachePaths`: the
glob match and the pruning length test.

The model follows the code, which differs from its own docstring in two
places:

- The pruning test compares the length of the path that the glob returns
  with the function name. That path starts with the 12 characters
  `./.pd_cache/`. The test wants a difference of 20, so it selects only
  matches whose wildcard part has 3 characters. A previous cache file has
  a 6-character fingerprint, so it is never deleted. The docstring and the
  comment at line 52 say the previous pickle is removed.
- `del_cached` lists `./.pd_cache/` but removes the bare names, so it
  removes files of the working directory. It raises at the first listed
  name that is not such a file. `.pd_cache` itself keeps all its files.

The cache key ignores the call's arguments: it depends only on the name and
the source text. The arguments reach the model only through `invoke`, the
outcome that the wrapped function would have on this call.

## Model

| member | source | states |
|---|---|---|
| `CachePaths.Fingerprint` | pandas_cache/pandas_cache.py:42 | the fingerprint is 6 lower-case hex digits and a prefix of the MD5 hex digest |
| `CachePaths.CachePath` | pandas_cache/pandas_cache.py:44 | the path that the hit test and the write use is `\|name\| + 21` long, and it is `.pd_cache/` followed by the bare file `<name>_<fp>.pkl` |
| `CachePaths.GlobPath` | pandas_cache/pandas_cache.py:54 | a path returned by the glob is `./.pd_cache/` followed by the bare file name, so it is 12 characters longer |
| `CachePaths.GlobMatchShape` | pandas_cache/pandas_cache.py:54 | every file that matches `<name>_*.pkl` is `<name>_<w>.pkl` for its wildcard part `w` |
| `CachePaths.GlobMatchesEveryWildcard` | pandas_cache/pandas_cache.py:54 | conversely, every `<name>_<w>.pkl` matches, and `w` is its wildcard part |
| `CachePaths.CacheFileFingerprint` | pandas_cache/pandas_cache.py:44-54 | a cache file of the function matches its own glob, with the fingerprint as the wildcard part |
| `CachePaths.PruneSelectsThreeCharWildcards` | pandas_cache/pandas_cache.py:54-55 | the pruning test selects a file exactly when it matches the glob and its wildcard part has 3 characters |
| `CachePaths.PruneSparesCacheFiles` | pandas_cache/pandas_cache.py:54-56 | the pruning test never selects a file that the cache wrote, for any function, because a fingerprint has 6 hex digits |
| `CachePaths.IntendedPruneSelectsOwnEntries` | pandas_cache/pandas_cache.py:52-55 | with the intended difference 23, the test selects a cache file exactly when it belongs to the same function, so functions whose names start with `<name>_` are spared |
| `CachePaths.CacheFile` | pandas_cache/pandas_cache.py:44 | definition of the bare file name `<name>_<fp>.pkl`, characterised by `CachePath` and `CacheFileFingerprint` |
| `CachePaths.GlobMatches` | pandas_cache/pandas_cache.py:54 | definition of the glob `<name>_*.pkl` on a bare file name, characterised by `GlobMatchShape` and `GlobMatchesEveryWildcard` |
| `CachePaths.PruneSelects` | pandas_cache/pandas_cache.py:55 | definition of the pruning test on a glob match, characterised by `PruneSelectsThreeCharWildcards` and `PruneSparesCacheFiles` |
| `PdCache.Pruned` | pandas_cache/pandas_cache.py:54-57 | definition of the cache directory after the pruning loop, characterised by `Disk.PruneStale` and `MissChangesOnlyPrunedAndNew` |
| `CachePaths.PruneSelectsIntended` | pandas_cache/pandas_cache.py:55 | definition of the pruning test with the intended difference 23, characterised by `IntendedPruneSelectsOwnEntries` |
| `PdCache.PrunedIntended` | pandas_cache/pandas_cache.py:54-57 | definition of the cache directory after the intended pruning loop, characterised by `IntendedMissKeepsOneEntry` |
| `PdCache.CallSpec` | pandas_cache/pandas_cache.py:39-62 | definition of one wrapped call, characterised by `HitServesStoredPayload`, `MissStoresProducedValue`, `MissChangesOnlyPrunedAndNew`, `PruneHappensBeforeInvoke` and `ConsecutiveCallsInvokeOnce` |
| `PdCache.DelSpec` | pandas_cache/pandas_cache.py:73-82 | definition of `del_cached`, characterised by `DelOnEmptyDirectory`, `DelRemovesSameNamedFiles` and `DelRaisesAtFirstMissing` |
| `PdCache.FirstMissing` | pandas_cache/pandas_cache.py:78 | the index where `del_cached` stops: every earlier listed name is a file, and the name at it is not |
| `PdCache.ClearIntended` | pandas_cache/pandas_cache.py:73-82 | the intended `del_cached`, removing inside `.pd_cache`, empties the cache directory, returns `None` when it held files and gives the same message and error otherwise |
| `PdCache.Disk.MakeCacheDir` | pandas_cache/pandas_cache.py:31-36 | decoration leaves `.pd_cache` existing; an existing one keeps its files, a missing one is created empty |
| `PdCache.Disk.PruneStale` | pandas_cache/pandas_cache.py:54-57 | the pruning loop, over the glob matches in any order, leaves exactly the files that the pruning test does not select, with their contents |
| `PdCache.Disk.Call` | pandas_cache/pandas_cache.py:39-62 | the new cache directory, the result and whether the function was invoked are those of `CallSpec` for the fingerprint of the source; the working directory is untouched, and without `.pd_cache` the (empty) cache stays as it was |
| `PdCache.Disk.DelCached` | pandas_cache/pandas_cache.py:73-82 | the new working directory and the result are those of `DelSpec` for the listing order; `.pd_cache` keeps all its files |
| `PdCacheProperties.HitServesStoredPayload` | pandas_cache/pandas_cache.py:46-49 | on a hit the stored payload is returned, the function is not invoked, and the cache directory is unchanged |
| `PdCacheProperties.MissStoresProducedValue` | pandas_cache/pandas_cache.py:58-62 | on a miss the call returns exactly the value the function produced, and the cache path then holds it |
| `PdCacheProperties.MissChangesOnlyPrunedAndNew` | pandas_cache/pandas_cache.py:54-60 | on a miss every selected file is gone, every other file keeps its contents, and the only file added is the cache path |
| `PdCacheProperties.PruneHappensBeforeInvoke` | pandas_cache/pandas_cache.py:54-59 | when the function raises on a miss, the exception propagates, the selected files are already gone and no cache file is written |
| `PdCacheProperties.ConsecutiveCallsInvokeOnce` | pandas_cache/pandas_cache.py:41-62 | after a call with a given source returns a value, a second call with the same source returns the same value without invoking the function or changing the cache |
| `PdCacheProperties.ChangedSourceKeepsStaleEntry` | pandas_cache/pandas_cache.py:52-60 | after the source changes to a fingerprint with no file yet, the call invokes the function, and the file of the previous fingerprint survives with its payload |
| `PdCacheProperties.StaleEntrySurvivesMiss` | pandas_cache/pandas_cache.py:54-60 | a concrete instance: `load_aaaaaa.pkl` survives beside the new `load_bbbbbb.pkl` |
| `PdCacheProperties.IntendedMissKeepsOneEntry` | pandas_cache/pandas_cache.py:13-14 | with the intended pruning test, a miss that writes leaves exactly one cache file for the function, the one of the current fingerprint |
| `PdCacheProperties.ListingEmptyIff` | pandas_cache/pandas_cache.py:75-77 | the listing of `.pd_cache` is empty exactly when the directory holds no file |
| `PdCacheProperties.DelOnEmptyDirectory` | pandas_cache/pandas_cache.py:75-82 | on an empty cache directory `del_cached` returns `'No cached DataFrames'` and removes nothing |
| `PdCacheProperties.DelRemovesSameNamedFiles` | pandas_cache/pandas_cache.py:75-80 | when every cached name is also a working-directory file, `del_cached` returns `None` and exactly those working-directory files are gone |
| `PdCacheProperties.DelRaisesAtFirstMissing` | pandas_cache/pandas_cache.py:75-78 | when some cached name is not a working-directory file, `del_cached` raises about the first such name in listing order, after removing every name listed before it from the working directory; the names listed after it stay there, only cached names are removed, and the files that stay keep their contents |
| `PdCacheProperties.DelCachedRaisesOnCachedFile` | pandas_cache/pandas_cache.py:75-78 | a concrete instance: `.pd_cache` holds `load_abcdef.pkl` and the working directory does not, so `del_cached` raises about it |
| `PdCacheProperties.DelCachedDeletesWorkingFile` | pandas_cache/pandas_cache.py:75-80 | a concrete instance: a working-directory file named like the one cached file is what `del_cached` deletes |

## Left out

- MD5 is not modelled. `md5`, a parameter, maps a source text to a 32-digit lower-case hex digest.
- Source retrieval with `inspect.getsourcelines` is not modelled. The source text is a field of `Func`.
- Pickling is not modelled. A payload is opaque and stored unchanged. Failures of `read_pickle` (a corrupt file) and of `to_pickle` (an unserializable result) are not modelled.
- The `print` diagnostics are output only and are left out.
- OS errors are one kind, `OsError(path)`. The model does not tell a missing file from a directory or a permission error. A failure of `mkdir` other than "already exists" is not modelled. Neither is a regular file named `.pd_cache` in the working directory.
- `GlobMatches` reads the function name literally, which is right for names made by `def`. Glob metacharacters in a name are left out, and so are a glob match that is a directory and case-insensitive file systems.
- The hit test `os.path.exists` is modelled as "the bare name is a file in `.pd_cache`". A directory of that name is left out.
- Races between processes and writes interrupted by a crash are left out. The model is sequential.
- The order in which `glob` returns matches is chosen by the model. The order in which `os.listdir` lists names is the parameter `listing`.
- `ConsecutiveCallsInvokeOnce` promises nothing when the first call raises. The function is then invoked again on the next call, as the code does.
- `Disk.Call` and `MissChangesOnlyPrunedAndNew` take the wrapped function as having no effect on the file system: `invoke` is only what `func(*args, **kw)` returns or raises. A wrapped function that touches `.pd_cache` or the working directory is not modelled. One example is a function that calls another decorated function, which prunes and writes its own cache files. For such a function, "the only file added is the cache path" does not hold.
- The demonstration function `test`, the `__main__` block and `setup.py` are packaging and glue.

## Findings

| source | as written | input that shows it | evidently intended | confidence | as-written member | corrected member |
|---|---|---|---|---|---|---|
| pandas_cache/pandas_cache.py:55 | `len(cached) - len(func.__name__) == 20`, where the glob path carries the 12-character prefix `./.pd_cache/`, selects only 3-character wildcards | `load` is cached as `load_aaaaaa.pkl`, its source changes to fingerprint `bbbbbb`, and the next call keeps both files | a difference of 23 (12 + 1 + 6 + 4), which deletes the previous pickle as lines 13-14 promise | high; not executed | `PdCacheProperties.StaleEntrySurvivesMiss` | `PdCacheProperties.IntendedMissKeepsOneEntry` |
| pandas_cache/pandas_cache.py:78 | `os.remove(x)` on the bare names listed from `./.pd_cache/` removes files of the working directory | `.pd_cache` holds `load_abcdef.pkl` and the working directory has no such file: `del_cached` raises and `.pd_cache` keeps the file | remove `./.pd_cache/` + `x`, emptying the cache directory as lines 16-17 promise | high; not executed | `PdCacheProperties.DelCachedRaisesOnCachedFile` | `PdCache.ClearIntended` |

The corrected definitions are stated beside the as-written ones
(`CachePaths.PruneSelectsIntended`, `PdCache.PrunedIntended`,
`PdCache.ClearIntended`). The `Disk` methods keep the as-written behaviour,
because they model the code as it runs.
