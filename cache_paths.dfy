/**
 * Names and paths of the files the `pd_cache` decorator keeps in its cache
 * directory, and the two string tests it applies to them: the glob pattern
 * `<name>_*.pkl` and the length test that decides which matches are pruned.
 *
 * The cache directory is modelled as a map keyed by the bare file name.
 * The hit test and the write name a file as `.pd_cache/<bare>`, the pruning
 * glob returns it as `./.pd_cache/<bare>`; both prefixes are kept here so
 * that the length arithmetic of the pruning test is the source's own.
 */
module CachePaths {

  /** Name of the cache directory, relative to the working directory. */
  const CacheDir := ".pd_cache"

  /** Prefix of the path that the hit test and the write use. */
  const CachePrefix := ".pd_cache/"

  /** Prefix of the pruning glob's pattern and of every path it returns;
      also the directory that `del_cached` lists. */
  const DotCachePrefix := "./.pd_cache/"

  const Extension := ".pkl"

  const HexDigits := "0123456789abcdef"

  /** How many characters of the hex digest a cache file name keeps. */
  const FingerprintLength := 6

  /** The pruning test keeps a glob match when its path is this much longer
      than the function name. */
  const PruneLengthDelta := 20

  predicate IsHexDigest(s: string) {
    |s| == 32 && forall i :: 0 <= i < |s| ==> s[i] in HexDigits
  }

  /** What `hashlib.md5(...).hexdigest()` returns: 32 lower-case hex digits. */
  type HexDigest = s: string | IsHexDigest(s) witness "00000000000000000000000000000000"

  /** A fingerprint as it appears in a cache file name: 6 lower-case hex digits. */
  predicate IsFingerprint(fp: string) {
    |fp| == FingerprintLength && forall i :: 0 <= i < |fp| ==> fp[i] in HexDigits
  }

  /** The first six characters of the digest of a function's source. */
  function Fingerprint(digest: HexDigest): (fp: string)
    ensures IsFingerprint(fp)
    ensures fp <= digest
  {
    digest[..FingerprintLength]
  }

  /** Bare name, inside the cache directory, of the file holding the result
      of function `name` whose source has fingerprint `fp`. */
  function CacheFile(name: string, fp: string): string {
    name + "_" + fp + Extension
  }

  /** The path the hit test and the write use: the cache directory prefix
      followed by the bare name, `|name| + 21` characters for a fingerprint. */
  function CachePath(name: string, fp: string): (path: string)
    requires |fp| == FingerprintLength
    ensures |path| == |name| + 21
    ensures |CachePrefix| <= |path|
    ensures path[..|CachePrefix|] == CachePrefix
    ensures path[|CachePrefix|..] == CacheFile(name, fp)
  {
    CachePrefix + name + "_" + fp + Extension
  }

  /** The path under which the pruning glob returns bare file `file`. */
  function GlobPath(file: string): (path: string)
    ensures |path| == |file| + 12
    ensures path[..|DotCachePrefix|] == DotCachePrefix && path[|DotCachePrefix|..] == file
  {
    DotCachePrefix + file
  }

  /** Whether bare file name `file` matches the glob `<name>_*.pkl`: it starts
      with `<name>_`, ends with `.pkl`, and the two do not overlap. */
  predicate GlobMatches(name: string, file: string) {
    && |file| >= |name| + 1 + |Extension|
    && file[..|name| + 1] == name + "_"
    && file[|file| - |Extension|..] == Extension
  }

  /** The part of a glob match that the `*` stands for. */
  function Wildcard(name: string, file: string): string
    requires GlobMatches(name, file)
  {
    file[|name| + 1..|file| - |Extension|]
  }

  /** A glob match is exactly `<name>_<wildcard>.pkl`. */
  lemma GlobMatchShape(name: string, file: string)
    requires GlobMatches(name, file)
    ensures file == name + "_" + Wildcard(name, file) + Extension
  {
  }

  /** Every `<name>_<w>.pkl` matches the glob, and `w` is its wildcard part. */
  lemma GlobMatchesEveryWildcard(name: string, w: string)
    ensures GlobMatches(name, name + "_" + w + Extension)
    ensures Wildcard(name, name + "_" + w + Extension) == w
  {
  }

  /** A cache file name gives back its fingerprint as its wildcard part. */
  lemma CacheFileFingerprint(name: string, fp: string)
    ensures GlobMatches(name, CacheFile(name, fp))
    ensures Wildcard(name, CacheFile(name, fp)) == fp
  {
  }

  /** The test of the pruning loop: a glob match whose returned path is
      exactly 20 characters longer than the function name. */
  predicate PruneSelects(name: string, file: string) {
    GlobMatches(name, file) && |GlobPath(file)| - |name| == PruneLengthDelta
  }

  /** The pruning test selects exactly the glob matches whose wildcard part
      has 3 characters. */
  lemma PruneSelectsThreeCharWildcards(name: string, file: string)
    ensures PruneSelects(name, file) <==> GlobMatches(name, file) && |Wildcard(name, file)| == 3
  {
  }

  /** The pruning test never selects a file the cache wrote, for this or any
      other function: a fingerprint has 6 characters, none of them `_`. */
  lemma {:induction false} PruneSparesCacheFiles(name: string, owner: string, fp: string)
    requires IsFingerprint(fp)
    ensures !PruneSelects(name, CacheFile(owner, fp))
  {
    var file := CacheFile(owner, fp);
    if |owner| + 3 == |name| {
      // the only length the test accepts: then the `_` that ends the glob's
      // literal prefix would have to be fp[2], a hex digit
      assert file[|name|] == fp[2];
      assert fp[2] in HexDigits;
    }
  }

  /** The test the length check evidently intends: `./.pd_cache/` (12) plus
      `_` (1), 6 fingerprint characters and `.pkl` (4) is 23, not 20. */
  predicate PruneSelectsIntended(name: string, file: string) {
    GlobMatches(name, file) && |GlobPath(file)| - |name| == 23
  }

  /** The intended test selects a cache file exactly when it belongs to the
      same function, whatever its fingerprint: files of functions whose name
      merely starts with `<name>_` are spared. */
  lemma {:induction false} IntendedPruneSelectsOwnEntries(name: string, owner: string, fp: string)
    requires IsFingerprint(fp)
    ensures PruneSelectsIntended(name, CacheFile(owner, fp)) <==> owner == name
  {
    var file := CacheFile(owner, fp);
    if owner == name {
      GlobMatchesEveryWildcard(name, fp);
    }
    if PruneSelectsIntended(name, file) {
      assert |owner| == |name|;
      assert owner == file[..|owner|] == file[..|name| + 1][..|name|] == name;
    }
  }
}
