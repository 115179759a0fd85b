/**
 * Commit-hash rules of the binary staleness check (internal/version/stale.go).
 *
 * Hashes are byte strings, as the source measures and slices them by byte.
 * The build-time commit is a package-level variable, modelled as the field of
 * a `BuildMetadata` object; the build settings, the output of
 * `git rev-parse HEAD` and the parsed commit count are parameters.
 */
module VersionStale {
  import opened Wrappers

  newtype byte = x: int | 0 <= x < 256

  type Bytes = seq<byte>

  /** The length `ShortCommit` shortens to. */
  const SHORT_LENGTH := 12

  /** The fewest bytes two hashes must both have for a prefix comparison to mean anything. */
  const MIN_MATCH_LENGTH := 7

  function Min(a: int, b: int): int {
    if a < b then a else b
  }

  /** The first twelve bytes of a hash, or the whole hash when it is no longer. */
  function ShortCommit(hash: Bytes): (r: Bytes)
    ensures |r| == Min(|hash|, SHORT_LENGTH)
    ensures r == hash[..|r|]
    ensures |hash| <= SHORT_LENGTH ==> r == hash
  {
    if |hash| > SHORT_LENGTH then hash[..SHORT_LENGTH] else hash
  }

  /** Shortening a short hash changes nothing. */
  lemma ShortCommitIdempotent(hash: Bytes)
    ensures ShortCommit(ShortCommit(hash)) == ShortCommit(hash)
  {
  }

  /** Whether `s` starts with `prefix`. */
  function HasPrefix(s: Bytes, prefix: Bytes): bool {
    |s| >= |prefix| && s[..|prefix|] == prefix
  }

  /** Whether two hashes name the same commit: the shorter, of at least seven bytes, begins the longer. */
  function CommitsMatch(a: Bytes, b: Bytes): (r: bool)
    ensures |a| < MIN_MATCH_LENGTH || |b| < MIN_MATCH_LENGTH ==> !r
  {
    var minLen := if |b| < |a| then |b| else |a|;
    if minLen < MIN_MATCH_LENGTH then false
    else HasPrefix(a, b[..minLen]) || HasPrefix(b, a[..minLen])
  }

  /** For hashes of seven bytes or more, matching means agreeing on the length of the shorter. */
  lemma CommitsMatchIffCommonPrefix(a: Bytes, b: Bytes)
    requires |a| >= MIN_MATCH_LENGTH && |b| >= MIN_MATCH_LENGTH
    ensures CommitsMatch(a, b) <==> a[..Min(|a|, |b|)] == b[..Min(|a|, |b|)]
    ensures CommitsMatch(a, b) <==> (if |a| <= |b| then HasPrefix(b, a) else HasPrefix(a, b))
  {
    var m := Min(|a|, |b|);
    if |a| <= |b| {
      assert a[..m] == a;
    } else {
      assert b[..m] == b;
    }
  }

  /** Matching does not depend on the order of the two hashes. */
  lemma CommitsMatchSymmetric(a: Bytes, b: Bytes)
    ensures CommitsMatch(a, b) == CommitsMatch(b, a)
  {
  }

  /** Every hash of seven bytes or more matches itself. */
  lemma CommitsMatchReflexive(a: Bytes)
    requires |a| >= MIN_MATCH_LENGTH
    ensures CommitsMatch(a, a)
  {
    assert a[..|a|] == a;
  }

  /** The ASCII white-space bytes: tab, line feed, vertical tab, form feed, carriage return, space. */
  predicate IsSpace(c: byte) {
    c == 9 || c == 10 || c == 11 || c == 12 || c == 13 || c == 32
  }

  /** `s` without its leading white space. */
  function TrimLeft(s: Bytes): (r: Bytes)
    ensures |r| <= |s| && r == s[|s| - |r|..]
    ensures forall k :: 0 <= k < |s| - |r| ==> IsSpace(s[k])
    ensures r != [] ==> !IsSpace(r[0])
    decreases |s|
  {
    if s != [] && IsSpace(s[0]) then TrimLeft(s[1..]) else s
  }

  /** `s` without its trailing white space. */
  function TrimRight(s: Bytes): (r: Bytes)
    ensures |r| <= |s| && r == s[..|r|]
    ensures forall k :: |r| <= k < |s| ==> IsSpace(s[k])
    ensures r != [] ==> !IsSpace(r[|r| - 1])
    decreases |s|
  {
    if s != [] && IsSpace(s[|s| - 1]) then TrimRight(s[..|s| - 1]) else s
  }

  /** `r` sits at offset `i` of `s`, and everything of `s` around it is white space. */
  predicate SurroundedBySpace(s: Bytes, i: int, r: Bytes) {
    && 0 <= i <= |s| - |r|
    && r == s[i..i + |r|]
    && (forall k :: 0 <= k < i ==> IsSpace(s[k]))
    && (forall k :: i + |r| <= k < |s| ==> IsSpace(s[k]))
  }

  /** `s` without leading and trailing white space. */
  function TrimSpace(s: Bytes): (r: Bytes)
    ensures r != [] ==> !IsSpace(r[0]) && !IsSpace(r[|r| - 1])
    ensures exists i :: SurroundedBySpace(s, i, r)
  {
    TrimmedIsSurrounded(s);
    TrimRight(TrimLeft(s))
  }

  lemma TrimmedIsSurrounded(s: Bytes)
    ensures SurroundedBySpace(s, |s| - |TrimLeft(s)|, TrimRight(TrimLeft(s)))
  {
    var left := TrimLeft(s);
    var trimmed := TrimRight(left);
    var i := |s| - |left|;
    assert left == s[i..];
    assert trimmed == left[..|trimmed|];
    forall k | 0 <= k < i
      ensures IsSpace(s[k])
    {
    }
    forall k | i + |trimmed| <= k < |s|
      ensures IsSpace(s[k])
    {
      assert s[k] == left[k - i];
    }
    assert trimmed == s[i..i + |trimmed|];
  }

  /** One key/value pair of the build settings embedded in the binary. */
  datatype Setting = Setting(key: string, value: Bytes)

  const REVISION_KEY := "vcs.revision"

  /** A setting that names the revision the binary was built from. */
  predicate IsRevision(s: Setting) {
    s.key == REVISION_KEY && s.value != []
  }

  /**
   * `hash` is the binary's commit: the injected commit when there is one,
   * otherwise the value of the first non-empty revision setting, otherwise empty.
   */
  ghost predicate ResolvedFrom(commit: Bytes, settings: seq<Setting>, hash: Bytes) {
    if commit != [] then hash == commit
    else if hash == [] then forall i :: 0 <= i < |settings| ==> !IsRevision(settings[i])
    else exists i :: FirstRevisionAt(settings, i) && hash == settings[i].value
  }

  /** `settings[i]` is the first revision setting. */
  ghost predicate FirstRevisionAt(settings: seq<Setting>, i: int) {
    && 0 <= i < |settings|
    && IsRevision(settings[i])
    && forall j :: 0 <= j < i ==> !IsRevision(settings[j])
  }

  /** The resolution rule leaves no choice: one commit and one settings list give one hash. */
  lemma ResolvedFromUnique(commit: Bytes, settings: seq<Setting>, h1: Bytes, h2: Bytes)
    requires ResolvedFrom(commit, settings, h1) && ResolvedFrom(commit, settings, h2)
    ensures h1 == h2
  {
    if commit == [] && h1 != [] && h2 != [] {
      var i1 :| FirstRevisionAt(settings, i1) && h1 == settings[i1].value;
      var i2 :| FirstRevisionAt(settings, i2) && h2 == settings[i2].value;
      assert i1 == i2;
    }
  }

  /** Why the staleness check could not reach a verdict. */
  datatype StaleError = UnknownBinaryCommit | NoRepoHead

  /** What the staleness check reports. */
  datatype StaleBinaryInfo = StaleBinaryInfo(
    isStale: bool,
    binaryCommit: Bytes,
    repoCommit: Bytes,
    commitsBehind: int,
    error: Option<StaleError>)

  /** The build-time metadata of the binary: the injected commit, empty until set. */
  class BuildMetadata {
    var commit: Bytes

    constructor ()
      ensures commit == []
    {
      commit := [];
    }

    method SetCommit(c: Bytes)
      modifies this`commit
      ensures commit == c
    {
      commit := c;
    }

    /** The commit the binary was built from, or empty when it cannot be told. */
    method ResolveCommitHash(settings: seq<Setting>) returns (hash: Bytes)
      ensures ResolvedFrom(commit, settings, hash)
    {
      if commit != [] {
        return commit;
      }
      for i := 0 to |settings|
        invariant forall j :: 0 <= j < i ==> !IsRevision(settings[j])
      {
        if settings[i].key == REVISION_KEY && settings[i].value != [] {
          assert FirstRevisionAt(settings, i);
          return settings[i].value;
        }
      }
      return [];
    }

    /**
     * Compares the binary's commit with the repository HEAD. `head` is the
     * output of `git rev-parse HEAD`, absent when the command fails; `behind`
     * is the parsed output of `git rev-list --count`, absent when the command
     * or the parse fails.
     */
    method CheckStaleBinary(settings: seq<Setting>, head: Option<Bytes>, behind: Option<int>)
      returns (info: StaleBinaryInfo)
      ensures ResolvedFrom(commit, settings, info.binaryCommit)
      ensures info.binaryCommit == [] ==>
        info == StaleBinaryInfo(false, [], [], 0, Some(UnknownBinaryCommit))
      ensures info.binaryCommit != [] && head.None? ==>
        info == StaleBinaryInfo(false, info.binaryCommit, [], 0, Some(NoRepoHead))
      ensures info.binaryCommit != [] && head.Some? ==>
        && info.error.None?
        && info.repoCommit == TrimSpace(head.value)
        && (info.isStale <==> !CommitsMatch(info.binaryCommit, info.repoCommit))
        && info.commitsBehind == (if info.isStale && behind.Some? then behind.value else 0)
    {
      info := StaleBinaryInfo(false, [], [], 0, None);
      var binary := ResolveCommitHash(settings);
      info := info.(binaryCommit := binary);
      if info.binaryCommit == [] {
        info := info.(error := Some(UnknownBinaryCommit));
        return;
      }
      if head.None? {
        info := info.(error := Some(NoRepoHead));
        return;
      }
      info := info.(repoCommit := TrimSpace(head.value));
      if !CommitsMatch(info.binaryCommit, info.repoCommit) {
        info := info.(isStale := true);
        if behind.Some? {
          info := info.(commitsBehind := behind.value);
        }
      }
    }
  }

  /** Once a non-empty commit has been set, it is the binary's commit whatever the build settings say. */
  method ResolveAfterSetCommit(meta: BuildMetadata, c: Bytes, settings: seq<Setting>) returns (hash: Bytes)
    requires c != []
    modifies meta
    ensures hash == c
  {
    meta.SetCommit(c);
    hash := meta.ResolveCommitHash(settings);
  }
}
