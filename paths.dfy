/**
 * The two POSIX path helpers the downloaders use: `basename` of a URL's
 * pathname and `join` of a directory and a file or page name.
 */
module Paths {

  /** Everything after the last '/' of `s`, or all of `s` when it contains none. */
  function LastSegment(s: string): string {
    if s == [] || s[|s| - 1] == '/' then []
    else LastSegment(s[..|s| - 1]) + [s[|s| - 1]]
  }

  /** `s` without the run of '/' it ends with. */
  function StripTrailingSlashes(s: string): string {
    if s != [] && s[|s| - 1] == '/' then StripTrailingSlashes(s[..|s| - 1]) else s
  }

  /**
   * POSIX `basename` with no suffix argument: trailing separators are
   * ignored, then the last segment is taken (so "/a/b/" gives "b" and "/"
   * gives "").
   */
  function Basename(path: string): string {
    LastSegment(StripTrailingSlashes(path))
  }

  /**
   * POSIX `join` of two segments: empty segments are dropped and the rest
   * joined by one '/'; joining nothing gives ".". The normalisation that
   * `join` also performs (collapsing "//", resolving "." and "..") is not
   * modelled.
   */
  function Join(directory: string, name: string): string {
    if directory == "" && name == "" then "."
    else if directory == "" then name
    else if name == "" then directory
    else directory + "/" + name
  }

  /** A non-empty name without a separator. */
  predicate IsSegment(name: string) {
    name != "" && '/' !in name
  }

  /**
   * The last segment is the longest suffix without a '/': it has no '/',
   * it is a suffix, and it is either all of `s` or preceded by a '/'.
   */
  lemma {:induction false} LastSegmentIsLongestSuffix(s: string)
    ensures '/' !in LastSegment(s)
    ensures |LastSegment(s)| <= |s| && LastSegment(s) == s[|s| - |LastSegment(s)|..]
    ensures |LastSegment(s)| < |s| ==> s[|s| - |LastSegment(s)| - 1] == '/'
  {
    if s != [] && s[|s| - 1] != '/' {
      var init := s[..|s| - 1];
      var c := s[|s| - 1];
      LastSegmentIsLongestSuffix(init);
      var r := LastSegment(init);
      var k := |init| - |r|;
      assert s == init + [c];
      assert LastSegment(s) == r + [c];
      assert s[k..] == init[k..] + [c];
      if k > 0 {
        assert s[k - 1] == init[k - 1];
      }
    }
  }

  /** What stripping leaves: a prefix that does not end in '/', followed only by '/'s in `s`. */
  lemma {:induction false} StripTrailingSlashesIsPrefix(s: string)
    ensures |StripTrailingSlashes(s)| <= |s| && StripTrailingSlashes(s) == s[..|StripTrailingSlashes(s)|]
    ensures StripTrailingSlashes(s) == [] || StripTrailingSlashes(s)[|StripTrailingSlashes(s)| - 1] != '/'
    ensures forall i :: |StripTrailingSlashes(s)| <= i < |s| ==> s[i] == '/'
  {
    if s != [] && s[|s| - 1] == '/' {
      var init := s[..|s| - 1];
      StripTrailingSlashesIsPrefix(init);
      assert init[..|StripTrailingSlashes(init)|] == s[..|StripTrailingSlashes(init)|];
    }
  }

  /** A basename never contains a separator. */
  lemma BasenameHasNoSlash(path: string)
    ensures '/' !in Basename(path)
  {
    LastSegmentIsLongestSuffix(StripTrailingSlashes(path));
  }

  /** The last segment of `prefix + "/" + name` is `name` when `name` has no '/'. */
  lemma LastSegmentAfterSlash(prefix: string, name: string)
    requires '/' !in name
    ensures LastSegment(prefix + "/" + name) == name
  {
    var s := prefix + "/" + name;
    LastSegmentIsLongestSuffix(s);
    assert s[|s| - |name| - 1] == '/';
    assert s[|s| - |name|..] == name;
  }

  /** A name without a separator is its own last segment. */
  lemma LastSegmentOfSegment(name: string)
    requires '/' !in name
    ensures LastSegment(name) == name
  {
    LastSegmentIsLongestSuffix(name);
    assert |LastSegment(name)| == |name|;
  }

  /** Stripping trailing separators leaves a path that ends in a non-'/' as it is. */
  lemma StripNoTrailingSlash(s: string)
    requires s != [] && s[|s| - 1] != '/'
    ensures StripTrailingSlashes(s) == s
  {
  }

  /**
   * The file name is recovered from the joined path: the basename of
   * `join(directory, name)` is `name` whenever `name` is one segment.
   */
  lemma BasenameOfJoin(directory: string, name: string)
    requires IsSegment(name)
    ensures Basename(Join(directory, name)) == name
  {
    var j := Join(directory, name);
    if directory == "" {
      assert j == name;
      StripNoTrailingSlash(j);
      LastSegmentOfSegment(name);
    } else {
      assert j == directory + "/" + name;
      assert j[|j| - 1] == name[|name| - 1];
      StripNoTrailingSlash(j);
      LastSegmentAfterSlash(directory, name);
    }
  }
}
