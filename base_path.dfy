/**
 * Base-path resolution for GitHub Pages project sites, as `js/base.js` does it.
 * `window.location` is passed in as its two parts, `hostname` and `pathname`.
 * Off `github.io` the base is empty; on it, the first non-empty path segment
 * names the repository and becomes the base.
 */
module BasePath {
  import opened Text

  /** `pathname.split('/').filter(Boolean)`: the non-empty segments, in order. */
  function Segments(pathname: string): (r: seq<string>)
    ensures forall i :: 0 <= i < |r| ==> r[i] != "" && '/' !in r[i]
  {
    var parts := Split(pathname, '/');
    NonEmpty(parts)
  }

  /** Every non-empty part between slashes is a segment. */
  lemma SegmentsKeepAll(pathname: string, p: string)
    requires p in Split(pathname, '/') && p != ""
    ensures p in Segments(pathname)
  {
    NonEmptyKeepsAll(Split(pathname, '/'), p);
  }

  /** A path without a slash is one segment, or none when it is empty. */
  lemma SegmentsOfSlashFree(pathname: string)
    requires '/' !in pathname
    ensures Segments(pathname) == if pathname == "" then [] else [pathname]
  {
    SplitNoSeparator(pathname, '/');
    NonEmptySingle(pathname);
  }

  /**
   * The segments of `first/rest` are those of `first` followed by those of
   * `rest`: every non-empty segment is kept, in order, however many slashes
   * separate them.
   */
  lemma SegmentsAtSlash(first: string, rest: string)
    requires '/' !in first
    ensures Segments(first + "/" + rest) == Segments(first) + Segments(rest)
  {
    SplitAtFirst(first, rest, '/');
    assert first + "/" + rest == first + ['/'] + rest;
    NonEmptyConcat([first], Split(rest, '/'));
    SegmentsOfSlashFree(first);
    NonEmptySingle(first);
  }

  predicate OnGitHubPages(hostname: string) {
    EndsWith(hostname, "github.io")
  }

  /** A base is either empty or one slash followed by a single non-empty segment. */
  predicate IsBase(base: string) {
    base == "" || (|base| >= 2 && base[0] == '/' && '/' !in base[1..])
  }

  /** `getBasePath()` of js/base.js. */
  function GetBasePath(hostname: string, pathname: string): (base: string)
    ensures IsBase(base)
    ensures !OnGitHubPages(hostname) ==> base == ""
    ensures base != "" ==> Segments(pathname) != [] && base[1..] == Segments(pathname)[0]
    ensures base == "" <==> !OnGitHubPages(hostname) || Segments(pathname) == []
  {
    if OnGitHubPages(hostname) then
      var parts := Segments(pathname);
      if |parts| > 0 then "/" + parts[0] else ""
    else ""
  }

  /**
   * A path that starts with a segment: its segments are that segment followed
   * by the segments of the rest.
   */
  lemma SegmentsOfRooted(segment: string, rest: string)
    requires segment != "" && '/' !in segment
    requires rest == "" || rest[0] == '/'
    ensures Segments("/" + segment + rest) == [segment] + Segments(rest)
  {
    assert "/" + segment + rest == [] + ['/'] + (segment + rest);
    SplitAtFirst([], segment + rest, '/');
    if rest == "" {
      assert segment + rest == segment;
      SplitNoSeparator(segment, '/');
      assert Split("/" + segment + rest, '/') == ["", segment];
      assert NonEmpty(["", segment]) == NonEmpty([segment]);
      assert NonEmpty([segment]) == [segment] + NonEmpty([]);
      assert Segments(rest) == NonEmpty([""]) == [];
    } else {
      assert segment + rest == segment + ['/'] + rest[1..];
      SplitAtFirst(segment, rest[1..], '/');
      assert rest == [] + ['/'] + rest[1..];
      SplitAtFirst([], rest[1..], '/');
    }
  }

  /** On a project site `/<repo>/...` the base is `/<repo>`. */
  lemma ProjectSiteBase(hostname: string, repo: string, rest: string)
    requires OnGitHubPages(hostname)
    requires repo != "" && '/' !in repo
    requires rest == "" || rest[0] == '/'
    ensures GetBasePath(hostname, "/" + repo + rest) == "/" + repo
  {
    SegmentsOfRooted(repo, rest);
  }

  /** `/^https?:\/\//i`: an absolute http or https URL, in any letter case. */
  predicate IsHttpUrl(path: string) {
    StartsWith(ToLower(path), "http://") || StartsWith(ToLower(path), "https://")
  }

  /**
   * `withBase(path)` once the base is known: empty stays empty, absolute URLs
   * stay as they are, anything else is rooted with one leading slash and put
   * after the base.
   */
  function WithBaseUsing(base: string, path: string): (r: string)
    ensures path == "" <==> r == ""
    ensures IsHttpUrl(path) ==> r == path
    ensures path != "" && !IsHttpUrl(path) ==>
      && StartsWith(r, base)
      && EndsWith(r, path)
      && |r| > |base| && r[|base|] == '/'
      && |r| - |base| == (if path[0] == '/' then |path| else |path| + 1)
  {
    if path == "" then ""
    else if IsHttpUrl(path) then path
    else
      var rooted := if StartsWith(path, "/") then path else "/" + path;
      base + rooted
  }

  /** `withBase(path)` of js/base.js. */
  function WithBase(path: string, hostname: string, pathname: string): (r: string)
    ensures path != "" && !IsHttpUrl(path) ==> StartsWith(r, GetBasePath(hostname, pathname)) && EndsWith(r, path)
    ensures !OnGitHubPages(hostname) && path != "" && !IsHttpUrl(path) ==> r == (if path[0] == '/' then path else "/" + path)
  {
    WithBaseUsing(GetBasePath(hostname, pathname), path)
  }
}
