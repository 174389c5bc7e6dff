/**
 * The small pure helpers at the top of `js/main.js`: its own base-path
 * heuristic and `withBase`, placeholder and payment-link checks, the
 * remaining ticket count, and the e-mail shape check of the form builder.
 */
module SiteHelpers {
  import opened Wrappers
  import opened Text
  import BasePath

  // ----- base path (main.js variant) -----

  /** First path segments that are site pages rather than a repository name. */
  const KnownRoutes: set<string> :=
    {"menu", "specials", "events", "private-parties", "reserve-date", "wine-club", "gift-cards", "contact", "drinks"}

  /**
   * `getBasePath()` of js/main.js: like js/base.js, except that a path of a
   * single segment naming a known route is taken to be a page of a user site
   * and gets no base.
   */
  function GetBasePath(hostname: string, pathname: string): (base: string)
    ensures BasePath.IsBase(base)
    ensures !BasePath.OnGitHubPages(hostname) ==> base == ""
    ensures base != "" ==> BasePath.Segments(pathname) != [] && base[1..] == BasePath.Segments(pathname)[0]
    ensures base == "" <==>
      || !BasePath.OnGitHubPages(hostname)
      || BasePath.Segments(pathname) == []
      || (|BasePath.Segments(pathname)| == 1 && BasePath.Segments(pathname)[0] in KnownRoutes)
  {
    if !BasePath.OnGitHubPages(hostname) then ""
    else
      var parts := BasePath.Segments(pathname);
      if |parts| == 0 then ""
      else if |parts| >= 2 then "/" + parts[0]
      else if parts[0] in KnownRoutes then ""
      else "/" + parts[0]
  }

  /** The two base-path heuristics differ exactly on a single known-route segment on github.io. */
  lemma BasePathVariantsDiffer(hostname: string, pathname: string)
    ensures GetBasePath(hostname, pathname) != BasePath.GetBasePath(hostname, pathname) <==>
      && BasePath.OnGitHubPages(hostname)
      && |BasePath.Segments(pathname)| == 1
      && BasePath.Segments(pathname)[0] in KnownRoutes
  {
  }

  /** On `/menu/` of a github.io host, js/base.js takes `menu` for the repository and js/main.js does not. */
  lemma MenuPageBases(hostname: string)
    requires BasePath.OnGitHubPages(hostname)
    ensures BasePath.GetBasePath(hostname, "/menu/") == "/menu"
    ensures GetBasePath(hostname, "/menu/") == ""
  {
    assert "/menu/" == "/" + "menu" + "/";
    BasePath.SegmentsOfRooted("menu", "/");
    assert BasePath.Segments("/") == [] by {
      assert "/" == [] + ['/'] + [];
      SplitAtFirst([], [], '/');
      assert Split([], '/') == [""];
    }
  }

  /** `withBase(path)` of js/main.js: the same rule as js/base.js over this file's base. */
  function WithBase(path: string, hostname: string, pathname: string): (r: string)
    ensures path != "" && !BasePath.IsHttpUrl(path) ==> StartsWith(r, GetBasePath(hostname, pathname)) && EndsWith(r, path)
    ensures BasePath.IsHttpUrl(path) ==> r == path
  {
    BasePath.WithBaseUsing(GetBasePath(hostname, pathname), path)
  }

  // ----- payment links -----

  /** `isPlaceholderUrl(url, flag)`; `None` is a missing URL. */
  function IsPlaceholderUrl(url: Option<string>, isPlaceholderFlag: bool): bool {
    || isPlaceholderFlag
    || url == None
    || url == Some("")
    || (var lower := ToLower(url.value);
        Contains(lower, "replace_me") || Contains(lower, "stripe-link-placeholder") || Contains(lower, "example.com"))
  }

  /** `isValidPaymentLink(url, flag)`; `None` is a missing or non-string URL. */
  function IsValidPaymentLink(url: Option<string>, isPlaceholderFlag: bool): (valid: bool)
    ensures valid <==>
      && url.Some? && Trim(url.value) != "" && !isPlaceholderFlag
      && !Contains(ToLower(Trim(url.value)), "replace_me")
      && !Contains(ToLower(Trim(url.value)), "placeholder")
      && !Contains(ToLower(Trim(url.value)), "example.com")
      && !Contains(ToLower(Trim(url.value)), "test_")
  {
    match url
    case None => false
    case Some(u) =>
      var trimmed := Trim(u);
      var lower := ToLower(trimmed);
      if u == "" || trimmed == "" || isPlaceholderFlag then false
      else !(Contains(lower, "replace_me") || Contains(lower, "placeholder") || Contains(lower, "example.com") || Contains(lower, "test_"))
  }

  lemma StripeMarkerEndsWithPlaceholder()
    ensures "stripe-link-placeholder" == "stripe-link-" + "placeholder"
  {
  }

  /** A marker found in the lower-cased URL is still found once the URL is trimmed. */
  lemma MarkerInTrimmed(u: string, marker: string)
    requires Contains(ToLower(u), marker)
    requires marker in {"replace_me", "example.com", "stripe-link-placeholder"}
    ensures Contains(ToLower(Trim(u)), marker)
  {
    MarkerSurvivesTrim(u, marker);
  }

  /** A link that passes `isValidPaymentLink` is never reported as a placeholder. */
  lemma ValidPaymentLinkIsNotPlaceholder(url: Option<string>, isPlaceholderFlag: bool)
    requires IsValidPaymentLink(url, isPlaceholderFlag)
    ensures !IsPlaceholderUrl(url, isPlaceholderFlag)
  {
    var u := url.value;
    var lowerTrim := ToLower(Trim(u));
    assert !Contains(lowerTrim, "replace_me") && !Contains(lowerTrim, "example.com") && !Contains(lowerTrim, "placeholder");
    if Contains(ToLower(u), "replace_me") {
      MarkerInTrimmed(u, "replace_me");
    } else if Contains(ToLower(u), "example.com") {
      MarkerInTrimmed(u, "example.com");
    } else if Contains(ToLower(u), "stripe-link-placeholder") {
      MarkerInTrimmed(u, "stripe-link-placeholder");
      StripeMarkerEndsWithPlaceholder();
      ContainsSuffixPart(lowerTrim, "stripe-link-", "placeholder");
    }
  }

  // ----- tickets -----

  /** An event's ticketing block; a missing or non-numeric field is `None`. */
  datatype Ticketing = Ticketing(capacity: Option<real>, sold: Option<real>)

  /** `ticketsRemaining(ticketing)`: seats left, never negative. */
  function TicketsRemaining(ticketing: Option<Ticketing>): (r: real)
    ensures r >= 0.0
    ensures ticketing.Some? ==> r >= ticketing.value.capacity.GetOr(0.0) - ticketing.value.sold.GetOr(0.0)
    ensures ticketing.Some? ==> r == 0.0 || r == ticketing.value.capacity.GetOr(0.0) - ticketing.value.sold.GetOr(0.0)
    ensures ticketing.None? ==> r == 0.0
  {
    match ticketing
    case None => 0.0
    case Some(t) =>
      var left := t.capacity.GetOr(0.0) - t.sold.GetOr(0.0);
      if left > 0.0 then left else 0.0
  }

  // ----- e-mail addresses -----

  /** `s.indexOf(c)`: the first position of `c`, or -1. */
  function IndexOf(s: string, c: char): (r: int)
    ensures -1 <= r < |s|
    ensures r == -1 <==> c !in s
    ensures r >= 0 ==> s[r] == c && c !in s[..r]
  {
    if |s| == 0 then -1
    else if s[0] == c then 0
    else
      var r := IndexOf(s[1..], c);
      assert s[1..][..if r < 0 then 0 else r] == s[1..if r < 0 then 1 else r + 1];
      if r == -1 then -1 else r + 1
  }

  /** `s.lastIndexOf(c)`: the last position of `c`, or -1. */
  function LastIndexOf(s: string, c: char): (r: int)
    ensures -1 <= r < |s|
    ensures r == -1 <==> c !in s
    ensures r >= 0 ==> s[r] == c && c !in s[r + 1..]
  {
    if |s| == 0 then -1
    else if s[|s| - 1] == c then |s| - 1
    else
      var r := LastIndexOf(s[..|s| - 1], c);
      LastIndexOfExtend(s, c, r);
      r
  }

  /** A last occurrence in all but the final character, which is not `c`, is the last occurrence in `s`. */
  lemma LastIndexOfExtend(s: string, c: char, r: int)
    requires |s| > 0 && s[|s| - 1] != c
    requires -1 <= r < |s| - 1
    requires r == -1 <==> c !in s[..|s| - 1]
    requires r >= 0 ==> s[r] == c && c !in s[..|s| - 1][r + 1..]
    ensures r == -1 <==> c !in s
    ensures r >= 0 ==> s[r] == c && c !in s[r + 1..]
  {
    var init := s[..|s| - 1];
    assert s == init + [s[|s| - 1]];
    if r >= 0 {
      assert s[r + 1..] == init[r + 1..] + [s[|s| - 1]];
    }
  }

  /** `isEmailValid(val)`: an `@` after the first character, then a dot with text on both sides. */
  function IsEmailValid(val: Option<string>): bool {
    match val
    case None => false
    case Some(v) =>
      var at := IndexOf(v, '@');
      var dot := LastIndexOf(v, '.');
      v != "" && at > 0 && dot > at + 1 && dot < |v| - 1
  }

  /** Every accepted address splits as local `@` domain `.` top-level part. */
  lemma ValidEmailParts(v: string) returns (local: string, domain: string, tld: string)
    requires IsEmailValid(Some(v))
    ensures v == local + "@" + domain + "." + tld
    ensures local != "" && '@' !in local && domain != "" && tld != "" && '.' !in tld
  {
    var at := IndexOf(v, '@');
    var dot := LastIndexOf(v, '.');
    local, domain, tld := v[..at], v[at + 1..dot], v[dot + 1..];
    assert v == v[..at] + [v[at]] + v[at + 1..dot] + [v[dot]] + v[dot + 1..];
  }

  /** Conversely, every address of that shape is accepted. */
  lemma EmailOfParts(local: string, domain: string, tld: string)
    requires local != "" && '@' !in local && domain != "" && tld != "" && '.' !in tld
    ensures IsEmailValid(Some(local + "@" + domain + "." + tld))
  {
    var v := local + "@" + domain + "." + tld;
    var at := IndexOf(v, '@');
    var dot := LastIndexOf(v, '.');
    assert v[|local|] == '@' && v[..|local|] == local;
    var d := |local| + 1 + |domain|;
    assert v[d] == '.' && v[d + 1..] == tld;
  }
}
