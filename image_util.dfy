/**
 * `resolveImageUrl`: turns the image reference a product carries into the
 * address the page loads.  Absolute addresses pass through, relative paths
 * are put under the configured API URL, and a missing reference becomes the
 * local placeholder.
 *
 * The configured `environment.apiUrl` is a parameter (absent when the build
 * did not set it); the debug logging is not modelled.
 */
module ImageUtil {
  import opened Options
  import opened Strings

  const FALLBACK_IMAGE := "/assets/img/no-image.svg"

  /** `s.replace(/\/$/, '')`: at most one trailing '/' removed. */
  function DropOneTrailingSlash(s: string): (r: string)
    ensures StartsWith(s, r) && |s| - 1 <= |r| <= |s|
    ensures |r| < |s| <==> s != [] && s[|s| - 1] == '/'
  {
    if s != [] && s[|s| - 1] == '/' then s[..|s| - 1] else s
  }

  /** `environment.apiUrl?.replace(/\/$/, '') || ''`. */
  function ImageBase(apiUrl: Option<string>): string {
    match apiUrl
    case None => ""
    case Some(u) => DropOneTrailingSlash(u)
  }

  /** `trimmed.startsWith('/') ? trimmed : '/' + trimmed`. */
  function RootedPath(trimmed: string): (path: string)
    ensures path != [] && path[0] == '/'
  {
    if StartsWith(trimmed, "/") then trimmed else "/" + trimmed
  }

  predicate IsAbsolute(trimmed: string) {
    StartsWith(trimmed, "http") || StartsWith(trimmed, "//")
  }

  function ResolveImageUrl(image: Option<string>, apiUrl: Option<string>): string {
    if image.None? || image.value == "" then FALLBACK_IMAGE
    else
      var trimmed := Trim(image.value);
      if IsAbsolute(trimmed) then trimmed
      else ImageBase(apiUrl) + RootedPath(trimmed)
  }

  /** A missing or empty reference gives the placeholder. */
  lemma ResolveFallback(image: Option<string>, apiUrl: Option<string>)
    requires image.None? || image == Some("")
    ensures ResolveImageUrl(image, apiUrl) == FALLBACK_IMAGE
  {
  }

  /** A reference whose trimmed form starts with "http" or "//" comes back
      trimmed and otherwise as it was: a slice of the input with only white
      space cut from either end. */
  lemma ResolveAbsolute(s: string, apiUrl: Option<string>)
    requires s != "" && IsAbsolute(Trim(s))
    ensures var r := ResolveImageUrl(Some(s), apiUrl);
      && r == s[LeadingWhitespace(s)..LeadingWhitespace(s) + |r|]
      && AllWhitespace(s[..LeadingWhitespace(s)])
      && AllWhitespace(s[LeadingWhitespace(s) + |r|..])
      && NoEdgeWhitespace(r)
  {
  }

  /** Resolving an absolute address a second time changes nothing. */
  lemma ResolveAbsoluteIdempotent(s: string, apiUrl: Option<string>)
    requires s != "" && IsAbsolute(Trim(s))
    ensures ResolveImageUrl(Some(ResolveImageUrl(Some(s), apiUrl)), apiUrl) == ResolveImageUrl(Some(s), apiUrl)
  {
    var t := Trim(s);
    TrimKeeps(t);
  }

  /** A relative reference is placed under the base: the result starts with
      the base, the character right after it is '/', and what follows is the
      trimmed reference, with a '/' put in front only when it had none. */
  lemma ResolveRelative(s: string, apiUrl: Option<string>)
    requires s != "" && !IsAbsolute(Trim(s))
    ensures var r := ResolveImageUrl(Some(s), apiUrl);
      var base := ImageBase(apiUrl);
      var t := Trim(s);
      && StartsWith(r, base) && |r| > |base| && r[|base|] == '/'
      && (StartsWith(t, "/") ==> r[|base|..] == t)
      && (!StartsWith(t, "/") ==> r[|base| + 1..] == t)
  {
    var r := ResolveImageUrl(Some(s), apiUrl);
    var base := ImageBase(apiUrl);
    assert r == base + RootedPath(Trim(s));
    assert r[|base|..] == RootedPath(Trim(s));
  }

  /** Only one trailing '/' of the API URL is dropped, so a URL ending in
      "//" still leaves one '/' before the path's own. */
  lemma BaseDropsOneSlash(u: string)
    ensures ImageBase(Some(u + "/")) == u
    ensures (u == [] || u[|u| - 1] != '/') ==> ImageBase(Some(u)) == u
    ensures ImageBase(None) == ""
  {
    assert (u + "/")[..|u|] == u;
  }

  /** A reference made only of white space is not treated as missing: it
      resolves to the base followed by a single '/'. */
  lemma ResolveBlank(s: string, apiUrl: Option<string>)
    requires s != "" && AllWhitespace(s)
    ensures ResolveImageUrl(Some(s), apiUrl) == ImageBase(apiUrl) + "/"
  {
    TrimAllWhitespace(s);
    assert Trim(s) == "";
  }
}
