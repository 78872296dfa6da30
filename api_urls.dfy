/**
 * How the auth and user services build their endpoint roots from the
 * configured API URL and API prefix: every trailing '/' is cut from the URL,
 * every leading and trailing '/' from the prefix, and the parts are joined
 * with single slashes, the prefix left out when nothing of it remains.
 */
module ApiUrls {
  import opened Options
  import opened Strings

  /** `(environment.apiUrl || '').replace(/\/+$/g, '')`. */
  function NormBase(apiUrl: Option<string>): (r: string)
    ensures r == [] || r[|r| - 1] != '/'
    ensures StartsWith(apiUrl.GetOr(""), r)
    ensures forall i :: |r| <= i < |apiUrl.GetOr("")| ==> apiUrl.GetOr("")[i] == '/'
  {
    StripTrailing(apiUrl.GetOr(""), '/')
  }

  /** `(environment.apiPrefix || '').replace(/^\/+|\/+$/g, '')`: what is left
      is a slice of the prefix, and everything cut on either side is '/'. */
  function NormPrefix(apiPrefix: Option<string>): (r: string)
    ensures r == [] || (r[0] != '/' && r[|r| - 1] != '/')
    ensures var p := apiPrefix.GetOr(""); var a := SkipLeading(p, '/', 0);
      && a + |r| <= |p| && r == p[a..a + |r|]
      && (forall i :: 0 <= i < a ==> p[i] == '/')
      && (forall i :: a + |r| <= i < |p| ==> p[i] == '/')
  {
    var p := apiPrefix.GetOr("");
    var a := SkipLeading(p, '/', 0);
    var e := SkipTrailing(p, '/', a, |p|);
    var r := p[a..e];
    assert r != [] ==> r[0] == p[a] && r[|r| - 1] == p[e - 1];
    r
  }

  /** `prefix ? `${base}/${prefix}/${resource}` : `${base}/${resource}``. */
  function JoinRoot(base: string, prefix: string, resource: string): string {
    if prefix != "" then base + "/" + prefix + "/" + resource else base + "/" + resource
  }

  function ServiceRoot(apiUrl: Option<string>, apiPrefix: Option<string>, resource: string): string {
    JoinRoot(NormBase(apiUrl), NormPrefix(apiPrefix), resource)
  }

  /** Joining a base with no trailing '/' and a prefix with no '/' at either
      end puts exactly one '/' at each joint: the characters on both sides of
      a joining '/' are not '/' themselves (the resource aside). */
  lemma JoinRootShape(base: string, prefix: string, resource: string)
    requires base == [] || base[|base| - 1] != '/'
    requires prefix == [] || (prefix[0] != '/' && prefix[|prefix| - 1] != '/')
    ensures var r := JoinRoot(base, prefix, resource);
      && StartsWith(r, base) && r[|base|] == '/'
      && (|base| == 0 || r[|base| - 1] != '/')
      && (prefix != "" ==>
            && r[|base| + 1..|base| + 1 + |prefix|] == prefix
            && r[|base| + 1] != '/'
            && r[|base| + |prefix|] != '/'
            && r[|base| + 1 + |prefix|] == '/'
            && r[|base| + 2 + |prefix|..] == resource)
      && (prefix == "" ==> r[|base| + 1..] == resource)
  {
    var r := JoinRoot(base, prefix, resource);
    if prefix != "" {
      assert r == base + "/" + prefix + "/" + resource;
      assert r[|base| + 1..|base| + 1 + |prefix|] == prefix;
      assert r[|base| + 1] == prefix[0];
      assert r[|base| + |prefix|] == prefix[|prefix| - 1];
    } else {
      assert r == base + "/" + resource;
    }
  }

  /** The endpoint root joins the normalised parts with single slashes. */
  lemma ServiceRootShape(apiUrl: Option<string>, apiPrefix: Option<string>, resource: string)
    ensures var base, prefix, r := NormBase(apiUrl), NormPrefix(apiPrefix), ServiceRoot(apiUrl, apiPrefix, resource);
      && StartsWith(r, base) && r[|base|] == '/'
      && (|base| == 0 || r[|base| - 1] != '/')
      && (prefix != "" ==> r[|base| + 1] != '/' && r[|base| + |prefix|] != '/' && r[|base| + 1 + |prefix|] == '/')
  {
    JoinRootShape(NormBase(apiUrl), NormPrefix(apiPrefix), resource);
  }

  /** Normalising again changes nothing, and values that are already clean
      pass through unchanged. */
  lemma NormalisationIdempotent(apiUrl: Option<string>, apiPrefix: Option<string>)
    ensures NormBase(Some(NormBase(apiUrl))) == NormBase(apiUrl)
    ensures NormPrefix(Some(NormPrefix(apiPrefix))) == NormPrefix(apiPrefix)
  {
    CleanValuesUnchanged(NormBase(apiUrl), NormPrefix(apiPrefix));
  }

  lemma CleanValuesUnchanged(u: string, p: string)
    ensures (u == [] || u[|u| - 1] != '/') ==> NormBase(Some(u)) == u
    ensures (p == [] || (p[0] != '/' && p[|p| - 1] != '/')) ==> NormPrefix(Some(p)) == p
  {
  }

  /** A prefix made only of slashes counts as no prefix at all. */
  lemma SlashOnlyPrefix(apiUrl: Option<string>, p: string, resource: string)
    requires forall i :: 0 <= i < |p| ==> p[i] == '/'
    ensures ServiceRoot(apiUrl, Some(p), resource) == NormBase(apiUrl) + "/" + resource
  {
    assert SkipLeading(p, '/', 0) == |p|;
  }
}
