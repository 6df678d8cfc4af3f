/**
 * The server hook `handle`: after the route has produced its response, image and icon
 * paths get a long-lived immutable Cache-Control header. Header names are kept in the
 * lower-case form the Fetch `Headers` object stores them in.
 */
module Hooks {

  const CacheControl := "cache-control"
  const ImmutableCacheControl := "public, max-age=31536000, immutable"
  const ImagesPrefix := "/images/"
  const AssetSuffixes := [".png", ".jpg", ".jpeg", ".webp", ".ico"]

  predicate StartsWith(s: string, prefix: string) {
    |prefix| <= |s| && s[..|prefix|] == prefix
  }

  predicate EndsWith(s: string, suffix: string) {
    |suffix| <= |s| && s[|s| - |suffix|..] == suffix
  }

  /** The path test of `handle`; the suffixes are compared case-sensitively. */
  predicate IsStaticAsset(path: string) {
    || StartsWith(path, ImagesPrefix)
    || EndsWith(path, ".png")
    || EndsWith(path, ".jpg")
    || EndsWith(path, ".jpeg")
    || EndsWith(path, ".webp")
    || EndsWith(path, ".ico")
  }

  predicate LowerCaseName(name: string) {
    forall i :: 0 <= i < |name| ==> !('A' <= name[i] <= 'Z')
  }

  /** The form a `Headers` object stores its entries in: every name lower-cased, so one entry per name. */
  predicate LowerCaseNames(headers: map<string, string>) {
    forall k :: k in headers ==> LowerCaseName(k)
  }

  /** The headers `handle` returns for `path`, given those the route produced. */
  function WithCacheRule(headers: map<string, string>, path: string): (r: map<string, string>)
    ensures IsStaticAsset(path) ==> CacheControl in r && r[CacheControl] == ImmutableCacheControl
    ensures !IsStaticAsset(path) ==> r == headers
    ensures forall k :: k != CacheControl ==> (k in r <==> k in headers)
    ensures forall k :: k != CacheControl && k in headers ==> r[k] == headers[k]
    ensures LowerCaseNames(headers) ==> LowerCaseNames(r)
  {
    assert LowerCaseName(CacheControl);
    if IsStaticAsset(path) then headers[CacheControl := ImmutableCacheControl] else headers
  }

  /** Applying the rule a second time changes nothing. */
  lemma CacheRuleIdempotent(headers: map<string, string>, path: string)
    ensures WithCacheRule(WithCacheRule(headers, path), path) == WithCacheRule(headers, path)
  {
  }

  /** Every path under `/images/`, and every path ending in one of the suffixes, matches. */
  lemma StaticAssetPaths(rest: string, i: nat)
    requires i < |AssetSuffixes|
    ensures IsStaticAsset(ImagesPrefix + rest)
    ensures IsStaticAsset(rest + AssetSuffixes[i])
  {
  }

  /** The suffix test is case-sensitive, and a suffix elsewhere in the path does not count. */
  lemma StaticAssetExamples()
    ensures IsStaticAsset("/images/hero.avif")
    ensures IsStaticAsset("/favicon.ico")
    ensures !IsStaticAsset("/logo.PNG")
    ensures !IsStaticAsset("/img/photo.png/edit")
    ensures !IsStaticAsset("/checkout")
  {
    assert "/images/hero.avif"[..8] == ImagesPrefix;
    assert "/favicon.ico"[8..] == ".ico";
    var upper := "/logo.PNG";
    assert !StartsWith(upper, ImagesPrefix) by { assert upper[..8][1] != ImagesPrefix[1]; }
    assert !EndsWith(upper, ".png") by { assert upper[5..][1] != ".png"[1]; }
    assert !EndsWith(upper, ".jpg") by { assert upper[5..][1] != ".jpg"[1]; }
    assert !EndsWith(upper, ".jpeg") by { assert upper[4..][0] != ".jpeg"[0]; }
    assert !EndsWith(upper, ".webp") by { assert upper[4..][0] != ".webp"[0]; }
    assert !EndsWith(upper, ".ico") by { assert upper[5..][1] != ".ico"[1]; }
    var inner := "/img/photo.png/edit";
    assert !StartsWith(inner, ImagesPrefix) by { assert inner[..8][4] != ImagesPrefix[4]; }
    assert !EndsWith(inner, ".png") by { assert inner[15..][0] != ".png"[0]; }
    assert !EndsWith(inner, ".jpg") by { assert inner[15..][0] != ".jpg"[0]; }
    assert !EndsWith(inner, ".jpeg") by { assert inner[14..][0] != ".jpeg"[0]; }
    assert !EndsWith(inner, ".webp") by { assert inner[14..][0] != ".webp"[0]; }
    assert !EndsWith(inner, ".ico") by { assert inner[15..][0] != ".ico"[0]; }
  }

  /** The response `resolve` produced; `handle` may change its headers and nothing else. */
  class Response {
    var status: int
    var body: string
    var headers: map<string, string>

    ghost predicate Valid()
      reads this
    {
      LowerCaseNames(headers)
    }

    constructor (status: int, body: string, headers: map<string, string>)
      requires LowerCaseNames(headers)
      ensures Valid()
      ensures this.status == status && this.body == body && this.headers == headers
    {
      this.status := status;
      this.body := body;
      this.headers := headers;
    }

    /** `response.headers.set('Cache-Control', ...)` when the path matches: a set that replaces, never appends. */
    method ApplyCacheRule(path: string)
      requires Valid()
      modifies this`headers
      ensures Valid()
      ensures headers == WithCacheRule(old(headers), path)
    {
      headers := WithCacheRule(headers, path);
    }
  }

  /** `handle`: resolve the request, then apply the cache rule to the response in place. */
  method Handle(path: string, resolved: Response) returns (r: Response)
    requires resolved.Valid()
    modifies resolved`headers
    ensures r == resolved && r.Valid()
    ensures r.headers == WithCacheRule(old(resolved.headers), path)
    ensures !IsStaticAsset(path) ==> r.headers == old(resolved.headers)
  {
    resolved.ApplyCacheRule(path);
    r := resolved;
  }
}
