/**
 * `StaticFilesCacheMiddleware` (salona_business_django/cache_middleware.py):
 * cache headers chosen by path after the view has produced a response.
 *
 * Django's `patch_cache_control` is modelled as: the given directives are
 * merged into the Cache-Control directives, a new max-age never raises an
 * existing one, and `public`/`private` displace each other.
 * `add_never_cache_headers` is `patch_response_headers(-1)` (an Expires of
 * now when none is set) followed by max-age=0, no-cache, no-store,
 * must-revalidate and private. Dates are seconds; the clock is an input.
 */
module CacheMiddleware {
  import opened Wrappers
  import opened Strings

  /** A Cache-Control directive: a bare flag or `name=seconds`. */
  datatype Directive = Flag | Seconds(n: int)

  /** A header value: text, or an HTTP date for a time in seconds. */
  datatype HeaderValue = Text(s: string) | HttpDate(t: int)

  datatype Snapshot = Snapshot(status: int, cacheControl: map<string, Directive>, headers: map<string, HeaderValue>)

  const OneYear := 31536000
  const OneDay := 86400
  const PageMaxAge := 300

  const AssetExtensions: seq<string> :=
    [".css", ".js", ".png", ".jpg", ".jpeg", ".gif", ".ico", ".svg", ".webp", ".woff", ".woff2", ".ttf", ".eot"]

  const FontExtensions: seq<string> := [".woff", ".woff2", ".ttf", ".eot"]

  predicate EndsWithAny(path: string, exts: seq<string>)
  {
    exists k :: 0 <= k < |exts| && EndsWith(path, exts[k])
  }

  /** The last '/'-separated segment of the path. */
  function LastSegment(path: string): string
  {
    var parts := Split(path, '/');
    parts[|parts| - 1]
  }

  /** Which branch of `__call__` (and of `_add_static_cache_headers`) a path takes, checked in source order. */
  datatype PathClass = StaticAsset(font: bool) | StaticOther(font: bool) | Api | Page | Untouched

  function Classify(path: string): (c: PathClass)
    ensures c.StaticAsset? || c.StaticOther? <==> StartsWith(path, "/static/")
    ensures c == Api <==> !StartsWith(path, "/static/") && StartsWith(path, "/api/")
    ensures c == Page ==> !StartsWith(path, "/static/") && !StartsWith(path, "/api/")
    ensures (c.StaticAsset? || c.StaticOther?) ==> (c.font <==> EndsWithAny(path, FontExtensions))
  {
    if StartsWith(path, "/static/") then
      if EndsWithAny(path, AssetExtensions) then StaticAsset(EndsWithAny(path, FontExtensions))
      else StaticOther(EndsWithAny(path, FontExtensions))
    else if StartsWith(path, "/api/") then Api
    else if EndsWith(path, ".html") || EndsWith(path, "/") || '.' !in LastSegment(path) then Page
    else Untouched
  }

  /** Every font extension is also an asset extension, so fonts always get the one-year policy. */
  lemma FontIsAsset(path: string)
    requires StartsWith(path, "/static/") && EndsWithAny(path, FontExtensions)
    ensures Classify(path) == StaticAsset(true)
  {
    var k :| 0 <= k < |FontExtensions| && EndsWith(path, FontExtensions[k]);
    assert FontExtensions[k] == AssetExtensions[k + 9];
  }

  /** `max_age` as `patch_cache_control` applies it: never above an existing max-age. */
  function MergeMaxAge(cc: map<string, Directive>, n: int): (d: Directive)
    ensures d.Seconds? && d.n <= n
    ensures "max-age" in cc && cc["max-age"].Seconds? ==> d.n <= cc["max-age"].n
  {
    if "max-age" in cc && cc["max-age"].Seconds? && cc["max-age"].n < n then cc["max-age"] else Seconds(n)
  }

  /** `patch_cache_control(public=True, max_age=n, ...)` with extra flags. */
  function PatchPublic(cc: map<string, Directive>, maxAge: int, flags: set<string>): (r: map<string, Directive>)
    ensures "public" in r && r["public"] == Flag && "private" !in r
    ensures "max-age" in r && r["max-age"].Seconds? && r["max-age"].n <= maxAge
    ensures forall f :: f in flags && f != "max-age" && f != "private" ==> f in r && r[f] == Flag
  {
    var base := (map k | k in cc && k != "private" :: cc[k]);
    var withFlags := (map k | k in base.Keys + flags :: if k in flags then Flag else base[k]);
    withFlags["public" := Flag]["max-age" := MergeMaxAge(cc, maxAge)] - {"private"}
  }

  /** `add_never_cache_headers`' directives. */
  function NeverCache(cc: map<string, Directive>): (r: map<string, Directive>)
    ensures forall f :: f in {"no-cache", "no-store", "must-revalidate", "private"} ==> f in r && r[f] == Flag
    ensures "public" !in r && "max-age" in r && r["max-age"].Seconds? && r["max-age"].n <= 0
  {
    var flags := {"no-cache", "no-store", "must-revalidate", "private"};
    var base := (map k | k in cc && k != "public" :: cc[k]);
    var withFlags := (map k | k in base.Keys + flags :: if k in flags then Flag else base[k]);
    withFlags["max-age" := MergeMaxAge(cc, 0)] - {"public"}
  }

  /** The response after the middleware, for a request path and the clock reading `now`. */
  function Processed(s: Snapshot, path: string, now: int): (r: Snapshot)
    ensures s.status != 200 ==> r == s
    ensures r.status == s.status
    ensures s.status == 200 && Classify(path) == Untouched ==> r == s
  {
    if s.status != 200 then s
    else match Classify(path)
      case StaticAsset(font) =>
        var h := s.headers["Expires" := HttpDate(now + OneYear)]["X-Content-Type-Options" := Text("nosniff")];
        Snapshot(s.status, PatchPublic(s.cacheControl, OneYear, {"immutable"}),
          if font then h["Access-Control-Allow-Origin" := Text("*")] else h)
      case StaticOther(font) =>
        var h := s.headers["X-Content-Type-Options" := Text("nosniff")];
        Snapshot(s.status, PatchPublic(s.cacheControl, OneDay, {}),
          if font then h["Access-Control-Allow-Origin" := Text("*")] else h)
      case Api =>
        var h := if "Expires" in s.headers then s.headers else s.headers["Expires" := HttpDate(now)];
        Snapshot(s.status, NeverCache(s.cacheControl), h["Pragma" := Text("no-cache")])
      case Page =>
        Snapshot(s.status, PatchPublic(s.cacheControl, PageMaxAge, {"must-revalidate"}), s.headers)
      case Untouched => s
  }

  /**
   * Versioned assets: public, immutable, at most a year, expiring a year from
   * now, nosniff; a font is opened to every origin, any other asset keeps the
   * CORS header it had, so none is added.
   */
  lemma StaticAssetPolicy(s: Snapshot, path: string, now: int)
    requires s.status == 200 && StartsWith(path, "/static/") && EndsWithAny(path, AssetExtensions)
    ensures var r := Processed(s, path, now);
      r.cacheControl["public"] == Flag && r.cacheControl["immutable"] == Flag &&
      r.cacheControl["max-age"].n <= OneYear &&
      r.headers["Expires"] == HttpDate(now + OneYear) &&
      r.headers["X-Content-Type-Options"] == Text("nosniff") &&
      (EndsWithAny(path, FontExtensions) ==>
        "Access-Control-Allow-Origin" in r.headers && r.headers["Access-Control-Allow-Origin"] == Text("*")) &&
      (!EndsWithAny(path, FontExtensions) ==>
        ("Access-Control-Allow-Origin" in r.headers <==> "Access-Control-Allow-Origin" in s.headers))
  {
  }

  /** Other static files: public for at most a day, nosniff, and no immutable flag added. */
  lemma StaticOtherPolicy(s: Snapshot, path: string, now: int)
    requires s.status == 200 && StartsWith(path, "/static/") && !EndsWithAny(path, AssetExtensions)
    ensures var r := Processed(s, path, now);
      r.cacheControl["public"] == Flag && r.cacheControl["max-age"].n <= OneDay &&
      r.headers["X-Content-Type-Options"] == Text("nosniff") &&
      ("immutable" in r.cacheControl <==> "immutable" in s.cacheControl) &&
      ("Access-Control-Allow-Origin" in r.headers <==> "Access-Control-Allow-Origin" in s.headers)
  {
    forall k | 0 <= k < |FontExtensions|
      ensures !EndsWith(path, FontExtensions[k])
    {
      assert FontExtensions[k] == AssetExtensions[k + 9];
    }
  }

  /** API responses are never cached and carry Pragma: no-cache. */
  lemma ApiPolicy(s: Snapshot, path: string, now: int)
    requires s.status == 200 && !StartsWith(path, "/static/") && StartsWith(path, "/api/")
    ensures var r := Processed(s, path, now);
      r.cacheControl["no-cache"] == Flag && r.cacheControl["no-store"] == Flag &&
      r.cacheControl["must-revalidate"] == Flag && r.cacheControl["private"] == Flag &&
      r.cacheControl["max-age"].n <= 0 && "public" !in r.cacheControl &&
      r.headers["Pragma"] == Text("no-cache") && "Expires" in r.headers
  {
  }

  /** Pages (".html", a trailing '/', or a last segment without '.'): public, at most 5 minutes, must-revalidate. */
  lemma PagePolicy(s: Snapshot, path: string, now: int)
    requires s.status == 200 && !StartsWith(path, "/static/") && !StartsWith(path, "/api/")
    requires EndsWith(path, ".html") || EndsWith(path, "/") || '.' !in LastSegment(path)
    ensures var r := Processed(s, path, now);
      r.cacheControl["public"] == Flag && r.cacheControl["must-revalidate"] == Flag &&
      r.cacheControl["max-age"].n <= PageMaxAge && r.headers == s.headers
  {
  }

  class Response {
    var status: int
    var cacheControl: map<string, Directive>
    var headers: map<string, HeaderValue>

    function State(): Snapshot
      reads this
    {
      Snapshot(status, cacheControl, headers)
    }

    constructor (s: Snapshot)
      ensures State() == s
    {
      status, cacheControl, headers := s.status, s.cacheControl, s.headers;
    }

    /** `_add_static_cache_headers`. */
    method AddStaticCacheHeaders(path: string, now: int)
      requires status == 200 && StartsWith(path, "/static/")
      modifies this
      ensures State() == Processed(old(State()), path, now)
    {
      if EndsWithAny(path, AssetExtensions) {
        cacheControl := PatchPublic(cacheControl, OneYear, {"immutable"});
        headers := headers["Expires" := HttpDate(now + OneYear)];
      } else {
        cacheControl := PatchPublic(cacheControl, OneDay, {});
      }
      headers := headers["X-Content-Type-Options" := Text("nosniff")];
      if EndsWithAny(path, FontExtensions) {
        headers := headers["Access-Control-Allow-Origin" := Text("*")];
      }
    }

    /** `StaticFilesCacheMiddleware.__call__` on the view's response. */
    method Process(path: string, now: int)
      modifies this
      ensures State() == Processed(old(State()), path, now)
    {
      if status != 200 {
        return;
      }
      if StartsWith(path, "/static/") {
        AddStaticCacheHeaders(path, now);
      } else if StartsWith(path, "/api/") {
        if "Expires" !in headers {
          headers := headers["Expires" := HttpDate(now)];
        }
        cacheControl := NeverCache(cacheControl);
        headers := headers["Pragma" := Text("no-cache")];
      } else if EndsWith(path, ".html") || EndsWith(path, "/") || '.' !in LastSegment(path) {
        cacheControl := PatchPublic(cacheControl, PageMaxAge, {"must-revalidate"});
      }
    }
  }
}
