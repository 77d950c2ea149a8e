/**
 * The decisions of the service worker: which requests are static assets, API
 * calls or cacheable, which strategy the fetch handler picks for a request,
 * which caches activation deletes, and which runtime-cache entries the cleanup
 * selects for eviction.
 *
 * The page's own origin (`self.location.origin`) is a parameter. The Cache,
 * fetch and clients APIs are not modelled; caches are a map from cache name to
 * the list of its request keys where the cleanup needs them.
 */
module ServiceWorker {
  import opened Common
  import Strings

  /** The parts of `new URL(request.url)` the handler reads. */
  datatype Url = Url(protocol: string, origin: string, pathname: string, href: string)

  /** A request: its HTTP method (`verb`), URL, and its Accept header (`None` when the header is absent,
      so that `headers.get('accept')` is null). */
  datatype Request = Request(verb: string, url: Url, accept: Option<string>)

  const STATIC_CACHE := "nenwa-static-v2.0.0"
  const API_CACHE := "nenwa-api-v2.0.0"
  const RUNTIME_CACHE := "nenwa-runtime"
  const OFFLINE_CACHE := "nenwa-offline"

  /** `Object.values(CACHE_NAMES)`. */
  const CACHE_NAMES: seq<string> := [STATIC_CACHE, API_CACHE, RUNTIME_CACHE, OFFLINE_CACHE]

  /** The request destinations worth caching at run time. */
  const DYNAMIC_CACHE_TYPES: seq<string> := ["image", "font", "script", "style"]

  const MAX_DYNAMIC_CACHE: nat := 50

  /** The extensions of the static-asset pattern, `woff2?` written out as its two words. */
  const STATIC_EXTENSIONS: seq<string> :=
    ["css", "js", "json", "png", "jpg", "jpeg", "gif", "svg", "ico", "webp", "woff", "woff2"]

  /* ---------- Request predicates ---------- */

  /** `path` ends with `"." + ext`, letters compared without regard to ASCII case (the `i` flag). */
  predicate EndsWithExtension(path: string, ext: string)
  {
    |ext| < |path| && path[|path| - |ext| - 1] == '.' && Strings.ToLowerAscii(path[|path| - |ext|..]) == ext
  }

  /** `isStaticAsset`: same origin, and the path matches `/\.(css|js|...|woff2?)$/i`. */
  predicate IsStaticAsset(url: Url, selfOrigin: string)
  {
    url.origin == selfOrigin && exists e :: e in STATIC_EXTENSIONS && EndsWithExtension(url.pathname, e)
  }

  /** The text after the last dot of a path, lower-cased, or `None` when the path has no dot. */
  function LastExtension(path: string): (r: Option<string>)
    ensures r.None? <==> '.' !in path
  {
    var d := Strings.LastIndexOf(path, '.');
    if d < 0 then
      assert forall i :: 0 <= i < |path| ==> path[i] != '.';
      None
    else Some(Strings.ToLowerAscii(path[d + 1..]))
  }

  lemma ExtensionsHaveNoDot()
    ensures forall e :: e in STATIC_EXTENSIONS ==> '.' !in e
  {
  }

  /** Only a dot lower-cases to a dot. */
  lemma LowerDot(c: char)
    ensures Strings.LowerAscii(c) == '.' <==> c == '.'
  {
  }

  /** A path that ends with a dot-free extension has its last dot just before that extension. */
  lemma LastDotBeforeExtension(path: string, e: string)
    requires '.' !in e && EndsWithExtension(path, e)
    ensures Strings.LastIndexOf(path, '.') == |path| - |e| - 1
  {
    var k := |path| - |e| - 1;
    var lowered := Strings.ToLowerAscii(path[|path| - |e|..]);
    forall i | k < i < |path| ensures path[i] != '.' {
      assert lowered[i - k - 1] == Strings.LowerAscii(path[i]);
      LowerDot(path[i]);
    }
  }

  /** A path ending in "." and a dot-free extension has that extension after its last dot. */
  lemma LastExtensionOfMatch(path: string, e: string)
    requires '.' !in e && EndsWithExtension(path, e)
    ensures LastExtension(path) == Some(e)
  {
    LastDotBeforeExtension(path, e);
    assert path[Strings.LastIndexOf(path, '.') + 1..] == path[|path| - |e|..];
  }

  /** A path with a dot ends in "." followed by the lower-cased text after its last dot. */
  lemma MatchOfLastExtension(path: string)
    requires LastExtension(path).Some?
    ensures EndsWithExtension(path, LastExtension(path).value)
  {
    var d := Strings.LastIndexOf(path, '.');
    var e := LastExtension(path).value;
    assert |e| == |path| - d - 1;
    assert path[|path| - |e|..] == path[d + 1..];
  }

  /** For any list of dot-free extensions, a path ends with one of them exactly when the
      lower-cased text after its last dot is in the list. */
  lemma ExtensionByLastDot(path: string, exts: seq<string>)
    requires forall e :: e in exts ==> '.' !in e
    ensures (exists e :: e in exts && EndsWithExtension(path, e))
        <==> LastExtension(path).Some? && LastExtension(path).value in exts
  {
    if e :| e in exts && EndsWithExtension(path, e) {
      LastExtensionOfMatch(path, e);
    }
    if LastExtension(path).Some? && LastExtension(path).value in exts {
      MatchOfLastExtension(path);
    }
  }

  /** The static-asset pattern depends only on the text after the last dot: a path is a static
      asset exactly when that text, lower-cased, is one of the listed extensions. */
  lemma StaticAssetByLastDot(url: Url, selfOrigin: string)
    ensures IsStaticAsset(url, selfOrigin)
        <==> url.origin == selfOrigin && LastExtension(url.pathname).Some?
             && LastExtension(url.pathname).value in STATIC_EXTENSIONS
  {
    ExtensionsHaveNoDot();
    ExtensionByLastDot(url.pathname, STATIC_EXTENSIONS);
  }

  /** `isApiRequest`. */
  function IsApiRequest(url: Url): (r: bool)
    ensures r <==> |url.pathname| >= 5 && url.pathname[..5] == "/api/"
  {
    Strings.StartsWith(url.pathname, "/api/")
  }

  /** `shouldCache`: the Accept header mentions one of the dynamic types and the request is
      same-origin. `None` when the header is absent, where `includes` on null throws. */
  function ShouldCache(req: Request, selfOrigin: string): (r: Option<bool>)
    ensures r.None? <==> req.accept.None?
    ensures r == Some(true) <==>
              && req.accept.Some?
              && (exists t :: t in DYNAMIC_CACHE_TYPES && Strings.Contains(req.accept.value, t))
              && req.url.origin == selfOrigin
  {
    match req.accept
    case None => None
    case Some(accept) =>
      Some(AnyContained(accept, DYNAMIC_CACHE_TYPES) && req.url.origin == selfOrigin)
  }

  /** `types.some(type => text.includes(type))`. */
  function AnyContained(text: string, types: seq<string>): (r: bool)
    ensures r <==> exists t :: t in types && Strings.Contains(text, t)
  {
    if types == [] then false
    else
      var rest := AnyContained(text, types[1..]);
      assert forall t :: t in types <==> t == types[0] || t in types[1..];
      Strings.Contains(text, types[0]) || rest
  }

  /* ---------- Fetch routing ---------- */

  /** What the fetch handler does with a request. */
  datatype Route =
    | Passthrough       // no `respondWith`: the browser fetches as usual
    | HtmlNetworkFirst  // network, refreshing the runtime cache, offline page on failure
    | StaticCacheFirst  // the static cache, refreshed in the background
    | ApiNetworkFirst   // network, refreshing the API cache, cached copy on failure
    | RuntimeCache      // network, caching dynamically, cached copy on failure
    | HandlerThrows     // the handler reads `includes` of a null Accept header

  /** A request the handler does not return from at once: a GET over http(s) that is not
      addressed to a browser extension. */
  predicate Handled(req: Request)
  {
    req.verb == "GET" && Strings.StartsWith(req.url.protocol, "http")
    && !Strings.Contains(req.url.href, "chrome-extension")
  }

  /** The fetch handler's decision, in the order of its checks. */
  function RouteOf(req: Request, selfOrigin: string): (r: Route)
    ensures !Handled(req) ==> r == Passthrough
    ensures r == HtmlNetworkFirst <==>
              && Handled(req)
              && req.url.origin == selfOrigin
              && req.accept.Some? && Strings.Contains(req.accept.value, "text/html")
    ensures r == StaticCacheFirst <==>
              && Handled(req)
              && req.url.origin == selfOrigin && req.accept.Some?
              && !Strings.Contains(req.accept.value, "text/html")
              && IsStaticAsset(req.url, selfOrigin)
    ensures r == ApiNetworkFirst <==>
              && Handled(req) && IsApiRequest(req.url)
              && (req.url.origin == selfOrigin ==>
                    req.accept.Some? && !Strings.Contains(req.accept.value, "text/html")
                    && !IsStaticAsset(req.url, selfOrigin))
    ensures r == RuntimeCache <==>
              && Handled(req) && !IsApiRequest(req.url)
              && ShouldCache(req, selfOrigin) == Some(true)
              && !Strings.Contains(req.accept.value, "text/html")
              && !IsStaticAsset(req.url, selfOrigin)
    ensures r == HandlerThrows <==>
              Handled(req) && req.accept.None? && (req.url.origin == selfOrigin || !IsApiRequest(req.url))
  {
    if req.verb != "GET" || !Strings.StartsWith(req.url.protocol, "http") then Passthrough
    else if Strings.Contains(req.url.href, "chrome-extension") then Passthrough
    else if req.url.origin == selfOrigin && req.accept.None? then HandlerThrows
    else if req.url.origin == selfOrigin && Strings.Contains(req.accept.value, "text/html") then HtmlNetworkFirst
    else if req.url.origin == selfOrigin && IsStaticAsset(req.url, selfOrigin) then StaticCacheFirst
    else if IsApiRequest(req.url) then ApiNetworkFirst
    else
      match ShouldCache(req, selfOrigin)
      case None => HandlerThrows
      case Some(true) => RuntimeCache
      case Some(false) => Passthrough
  }

  /** Cross-origin requests are only ever passed through or sent network-first to the API
      strategy (or make the handler throw when they carry no Accept header and are not API calls). */
  lemma CrossOriginRoutes(req: Request, selfOrigin: string)
    requires req.url.origin != selfOrigin
    ensures RouteOf(req, selfOrigin) in {Passthrough, ApiNetworkFirst, HandlerThrows}
    ensures RouteOf(req, selfOrigin) == HandlerThrows ==> !IsApiRequest(req.url)
  {
  }

  /** A same-origin GET over http with an Accept header is never left to throw, and a
      static asset that is not an HTML navigation is always served cache-first. */
  lemma SameOriginRoutes(req: Request, selfOrigin: string)
    requires req.url.origin == selfOrigin && req.accept.Some?
    requires Handled(req)
    ensures RouteOf(req, selfOrigin) != HandlerThrows
    ensures !Strings.Contains(req.accept.value, "text/html") && IsStaticAsset(req.url, selfOrigin)
            ==> RouteOf(req, selfOrigin) == StaticCacheFirst
  {
  }

  /* ---------- Activation and cleanup ---------- */

  predicate IsStale(name: string) { name !in CACHE_NAMES }

  /** The caches `activate` deletes: those whose name is not one of the four current names. */
  function StaleCaches(names: seq<string>): (r: seq<string>)
    ensures forall i :: 0 <= i < |r| ==> r[i] in names && r[i] !in CACHE_NAMES
    ensures forall i :: 0 <= i < |names| && names[i] !in CACHE_NAMES ==> names[i] in r
  {
    Filter(names, IsStale)
  }

  /** The cache storage: cache name to the request keys held, oldest first. */
  type CacheStorage = map<string, seq<string>>

  /** Deleting a list of cache names from the storage, as `caches.delete(name)` does for each. */
  function DeleteCaches(storage: CacheStorage, names: seq<string>): (r: CacheStorage)
    ensures forall n :: n in r <==> n in storage && n !in names
    ensures forall n :: n in r ==> r[n] == storage[n]
  {
    if names == [] then storage else DeleteCaches(storage - {names[0]}, names[1..])
  }

  /** After activation only current caches remain, and none of them was touched. */
  lemma ActivationKeepsCurrent(storage: CacheStorage, names: seq<string>)
    requires forall n :: n in storage <==> n in names
    ensures var after := DeleteCaches(storage, StaleCaches(names));
            && (forall n :: n in after ==> n in CACHE_NAMES)
            && (forall n :: n in storage && n in CACHE_NAMES ==> n in after && after[n] == storage[n])
  {
  }

  /** The keys `cleanupOldCaches` selects: none when there are at most 50, otherwise the oldest
      `keys.length - 50`. */
  function EvictionSelection<K>(keys: seq<K>): (r: seq<K>)
    ensures |keys| <= MAX_DYNAMIC_CACHE ==> r == []
    ensures |keys| > MAX_DYNAMIC_CACHE ==> |keys| - |r| == MAX_DYNAMIC_CACHE
    ensures r + keys[|r|..] == keys
  {
    if |keys| > MAX_DYNAMIC_CACHE then keys[..|keys| - MAX_DYNAMIC_CACHE] else []
  }

  /** What a request key looks like when passed where a cache name is expected. */
  const REQUEST_AS_NAME := "[object Request]"

  /** `caches.open(name)`: the storage with that cache present, created empty when missing. */
  function Open(storage: CacheStorage, name: string): (r: CacheStorage)
    ensures name in r && r.Keys == storage.Keys + {name}
    ensures forall n :: n in storage ==> r[n] == storage[n]
    ensures name !in storage ==> r[name] == []
  {
    if name in storage then storage else storage[name := []]
  }

  /** `cleanupOldCaches` as written: each selected key is passed to `caches.delete`, which takes a
      cache NAME, so every call deletes the cache named like a stringified request (if any). */
  function CleanupAsWritten(storage: CacheStorage): (r: CacheStorage)
    ensures RUNTIME_CACHE in r && r[RUNTIME_CACHE] == Open(storage, RUNTIME_CACHE)[RUNTIME_CACHE]
  {
    var current := Open(storage, RUNTIME_CACHE);
    var selected := EvictionSelection(current[RUNTIME_CACHE]);
    DeleteCaches(current, seq(|selected|, _ => REQUEST_AS_NAME))
  }

  /** The cleanup as written leaves an over-full runtime cache as full as it was. */
  lemma CleanupAsWrittenKeepsOverflow(storage: CacheStorage)
    requires RUNTIME_CACHE in storage && |storage[RUNTIME_CACHE]| > MAX_DYNAMIC_CACHE
    ensures CleanupAsWritten(storage)[RUNTIME_CACHE] == storage[RUNTIME_CACHE]
    ensures |CleanupAsWritten(storage)[RUNTIME_CACHE]| > MAX_DYNAMIC_CACHE
  {
  }

  /** The cleanup as intended: the selected keys are deleted from the runtime cache itself. */
  function Cleanup(storage: CacheStorage): (r: CacheStorage)
    ensures r.Keys == storage.Keys + {RUNTIME_CACHE}
    ensures forall n :: n in storage && n != RUNTIME_CACHE ==> r[n] == storage[n]
  {
    var current := Open(storage, RUNTIME_CACHE);
    var keys := current[RUNTIME_CACHE];
    current[RUNTIME_CACHE := keys[|EvictionSelection(keys)|..]]
  }

  /** After the intended cleanup the runtime cache holds at most 50 keys, the most recent ones,
      and nothing is evicted from a cache that was not over the limit. */
  lemma CleanupBounds(storage: CacheStorage)
    ensures var keys := Open(storage, RUNTIME_CACHE)[RUNTIME_CACHE];
            var kept := Cleanup(storage)[RUNTIME_CACHE];
            && |kept| <= MAX_DYNAMIC_CACHE
            && kept == keys[|keys| - |kept|..]
            && (|keys| <= MAX_DYNAMIC_CACHE ==> kept == keys)
            && (|keys| > MAX_DYNAMIC_CACHE ==> |kept| == MAX_DYNAMIC_CACHE)
  {
    var keys := Open(storage, RUNTIME_CACHE)[RUNTIME_CACHE];
    var selected := EvictionSelection(keys);
    assert Cleanup(storage)[RUNTIME_CACHE] == keys[|selected|..];
  }
}
