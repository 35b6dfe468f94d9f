/** The storefront's service worker: the routing of each fetch to a
    caching strategy, the precache written at install, the clean-up at
    activate, and the cache updates each strategy makes. The browser's
    cache storage is a class whose state is a map from cache name to a
    map from request path to response, plus the order in which the
    caches were created (which `caches.match` searches in). */
module ServiceWorker {
  import opened Text
  import opened Wrappers

  const CacheName: string := "buscaaqui-v1"
  const StaticCache: string := "buscaaqui-static-v1"
  const DynamicCache: string := "buscaaqui-dynamic-v1"

  /** The pages precached at install. */
  const StaticAssets: seq<string> := ["/", "/offline", "/manifest.json"]

  /** The extensions the static-asset pattern accepts at the end of a path. */
  const StaticExtensions: seq<string> :=
    ["js", "css", "png", "jpg", "jpeg", "svg", "gif", "webp", "woff", "woff2"]

  /** A response as the worker sees it: only its status matters here. */
  datatype Response = Response(status: int, body: string)
  {
    /** `response.ok`. */
    predicate Ok()
    {
      200 <= status <= 299
    }
  }

  /** How the fetch handler treats a request. */
  datatype Strategy =
    | NotIntercepted     // the browser handles it
    | ApiNetworkFirst    // network, cached copy on failure
    | StaticCacheFirst   // cached copy, network on a miss
    | PageNetworkFirst   // network, cached copy or the offline page on failure

  /** The pattern `\.(js|css|png|jpg|jpeg|svg|gif|webp|woff2?)$` or the
      `/icons/` prefix. */
  predicate IsStaticAsset(path: string)
  {
    (exists k :: 0 <= k < |StaticExtensions| && EndsWith(path, "." + StaticExtensions[k])) ||
    StartsWith(path, "/icons/")
  }

  /** The routing decision of the fetch handler: only GET requests are
      intercepted; `/api/` is checked before the static-asset pattern. */
  function Classify(verb: string, path: string): (s: Strategy)
    ensures s.NotIntercepted? <==> verb != "GET"
    ensures s.ApiNetworkFirst? <==> verb == "GET" && StartsWith(path, "/api/")
    ensures s.StaticCacheFirst? <==> verb == "GET" && !StartsWith(path, "/api/") && IsStaticAsset(path)
    ensures s.PageNetworkFirst? <==> verb == "GET" && !StartsWith(path, "/api/") && !IsStaticAsset(path)
  {
    if verb != "GET" then NotIntercepted
    else if StartsWith(path, "/api/") then ApiNetworkFirst
    else if IsStaticAsset(path) then StaticCacheFirst
    else PageNetworkFirst
  }

  /** A script served under `/api/` matches the static-asset pattern, but
      the API test comes first, so it is fetched network first. */
  lemma ApiScriptIsNetworkFirst()
    ensures IsStaticAsset("/api/x.js")
    ensures Classify("GET", "/api/x.js") == ApiNetworkFirst
  {
    assert EndsWith("/api/x.js", "." + StaticExtensions[0]);
  }

  /** Every precached path, the manifest included (".json" is not a
      static extension), is served by the network-first page strategy,
      and a POST is never intercepted, wherever it goes. */
  lemma PrecachedPagesAreNetworkFirst(path: string)
    ensures Classify("POST", path) == NotIntercepted
    ensures path in StaticAssets ==> Classify("GET", path) == PageNetworkFirst
  {
    if path in StaticAssets {
      assert path == "/" || path == "/offline" || path == "/manifest.json";
      assert !StartsWith(path, "/api/") && !StartsWith(path, "/icons/") by {
        if |path| > 1 {
          assert path[1] == 'o' || path[1] == 'm';
          assert "/api/"[1] == 'a' && "/icons/"[1] == 'i';
        }
      }
      forall k | 0 <= k < |StaticExtensions|
        ensures !EndsWith(path, "." + StaticExtensions[k])
      {
        var suffix := "." + StaticExtensions[k];
        assert |suffix| >= 3 && suffix[|suffix| - 1] != 'e' && suffix[|suffix| - 1] != 'n';
        if |suffix| <= |path| {
          assert path[|path| - |suffix|..][|suffix| - 1] == path[|path| - 1];
          assert path[|path| - 1] == 'e' || path[|path| - 1] == 'n';
        }
      }
    }
  }

  /** `keys.filter(key => key !== STATIC_CACHE && key !== DYNAMIC_CACHE)`:
      the caches activate deletes. */
  function Obsolete(keys: seq<string>): (r: seq<string>)
    ensures forall k :: k in r <==> k in keys && k != StaticCache && k != DynamicCache
    ensures |r| <= |keys|
  {
    if keys == [] then []
    else if keys[0] != StaticCache && keys[0] != DynamicCache then [keys[0]] + Obsolete(keys[1..])
    else Obsolete(keys[1..])
  }

  /** The caches that survive activate, in creation order. */
  function Retained(keys: seq<string>): (r: seq<string>)
    ensures forall k :: k in r <==> k in keys && (k == StaticCache || k == DynamicCache)
    ensures |r| <= |keys|
  {
    if keys == [] then []
    else if keys[0] == StaticCache || keys[0] == DynamicCache then [keys[0]] + Retained(keys[1..])
    else Retained(keys[1..])
  }

  /** Every cache is either deleted or kept, never both; the worker's own
      unused `CACHE_NAME` cache is among the deleted. */
  lemma {:induction false} ObsoleteRetainedPartition(keys: seq<string>)
    ensures |Obsolete(keys)| + |Retained(keys)| == |keys|
    ensures CacheName in keys ==> CacheName in Obsolete(keys)
  {
    if keys != [] {
      ObsoleteRetainedPartition(keys[1..]);
    }
  }

  /** `caches.match(path)`: the entry of the first cache, in creation
      order, that holds the path. */
  function MatchIn(order: seq<string>, caches: map<string, map<string, Response>>, path: string): (r: Option<Response>)
    ensures r.Some? <==> exists k :: 0 <= k < |order| && order[k] in caches && path in caches[order[k]]
    ensures r.Some? ==> exists k :: 0 <= k < |order| && order[k] in caches && path in caches[order[k]] &&
                                    r.value == caches[order[k]][path] &&
                                    forall j :: 0 <= j < k ==> !(order[j] in caches && path in caches[order[j]])
  {
    if order == [] then None
    else if order[0] in caches && path in caches[order[0]] then Some(caches[order[0]][path])
    else
      var r := MatchIn(order[1..], caches, path);
      assert forall k :: 1 <= k < |order| ==> order[k] == order[1..][k - 1];
      if r.Some? then
        assert exists k :: 1 <= k < |order| && order[k] in caches && path in caches[order[k]] &&
                           r.value == caches[order[k]][path] &&
                           forall j :: 1 <= j < k ==> !(order[j] in caches && path in caches[order[j]]) by {
          var k :| 0 <= k < |order[1..]| && order[1..][k] in caches && path in caches[order[1..][k]] &&
                   r.value == caches[order[1..][k]][path] &&
                   forall j :: 0 <= j < k ==> !(order[1..][j] in caches && path in caches[order[1..][j]]);
          assert forall j :: 1 <= j < k + 1 ==> order[j] == order[1..][j - 1];
        }
        r
      else r
  }

  /** Every precached asset answered by the network with an ok response:
      `cache.addAll` stores them only then. */
  predicate AllAssetsOk(fetchAsset: string -> Option<Response>)
  {
    forall k :: 0 <= k < |StaticAssets| ==> fetchAsset(StaticAssets[k]).Some? && fetchAsset(StaticAssets[k]).value.Ok()
  }

  /** `cache.addAll(STATIC_ASSETS)` up to the write: the pages are
      fetched in order and the first failure or non-ok answer abandons
      the batch; otherwise every page is mapped to its response. */
  method FetchAssets(fetchAsset: string -> Option<Response>) returns (fetched: Option<map<string, Response>>)
    ensures fetched.Some? <==> AllAssetsOk(fetchAsset)
    ensures fetched.Some? ==> fetched.value.Keys == set k | 0 <= k < |StaticAssets| :: StaticAssets[k]
    ensures fetched.Some? ==> forall p :: p in fetched.value ==> fetchAsset(p).Some? && fetched.value[p] == fetchAsset(p).value
  {
    var m: map<string, Response> := map[];
    var i := 0;
    while i < |StaticAssets|
      invariant 0 <= i <= |StaticAssets|
      invariant forall j :: 0 <= j < i ==> fetchAsset(StaticAssets[j]).Some? && fetchAsset(StaticAssets[j]).value.Ok()
      invariant m.Keys == set j | 0 <= j < i :: StaticAssets[j]
      invariant forall p :: p in m ==> fetchAsset(p).Some? && m[p] == fetchAsset(p).value
    {
      var response := fetchAsset(StaticAssets[i]);
      if response.None? || !response.value.Ok() {
        return None;
      }
      m := m[StaticAssets[i] := response.value];
      i := i + 1;
    }
    fetched := Some(m);
  }

  /** What the fetch handler does with the page. */
  datatype FetchOutcome =
    | PassThrough                      // no `respondWith`
    | Respond(response: Option<Response>) // `None`: the promise gave no response

  /** The browser's cache storage. */
  class CacheStorage {
    var caches: map<string, map<string, Response>>
    var order: seq<string>

    /** Every cache appears once in the creation order. */
    predicate Valid()
      reads this
    {
      caches.Keys == (set n | n in order) &&
      (forall i, j :: 0 <= i < j < |order| ==> order[i] != order[j])
    }

    /** No caches yet. */
    constructor()
      ensures Valid() && caches == map[] && order == []
    {
      caches := map[];
      order := [];
    }

    /** The entries of a cache; a cache not yet opened is empty. */
    function Entries(name: string): (r: map<string, Response>)
      reads this
      ensures name in caches ==> r == caches[name]
      ensures name !in caches ==> r == map[]
    {
      if name in caches then caches[name] else map[]
    }

    /** `caches.match(path)`. */
    function Match(path: string): (r: Option<Response>)
      reads this
      ensures r.Some? <==> exists k :: 0 <= k < |order| && order[k] in caches && path in caches[order[k]]
    {
      MatchIn(order, caches, path)
    }

    /** `caches.open(name)`: creates the cache, last in order, when it
        does not exist. */
    method Open(name: string)
      requires Valid()
      modifies this
      ensures Valid()
      ensures caches == old(caches)[name := old(Entries(name))]
      ensures order == if name in old(caches) then old(order) else old(order) + [name]
    {
      if name !in caches {
        caches := caches[name := map[]];
        order := order + [name];
      }
    }

    /** `caches.open(name).then(cache => cache.put(path, response))`:
        only that entry of that cache changes. */
    method Put(name: string, path: string, response: Response)
      requires Valid()
      modifies this
      ensures Valid()
      ensures caches == old(caches)[name := old(Entries(name))[path := response]]
      ensures order == if name in old(caches) then old(order) else old(order) + [name]
    {
      Open(name);
      caches := caches[name := caches[name][path := response]];
    }

    /** The install handler: opens the static cache, fetches the three
        pages and, only when every one answered ok, stores all three;
        otherwise nothing is stored. */
    method Install(fetchAsset: string -> Option<Response>) returns (ok: bool)
      requires Valid()
      modifies this
      ensures Valid()
      ensures ok <==> AllAssetsOk(fetchAsset)
      ensures order == if StaticCache in old(caches) then old(order) else old(order) + [StaticCache]
      ensures caches.Keys == old(caches).Keys + {StaticCache}
      ensures forall n :: n in old(caches) && n != StaticCache ==> caches[n] == old(caches)[n]
      ensures !ok ==> caches[StaticCache] == old(Entries(StaticCache))
      ensures ok ==> caches[StaticCache].Keys == old(Entries(StaticCache)).Keys + set k | 0 <= k < |StaticAssets| :: StaticAssets[k]
      ensures ok ==> forall k :: 0 <= k < |StaticAssets| ==> caches[StaticCache][StaticAssets[k]] == fetchAsset(StaticAssets[k]).value
      ensures ok ==> forall p :: p in old(Entries(StaticCache)) && p !in StaticAssets ==>
                caches[StaticCache][p] == old(Entries(StaticCache))[p]
    {
      Open(StaticCache);
      var fetched := FetchAssets(fetchAsset);
      if fetched.None? {
        return false;
      }
      caches := caches[StaticCache := caches[StaticCache] + fetched.value];
      ok := true;
    }

    /** The activate handler: every cache but the static and the dynamic
        one is deleted. */
    method Activate()
      requires Valid()
      modifies this
      ensures Valid()
      ensures order == Retained(old(order))
      ensures forall n :: n in caches <==> n in old(caches) && (n == StaticCache || n == DynamicCache)
      ensures forall n :: n in caches ==> caches[n] == old(caches)[n]
      ensures CacheName !in caches
    {
      var kept := map n | n in caches && (n == StaticCache || n == DynamicCache) :: caches[n];
      var keptOrder := Retained(order);
      RetainedDistinct(order);
      assert kept.Keys == set n | n in keptOrder;
      assert CacheName != StaticCache && CacheName != DynamicCache by {
        assert |CacheName| < |StaticCache| && |CacheName| < |DynamicCache|;
      }
      caches, order := kept, keptOrder;
    }

    /** The fetch handler for one request. `network` is what `fetch`
        gives: a response, or `None` when it rejects. */
    method HandleFetch(verb: string, path: string, network: Option<Response>) returns (out: FetchOutcome)
      requires Valid()
      modifies this
      ensures Valid()
      ensures Classify(verb, path).NotIntercepted? ==>
                out == PassThrough && caches == old(caches) && order == old(order)
      ensures Classify(verb, path).ApiNetworkFirst? ==>
                if network.Some? then
                  && out == Respond(network)
                  && caches == old(caches)[DynamicCache := old(Entries(DynamicCache))[path := network.value]]
                  && order == if DynamicCache in old(caches) then old(order) else old(order) + [DynamicCache]
                else out == Respond(old(Match(path))) && caches == old(caches) && order == old(order)
      ensures Classify(verb, path).StaticCacheFirst? ==>
                if old(Match(path)).Some? then out == Respond(old(Match(path))) && caches == old(caches) && order == old(order)
                else if network.Some? then
                  && out == Respond(network)
                  && caches == old(caches)[StaticCache := old(Entries(StaticCache))[path := network.value]]
                  && order == if StaticCache in old(caches) then old(order) else old(order) + [StaticCache]
                else out == Respond(None) && caches == old(caches) && order == old(order)
      ensures Classify(verb, path).PageNetworkFirst? ==>
                if network.Some? then
                  && out == Respond(network)
                  && caches == old(caches)[DynamicCache := old(Entries(DynamicCache))[path := network.value]]
                  && order == if DynamicCache in old(caches) then old(order) else old(order) + [DynamicCache]
                else
                  && out == Respond(if old(Match(path)).Some? then old(Match(path)) else old(Match("/offline")))
                  && caches == old(caches) && order == old(order)
    {
      match Classify(verb, path)
      case NotIntercepted =>
        out := PassThrough;
      case ApiNetworkFirst =>
        if network.Some? {
          Put(DynamicCache, path, network.value);
          out := Respond(network);
        } else {
          out := Respond(Match(path));
        }
      case StaticCacheFirst =>
        var cached := Match(path);
        if cached.Some? {
          out := Respond(cached);
        } else if network.Some? {
          Put(StaticCache, path, network.value);
          out := Respond(network);
        } else {
          out := Respond(None);
        }
      case PageNetworkFirst =>
        if network.Some? {
          Put(DynamicCache, path, network.value);
          out := Respond(network);
        } else {
          var cached := Match(path);
          out := Respond(if cached.Some? then cached else Match("/offline"));
        }
    }
  }

  /** Filtering keeps the names distinct. */
  lemma {:induction false} RetainedDistinct(keys: seq<string>)
    requires forall i, j :: 0 <= i < j < |keys| ==> keys[i] != keys[j]
    ensures forall i, j :: 0 <= i < j < |Retained(keys)| ==> Retained(keys)[i] != Retained(keys)[j]
  {
    if keys != [] {
      RetainedDistinct(keys[1..]);
      assert keys[0] !in keys[1..];
    }
  }

  /** Once installed, the offline page is available to the page strategy
      even when the network is down: a page request that fails on the
      network and has no cached copy of its own gets `/offline`. */
  lemma OfflineFallback(order: seq<string>, caches: map<string, map<string, Response>>, path: string)
    requires StaticCache in order && StaticCache in caches && "/offline" in caches[StaticCache]
    ensures MatchIn(order, caches, "/offline").Some?
  {
    var k :| 0 <= k < |order| && order[k] == StaticCache;
  }
}
