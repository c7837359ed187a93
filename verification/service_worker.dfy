/** The offline request handler of the songbook's service worker
    (public/sw.js).

    Two named response caches live in the origin's cache storage:
    `songbook-poc-cache-v1` for static assets (`assets` below) and
    `song-data-cache-v1` for API data (`data` below). The install handler
    fills the asset cache from a fixed manifest and creates the data cache;
    the fetch handler sends every request whose URL contains `supabase.co`
    down a network-first path over the data cache, and every other request
    down a cache-first path over the asset cache.

    The network is an input (`Net`), so every branch of the handlers is a
    function of the caches before the event and the network's answer. */
module ServiceWorker {
  import opened Wrappers

  /** The substring that classifies a request as an API request. */
  const ApiHost := "supabase.co"

  /** `Response.type` of the Fetch standard. */
  datatype ResponseType = Basic | Cors | Default | Error | Opaque | OpaqueRedirect

  /** A response, opaque apart from its status and type; `clone()` is the identity. */
  datatype Response = Response(status: int, kind: ResponseType, body: string)

  /** Request identity as the Cache API compares it: method and URL. */
  datatype Request = Request(verb: string, url: string)

  /** What `fetch(request)` does: reject with a network error, or resolve. */
  datatype Net = Fail | Ok(response: Response)

  type Cache = map<Request, Response>

  /** The two named caches; `None` while `caches.open` has not yet created one. */
  datatype Storage = Storage(assets: Option<Cache>, data: Option<Cache>)

  /** What the fetch handler hands to `respondWith` (`None`: the page sees a
      network error) and the caches afterwards. */
  datatype Reply = Reply(answer: Option<Response>, storage: Storage)

  /** Whether the install event's promise resolved, and the caches afterwards. */
  datatype Installed = Installed(ok: bool, storage: Storage)

  /** The outcome of one strategy on the one cache it works on. */
  datatype Handled = Handled(answer: Option<Response>, cache: Cache)

  // ---------------------------------------------------------------------
  // Request classification: `url.includes('supabase.co')`

  predicate StartsWith(s: string, prefix: string) {
    |prefix| <= |s| && s[..|prefix|] == prefix
  }

  /** `String.prototype.includes`, one starting position at a time. */
  predicate Includes(s: string, pat: string)
    decreases |s|
  {
    StartsWith(s, pat) || (|s| > 0 && Includes(s[1..], pat))
  }

  /** `pat` sits in `s` at position `i`. */
  ghost predicate OccursAt(s: string, pat: string, i: int) {
    0 <= i && i + |pat| <= |s| && s[i..i + |pat|] == pat
  }

  /** `Includes` finds exactly the occurrences: it holds iff `pat` occurs at
      some position of `s`. */
  lemma {:induction false} IncludesIff(s: string, pat: string)
    ensures Includes(s, pat) <==> exists i :: OccursAt(s, pat, i)
    decreases |s|
  {
    if StartsWith(s, pat) {
      assert OccursAt(s, pat, 0);
    } else {
      assert !OccursAt(s, pat, 0);
      if |s| > 0 {
        IncludesIff(s[1..], pat);
        forall i | OccursAt(s[1..], pat, i)
          ensures OccursAt(s, pat, i + 1)
        {
          assert s[1..][i..i + |pat|] == s[i + 1..i + 1 + |pat|];
        }
        forall i | OccursAt(s, pat, i)
          ensures OccursAt(s[1..], pat, i - 1)
        {
          assert s[1..][i - 1..i - 1 + |pat|] == s[i..i + |pat|];
        }
      }
    }
  }

  /** public/sw.js:24 — the request goes down the API path. */
  predicate IsApiRequest(req: Request) {
    Includes(req.url, ApiHost)
  }

  /** A URL shorter than the API host can never be routed to the API path. */
  lemma ShortUrlIsStatic(req: Request)
    requires |req.url| < |ApiHost|
    ensures !IsApiRequest(req)
  {
    IncludesIff(req.url, ApiHost);
  }

  /** public/sw.js:52 — the static path keeps only a 200 same-origin response. */
  predicate IsCacheable(resp: Response) {
    resp.status == 200 && resp.kind == Basic
  }

  // ---------------------------------------------------------------------
  // Cache API primitives

  /** `Cache.match` with default options: a request that is not GET never
      matches, otherwise the stored entry for the identical request. */
  function CacheMatch(c: Cache, req: Request): Option<Response> {
    if req.verb == "GET" && req in c then Some(c[req]) else None
  }

  /** `Cache.put`: stores the response under a GET request; for any other
      method it rejects with a TypeError and stores nothing. */
  function CachePut(c: Cache, req: Request, resp: Response): (c': Cache)
    ensures CacheMatch(c', req) == (if req.verb == "GET" then Some(resp) else None)
    ensures forall k :: k != req ==> CacheMatch(c', k) == CacheMatch(c, k)
    ensures c'.Keys <= c.Keys + {req}
  {
    if req.verb == "GET" then c[req := resp] else c
  }

  /** `caches.open(name)`: the named cache, created empty when absent. */
  function Opened(c: Option<Cache>): Cache {
    c.GetOr(map[])
  }

  /** `caches.match`: every cache in creation order. The install handler
      opens the asset cache before the data cache, so it is searched first. */
  function StorageMatch(s: Storage, req: Request): Option<Response> {
    var inAssets := CacheMatch(Opened(s.assets), req);
    if inAssets.Some? then inAssets else CacheMatch(Opened(s.data), req)
  }

  /** `Cache.addAll` accepts a fetched response only when the fetch resolved
      with a 2xx status that is not 206 and a type other than "error". */
  predicate AddAllAccepts(net: Net) {
    net.Ok? && 200 <= net.response.status <= 299 && net.response.status != 206
    && net.response.kind != Error
  }

  /** `Cache.addAll(reqs)` given the network's answer to each request. */
  function AddAll(c: Cache, reqs: seq<Request>, replies: seq<Net>): Option<Cache>
    requires |reqs| == |replies|
    decreases |reqs|
  {
    if reqs == [] then Some(c)
    else if !AddAllAccepts(replies[0]) then None
    else AddAll(CachePut(c, reqs[0], replies[0].response), reqs[1..], replies[1..])
  }

  /** `addAll` is all-or-nothing: it succeeds exactly when every fetch is accepted. */
  lemma {:induction false} AddAllAllOrNothing(c: Cache, reqs: seq<Request>, replies: seq<Net>)
    requires |reqs| == |replies|
    ensures AddAll(c, reqs, replies).Some? <==>
            forall i :: 0 <= i < |replies| ==> AddAllAccepts(replies[i])
    decreases |reqs|
  {
    if reqs != [] && AddAllAccepts(replies[0]) {
      AddAllAllOrNothing(CachePut(c, reqs[0], replies[0].response), reqs[1..], replies[1..]);
      assert forall i :: 1 <= i < |replies| ==> replies[1..][i - 1] == replies[i];
    }
  }

  /** After a successful `addAll`, each GET request maps to its own response,
      as long as no later request in the list is the same request. */
  lemma {:induction false} AddAllStores(c: Cache, reqs: seq<Request>, replies: seq<Net>, i: int)
    requires |reqs| == |replies| && AddAll(c, reqs, replies).Some?
    requires 0 <= i < |reqs| && reqs[i].verb == "GET"
    requires forall j :: i < j < |reqs| ==> reqs[j] != reqs[i]
    ensures replies[i].Ok?
    ensures CacheMatch(AddAll(c, reqs, replies).value, reqs[i]) == Some(replies[i].response)
    decreases |reqs|
  {
    var c' := CachePut(c, reqs[0], replies[0].response);
    if i == 0 {
      AddAllKeepsOthers(c', reqs[1..], replies[1..], reqs[0]);
    } else {
      AddAllStores(c', reqs[1..], replies[1..], i - 1);
    }
  }

  /** A successful `addAll` leaves every request outside its list as it was. */
  lemma {:induction false} AddAllKeepsOthers(c: Cache, reqs: seq<Request>, replies: seq<Net>, k: Request)
    requires |reqs| == |replies| && AddAll(c, reqs, replies).Some?
    requires k !in reqs
    ensures CacheMatch(AddAll(c, reqs, replies).value, k) == CacheMatch(c, k)
    decreases |reqs|
  {
    if reqs != [] {
      AddAllKeepsOthers(CachePut(c, reqs[0], replies[0].response), reqs[1..], replies[1..], k);
    }
  }

  // ---------------------------------------------------------------------
  // The install handler (public/sw.js:12-20)

  /** The asset manifest, ASSETS_TO_CACHE (public/sw.js:2-7). */
  const AssetsToCache: seq<Request> := [
    Request("GET", "/"),
    Request("GET", "/index.html"),
    Request("GET", "/assets/main.css"),
    Request("GET", "/assets/main.js")
  ]

  /** Both caches are opened; `addAll` fills the asset cache from the
      manifest (`replies[i]` answers `AssetsToCache[i]`), and the event
      fails when `addAll` rejects. */
  function Install(s: Storage, replies: seq<Net>): Installed
    requires |replies| == |AssetsToCache|
  {
    var assets := Opened(s.assets);
    var added := AddAll(assets, AssetsToCache, replies);
    Installed(added.Some?, Storage(Some(added.GetOr(assets)), Some(Opened(s.data))))
  }

  /** Install succeeds iff every manifest fetch is accepted; then every
      manifest entry is cached with its response; on failure the asset cache
      keeps its old entries; either way the data cache exists with its old
      entries and nothing outside the manifest changes. */
  lemma InstallOutcome(s: Storage, replies: seq<Net>)
    requires |replies| == |AssetsToCache|
    ensures Install(s, replies).ok <==> forall i :: 0 <= i < |replies| ==> AddAllAccepts(replies[i])
    ensures Install(s, replies).ok ==>
      forall i :: 0 <= i < |AssetsToCache| ==>
        replies[i].Ok? &&
        StorageMatch(Install(s, replies).storage, AssetsToCache[i]) == Some(replies[i].response)
    ensures !Install(s, replies).ok ==> Install(s, replies).storage.assets == Some(Opened(s.assets))
    ensures Install(s, replies).storage.assets.Some?
    ensures Install(s, replies).storage.data == Some(Opened(s.data))
    ensures forall k :: k !in AssetsToCache ==>
      CacheMatch(Opened(Install(s, replies).storage.assets), k) == CacheMatch(Opened(s.assets), k)
  {
    var assets := Opened(s.assets);
    AddAllAllOrNothing(assets, AssetsToCache, replies);
    if AddAll(assets, AssetsToCache, replies).Some? {
      forall i | 0 <= i < |AssetsToCache|
        ensures replies[i].Ok?
        ensures CacheMatch(AddAll(assets, AssetsToCache, replies).value, AssetsToCache[i]) == Some(replies[i].response)
      {
        AddAllStores(assets, AssetsToCache, replies, i);
      }
      forall k | k !in AssetsToCache
        ensures CacheMatch(AddAll(assets, AssetsToCache, replies).value, k) == CacheMatch(assets, k)
      {
        AddAllKeepsOthers(assets, AssetsToCache, replies, k);
      }
    }
  }

  // ---------------------------------------------------------------------
  // The fetch handler (public/sw.js:22-68)

  /** API path (public/sw.js:25-38): network first; a 200 response is
      written back to the data cache; on a network error, the cached entry
      for the identical request, which may be absent. */
  function NetworkFirst(data: Cache, req: Request, net: Net): (h: Handled)
    ensures net.Ok? ==> h.answer == Some(net.response)
    ensures net.Ok? && net.response.status == 200 ==>
      CacheMatch(h.cache, req) == (if req.verb == "GET" then Some(net.response) else None)
    ensures net.Ok? && net.response.status != 200 ==> h.cache == data
    ensures net.Fail? ==> h.answer == CacheMatch(data, req) && h.cache == data
    ensures forall k :: k != req ==> CacheMatch(h.cache, k) == CacheMatch(data, k)
  {
    match net
    case Ok(resp) => Handled(Some(resp), if resp.status == 200 then CachePut(data, req, resp) else data)
    case Fail => Handled(CacheMatch(data, req), data)
  }

  /** Static path (public/sw.js:43-67): cache first; on a miss, the network
      response is returned and kept in the asset cache only when cacheable;
      a network error on a miss reaches the page. */
  function CacheFirst(s: Storage, req: Request, net: Net): (r: Reply)
    ensures StorageMatch(s, req).Some? ==> r == Reply(StorageMatch(s, req), s)
    ensures StorageMatch(s, req).None? ==> r.answer == (if net.Ok? then Some(net.response) else None)
    ensures StorageMatch(s, req).None? && net.Ok? && IsCacheable(net.response) ==>
      r.storage == Storage(Some(CachePut(Opened(s.assets), req, net.response)), s.data)
    ensures StorageMatch(s, req).None? && !(net.Ok? && IsCacheable(net.response)) ==> r.storage == s
  {
    var hit := StorageMatch(s, req);
    if hit.Some? then Reply(hit, s)
    else match net
      case Fail => Reply(None, s)
      case Ok(resp) =>
        if IsCacheable(resp) then Reply(Some(resp), s.(assets := Some(CachePut(Opened(s.assets), req, resp))))
        else Reply(Some(resp), s)
  }

  /** One fetch event: exactly one path runs, chosen by the URL. The API
      path never touches the asset cache (and opens the data cache); the
      static path never touches the data cache. */
  function Fetch(s: Storage, req: Request, net: Net): (r: Reply)
    ensures IsApiRequest(req) ==> r.storage.assets == s.assets && r.storage.data.Some?
    ensures !IsApiRequest(req) ==> r.storage.data == s.data
  {
    if IsApiRequest(req) then
      var h := NetworkFirst(Opened(s.data), req, net);
      Reply(h.answer, s.(data := Some(h.cache)))
    else
      CacheFirst(s, req, net)
  }

  // ---------------------------------------------------------------------
  // Properties across events

  /** Every entry of the data cache was written by the API path. */
  ghost predicate DataKeysAreApi(s: Storage) {
    forall k :: k in Opened(s.data) ==> IsApiRequest(k)
  }

  lemma FetchKeepsDataKeysApi(s: Storage, req: Request, net: Net)
    requires DataKeysAreApi(s)
    ensures DataKeysAreApi(Fetch(s, req, net).storage)
  {
    if IsApiRequest(req) {
      var h := NetworkFirst(Opened(s.data), req, net);
      assert h.cache.Keys <= Opened(s.data).Keys + {req};
    }
  }

  lemma InstallKeepsDataKeysApi(s: Storage, replies: seq<Net>)
    requires |replies| == |AssetsToCache| && DataKeysAreApi(s)
    ensures DataKeysAreApi(Install(s, replies).storage)
  {
  }

  /** `caches.match` on the static path searches both caches, but under the
      invariant only the asset cache can answer a static request. */
  lemma StaticLookupSkipsDataCache(s: Storage, req: Request)
    requires DataKeysAreApi(s) && !IsApiRequest(req)
    ensures StorageMatch(s, req) == CacheMatch(Opened(s.assets), req)
  {
  }

  /** A 200 GET API response, once served, is what an identical request
      gets while the network is down. */
  lemma OfflineReplaysApiResponse(s: Storage, req: Request, resp: Response)
    requires IsApiRequest(req) && req.verb == "GET" && resp.status == 200
    ensures Fetch(Fetch(s, req, Ok(resp)).storage, req, Fail).answer == Some(resp)
  {
  }

  /** An API request that is not GET is never written to, nor matched in,
      the data cache: offline it always ends in a network error. */
  lemma NonGetApiRequestNeverCached(s: Storage, req: Request, net: Net)
    requires IsApiRequest(req) && req.verb != "GET"
    ensures Fetch(s, req, net).storage.data == Some(Opened(s.data))
    ensures Fetch(s, req, Fail).answer == None
  {
  }

  /** An offline API request with no stored entry ends in a network error
      and changes nothing but the creation of the data cache. */
  lemma OfflineApiMissIsNetworkError(s: Storage, req: Request)
    requires IsApiRequest(req) && CacheMatch(Opened(s.data), req).None?
    ensures Fetch(s, req, Fail) == Reply(None, Storage(s.assets, Some(Opened(s.data))))
  {
  }

  /** A static request answered with something cacheable is answered the
      same way again, whatever the network then does, and the second
      request changes nothing. */
  lemma StaticRepeatServedFromCache(s: Storage, req: Request, resp: Response, net: Net)
    requires !IsApiRequest(req) && req.verb == "GET" && IsCacheable(resp)
    ensures var first := Fetch(s, req, Ok(resp));
      Fetch(first.storage, req, net) == Reply(first.answer, first.storage)
  {
  }

  /** After a successful install, the document root is served from the
      asset cache while the network is down. */
  lemma InstallThenOfflineRoot(s: Storage, replies: seq<Net>)
    requires |replies| == |AssetsToCache| && Install(s, replies).ok
    ensures replies[0].Ok?
    ensures Fetch(Install(s, replies).storage, AssetsToCache[0], Fail).answer == Some(replies[0].response)
  {
    InstallOutcome(s, replies);
    ShortUrlIsStatic(AssetsToCache[0]);
  }

  // ---------------------------------------------------------------------
  // The worker's state

  /** The origin's cache storage as the worker sees it. */
  class Worker {
    /** `songbook-poc-cache-v1` */
    var assets: Option<Cache>
    /** `song-data-cache-v1` */
    var data: Option<Cache>

    function Caches(): Storage
      reads this
    {
      Storage(assets, data)
    }

    ghost predicate Valid()
      reads this
    {
      DataKeysAreApi(Caches())
    }

    /** A worker of a new origin: no cache exists yet. */
    constructor ()
      ensures Valid() && assets == None && data == None
    {
      assets := None;
      data := None;
    }

    /** The install event (public/sw.js:12-20). */
    method OnInstall(replies: seq<Net>) returns (ok: bool)
      requires Valid() && |replies| == |AssetsToCache|
      modifies this
      ensures Valid()
      ensures Installed(ok, Caches()) == Install(old(Caches()), replies)
    {
      InstallKeepsDataKeysApi(Caches(), replies);
      var assetCache := Opened(assets);
      assets := Some(assetCache);
      data := Some(Opened(data));
      var added := AddAll(assetCache, AssetsToCache, replies);
      ok := added.Some?;
      if ok {
        assets := Some(added.value);
      }
    }

    /** The fetch event (public/sw.js:22-68): the response handed to
        `respondWith`, `None` when the page sees a network error. */
    method OnFetch(req: Request, net: Net) returns (answer: Option<Response>)
      requires Valid()
      modifies this
      ensures Valid()
      ensures Reply(answer, Caches()) == Fetch(old(Caches()), req, net)
    {
      FetchKeepsDataKeysApi(Caches(), req, net);
      if IsApiRequest(req) {
        var cache := Opened(data);
        data := Some(cache);
        match net {
          case Ok(resp) =>
            if resp.status == 200 {
              data := Some(CachePut(cache, req, resp));
            }
            answer := Some(resp);
          case Fail =>
            answer := CacheMatch(cache, req);
        }
      } else {
        answer := StorageMatch(Caches(), req);
        if answer.None? {
          match net {
            case Ok(resp) =>
              if IsCacheable(resp) {
                assets := Some(CachePut(Opened(assets), req, resp));
              }
              answer := Some(resp);
            case Fail =>
              answer := None;
          }
        }
      }
    }
  }
}
