/**
 * The fetch handler (sw.js:22-27): `caches.match(request)` and, on a miss,
 * `fetch(request)`. The handler only reads the cache; its result is a reply
 * for the page and no new cache.
 */
module Fetch {
  import opened Wrappers

  /** The request's HTTP method and URL. */
  datatype Request = Request(verb: string, url: string)

  /** A stored or fetched response; its status and body are opaque here. */
  datatype Response = Response(status: nat, body: string)

  /** The one cache `islamic-app-v1`: responses stored for GET requests, keyed by URL. */
  type Cache = map<string, Response>

  /** What the page receives: a response, or a network error when the promise
      given to `respondWith` rejects. */
  datatype Reply = Respond(response: Response) | NetworkError

  /** What the handler does with a request: serve a cached response or go to the network. */
  datatype Route = FromCache(response: Response) | ToNetwork

  /** `caches.match`: only a GET request can match, and it matches the entry stored under its URL. */
  function Match(cache: Cache, request: Request): (r: Option<Response>)
    ensures r.Some? <==> request.verb == "GET" && request.url in cache
    ensures r.Some? ==> r.value == cache[request.url]
  {
    if request.verb == "GET" && request.url in cache then Some(cache[request.url]) else None
  }

  /** `response || fetch(request)`: a hit is served from the cache, a miss goes to the network. */
  function Choose(cache: Cache, request: Request): (route: Route)
    ensures route.FromCache? <==> Match(cache, request).Some?
    ensures route.FromCache? ==> route.response == cache[request.url]
  {
    match Match(cache, request)
    case Some(cached) => FromCache(cached)
    case None => ToNetwork
  }

  /** The reply for a request, given what the network would answer (`None`: `fetch` rejects).
      The network answer is consulted only on the `ToNetwork` route. */
  function HandleFetch(cache: Cache, request: Request, network: Option<Response>): (reply: Reply)
    ensures Match(cache, request).Some? ==> reply == Respond(cache[request.url])
    ensures Match(cache, request).None? ==> (reply == NetworkError <==> network.None?)
    ensures Match(cache, request).None? && network.Some? ==> reply == Respond(network.value)
  {
    match Choose(cache, request)
    case FromCache(cached) => Respond(cached)
    case ToNetwork => if network.Some? then Respond(network.value) else NetworkError
  }

  /** On a hit the cached response is returned whatever the network would have said,
      so the network is never contacted. */
  lemma CacheHitIgnoresNetwork(cache: Cache, request: Request, n1: Option<Response>, n2: Option<Response>)
    requires request.verb == "GET" && request.url in cache
    ensures HandleFetch(cache, request, n1) == HandleFetch(cache, request, n2) == Respond(cache[request.url])
  {
  }

  /** On a miss the network's answer is passed through unchanged, and its failure reaches the page. */
  lemma CacheMissForwardsNetwork(cache: Cache, request: Request, network: Option<Response>)
    requires Match(cache, request).None?
    ensures network.Some? ==> HandleFetch(cache, request, network) == Respond(network.value)
    ensures network.None? ==> HandleFetch(cache, request, network) == NetworkError
  {
  }
}
