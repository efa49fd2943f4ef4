# caching-proxy in Dafny

A model of the core of `caching-proxy`, a small Go HTTP forward proxy. It
is configured with one origin URL, forwards requests that miss the cache
to that origin, and keeps an in-memory cache of the responses. A request
whose target is absolute-form (`GET http://other.example/x`) is an
exception: it is forwarded to the host it names, not to the origin. The
model covers two parts, the cache store and the proxy's forwarding engine.

**The cache store** (`internal/cache/cache.go`) is the class `Cache.Cache`. It holds a
`map<string, Entry>` that `Set` and `Clear` reassign and `Get` reads.
`Entry` is a value: body bytes, the full header multimap and the content type.

**The forwarding engine** (`internal/proxy/proxy.go`) is the class `Proxy.Proxy`. Its
`ServeHTTP`, `ServeFromCache` and `ForwardRequest` drive a
`Http.ResponseWriter` and the shared store, as the Go code does. Each is
proved against a specification function. `Proxy.Serve` takes
(store, request) to (store', reply). `ServeHTTP` is proved to leave exactly
`Serve(old store, request, origin)` behind. The properties of a request —
HIT, MISS, failure, a MISS followed by a HIT — are lemmas about `Serve`, in
`ProxyProperties`.

The supporting pieces are modelled concretely:

- The cache key is the method followed by Go's `url.PathEscape` of the
  decoded path. It is written out byte by byte in `Url`, together with its
  inverse `PathUnescape`. A round-trip lemma makes the key analysable.
- `strings.ToLower` and `strings.Contains` are in `Strings`.
- The header multimap with `Get`/`Set`/`Add`/`Del`, the server-side
  `ResponseWriter` and `http.Error` are in `Http`. The writer keeps a live
  header map and a copy frozen when the status is sent. `Write` without an
  earlier `WriteHeader` sends status 200.

A request carries its target's scheme, host and escaped path alongside the
decoded path. `Proxy.Outbound` resolves the target against the origin's
scheme and host, as `url.ResolveReference` does. The HTTP client is one
function, `Upstream`. It maps the request the proxy sends, full URL
included, to one of four outcomes: `NewRequestFailed`, `DoFailed`,
`ReadFailed` or `Fetched(response)`.

`ProxyTest` replays the Go proxy test. `CacheTest.SetAndGet` replays the Go
cache test. `NewCacheIsEmpty`, `LastWriteWins` and `ClearForgets` are
further scenarios on a fresh store.

In several places this code does not do what one would expect of such a
proxy. The model follows the code:

- "Every reply is tagged HIT or MISS" does not hold. A failed forward is
  answered by `http.Error` with status 500 and **no** `X-Cache` header
  (`ProxyProperties.EveryReplyIsTaggedOrFailed`).
- "Different requests get different cache entries" does not hold. The key
  is the method followed by the escaped decoded path, with no separator.
  - It is injective on method and path for methods without `%` and paths
    that start with an escaped byte (`Proxy.KeyInjective`).
  - `GET` on `/x/` and the method `GET%2Fx` on `/` share a key
    (`Proxy.KeyCollision`).
  - The key ignores the target's scheme and host. An absolute-form request
    for another host fills the entry that the origin-form request for the
    same path then hits (`ProxyProperties.AbsoluteTargetSharesEntry`).
  - The key uses the decoded path, but upstream gets the escaped one.
    `/a%2Fb` and `/a/b` reach the origin as different URLs and share one
    entry (`ProxyProperties.EscapedPathsShareKey`).
- Only the first `Cache-Control` value is inspected. `no-store` and
  `private` are matched as substrings in any letter case, not as directives.
  `max-age`, `no-cache`, `Expires` and the status code play no part.
- A HIT always has status 200, whatever status was stored, because only the
  body, headers and content type are kept. It always sets `Content-Type`, to
  `""` when the origin sent none.
- A MISS copies headers with `Add`. A header name whose value list is empty
  is therefore not copied to the client.

## Model

| member | source | states |
|---|---|---|
| Cache.Cache.constructor | internal/cache/cache.go:23-27 | a new store holds no entries |
| Cache.Cache.Set | internal/cache/cache.go:30-40 | the entry under key is replaced by (data, headers, contentType); the key set gains key and nothing else; every other key keeps its entry |
| Cache.Cache.Get | internal/cache/cache.go:43-49 | found exactly when key is stored; then the stored entry, otherwise Go's zero Entry; the store is not changed |
| Cache.Cache.Clear | internal/cache/cache.go:52-57 | afterwards the store is empty |
| CacheTest.SetAndGet | internal/cache/cache_test.go:20-37 | a key set on a new store reads back found, with the same data, headers and content type |
| CacheTest.NewCacheIsEmpty | internal/cache/cache.go:43-49 | on a new store every key reads back not found, as the zero Entry |
| CacheTest.LastWriteWins | internal/cache/cache.go:34-39 | of two writes to a key the second is read back; a write to another key in between is kept and does not disturb it |
| CacheTest.ClearForgets | internal/cache/cache.go:52-57 | after Clear a key that was set is not found, and still not after a second Clear |
| Url.EscapeByte | internal/proxy/proxy.go:50 | an escaped byte becomes three characters starting with '%', a kept byte becomes itself (never '%'); only safe characters are produced |
| Url.PathEscape | internal/proxy/proxy.go:50 | the escaped path is between one and three times as long as the path, holds only safe characters (no '/', '?', ';', ',', space or non-ASCII), and starts with '%' when its first byte is escaped |
| Url.PathEscapeRoundTrip | internal/proxy/proxy.go:50 | unescaping the escaped path gives back the path, for every byte sequence |
| Url.PathEscapeInjective | internal/proxy/proxy.go:50 | different paths escape differently |
| Proxy.GenerateCacheKey | internal/proxy/proxy.go:48-51 | the key starts with the method, and the rest of it unescapes to the request path, so the target's scheme and host, the escaped path, the query, the headers and the body play no part |
| Proxy.KeyInjective | internal/proxy/proxy.go:48-51 | for methods without '%' and paths empty or starting with an escaped byte, equal keys mean equal method and equal path |
| Proxy.KeyCollision | internal/proxy/proxy.go:50 | two requests with different methods (GET on /x/, GET%2Fx on /) get the same key |
| Strings.ToLower | internal/proxy/proxy.go:110 | same length; each character lowered on its own |
| Strings.Contains | internal/proxy/proxy.go:111 | true exactly when sub occurs at some index of s |
| Proxy.ContainsLowerIffMentions | internal/proxy/proxy.go:110-111 | searching the lowered value finds a lower-case pattern exactly when the value matches it somewhere, ignoring case |
| Proxy.IsResponseCacheable | internal/proxy/proxy.go:109-112 | cacheable exactly when the first Cache-Control value mentions neither no-store nor private, ignoring case |
| ProxyProperties.NoStoreIsNotCacheable | internal/proxy/proxy.go:109-112 | Cache-Control: no-store is not cacheable |
| ProxyProperties.PrivateIsNotCacheable | internal/proxy/proxy.go:109-112 | Cache-Control: private is not cacheable |
| ProxyProperties.MixedCaseNoStoreIsNotCacheable | internal/proxy/proxy.go:110-111 | "max-age=0, No-Store" is not cacheable: the match ignores case and position |
| ProxyProperties.DottedCapitalIPrivateIsNotCacheable | internal/proxy/proxy.go:110 | "PRİVATE" (capital I with dot) is not cacheable, since Go lowers U+0130 to 'i' |
| ProxyProperties.PublicIsCacheable | internal/proxy/proxy.go:109-112 | "public, max-age=60" is cacheable |
| ProxyProperties.NoCacheControlIsCacheable | internal/proxy/proxy.go:109-112 | a response without Cache-Control is cacheable |
| ProxyProperties.SecondValueIsIgnored | internal/proxy/proxy.go:110 | a no-store in the second Cache-Control value does not prevent storing |
| ProxyProperties.RestrictionIsSticky | internal/proxy/proxy.go:109-112 | a first Cache-Control value that prevents storing still prevents it with any text added before or after it and any further values |
| Proxy.AddedStep | internal/proxy/proxy.go:101-105 | copying one more name (absent so far) appends its values after what the other names gave, independent of the order names are visited in |
| Proxy.CopyHeaders | internal/proxy/proxy.go:100-106 | the result is the additive merge: every name keeps its dst values followed by all src values, in order; no dst name is lost |
| Http.ResponseWriter.WriteHeader | internal/proxy/proxy.go:93 | the first call sends the status and freezes the live headers as the sent ones; later calls change nothing |
| Http.ResponseWriter.Write | internal/proxy/proxy.go:60 | appends the data; sends status 200 and freezes the headers if nothing was sent yet |
| Http.Error | internal/proxy/proxy.go:43 | drops Content-Length, sets a plain-text Content-Type and nosniff, sends the code unless a status was already sent, and appends the message and a newline |
| Proxy.Proxy.constructor | internal/proxy/proxy.go:18-29 | the proxy keeps the origin and the shared store it was given |
| Proxy.Proxy.ServeFromCache | internal/proxy/proxy.go:54-61 | the reply is the entry replayed: stored headers, X-Cache HIT and Content-Type the stored type forced, status 200, stored body |
| Proxy.Proxy.ForwardRequest | internal/proxy/proxy.go:64-97 | fails exactly when the origin gives no response, then touching neither store nor writer; otherwise stores the response exactly when cacheable and replies with the copied headers, X-Cache MISS, upstream status and body |
| Proxy.Proxy.ServeHTTP | internal/proxy/proxy.go:32-45 | the new store and the reply are those of the transition Serve from the old store |
| ProxyProperties.HitReplaysEntry | internal/proxy/proxy.go:36-39 | on a stored key the origin is not consulted, the store is unchanged, and the reply is status 200, the stored body, X-Cache exactly HIT, Content-Type exactly the stored type and every other stored header unchanged |
| ProxyProperties.MissForwardsResponse | internal/proxy/proxy.go:85-94 | on a successful miss the key is stored if and only if the response is cacheable (with body, headers and first Content-Type), the store is otherwise unchanged, and the reply has the upstream status, body and header values plus X-Cache exactly MISS |
| ProxyProperties.FailureLeavesStoreAlone | internal/proxy/proxy.go:42-44 | a failed forward leaves the store unchanged and replies 500 with "Internal Server Error" and no X-Cache header |
| ProxyProperties.EveryReplyIsTaggedOrFailed | internal/proxy/proxy.go:32-45 | every reply has X-Cache exactly HIT or exactly MISS, or is an untagged 500 |
| ProxyProperties.ServeKeepsEntries | internal/proxy/proxy.go:32-45 | serving never removes or changes a stored entry and adds at most the request's own key |
| ProxyProperties.OutboundCopiesRequest | internal/proxy/proxy.go:65-72 | the request sent upstream has the client's method, escaped path, query, body and every header value; it goes to the origin's scheme and host only for a target naming neither, keeps a target's own scheme and host, and takes only the origin's scheme for a target naming just a host |
| ProxyProperties.AbsoluteTargetSharesEntry | internal/proxy/proxy.go:48-72 | an absolute-form request is fetched from the host it names but stored under the key of the origin-form request with the same method and path, which then is a HIT returning the other host's body |
| ProxyProperties.EscapedPathsShareKey | internal/proxy/proxy.go:48-65 | requests with equal method and decoded path but different escaped paths go upstream with different paths yet share one key |
| ProxyProperties.MissThenHit | internal/proxy/proxy.go:36-39 | after a cacheable miss, a request with the same method and path is a hit whatever the origin now answers: same body, status 200, the same header values except X-Cache and Content-Type, store unchanged |
| ProxyProperties.UncacheableAlwaysMisses | internal/proxy/proxy.go:86-88 | an uncacheable response is not stored and the reply is a MISS; the same request then is served exactly as if the first had not happened, whatever the origin answers this time, and is never a HIT |
| ProxyTest.JsonHeaderIsCacheable | internal/proxy/proxy_test.go:12-15 | the test origin's answer (JSON, no Cache-Control) is cacheable |
| ProxyTest.NoStoreJsonHeaderIsNotCacheable | internal/proxy/proxy.go:109-112 | the same answer with Cache-Control: no-store is not cacheable |
| ProxyTest.TwoRequests | internal/proxy/proxy_test.go:19-41 | two requests through one new proxy and store give the replies of two successive Serve transitions from the empty store |
| ProxyTest.MissThenHitOnGet | internal/proxy/proxy_test.go:30-56 | with the test origin, GET on a path is first a MISS and then a HIT, both 200, with the test body and Content-Type application/json |
| ProxyTest.NoStoreMissesTwice | internal/proxy/proxy.go:85-88 | with a no-store origin both requests are MISSes |

## Left out

- The store's `sync.RWMutex`: each operation is atomic here, which is the guarantee the lock gives. Concurrent interleavings are not modelled.
- `Entry.CreatedAt` and `time.Now()`: the field is written but never read, so it is dropped.
- `url.Parse` of the origin in `NewProxy`, and its error: the origin is given already parsed, as its scheme and host.
- Parts of `url.ResolveReference` are not modelled: removing dot segments (`/a/../b`), an empty target path taking the origin's path and query, user information and fragments. The escaped path is forwarded as the client wrote it. The model does not check that it decodes to the decoded path, as Go's `EscapedPath` does.
- `http.NewRequest`, `Client.Do`, `io.ReadAll` and `Body.Close` are the network side. They are folded into `Upstream`, which also stands for every server it reaches.
- The origin is a fixed function of the request it is sent, for the proxy's whole life. Within one `Proxy`, the same request always gets the same answer. Transient failures and an origin whose answers change over time are not modelled. The lemmas that relate two requests (`MissThenHit`, `UncacheableAlwaysMisses`) take a separate origin for the second request, so they do not depend on this.
- Proxy.Proxy.ForwardRequest: copies the request headers before consulting `Upstream`, while Go copies them only after `http.NewRequest` succeeds. Neither order is observable.
- Header name canonicalisation (`textproto.CanonicalMIMEHeaderKey`): names are taken as already canonical.
- What net/http's server adds or checks: `Date` and `Content-Length` headers, content sniffing, HEAD handling, 1xx informational codes, bodies suppressed for 204 and 304, and the range check on status codes.
- Proxy.Proxy.ServeHTTP: requires a writer on which nothing was set or written. That is the writer net/http hands a handler.
- Go map aliasing: the stored entry's headers are the same Go map as the upstream response's headers. Nothing mutates that map afterwards, so the model stores it as a value.
- Request and response bodies are byte sequences read in full, not streams.
- Strings.ToLower: lowers ASCII letters and the two non-ASCII characters whose lower case is ASCII (U+0130 and U+212A). Other non-ASCII characters are kept, though Go maps them to other non-ASCII characters. This cannot change whether an ASCII pattern matches.
- Bytes.BytesOf: gives each character's code modulo 256 rather than its UTF-8 encoding. It is applied only to ASCII text, where the two agree.
- ProxyTest.MissThenHitOnGet: stated for any path rather than the literal `/test`, and the upstream is a function rather than a test server on a real socket.
- `cmd/caching-proxy/main.go` (flags and start-up) and `internal/server/server.go` (the HTTP server and `ClearCache`, which only calls `Cache.Clear`) are not part of this model.
