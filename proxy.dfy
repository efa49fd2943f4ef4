/**
 * The proxy's forwarding decision engine: the cache key, the cacheability
 * policy, the additive header copy, and the HIT/MISS handling of one
 * request. The upstream URL is resolved against the origin's URL as
 * url.ResolveReference does; building the upstream request, the HTTP round
 * trip and reading the body are then one abstract step, the client: a
 * function from the request sent to what came back.
 */
module Proxy {
  import opened Wrappers
  import opened Bytes
  import opened Http
  import Strings
  import opened Url
  import Cache

  /**
   * An HTTP request as the server parsed it: the method (verb); the
   * target's scheme and host, both empty for the usual origin-form target
   * ("/x") and set for an absolute-form one ("http://other.example/x");
   * the decoded URL path; the escaped path as the client wrote it (Go's
   * URL.EscapedPath(), so "/a%2Fb" and "/a/b" differ here while their
   * decoded paths agree); the raw query; the header multimap; the body.
   */
  datatype Request = Request(verb: string, scheme: string, host: string, path: seq<byte>, rawPath: string,
                             rawQuery: string, header: Header, body: seq<byte>)

  /** The request the proxy sends upstream: method, resolved scheme and host, escaped path, query, headers, body. */
  datatype Outgoing = Outgoing(verb: string, scheme: string, host: string, escapedPath: string,
                               rawQuery: string, header: Header, body: seq<byte>)

  /** A response as received upstream, its body read in full. */
  datatype UpstreamResponse = UpstreamResponse(status: int, header: Header, body: seq<byte>)

  /**
   * What forwarding a request comes to: http.NewRequest failed, the
   * client's Do failed, reading the body failed, or a response was fetched.
   */
  datatype Fetch = NewRequestFailed | DoFailed | ReadFailed | Fetched(resp: UpstreamResponse)

  /**
   * The HTTP client together with every server it can reach: given the
   * request sent, with its full URL, what comes back.
   */
  type Upstream = Outgoing -> Fetch

  /** The origin: the scheme and host of the parsed origin URL, and the client. */
  datatype Origin = Origin(scheme: string, host: string, client: Upstream)

  // ---------------------------------------------------------------------
  // Cache key

  /**
   * generateCacheKey: the method followed by the escaped path. The query
   * string, the headers and the body play no part. The key starts with the
   * method, and the rest of it unescapes back to the path.
   */
  function GenerateCacheKey(r: Request): (key: string)
    ensures |r.verb| <= |key| && key[..|r.verb|] == r.verb
    ensures PathUnescape(key[|r.verb|..]) == Some(r.path)
  {
    var k := r.verb + PathEscape(r.path);
    PathEscapeRoundTrip(r.path);
    assert k[|r.verb|..] == PathEscape(r.path);
    k
  }

  /**
   * For methods without '%' (every standard method) and paths that are
   * empty or start with a byte PathEscape escapes (every path a server
   * parses starts with '/', or is '*'), different requests get different
   * keys: the method and the path can both be read back from the key.
   */
  lemma KeyInjective(r1: Request, r2: Request)
    requires '%' !in r1.verb && '%' !in r2.verb
    requires r1.path == [] || ShouldEscape(r1.path[0])
    requires r2.path == [] || ShouldEscape(r2.path[0])
    requires GenerateCacheKey(r1) == GenerateCacheKey(r2)
    ensures r1.verb == r2.verb && r1.path == r2.path
  {
    var key := GenerateCacheKey(r1);
    var m1, m2 := r1.verb, r2.verb;
    assert key == m1 + PathEscape(r1.path) == m2 + PathEscape(r2.path);
    if |m1| < |m2| {
      assert false;
    } else if |m2| < |m1| {
      assert false;
    } else {
      assert m1 == key[..|m1|] == m2;
      assert PathEscape(r1.path) == key[|m1|..] == PathEscape(r2.path);
      PathEscapeInjective(r1.path, r2.path);
    }
  }

  /**
   * Without those conditions keys can collide: "GET" on "/x/" (bytes 47,
   * 120, 47) and the method "GET%2Fx" (a valid HTTP token) on "/" share
   * the key "GET%2Fx%2F", and so share a cache entry.
   */
  lemma KeyCollision()
    ensures var r1 := Request("GET", "", "", [47, 120, 47], "/x/", "", map[], []);
            var r2 := Request("GET%2Fx", "", "", [47], "/", "", map[], []);
            r1.verb != r2.verb && GenerateCacheKey(r1) == GenerateCacheKey(r2)
  {
    var slash := EscapeByte(47);
    assert slash == "%2F" by { assert ShouldEscape(47); }
    assert EscapeByte(120) == "x" by { assert !ShouldEscape(120); }
    var p1: seq<byte>, p2: seq<byte>, p3: seq<byte> := [47], [120, 47], [47, 120, 47];
    assert PathEscape(p1) == slash by { assert p1[1..] == []; }
    assert PathEscape(p2) == "x" + slash by { assert p2[1..] == p1; }
    assert PathEscape(p3) == slash + "x" + slash by { assert p3[1..] == p2; }
  }

  // ---------------------------------------------------------------------
  // Cacheability policy

  /** a matches the pattern d when each character of a lowers to the one of d. */
  predicate MatchesIgnoringCase(a: string, d: string)
  {
    |a| == |d| && forall j :: 0 <= j < |a| ==> Strings.LowerChar(a[j]) == d[j]
  }

  /** The value v holds d at index i, ignoring case. */
  predicate MatchesAt(v: string, d: string, i: int)
  {
    0 <= i && i + |d| <= |v| && MatchesIgnoringCase(v[i..i + |d|], d)
  }

  /** The value v mentions d somewhere, ignoring case. */
  ghost predicate Mentions(v: string, d: string)
  {
    exists i :: MatchesAt(v, d, i)
  }

  lemma ContainsLowerIffMentions(v: string, d: string)
    ensures Strings.Contains(Strings.ToLower(v), d) <==> Mentions(v, d)
  {
    var lv := Strings.ToLower(v);
    forall i
      ensures Strings.OccursAt(lv, d, i) <==> MatchesAt(v, d, i)
    {
      if 0 <= i && i + |d| <= |v| {
        var a, b := lv[i..i + |d|], v[i..i + |d|];
        assert forall j :: 0 <= j < |d| ==> a[j] == Strings.LowerChar(b[j]);
      }
    }
  }

  /**
   * isResponseCacheable: a response may be stored unless the first
   * Cache-Control value mentions "no-store" or "private", in any case and
   * anywhere (a substring, not a directive match). Later Cache-Control
   * values are not looked at, and no Cache-Control at all means cacheable.
   */
  function IsResponseCacheable(h: Header): (cacheable: bool)
    ensures cacheable <==>
      !Mentions(Get(h, "Cache-Control"), "no-store") && !Mentions(Get(h, "Cache-Control"), "private")
  {
    var cacheControl := Strings.ToLower(Get(h, "Cache-Control"));
    ContainsLowerIffMentions(Get(h, "Cache-Control"), "no-store");
    ContainsLowerIffMentions(Get(h, "Cache-Control"), "private");
    !Strings.Contains(cacheControl, "no-store") && !Strings.Contains(cacheControl, "private")
  }

  // ---------------------------------------------------------------------
  // Additive header copy

  /** dst with vs appended to the values under name (unchanged when vs is empty). */
  function AddValues(h: Header, name: string, vs: seq<string>): Header
  {
    if vs == [] then h else h[name := Values(h, name) + vs]
  }

  /**
   * The result of copying src into dst: each name gets its dst values
   * followed by its src values. A name is present when it was in dst, or
   * when src gives it at least one value.
   */
  function Added(dst: Header, src: Header): (h: Header)
    ensures dst.Keys <= h.Keys <= dst.Keys + src.Keys
    ensures forall k :: k in h ==> h[k] == Values(dst, k) + Values(src, k)
    ensures forall k :: k in src && src[k] != [] ==> k in h
  {
    map k | k in dst.Keys + src.Keys && (k in dst || src[k] != []) :: Values(dst, k) + Values(src, k)
  }

  lemma AddedNothing(dst: Header)
    ensures Added(dst, map[]) == dst
  {
    var h := Added(dst, map[]);
    assert h.Keys == dst.Keys;
    forall k | k in h
      ensures h[k] == dst[k]
    {
      assert Values(dst, k) + Values(map[], k) == dst[k] + [];
    }
  }

  lemma AddValuesSnoc(h: Header, name: string, vs: seq<string>, v: string)
    ensures AddValues(h, name, vs + [v]) == Add(AddValues(h, name, vs), name, v)
  {
    if vs != [] {
      assert Values(h, name) + (vs + [v]) == (Values(h, name) + vs) + [v];
    } else {
      assert vs + [v] == [v];
    }
  }

  /** AddedStep at one name k. */
  lemma AddedStepAt(dst: Header, done: Header, name: string, vs: seq<string>, k: string)
    requires name !in done
    ensures var lhs, rhs := Added(dst, done[name := vs]), AddValues(Added(dst, done), name, vs);
            (k in lhs <==> k in rhs) && (k in lhs ==> lhs[k] == rhs[k])
  {
    var before := Added(dst, done);
    assert Values(before, name) == Values(dst, name);
    if k != name {
      assert Values(done[name := vs], k) == Values(done, k);
    } else if vs == [] {
      assert Values(done[name := vs], k) == [];
    }
  }

  lemma AddedStep(dst: Header, done: Header, name: string, vs: seq<string>)
    requires name !in done
    ensures Added(dst, done[name := vs]) == AddValues(Added(dst, done), name, vs)
  {
    var lhs, rhs := Added(dst, done[name := vs]), AddValues(Added(dst, done), name, vs);
    forall k
      ensures k in lhs <==> k in rhs
      ensures k in lhs ==> lhs[k] == rhs[k]
    {
      AddedStepAt(dst, done, name, vs, k);
    }
    assert lhs.Keys == rhs.Keys;
  }

  /** One more name of src done: its values are appended to what the earlier names gave. */
  lemma AddedNextName(dst: Header, src: Header, todo: set<string>, name: string)
    requires name in todo && todo <= src.Keys
    ensures AddValues(Added(dst, src - todo), name, src[name]) == Added(dst, src - (todo - {name}))
  {
    AddedStep(dst, src - todo, name, src[name]);
    assert (src - todo)[name := src[name]] == src - (todo - {name});
  }

  /** Every name's values after the copy: dst's, then src's. */
  lemma AddedValues(dst: Header, src: Header)
    ensures forall k :: Values(Added(dst, src), k) == Values(dst, k) + Values(src, k)
  {
  }

  /**
   * copyHeaders(dst, src): every value of every name of src is added to
   * dst, in order, after the values already there. Nothing is removed, and
   * names that src does not give a value keep their values. Go visits the
   * names of src in an unspecified order; here a name is picked
   * arbitrarily each round, and the result is the same whatever the order.
   */
  method CopyHeaders(dst: Header, src: Header) returns (out: Header)
    ensures out == Added(dst, src)
    ensures dst.Keys <= out.Keys
    ensures forall k :: Values(out, k) == Values(dst, k) + Values(src, k)
  {
    out := dst;
    AddedNothing(dst);
    assert src - src.Keys == map[];
    var todo := src.Keys;
    while todo != {}
      invariant todo <= src.Keys
      invariant out == Added(dst, src - todo)
      decreases todo
    {
      var key :| key in todo;
      var values := src[key];
      ghost var before := out;
      var i := 0;
      while i < |values|
        invariant 0 <= i <= |values|
        invariant out == AddValues(before, key, values[..i])
      {
        AddValuesSnoc(before, key, values[..i], values[i]);
        assert values[..i + 1] == values[..i] + [values[i]];
        out := Add(out, key, values[i]);
        i := i + 1;
      }
      assert values[..i] == values;
      AddedNextName(dst, src, todo, key);
      todo := todo - {key};
    }
    assert src - {} == src;
    AddedValues(dst, src);
  }

  // ---------------------------------------------------------------------
  // The responses, and one request as a state transition

  /**
   * The request sent upstream. Its URL is p.origin.ResolveReference(r.URL):
   * a target with its own scheme keeps its scheme and host, a target with
   * only a host takes the origin's scheme, and an origin-form target takes
   * both from the origin. The escaped path and the query are the
   * client's. The headers are copied into a fresh header map.
   */
  function Outbound(origin: Origin, r: Request): Outgoing
  {
    var scheme := if r.scheme != "" then r.scheme else origin.scheme;
    var host := if r.scheme != "" || r.host != "" then r.host else origin.host;
    Outgoing(r.verb, scheme, host, r.rawPath, r.rawQuery, Added(map[], r.header), r.body)
  }

  /** What forwarding r to the origin comes to. */
  function Forward(origin: Origin, r: Request): Fetch
  {
    origin.client(Outbound(origin, r))
  }

  /** What a cacheable response is stored as: body, full header set, first Content-Type value. */
  function StoredEntry(resp: UpstreamResponse): Cache.Entry
  {
    Cache.Entry(resp.body, resp.header, Get(resp.header, "Content-Type"))
  }

  /** The store after a fetched response: the entry added when cacheable, else untouched. */
  function Stored(entries: map<string, Cache.Entry>, key: string, resp: UpstreamResponse): map<string, Cache.Entry>
  {
    if IsResponseCacheable(resp.header) then entries[key := StoredEntry(resp)] else entries
  }

  /** A HIT: the stored headers, then X-Cache and Content-Type forced, default status, stored body. */
  function Replay(entry: Cache.Entry): Response
  {
    Response(StatusOK, Set(Set(entry.headers, "X-Cache", "HIT"), "Content-Type", entry.contentType), entry.data)
  }

  /** A MISS: the upstream headers copied, X-Cache forced, upstream status and body. */
  function Forwarded(resp: UpstreamResponse): Response
  {
    Response(resp.status, Set(Added(map[], resp.header), "X-Cache", "MISS"), resp.body)
  }

  const InternalServerError := "Internal Server Error"

  /** The opaque failure: http.Error with status 500 on an untouched writer. */
  function Failure(): Response
  {
    Response(StatusInternalServerError, ErrorHeader(map[]), BytesOf(InternalServerError + "\n"))
  }

  datatype Outcome = Outcome(entries: map<string, Cache.Entry>, reply: Response)

  /** One request against the store: (store, request) to (store', response). */
  function Serve(entries: map<string, Cache.Entry>, r: Request, origin: Origin): Outcome
  {
    var key := GenerateCacheKey(r);
    if key in entries then Outcome(entries, Replay(entries[key]))
    else match Forward(origin, r)
      case Fetched(resp) => Outcome(Stored(entries, key, resp), Forwarded(resp))
      case _ => Outcome(entries, Failure())
  }

  // ---------------------------------------------------------------------
  // The proxy

  class Proxy {
    const cache: Cache.Cache
    const origin: Origin

    /** NewProxy with the origin URL already parsed. */
    constructor (origin: Origin, cache: Cache.Cache)
      ensures this.origin == origin && this.cache == cache
    {
      this.origin, this.cache := origin, cache;
    }

    /**
     * ServeHTTP: compute the key; on a stored entry replay it; otherwise
     * forward, and answer 500 if forwarding failed.
     */
    method ServeHTTP(w: ResponseWriter, r: Request)
      requires w.Unused()
      modifies w, cache
      ensures Outcome(cache.entries, w.Reply()) == Serve(old(cache.entries), r, origin)
    {
      var key := GenerateCacheKey(r);
      var entry, found := cache.Get(key);
      if found {
        ServeFromCache(w, entry);
        return;
      }
      var err := ForwardRequest(w, r, key);
      if err {
        Error(w, InternalServerError, StatusInternalServerError);
      }
    }

    /**
     * serveFromCache: each stored header name is set to its stored values
     * (replacing, not appending), then X-Cache becomes exactly "HIT" and
     * Content-Type exactly the stored content type, and the stored body is
     * written with no explicit status.
     */
    method ServeFromCache(w: ResponseWriter, entry: Cache.Entry)
      requires w.Unused()
      modifies w
      ensures w.Reply() == Replay(entry)
    {
      var todo := entry.headers.Keys;
      while todo != {}
        invariant todo <= entry.headers.Keys
        invariant w.header == entry.headers - todo
        invariant !w.wroteHeader && w.body == []
        decreases todo
      {
        var k :| k in todo;
        w.header := w.header[k := entry.headers[k]];
        assert w.header == entry.headers - (todo - {k});
        todo := todo - {k};
      }
      assert w.header == entry.headers;
      w.header := Set(w.header, "X-Cache", "HIT");
      w.header := Set(w.header, "Content-Type", entry.contentType);
      w.Write(entry.data);
    }

    /**
     * forwardRequest: send the request with its headers copied, and on any
     * failure return an error having touched neither the store nor the
     * writer. Otherwise store the response if it is cacheable, copy its
     * headers to the client, set X-Cache to exactly "MISS", and send the
     * upstream status and the whole body.
     */
    method ForwardRequest(w: ResponseWriter, r: Request, key: string) returns (err: bool)
      requires w.Unused()
      modifies w, cache
      ensures err <==> !Forward(origin, r).Fetched?
      ensures err ==> cache.entries == old(cache.entries) && w.Unused()
      ensures !err ==> var resp := Forward(origin, r).resp;
        cache.entries == Stored(old(cache.entries), key, resp) && w.Reply() == Forwarded(resp)
    {
      var scheme, host := r.scheme, r.host;
      if r.scheme == "" {
        scheme := origin.scheme;
        if r.host == "" {
          host := origin.host;
        }
      }
      var outHeader := CopyHeaders(map[], r.header);
      var fetch := origin.client(Outgoing(r.verb, scheme, host, r.rawPath, r.rawQuery, outHeader, r.body));
      match fetch {
        case NewRequestFailed => return true;
        case DoFailed => return true;
        case ReadFailed => return true;
        case Fetched(resp) =>
          if IsResponseCacheable(resp.header) {
            cache.Set(key, resp.body, resp.header, Get(resp.header, "Content-Type"));
          }
          var copied := CopyHeaders(w.header, resp.header);
          w.header := copied;
          w.header := Set(w.header, "X-Cache", "MISS");
          w.WriteHeader(resp.status);
          w.Write(resp.body);
          return false;
      }
    }
  }
}
