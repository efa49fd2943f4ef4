/**
 * What one request does to the store and to the client, stated over the
 * transition Serve that ServeHTTP is proved to implement.
 */
module ProxyProperties {
  import opened Bytes
  import opened Http
  import opened Proxy
  import Cache
  import Strings

  /**
   * A HIT: the origin is not consulted (any origin gives the same outcome),
   * the store is unchanged, and the reply replays the entry: every stored
   * header with exactly its stored values, X-Cache exactly "HIT",
   * Content-Type exactly the stored content type, status 200 whatever the
   * original status was, and the stored body.
   */
  lemma HitReplaysEntry(entries: map<string, Cache.Entry>, r: Request, origin: Origin, other: Origin)
    requires GenerateCacheKey(r) in entries
    ensures var e, o := entries[GenerateCacheKey(r)], Serve(entries, r, origin);
      && o == Serve(entries, r, other)
      && o.entries == entries
      && o.reply.status == StatusOK
      && o.reply.body == e.data
      && Values(o.reply.header, "X-Cache") == ["HIT"]
      && Values(o.reply.header, "Content-Type") == [e.contentType]
      && o.reply.header.Keys == e.headers.Keys + {"X-Cache", "Content-Type"}
      && forall k :: k in e.headers && k != "X-Cache" && k != "Content-Type" ==> o.reply.header[k] == e.headers[k]
  {
  }

  /**
   * A successful MISS: the store gains the key, with the body, the full
   * header set and the first Content-Type value, if and only if the
   * response is cacheable, and is otherwise unchanged. The reply has the
   * upstream status and body, X-Cache exactly "MISS", and every other
   * header name with exactly the upstream values.
   */
  lemma MissForwardsResponse(entries: map<string, Cache.Entry>, r: Request, origin: Origin)
    requires GenerateCacheKey(r) !in entries
    requires Forward(origin, r).Fetched?
    ensures var key, resp, o := GenerateCacheKey(r), Forward(origin, r).resp, Serve(entries, r, origin);
      && (key in o.entries <==> IsResponseCacheable(resp.header))
      && (IsResponseCacheable(resp.header) ==>
            o.entries == entries[key := Cache.Entry(resp.body, resp.header, Get(resp.header, "Content-Type"))])
      && (!IsResponseCacheable(resp.header) ==> o.entries == entries)
      && o.reply.status == resp.status
      && o.reply.body == resp.body
      && Values(o.reply.header, "X-Cache") == ["MISS"]
      && forall k :: k != "X-Cache" ==> Values(o.reply.header, k) == Values(resp.header, k)
  {
    var resp, o := Forward(origin, r).resp, Serve(entries, r, origin);
    forall k | k != "X-Cache"
      ensures Values(o.reply.header, k) == Values(resp.header, k)
    {
      assert Values(map[], k) + Values(resp.header, k) == Values(resp.header, k);
    }
  }

  /**
   * A failed MISS (request construction, transport or body read): the
   * store is untouched and the client gets status 500 with the fixed
   * message. That reply carries no X-Cache header.
   */
  lemma FailureLeavesStoreAlone(entries: map<string, Cache.Entry>, r: Request, origin: Origin)
    requires GenerateCacheKey(r) !in entries
    requires !Forward(origin, r).Fetched?
    ensures var o := Serve(entries, r, origin);
      && o.entries == entries
      && o.reply.status == StatusInternalServerError
      && "X-Cache" !in o.reply.header
      && o.reply == Failure()
      && o.reply.body == BytesOf(InternalServerError + "\n")
  {
  }

  /** Every reply is tagged HIT or MISS, except the untagged 500 of a failed forward. */
  lemma EveryReplyIsTaggedOrFailed(entries: map<string, Cache.Entry>, r: Request, origin: Origin)
    ensures var reply := Serve(entries, r, origin).reply;
      || Values(reply.header, "X-Cache") == ["HIT"]
      || Values(reply.header, "X-Cache") == ["MISS"]
      || (reply.status == StatusInternalServerError && "X-Cache" !in reply.header)
  {
  }

  /**
   * Serving never drops or changes an entry already stored, and adds at
   * most the request's own key.
   */
  lemma ServeKeepsEntries(entries: map<string, Cache.Entry>, r: Request, origin: Origin)
    ensures var o := Serve(entries, r, origin);
      && entries.Keys <= o.entries.Keys <= entries.Keys + {GenerateCacheKey(r)}
      && forall k :: k in entries ==> o.entries[k] == entries[k]
  {
  }

  /**
   * The request sent upstream has the client's method, escaped path,
   * query, body and every header value. It goes to the origin's scheme and
   * host only when the client's target names neither a scheme nor a host;
   * an absolute-form target is fetched from the host it names.
   */
  lemma OutboundCopiesRequest(origin: Origin, r: Request)
    ensures var out := Outbound(origin, r);
      && out.verb == r.verb && out.escapedPath == r.rawPath && out.rawQuery == r.rawQuery && out.body == r.body
      && (forall k :: Values(out.header, k) == Values(r.header, k))
      && (r.scheme != "" ==> out.scheme == r.scheme && out.host == r.host)
      && (r.scheme == "" && r.host != "" ==> out.scheme == origin.scheme && out.host == r.host)
      && (r.scheme == "" && r.host == "" ==> out.scheme == origin.scheme && out.host == origin.host)
  {
    forall k
      ensures Values(Outbound(origin, r).header, k) == Values(r.header, k)
    {
      assert Values(map[], k) + Values(r.header, k) == Values(r.header, k);
    }
  }

  /**
   * A cacheable MISS followed by a request with the same method and path
   * (the target's scheme, host and escaped path, the query, the headers
   * and the body may all differ) is a HIT, whatever the origin
   * would now answer: same body, status 200 even when the origin's status
   * was not, the same header values on every name but X-Cache and
   * Content-Type, and the store is left as the MISS left it.
   */
  lemma MissThenHit(entries: map<string, Cache.Entry>, r1: Request, r2: Request, origin1: Origin, origin2: Origin)
    requires GenerateCacheKey(r1) !in entries
    requires r2.verb == r1.verb && r2.path == r1.path
    requires Forward(origin1, r1).Fetched?
    requires IsResponseCacheable(Forward(origin1, r1).resp.header)
    ensures var resp := Forward(origin1, r1).resp;
      var first := Serve(entries, r1, origin1);
      var second := Serve(first.entries, r2, origin2);
      && Values(first.reply.header, "X-Cache") == ["MISS"] && first.reply.status == resp.status
      && Values(second.reply.header, "X-Cache") == ["HIT"] && second.reply.status == StatusOK
      && second.reply.body == first.reply.body == resp.body
      && Values(second.reply.header, "Content-Type") == [Get(resp.header, "Content-Type")]
      && (forall k :: k != "X-Cache" && k != "Content-Type" ==>
            Values(second.reply.header, k) == Values(first.reply.header, k))
      && second.entries == first.entries
  {
    var resp := Forward(origin1, r1).resp;
    var first := Serve(entries, r1, origin1);
    MissForwardsResponse(entries, r1, origin1);
    assert GenerateCacheKey(r2) == GenerateCacheKey(r1);
    HitReplaysEntry(first.entries, r2, origin2, origin2);
  }

  /**
   * A response that is not cacheable is not stored, so the next request
   * for the same key is forwarded again: it is served exactly as if the
   * first had never happened, whatever the origin answers this time, and
   * is never a HIT.
   */
  lemma UncacheableAlwaysMisses(entries: map<string, Cache.Entry>, r: Request, origin: Origin, origin2: Origin)
    requires GenerateCacheKey(r) !in entries
    requires Forward(origin, r).Fetched?
    requires !IsResponseCacheable(Forward(origin, r).resp.header)
    ensures var first := Serve(entries, r, origin);
      var second := Serve(first.entries, r, origin2);
      && first.entries == entries
      && Values(first.reply.header, "X-Cache") == ["MISS"]
      && second == Serve(entries, r, origin2)
      && Values(second.reply.header, "X-Cache") != ["HIT"]
  {
    var second := Serve(entries, r, origin2);
    match Forward(origin2, r)
    case Fetched(resp) =>
      assert Values(second.reply.header, "X-Cache") == ["MISS"];
    case _ =>
      assert "X-Cache" !in second.reply.header;
  }

  /**
   * An absolute-form request for another host is fetched from that host,
   * yet stored under the same key as the origin-form request for the same
   * method and path; if that answer is cacheable, the origin-form request
   * that follows is a HIT on it and gets the other host's body.
   */
  lemma AbsoluteTargetSharesEntry(entries: map<string, Cache.Entry>, r1: Request, r2: Request, origin: Origin)
    requires r1.host != "" && r2.scheme == "" && r2.host == ""
    requires r1.verb == r2.verb && r1.path == r2.path
    requires GenerateCacheKey(r1) !in entries
    requires Forward(origin, r1).Fetched? && IsResponseCacheable(Forward(origin, r1).resp.header)
    ensures Outbound(origin, r1).host == r1.host && Outbound(origin, r2).host == origin.host
    ensures GenerateCacheKey(r1) == GenerateCacheKey(r2)
    ensures var first := Serve(entries, r1, origin);
      var second := Serve(first.entries, r2, origin);
      && Values(second.reply.header, "X-Cache") == ["HIT"]
      && second.reply.body == Forward(origin, r1).resp.body
  {
    MissThenHit(entries, r1, r2, origin, origin);
  }

  /**
   * Two origin-form requests whose decoded paths agree but whose escaped
   * paths differ ("/a%2Fb" and "/a/b") go upstream as different URLs but
   * share one cache key.
   */
  lemma EscapedPathsShareKey(origin: Origin, r1: Request, r2: Request)
    requires r1.verb == r2.verb && r1.path == r2.path && r1.rawPath != r2.rawPath
    ensures GenerateCacheKey(r1) == GenerateCacheKey(r2)
    ensures Outbound(origin, r1).escapedPath != Outbound(origin, r2).escapedPath
  {
  }

  /** A value none of whose characters lowers to d[j] cannot mention d. */
  lemma NoSuchLetter(v: string, d: string, j: int)
    requires 0 <= j < |d|
    requires forall i :: 0 <= i < |v| ==> Strings.LowerChar(v[i]) != d[j]
    ensures !Mentions(v, d)
  {
    forall i | 0 <= i && i + |d| <= |v|
      ensures !MatchesAt(v, d, i)
    {
      assert v[i..i + |d|][j] == v[i + j];
    }
  }

  /**
   * The decision on sample Cache-Control values: no-store and private
   * (in any case, even spelled with U+0130 for the I) prevent storing;
   * public, max-age=60 and no Cache-Control at all allow it; a no-store in
   * a second Cache-Control value is not seen.
   */
  lemma NoStoreIsNotCacheable()
    ensures !IsResponseCacheable(map["Cache-Control" := ["no-store"]])
  {
    assert Get(map["Cache-Control" := ["no-store"]], "Cache-Control") == "no-store";
    assert MatchesAt("no-store", "no-store", 0);
  }

  lemma PrivateIsNotCacheable()
    ensures !IsResponseCacheable(map["Cache-Control" := ["private"]])
  {
    assert Get(map["Cache-Control" := ["private"]], "Cache-Control") == "private";
    assert MatchesAt("private", "private", 0);
  }

  lemma MixedCaseNoStoreIsNotCacheable()
    ensures !IsResponseCacheable(map["Cache-Control" := ["max-age=0, No-Store"]])
  {
    var v := "max-age=0, No-Store";
    assert v[11..19] == "No-Store";
    assert MatchesAt(v, "no-store", 11);
  }

  lemma DottedCapitalIPrivateIsNotCacheable()
    ensures !IsResponseCacheable(map["Cache-Control" := ["PR\U{0130}VATE"]])
  {
  }

  lemma PublicIsCacheable()
    ensures IsResponseCacheable(map["Cache-Control" := ["public, max-age=60"]])
  {
    var v := "public, max-age=60";
    assert Get(map["Cache-Control" := [v]], "Cache-Control") == v;
    NoSuchLetter(v, "no-store", 0);
    NoSuchLetter(v, "private", 1);
  }

  lemma NoCacheControlIsCacheable()
    ensures IsResponseCacheable(map[])
  {
  }

  lemma SecondValueIsIgnored()
    ensures IsResponseCacheable(map["Cache-Control" := ["public", "no-store"]])
  {
  }

  /** A match stays a match when text is added on either side. */
  lemma MatchSurvivesPadding(v: string, d: string, i: int, before: string, after: string)
    requires MatchesAt(v, d, i)
    ensures MatchesAt(before + v + after, d, i + |before|)
  {
    var w := before + v + after;
    assert w[i + |before|..i + |before| + |d|] == v[i..i + |d|];
  }

  /**
   * Adding text around a Cache-Control value that prevents storing never
   * makes the response cacheable.
   */
  lemma {:induction false} RestrictionIsSticky(v: string, before: string, after: string, rest: seq<string>)
    requires !IsResponseCacheable(map["Cache-Control" := [v]])
    ensures !IsResponseCacheable(map["Cache-Control" := [before + v + after] + rest])
  {
    var w := before + v + after;
    assert Get(map["Cache-Control" := [v]], "Cache-Control") == v;
    assert Get(map["Cache-Control" := [w] + rest], "Cache-Control") == w;
    if Mentions(v, "no-store") {
      var i :| MatchesAt(v, "no-store", i);
      MatchSurvivesPadding(v, "no-store", i, before, after);
    } else {
      var i :| MatchesAt(v, "private", i);
      MatchSurvivesPadding(v, "private", i, before, after);
    }
  }
}
