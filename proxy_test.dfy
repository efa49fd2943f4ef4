/** The proxy driven end to end against a fixed origin, in the manner of its Go test. */
module ProxyTest {
  import opened Bytes
  import opened Http
  import opened Proxy
  import Cache
  import ProxyProperties

  const TestBody := BytesOf("{\"test\": \"data\"}")

  /** The headers of the test origin's answer: JSON, no Cache-Control. */
  const JsonHeader: Header := map["Content-Type" := ["application/json"]]

  /** The same answer marked no-store. */
  const NoStoreJsonHeader: Header := JsonHeader["Cache-Control" := ["no-store"]]

  /** A test server on the loopback address whose client answers every request with status 200, the given headers and the test body. */
  function TestOrigin(header: Header): Origin
  {
    Origin("http", "127.0.0.1", _ => Fetched(UpstreamResponse(StatusOK, header, TestBody)))
  }

  lemma JsonHeaderIsCacheable()
    ensures IsResponseCacheable(JsonHeader)
  {
    assert Get(JsonHeader, "Cache-Control") == "";
  }

  lemma NoStoreJsonHeaderIsNotCacheable()
    ensures !IsResponseCacheable(NoStoreJsonHeader)
  {
    assert Get(NoStoreJsonHeader, "Cache-Control") == "no-store";
    assert MatchesAt("no-store", "no-store", 0);
  }

  /** Two identical requests through one new proxy, each with its own response writer. */
  method TwoRequests(origin: Origin, r: Request) returns (first: Response, second: Response)
    ensures var o1 := Serve(map[], r, origin);
      first == o1.reply && second == Serve(o1.entries, r, origin).reply
  {
    var c := new Cache.Cache();
    var p := new Proxy(origin, c);
    var w1 := new ResponseWriter();
    p.ServeHTTP(w1, r);
    first := w1.Reply();
    var w2 := new ResponseWriter();
    p.ServeHTTP(w2, r);
    second := w2.Reply();
  }

  /**
   * With a cacheable origin, GET on a path (the Go test uses /test) is a
   * MISS and then a HIT, both 200, with the same body.
   */
  method MissThenHitOnGet(path: seq<byte>, rawPath: string) returns (first: Response, second: Response)
    ensures first.status == StatusOK && Get(first.header, "X-Cache") == "MISS"
    ensures second.status == StatusOK && Get(second.header, "X-Cache") == "HIT"
    ensures first.body == second.body == TestBody
    ensures Get(second.header, "Content-Type") == "application/json"
  {
    var origin := TestOrigin(JsonHeader);
    var r := Request("GET", "", "", path, rawPath, "", map[], []);
    JsonHeaderIsCacheable();
    ProxyProperties.MissThenHit(map[], r, r, origin, origin);
    first, second := TwoRequests(origin, r);
  }

  /** With Cache-Control: no-store, both requests for a path are MISSes. */
  method NoStoreMissesTwice(path: seq<byte>, rawPath: string) returns (first: Response, second: Response)
    ensures Get(first.header, "X-Cache") == "MISS" && Get(second.header, "X-Cache") == "MISS"
  {
    var origin := TestOrigin(NoStoreJsonHeader);
    var r := Request("GET", "", "", path, rawPath, "", map[], []);
    NoStoreJsonHeaderIsNotCacheable();
    ProxyProperties.UncacheableAlwaysMisses(map[], r, origin, origin);
    first, second := TwoRequests(origin, r);
  }
}
