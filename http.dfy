/**
 * The parts of Go's net/http that the proxy drives: the header multimap with
 * its Get, Set, Add and Del, the server-side ResponseWriter, and http.Error.
 * Header names are taken as already canonical, so no canonicalisation
 * happens here.
 */
module Http {
  import opened Bytes

  /** http.Header: each name maps to its values, in order. */
  type Header = map<string, seq<string>>

  /** The values under name; none when the name is absent. */
  function Values(h: Header, name: string): seq<string>
  {
    if name in h then h[name] else []
  }

  /** Header.Get: the first value under name, or "" when there is none. */
  function Get(h: Header, name: string): string
  {
    if Values(h, name) != [] then Values(h, name)[0] else ""
  }

  /** Header.Set: name now has exactly the one value. */
  function Set(h: Header, name: string, value: string): Header
  {
    h[name := [value]]
  }

  /** Header.Add: value appended after the values already under name. */
  function Add(h: Header, name: string, value: string): Header
  {
    h[name := Values(h, name) + [value]]
  }

  /** Header.Del. */
  function Del(h: Header, name: string): Header
  {
    h - {name}
  }

  const StatusOK := 200
  const StatusInternalServerError := 500

  /** What the client receives: status line, header block and body. */
  datatype Response = Response(status: int, header: Header, body: seq<byte>)

  /**
   * The server side of one exchange. `header` is the live map that
   * Header() returns; WriteHeader freezes a copy of it as the header block
   * that is sent, after which changes to the live map are not seen.
   */
  class ResponseWriter {
    var header: Header
    var wroteHeader: bool
    var status: int
    var sentHeader: Header
    var body: seq<byte>

    /** The writer a handler is given: nothing set, nothing written. */
    predicate Unused()
      reads this
    {
      header == map[] && !wroteHeader && body == []
    }

    constructor ()
      ensures Unused()
    {
      header, wroteHeader, status, sentHeader, body := map[], false, StatusOK, map[], [];
    }

    /**
     * The response once the handler returns: what was sent, or, when
     * nothing was, status 200 with the live header map.
     */
    function Reply(): Response
      reads this
    {
      if wroteHeader then Response(status, sentHeader, body) else Response(StatusOK, header, body)
    }

    /** WriteHeader: the first call sends the status and the headers; later calls are ignored. */
    method WriteHeader(code: int)
      modifies this
      ensures wroteHeader && header == old(header) && body == old(body)
      ensures old(wroteHeader) ==> status == old(status) && sentHeader == old(sentHeader)
      ensures !old(wroteHeader) ==> status == code && sentHeader == old(header)
    {
      if !wroteHeader {
        wroteHeader, status, sentHeader := true, code, header;
      }
    }

    /** Write: sends the headers with status 200 unless already sent, then appends the data. */
    method Write(data: seq<byte>)
      modifies this
      ensures wroteHeader && header == old(header) && body == old(body) + data
      ensures old(wroteHeader) ==> status == old(status) && sentHeader == old(sentHeader)
      ensures !old(wroteHeader) ==> status == StatusOK && sentHeader == old(header)
    {
      WriteHeader(StatusOK);
      body := body + data;
    }
  }

  /** The headers http.Error leaves in the live map. */
  function ErrorHeader(h: Header): Header
  {
    Set(Set(Del(h, "Content-Length"), "Content-Type", "text/plain; charset=utf-8"),
        "X-Content-Type-Options", "nosniff")
  }

  /**
   * http.Error(w, error, code): drops Content-Length, marks the body as
   * plain text that must not be sniffed, sends `code` and writes the
   * message followed by a newline.
   */
  method Error(w: ResponseWriter, error: string, code: int)
    modifies w
    ensures w.wroteHeader && w.header == ErrorHeader(old(w.header))
    ensures w.body == old(w.body) + BytesOf(error + "\n")
    ensures old(w.wroteHeader) ==> w.status == old(w.status) && w.sentHeader == old(w.sentHeader)
    ensures !old(w.wroteHeader) ==> w.status == code && w.sentHeader == ErrorHeader(old(w.header))
  {
    w.header := Del(w.header, "Content-Length");
    w.header := Set(w.header, "Content-Type", "text/plain; charset=utf-8");
    w.header := Set(w.header, "X-Content-Type-Options", "nosniff");
    w.WriteHeader(code);
    w.Write(BytesOf(error + "\n"));
  }
}
