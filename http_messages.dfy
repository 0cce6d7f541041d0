/**
 * The parts of Go's `net/http` a handler touches: the inbound request, the
 * response the transport hands back, and the `ResponseWriter` the handler
 * writes the client's response into.
 */
module HttpMessages {
  import opened HttpHeader
  import opened NetUrl

  type Byte = b: int | 0 <= b < 256

  /** The codes `ResponseWriter.WriteHeader` accepts without panicking. */
  type StatusCode = c: int | 100 <= c <= 999 witness 200

  const StatusOK: StatusCode := 200
  const StatusBadGateway: StatusCode := 502

  /** The value of a request: what the proxy reads from the inbound one and hands to the transport. */
  datatype RequestData = RequestData(
    header: Fields,
    url: Url,
    host: string,
    remoteAddr: string,
    tls: bool,
    proto: string)

  /** `http.Request`: the header map, URL and Host are updated in place; the rest is fixed. */
  class Request {
    const header: Header
    var url: Url
    var host: string
    const remoteAddr: string
    /** Whether the request arrived over TLS (`Request.TLS != nil`). */
    const tls: bool
    const proto: string

    constructor (header: Header, url: Url, host: string, remoteAddr: string, tls: bool, proto: string)
      ensures this.header == header && this.url == url && this.host == host
      ensures this.remoteAddr == remoteAddr && this.tls == tls && this.proto == proto
    {
      this.header := header;
      this.url := url;
      this.host := host;
      this.remoteAddr := remoteAddr;
      this.tls := tls;
      this.proto := proto;
    }

    function Data(): RequestData
      reads this, header
    {
      RequestData(header.fields, url, host, remoteAddr, tls, proto)
    }

    /** `Request.Clone`: a new request with its own copy of the header map. */
    method Clone() returns (c: Request)
      ensures fresh(c) && fresh(c.header)
      ensures c.Data() == Data()
    {
      var h := new Header(header.fields);
      c := new Request(h, url, host, remoteAddr, tls, proto);
    }
  }

  /**
   * The upstream response as the transport delivers it; its header and
   * trailer keys are canonical. `declaredTrailers` are the names the upstream
   * declared in its `Trailer` header: the keys `res.Trailer` holds, without
   * values, while the body is read. `trailer` is `res.Trailer` once the body
   * is read: every declared name with the values that arrived (none when a
   * declared trailer did not come) and every trailer that arrived without
   * being declared.
   */
  datatype UpstreamResponse = Response(
    statusCode: StatusCode,
    header: CanonicalFields,
    body: seq<Byte>,
    /** whether reading the body fails after `body` was read */
    bodyFails: bool,
    declaredTrailers: set<string>,
    trailer: CanonicalFields)

  /** A response the transport can deliver: the declared trailer names stay in `res.Trailer` after the body. */
  type Response = r: UpstreamResponse | r.declaredTrailers <= r.trailer.Keys
    witness Response(StatusOK, map[], [], false, {}, map[])

  /** The status the client receives when the handler wrote `status`: 200 when it wrote none (0). */
  function ClientStatus(status: int): (r: int)
    ensures status != 0 ==> r == status
    ensures status == 0 ==> r == StatusOK
  {
    if status == 0 then StatusOK else status
  }

  /** The outcome of `Transport.RoundTrip`. */
  datatype RoundTrip = Delivered(response: Response) | TransportError

  /**
   * `http.ResponseWriter`. `status` is 0 until the status line is written;
   * the first `WriteHeader` fixes the status and the header the client sees
   * (`sentHeader`), later ones are ignored. Values added to `header` after
   * that are what the server sends as trailers.
   */
  class ResponseWriter {
    const header: Header
    var status: int
    var sentHeader: Fields
    var body: seq<Byte>

    constructor ()
      ensures fresh(header) && header.fields == map[]
      ensures status == 0 && body == []
    {
      header := new Header(map[]);
      status := 0;
      sentHeader := map[];
      body := [];
    }

    /** `WriteHeader`: only the first call has an effect. */
    method WriteHeader(code: StatusCode)
      modifies this
      ensures old(status) == 0 ==> status == code && sentHeader == header.fields
      ensures old(status) != 0 ==> status == old(status) && sentHeader == old(sentHeader)
      ensures body == old(body)
    {
      if status == 0 {
        status := code;
        sentHeader := header.fields;
      }
    }

    /** `Write`: writes a 200 status line first if none was written. */
    method Write(data: seq<Byte>)
      modifies this
      ensures old(status) == 0 ==> status == StatusOK && sentHeader == header.fields
      ensures old(status) != 0 ==> status == old(status) && sentHeader == old(sentHeader)
      ensures body == old(body) + data
    {
      WriteHeader(StatusOK);
      body := body + data;
    }
  }

  /**
   * `io.Copy(w, res.Body)`: the bytes read are written (no write at all when
   * there are none) and the read error, if any, is returned.
   */
  method Copy(w: ResponseWriter, res: Response) returns (failed: bool)
    modifies w
    ensures failed == res.bodyFails
    ensures res.body == [] ==> w.status == old(w.status) && w.sentHeader == old(w.sentHeader)
    ensures res.body != [] && old(w.status) == 0 ==> w.status == StatusOK && w.sentHeader == w.header.fields
    ensures old(w.status) != 0 ==> w.status == old(w.status) && w.sentHeader == old(w.sentHeader)
    ensures w.body == old(w.body) + res.body
  {
    if res.body != [] {
      w.Write(res.body);
    }
    failed := res.bodyFails;
  }
}
