/**
 * The reverse proxy of `proxy.go`: per request it clones the inbound
 * request, strips hop-by-hop headers, handles the X-Forwarded-* headers,
 * points the request at the upstream, appends itself to `Via`, forwards
 * the `TE: trailers` signal, and relays the upstream response with its
 * trailers.
 */
module Proxy {
  import opened Outcomes
  import opened GoStrings
  import opened GoNet
  import opened HttpHeader
  import opened NetUrl
  import opened HttpMessages

  /** The name the proxy gives itself in `Via`. */
  const ProxyPseudonym := "gorp"

  /** The hop-by-hop headers of section 13.5.1 of RFC 2616. */
  const HopByHopHeaders: seq<string> :=
    ["Transfer-Encoding", "TE", "Connection", "Keep-Alive", "Upgrade", "Trailer",
     "Proxy-Authorization", "Proxy-Authenticate"]

  /** The canonical forms of HopByHopHeaders, position by position (`TE` becomes `Te`). */
  const HopByHopKeys: seq<string> :=
    ["Transfer-Encoding", "Te", "Connection", "Keep-Alive", "Upgrade", "Trailer",
     "Proxy-Authorization", "Proxy-Authenticate"]

  /** The header names the proxy sets on the outbound request. */
  const XForwardedKeys: set<string> := {"X-Forwarded-For", "X-Forwarded-Host", "X-Forwarded-Proto"}

  /** The keys that deleting each of `names` removes. */
  function CanonNames(names: seq<string>): set<string>
  {
    set i | 0 <= i < |names| :: Canon(names[i])
  }

  /** The names listed in `s`. */
  function Elements(s: seq<string>): set<string>
  {
    set k | k in s
  }

  /** The trimmed, comma-separated tokens of the first `Connection` value. */
  function ConnectionTokens(m: Fields): seq<string>
  {
    TrimAll(Split(FirstValue(m, "Connection"), ','))
  }

  /**
   * What removeHopByHopHeaders leaves: every header named in `Connection`
   * removed, then every header of the static list.
   */
  function Sanitized(m: Fields): Fields
  {
    m - CanonNames(ConnectionTokens(m)) - Elements(HopByHopKeys)
  }

  /** Each entry of HopByHopHeaders canonicalises to the entry of HopByHopKeys at the same place. */
  lemma HopByHopCanon(i: nat)
    requires i < |HopByHopHeaders|
    ensures Canon(HopByHopHeaders[i]) == HopByHopKeys[i]
  {
    CanonEmptyAndTE();
    CanonicalTransferEncoding();
    CanonicalConnection();
    CanonicalKeepAlive();
    CanonicalUpgrade();
    CanonicalTrailer();
    CanonicalProxyAuthorization();
    CanonicalProxyAuthenticate();
  }

  /** The other names the proxy passes to `Header` methods are already canonical. */
  lemma NameCanonical(name: string)
    requires name in ["Connection", "Via", "Trailer", "X-Forwarded-For", "X-Forwarded-Host", "X-Forwarded-Proto"]
    ensures Canon(name) == name
  {
    CanonicalConnection();
    CanonicalVia();
    CanonicalTrailer();
    CanonicalXForwardedFor();
    CanonicalXForwardedHost();
    CanonicalXForwardedProto();
  }

  // One lemma per literal name keeps each proof about character cases small.

  lemma CanonicalTransferEncoding()
    ensures Canon("Transfer-Encoding") == "Transfer-Encoding"
  {
    CanonOfCanonical("Transfer-Encoding");
  }

  lemma CanonicalConnection()
    ensures Canon("Connection") == "Connection"
  {
    CanonOfCanonical("Connection");
  }

  lemma CanonicalKeepAlive()
    ensures Canon("Keep-Alive") == "Keep-Alive"
  {
    CanonOfCanonical("Keep-Alive");
  }

  lemma CanonicalUpgrade()
    ensures Canon("Upgrade") == "Upgrade"
  {
    CanonOfCanonical("Upgrade");
  }

  lemma CanonicalTrailer()
    ensures Canon("Trailer") == "Trailer"
  {
    CanonOfCanonical("Trailer");
  }

  lemma CanonicalProxyAuthorization()
    ensures Canon("Proxy-Authorization") == "Proxy-Authorization"
  {
    CanonOfCanonical("Proxy-Authorization");
  }

  lemma CanonicalProxyAuthenticate()
    ensures Canon("Proxy-Authenticate") == "Proxy-Authenticate"
  {
    CanonOfCanonical("Proxy-Authenticate");
  }

  lemma CanonicalVia()
    ensures Canon("Via") == "Via"
  {
    CanonOfCanonical("Via");
  }

  lemma CanonicalXForwardedFor()
    ensures Canon("X-Forwarded-For") == "X-Forwarded-For"
  {
    CanonOfCanonical("X-Forwarded-For");
  }

  lemma CanonicalXForwardedHost()
    ensures Canon("X-Forwarded-Host") == "X-Forwarded-Host"
  {
    CanonOfCanonical("X-Forwarded-Host");
  }

  lemma CanonicalXForwardedProto()
    ensures Canon("X-Forwarded-Proto") == "X-Forwarded-Proto"
  {
    CanonOfCanonical("X-Forwarded-Proto");
  }

  /** `removeHopByHopHeaders`, deleting in place. */
  method RemoveHopByHopHeaders(h: Header)
    modifies h
    ensures h.fields == Sanitized(old(h.fields))
  {
    RemoveConnectionListed(h);
    RemoveStaticHopByHop(h);
  }

  /** The first loop: every trimmed token of the first `Connection` value is deleted. */
  method RemoveConnectionListed(h: Header)
    modifies h
    ensures h.fields == old(h.fields) - CanonNames(ConnectionTokens(old(h.fields)))
  {
    NameCanonical("Connection");
    var headers := Split(h.Get("Connection"), ',');
    DeleteTrimmed(h, headers);
  }

  /** The loop over the pieces of `Connection`: each piece, trimmed, is deleted. */
  method DeleteTrimmed(h: Header, headers: seq<string>)
    modifies h
    ensures h.fields == old(h.fields) - CanonNames(TrimAll(headers))
  {
    ghost var tokens := TrimAll(headers);
    for i := 0 to |headers|
      invariant h.fields == old(h.fields) - CanonNames(tokens[..i])
    {
      CanonNamesSnoc(tokens, i);
      h.Del(TrimSpace(headers[i]));
    }
    assert tokens[..|headers|] == tokens;
  }

  /** The second loop: every name of the static list is deleted. */
  method RemoveStaticHopByHop(h: Header)
    modifies h
    ensures h.fields == old(h.fields) - Elements(HopByHopKeys)
  {
    for i := 0 to |HopByHopHeaders|
      invariant h.fields == old(h.fields) - Elements(HopByHopKeys[..i])
    {
      HopByHopCanon(i);
      h.Del(HopByHopHeaders[i]);
      ElementsSnoc(HopByHopKeys, i);
    }
    assert HopByHopKeys[..|HopByHopHeaders|] == HopByHopKeys;
  }

  lemma ElementsSnoc(s: seq<string>, i: nat)
    requires i < |s|
    ensures Elements(s[..i + 1]) == Elements(s[..i]) + {s[i]}
  {
    assert s[..i + 1] == s[..i] + [s[i]];
  }

  lemma CanonNamesSnoc(names: seq<string>, i: nat)
    requires i < |names|
    ensures CanonNames(names[..i + 1]) == CanonNames(names[..i]) + {Canon(names[i])}
  {
    var l, r := CanonNames(names[..i + 1]), CanonNames(names[..i]) + {Canon(names[i])};
    forall k | k in l ensures k in r {
      var j :| 0 <= j < i + 1 && k == Canon(names[..i + 1][j]);
      if j < i {
        assert names[..i + 1][j] == names[..i][j];
      }
    }
    forall k | k in r ensures k in l {
      if k != Canon(names[i]) {
        var j :| 0 <= j < i && k == Canon(names[..i][j]);
        assert names[..i + 1][j] == names[..i][j];
      } else {
        assert names[..i + 1][i] == names[i];
      }
    }
  }

  /** What removeHopByHopHeaders removes: no static hop-by-hop header and no header named in `Connection` remains. */
  lemma SanitizedRemoves(m: Fields)
    ensures forall i :: 0 <= i < |HopByHopHeaders| ==> Canon(HopByHopHeaders[i]) !in Sanitized(m)
    ensures forall i :: 0 <= i < |ConnectionTokens(m)| ==> Canon(ConnectionTokens(m)[i]) !in Sanitized(m)
  {
    forall i | 0 <= i < |HopByHopHeaders| ensures Canon(HopByHopHeaders[i]) !in Sanitized(m) {
      HopByHopCanon(i);
    }
  }

  /** removeHopByHopHeaders touches nothing else: a key survives, with its values, iff it is not targeted. */
  lemma SanitizedKeeps(m: Fields, k: string)
    ensures k in Sanitized(m) <==> k in m && k !in CanonNames(ConnectionTokens(m)) && k !in HopByHopKeys
    ensures k in Sanitized(m) ==> Sanitized(m)[k] == m[k]
  {
  }

  /** Sanitising a header map whose keys are canonical leaves them canonical. */
  lemma SanitizedCanonical(m: Fields)
    requires IsCanonical(m)
    ensures IsCanonical(Sanitized(m))
  {
  }

  /** A sanitised header map has no `Connection` header, so a second pass only names the empty token. */
  lemma ConnectionTokensOfSanitized(m: Fields)
    ensures ConnectionTokens(Sanitized(m)) == [""]
  {
    assert "Connection" == HopByHopKeys[2];
    ConnectionTokensWithoutConnection(Sanitized(m));
  }

  /** Without a `Connection` header the token list is the single empty token. */
  lemma ConnectionTokensWithoutConnection(m: Fields)
    requires "Connection" !in m
    ensures ConnectionTokens(m) == [""]
  {
    assert FirstValue(m, "Connection") == "";
    assert TrimSpace("") == "";
  }

  /**
   * Sanitising twice is sanitising once, for header maps without the empty
   * name (the second pass deletes the empty name, as Go's `Header.Del("")` does).
   */
  lemma SanitizedIdempotent(m: Fields)
    requires "" !in m
    ensures Sanitized(Sanitized(m)) == Sanitized(m)
  {
    ConnectionTokensOfSanitized(m);
    CanonNamesOfBlank();
  }

  lemma CanonNamesOfBlank()
    ensures CanonNames([""]) == {""}
  {
    CanonEmptyAndTE();
    var names: seq<string> := [""];
    assert Canon(names[0]) == "";
    assert "" in CanonNames(names);
  }

  /** With a value under the empty name that `Connection` does not list, the second pass removes it. */
  lemma SanitizedEmptyName(m: Fields)
    requires "" in m && "" !in ConnectionTokens(m)
    ensures "" in Sanitized(m) && "" !in Sanitized(Sanitized(m))
  {
    ConnectionTokensOfSanitized(m);
    CanonNamesOfBlank();
    var tokens := ConnectionTokens(m);
    forall i | 0 <= i < |tokens| ensures Canon(tokens[i]) != "" {
      assert tokens[i] != "";
    }
    assert "" !in CanonNames(tokens);
  }

  /** Go's `net.SplitHostPort` host part, which the proxy reports as the client address. */
  function ClientIP(remoteAddr: string): Option<string>
  {
    match SplitHostPort(remoteAddr)
    case None => None
    case Some(hp) => Some(hp.host)
  }

  /**
   * The header addXForwardedHeaders produces for client address `ip`:
   * `ip` appended to `X-Forwarded-For`, the inbound host in
   * `X-Forwarded-Host`, the inbound scheme in `X-Forwarded-Proto`.
   */
  function XForwarded(m: Fields, ip: string, host: string, tls: bool): Fields
  {
    var prior := FirstValue(m, "X-Forwarded-For");
    m["X-Forwarded-For" := [if prior != "" then prior + ", " + ip else ip]]
     ["X-Forwarded-Host" := [host]]
     ["X-Forwarded-Proto" := [if tls then "https" else "http"]]
  }

  /**
   * `addXForwardedHeaders`. When the remote address does not split into host
   * and port the Go function panics; here it returns false and changes nothing.
   */
  method AddXForwardedHeaders(r: Request) returns (ok: bool)
    modifies r.header
    ensures ok == ClientIP(r.remoteAddr).Some?
    ensures ok ==> r.header.fields == XForwarded(old(r.header.fields), ClientIP(r.remoteAddr).value, r.host, r.tls)
    ensures !ok ==> r.header.fields == old(r.header.fields)
  {
    var hp := SplitHostPort(r.remoteAddr);
    if hp.None? {
      return false;
    }
    var ip := hp.value.host;
    NameCanonical("X-Forwarded-For");
    NameCanonical("X-Forwarded-Host");
    NameCanonical("X-Forwarded-Proto");
    var prior := r.header.Get("X-Forwarded-For");
    if prior != "" {
      r.header.Set("X-Forwarded-For", prior + ", " + ip);
    } else {
      r.header.Set("X-Forwarded-For", ip);
    }
    r.header.Set("X-Forwarded-Host", r.host);
    if r.tls {
      r.header.Set("X-Forwarded-Proto", "https");
    } else {
      r.header.Set("X-Forwarded-Proto", "http");
    }
    ok := true;
  }

  /** The entry the proxy adds to `Via` for a request received with protocol `proto`. */
  function ViaEntry(proto: string): string
  {
    proto + " " + ProxyPseudonym
  }

  /** The header with the proxy's entry appended to the first `Via` value, or as the only one. */
  function WithVia(m: Fields, proto: string): Fields
  {
    var prior := FirstValue(m, "Via");
    m["Via" := [if prior != "" then prior + ", " + ViaEntry(proto) else ViaEntry(proto)]]
  }

  /** Whether the inbound `TE` value makes the proxy send `TE: trailers`: some comma-separated piece equals "trailers" exactly. */
  predicate ForcesTrailers(te: string)
  {
    "trailers" in Split(te, ',')
  }

  /**
   * The request ServeHTTP hands to the transport for inbound request `in`,
   * or None when addXForwardedHeaders panics.
   */
  function Outbound(upstream: Url, removeXF: bool, addXF: bool, inbound: RequestData): (r: Option<RequestData>)
    ensures r.None? <==> addXF && ClientIP(inbound.remoteAddr).None?
    ensures r.Some? ==> r.value.url == inbound.url.(host := upstream.host, scheme := upstream.scheme)
    ensures r.Some? ==> r.value.host == upstream.host
    ensures r.Some? ==> r.value.remoteAddr == inbound.remoteAddr && r.value.tls == inbound.tls && r.value.proto == inbound.proto
  {
    if addXF && ClientIP(inbound.remoteAddr).None? then None
    else
      var h2 := ForwardedFields(removeXF, addXF, inbound);
      var h3 := WithVia(h2, inbound.proto);
      var h4 := if ForcesTrailers(FirstValue(inbound.header, "Te")) then h3["Te" := ["trailers"]] else h3;
      Some(inbound.(header := h4, url := inbound.url.(host := upstream.host, scheme := upstream.scheme), host := upstream.host))
  }

  /** The outbound header after sanitising and the two X-Forwarded options, before `Via` and `TE`. */
  function ForwardedFields(removeXF: bool, addXF: bool, inbound: RequestData): Fields
    requires !(addXF && ClientIP(inbound.remoteAddr).None?)
  {
    var h0 := Sanitized(inbound.header);
    var h1 := if removeXF then h0 - XForwardedKeys else h0;
    if addXF then XForwarded(h1, ClientIP(inbound.remoteAddr).value, inbound.host, inbound.tls) else h1
  }

  /** The names whose outbound values the proxy itself decides. */
  const ProxyKeys: set<string> := {"Via", "Te"} + XForwardedKeys

  /** The header Outbound sends, when it sends one. */
  function OutboundHeader(upstream: Url, removeXF: bool, addXF: bool, inbound: RequestData): Fields
    requires Outbound(upstream, removeXF, addXF, inbound).Some?
  {
    Outbound(upstream, removeXF, addXF, inbound).value.header
  }

  /** No static hop-by-hop header other than `TE` reaches the upstream. */
  lemma OutboundDropsHopByHop(upstream: Url, removeXF: bool, addXF: bool, inbound: RequestData)
    requires Outbound(upstream, removeXF, addXF, inbound).Some?
    ensures forall i :: 0 <= i < |HopByHopKeys| && HopByHopKeys[i] != "Te" ==>
              HopByHopKeys[i] !in OutboundHeader(upstream, removeXF, addXF, inbound)
  {
    forall i | 0 <= i < |HopByHopKeys| && HopByHopKeys[i] != "Te"
      ensures HopByHopKeys[i] !in OutboundHeader(upstream, removeXF, addXF, inbound)
    {
      var k := HopByHopKeys[i];
      assert k in Elements(HopByHopKeys);
      assert k != "Via" && k !in XForwardedKeys;
      OutboundKeyOrigin(upstream, removeXF, addXF, inbound, k);
    }
  }

  /** `TE` is sent, as exactly `trailers`, iff the inbound `TE` asks for trailers. */
  lemma OutboundTE(upstream: Url, removeXF: bool, addXF: bool, inbound: RequestData)
    requires Outbound(upstream, removeXF, addXF, inbound).Some?
    ensures var out := OutboundHeader(upstream, removeXF, addXF, inbound);
            ("Te" in out <==> ForcesTrailers(FirstValue(inbound.header, "Te")))
            && ("Te" in out ==> out["Te"] == ["trailers"])
  {
  }

  /** A header named in the inbound `Connection` is gone, unless it is one the proxy sets itself. */
  lemma OutboundDropsConnectionListed(upstream: Url, removeXF: bool, addXF: bool, inbound: RequestData, t: string)
    requires Outbound(upstream, removeXF, addXF, inbound).Some?
    requires t in ConnectionTokens(inbound.header)
    ensures Canon(t) in OutboundHeader(upstream, removeXF, addXF, inbound) ==>
              Canon(t) == "Via" || Canon(t) == "Te" || (addXF && Canon(t) in XForwardedKeys)
  {
    var k := Canon(t);
    var tokens := ConnectionTokens(inbound.header);
    var i :| 0 <= i < |tokens| && tokens[i] == t;
    assert k in CanonNames(tokens);
    if k != "Via" && k != "Te" && !(addXF && k in XForwardedKeys) {
      OutboundKeyOrigin(upstream, removeXF, addXF, inbound, k);
    }
  }

  /** A key the proxy does not set itself is in the outbound header only if it survived sanitising. */
  lemma OutboundKeyOrigin(upstream: Url, removeXF: bool, addXF: bool, inbound: RequestData, k: string)
    requires Outbound(upstream, removeXF, addXF, inbound).Some?
    requires k != "Via" && k != "Te" && !(addXF && k in XForwardedKeys)
    ensures k in OutboundHeader(upstream, removeXF, addXF, inbound) ==> k in Sanitized(inbound.header)
  {
  }

  /** Every header the proxy neither strips nor sets reaches the upstream with the values it came with. */
  lemma OutboundKeepsOthers(upstream: Url, removeXF: bool, addXF: bool, inbound: RequestData, k: string)
    requires Outbound(upstream, removeXF, addXF, inbound).Some?
    requires k !in ProxyKeys
    ensures var out := OutboundHeader(upstream, removeXF, addXF, inbound);
            (k in out <==> k in inbound.header && k !in CanonNames(ConnectionTokens(inbound.header)) && k !in HopByHopKeys)
            && (k in out ==> out[k] == inbound.header[k])
  {
  }

  /** The outbound `Via` holds one value: the proxy's entry after the first sanitised inbound value, if any. */
  lemma OutboundVia(upstream: Url, removeXF: bool, addXF: bool, inbound: RequestData)
    requires Outbound(upstream, removeXF, addXF, inbound).Some?
    ensures var out := OutboundHeader(upstream, removeXF, addXF, inbound);
            var prior := FirstValue(Sanitized(inbound.header), "Via");
            "Via" in out && out["Via"] == [if prior != "" then prior + ", " + ViaEntry(inbound.proto) else ViaEntry(inbound.proto)]
    ensures "Via" !in CanonNames(ConnectionTokens(inbound.header)) ==>
              FirstValue(Sanitized(inbound.header), "Via") == FirstValue(inbound.header, "Via")
  {
    var h0 := Sanitized(inbound.header);
    var h1 := if removeXF then h0 - XForwardedKeys else h0;
    assert FirstValue(h1, "Via") == FirstValue(h0, "Via");
    if addXF {
      var ip := ClientIP(inbound.remoteAddr).value;
      assert FirstValue(XForwarded(h1, ip, inbound.host, inbound.tls), "Via") == FirstValue(h1, "Via");
    }
  }

  /**
   * With addXFHeaders the upstream receives the client's address appended to
   * `X-Forwarded-For` (alone when removeXFHeaders dropped the inbound ones),
   * the inbound host and the inbound scheme.
   */
  lemma OutboundXForwardedAdded(upstream: Url, removeXF: bool, inbound: RequestData)
    requires Outbound(upstream, removeXF, true, inbound).Some?
    ensures var out := OutboundHeader(upstream, removeXF, true, inbound);
            var ip := ClientIP(inbound.remoteAddr).value;
            var prior := if removeXF then "" else FirstValue(Sanitized(inbound.header), "X-Forwarded-For");
            && XForwardedKeys <= out.Keys
            && out["X-Forwarded-For"] == [if prior != "" then prior + ", " + ip else ip]
            && out["X-Forwarded-Host"] == [inbound.host]
            && out["X-Forwarded-Proto"] == [if inbound.tls then "https" else "http"]
  {
    if removeXF {
      assert FirstValue(Sanitized(inbound.header) - XForwardedKeys, "X-Forwarded-For") == "";
    }
  }

  /** With only removeXFHeaders, none of the three X-Forwarded headers is sent. */
  lemma OutboundXForwardedRemoved(upstream: Url, inbound: RequestData)
    requires Outbound(upstream, true, false, inbound).Some?
    ensures OutboundHeader(upstream, true, false, inbound).Keys !! XForwardedKeys
  {
  }

  /** With neither option the X-Forwarded headers pass through like any other header. */
  lemma OutboundXForwardedKept(upstream: Url, inbound: RequestData, k: string)
    requires Outbound(upstream, false, false, inbound).Some?
    requires k in XForwardedKeys
    ensures var out := OutboundHeader(upstream, false, false, inbound);
            (k in out <==> k in Sanitized(inbound.header)) && (k in out ==> out[k] == inbound.header[k])
  {
  }

  /** `make([]string, n)`: n empty strings. */
  function Blanks(n: nat): (r: seq<string>)
    ensures |r| == n && forall i :: 0 <= i < n ==> r[i] == ""
  {
    seq(n, _ => "")
  }

  /**
   * The value ServeHTTP adds to `Trailer` when it visited the trailer keys
   * in `order`: the slice it joins starts with one empty string per trailer.
   */
  function TrailerAnnouncement(order: seq<string>): string
  {
    Join(Blanks(|order|) + order, ", ")
  }

  /** `order` lists every declared trailer name exactly once. */
  predicate IsTrailerOrder(order: seq<string>, declared: set<string>)
  {
    && |order| == |declared|
    && (forall k :: k in order ==> k in declared)
    && (forall k :: k in declared ==> k in order)
    && (forall i, j :: 0 <= i < j < |order| ==> order[i] != order[j])
  }

  /**
   * The header the client receives with the status line: the values already
   * in the writer's header, then the sanitised upstream header, then the
   * trailer announcement appended to `Trailer`.
   */
  function RelayedHeader(initial: Fields, res: Response, order: seq<string>): Fields
  {
    var h := Merged(initial, Sanitized(res.header));
    h["Trailer" := Values(h, "Trailer") + [TrailerAnnouncement(order)]]
  }

  /**
   * The response half of ServeHTTP: the upstream status and sanitised
   * header, the trailer announcement, the body, and after it the trailers.
   * A body that fails to copy leaves the upstream status in place (the
   * second `WriteHeader` has no effect) and sends no trailers.
   */
  method RelayResponse(w: ResponseWriter, res: Response) returns (ghost order: seq<string>)
    requires w.status == 0
    modifies w, w.header
    ensures IsTrailerOrder(order, res.declaredTrailers)
    ensures w.status == res.statusCode
    ensures w.sentHeader == RelayedHeader(old(w.header.fields), res, order)
    ensures w.body == old(w.body) + res.body
    ensures w.header.fields == if res.bodyFails then w.sentHeader else Merged(w.sentHeader, res.trailer)
  {
    order := PrepareHeader(w.header, res);
    w.WriteHeader(res.statusCode);
    var failed := Copy(w, res);
    if failed {
      w.WriteHeader(StatusBadGateway);
      return;
    }
    AddAll(w.header, res.trailer);
  }

  /** The header phase of RelayResponse: copy the sanitised upstream header and announce the trailers. */
  method PrepareHeader(header: Header, res: Response) returns (ghost order: seq<string>)
    modifies header
    ensures IsTrailerOrder(order, res.declaredTrailers)
    ensures header.fields == RelayedHeader(old(header.fields), res, order)
  {
    var h := new Header(res.header);
    RemoveHopByHopHeaders(h);
    SanitizedCanonical(res.header);
    AddAll(header, h.fields);
    order := AnnounceTrailers(header, res.declaredTrailers);
  }

  /** Adds the joined declared trailer names to `Trailer`. */
  method AnnounceTrailers(header: Header, declared: set<string>) returns (ghost order: seq<string>)
    modifies header
    ensures IsTrailerOrder(order, declared)
    ensures header.fields == old(header.fields)["Trailer" := Values(old(header.fields), "Trailer") + [TrailerAnnouncement(order)]]
  {
    var trailers := TrailerNames(declared);
    order := trailers[|declared|..];
    assert trailers == Blanks(|order|) + order;
    NameCanonical("Trailer");
    header.Add("Trailer", Join(trailers, ", "));
  }

  /**
   * The loop collecting the keys `res.Trailer` holds before the body, the
   * declared names: a slice made with length `|declared|` (so holding that
   * many empty strings) with every name appended.
   */
  method TrailerNames(declared: set<string>) returns (trailers: seq<string>)
    ensures |trailers| == 2 * |declared|
    ensures trailers[..|declared|] == Blanks(|declared|)
    ensures IsTrailerOrder(trailers[|declared|..], declared)
  {
    var n := |declared|;
    trailers := Blanks(n);
    var remaining := declared;
    ghost var names: seq<string> := [];
    while remaining != {}
      invariant remaining <= declared
      invariant trailers == Blanks(n) + names
      invariant forall k :: k in names ==> k in declared && k !in remaining
      invariant forall k :: k in declared ==> k in names || k in remaining
      invariant |names| + |remaining| == n
      invariant forall i, j :: 0 <= i < j < |names| ==> names[i] != names[j]
      decreases remaining
    {
      var name :| name in remaining;
      trailers := trailers + [name];
      names := names + [name];
      remaining := remaining - {name};
    }
    assert trailers[n..] == names;
  }

  /** `gorp.ReverseProxy`: the upstream URL and the two X-Forwarded options. */
  class ReverseProxy {
    const upstream: Url
    const removeXFHeaders: bool
    const addXFHeaders: bool

    constructor (upstream: Url, removeXFHeaders: bool, addXFHeaders: bool)
      ensures this.upstream == upstream
      ensures this.removeXFHeaders == removeXFHeaders && this.addXFHeaders == addXFHeaders
    {
      this.upstream := upstream;
      this.removeXFHeaders := removeXFHeaders;
      this.addXFHeaders := addXFHeaders;
    }

    /**
     * `ServeHTTP`. `transport` stands for `http.DefaultTransport.RoundTrip`;
     * `sent` is the request handed to it, None when the handler panics in
     * addXForwardedHeaders (then nothing is written). `order` is the order in
     * which the trailer keys were visited.
     */
    method ServeHTTP(w: ResponseWriter, r: Request, transport: RequestData -> RoundTrip)
      returns (sent: Option<RequestData>, ghost order: seq<string>)
      requires w.status == 0
      requires w.header != r.header
      modifies w, w.header
      ensures sent == Outbound(upstream, removeXFHeaders, addXFHeaders, r.Data())
      ensures sent.None? ==> w.status == 0 && w.header.fields == old(w.header.fields) && w.body == old(w.body)
      ensures sent.Some? && transport(sent.value).TransportError? ==>
                && w.status == StatusBadGateway && w.sentHeader == old(w.header.fields)
                && w.header.fields == old(w.header.fields) && w.body == old(w.body)
      ensures sent.Some? && transport(sent.value).Delivered? ==>
                var res := transport(sent.value).response;
                && IsTrailerOrder(order, res.declaredTrailers)
                && w.status == res.statusCode
                && w.sentHeader == RelayedHeader(old(w.header.fields), res, order)
                && w.body == old(w.body) + res.body
                && w.header.fields == if res.bodyFails then w.sentHeader else Merged(w.sentHeader, res.trailer)
    {
      var req, ok := Rewrite(r);
      if !ok {
        return None, [];
      }
      sent := Some(req.Data());
      var roundTrip := transport(req.Data());
      if roundTrip.TransportError? {
        w.WriteHeader(StatusBadGateway);
        return sent, [];
      }
      order := RelayResponse(w, roundTrip.response);
    }

    /**
     * The request half of ServeHTTP: the clone of `r` it sends upstream, or
     * false when addXForwardedHeaders panics.
     */
    method Rewrite(r: Request) returns (req: Request, ok: bool)
      ensures fresh(req) && fresh(req.header)
      ensures ok ==> Outbound(upstream, removeXFHeaders, addXFHeaders, r.Data()) == Some(req.Data())
      ensures !ok ==> Outbound(upstream, removeXFHeaders, addXFHeaders, r.Data()).None?
    {
      req := r.Clone();
      ok := ForwardHeaders(req, removeXFHeaders, addXFHeaders);
      if !ok {
        return;
      }
      req.url := req.url.(host := upstream.host, scheme := upstream.scheme);
      req.host := upstream.host;
      AddVia(req.header, r.proto);
      CanonEmptyAndTE();
      ForwardTE(req.header, r.header.Get("TE"));
    }
  }

  /** The first steps of ServeHTTP's rewrite: sanitising, then the two X-Forwarded options. */
  method ForwardHeaders(req: Request, removeXF: bool, addXF: bool) returns (ok: bool)
    modifies req.header
    ensures ok <==> !(addXF && ClientIP(req.remoteAddr).None?)
    ensures ok ==> req.header.fields == ForwardedFields(removeXF, addXF, old(req.Data()))
  {
    RemoveHopByHopHeaders(req.header);
    if removeXF {
      RemoveXForwarded(req.header);
    }
    ok := true;
    if addXF {
      ok := AddXForwardedHeaders(req);
    }
  }

  /** The three `Header.Del` calls of removeXFHeaders. */
  method RemoveXForwarded(h: Header)
    modifies h
    ensures h.fields == old(h.fields) - XForwardedKeys
  {
    NameCanonical("X-Forwarded-For");
    NameCanonical("X-Forwarded-Host");
    NameCanonical("X-Forwarded-Proto");
    h.Del("X-Forwarded-For");
    h.Del("X-Forwarded-Host");
    h.Del("X-Forwarded-Proto");
  }

  /** The `Via` step of ServeHTTP. */
  method AddVia(h: Header, proto: string)
    modifies h
    ensures h.fields == WithVia(old(h.fields), proto)
  {
    NameCanonical("Via");
    var prior := h.Get("Via");
    if prior != "" {
      assert prior + ", " + proto + " " + ProxyPseudonym == prior + ", " + ViaEntry(proto);
      h.Set("Via", prior + ", " + proto + " " + ProxyPseudonym);
    } else {
      h.Set("Via", proto + " " + ProxyPseudonym);
    }
  }

  /** The `TE` loop of ServeHTTP: `TE: trailers` is set once some piece of `te` is exactly "trailers". */
  method ForwardTE(h: Header, te: string)
    modifies h
    ensures h.fields == if ForcesTrailers(te) then old(h.fields)["Te" := ["trailers"]] else old(h.fields)
  {
    CanonEmptyAndTE();
    var teValues := Split(te, ',');
    for i := 0 to |teValues|
      invariant h.fields == if "trailers" in teValues[..i] then old(h.fields)["Te" := ["trailers"]] else old(h.fields)
    {
      if teValues[i] == "trailers" {
        h.Set("TE", "trailers");
      }
      assert teValues[..i + 1] == teValues[..i] + [teValues[i]];
    }
    assert teValues[..|teValues|] == teValues;
  }

  /** A trailer name the announcement can carry: no comma and no white space at either end. */
  predicate IsListToken(name: string)
  {
    ',' !in name && TrimSpace(name) == name
  }

  /**
   * Read back as a comma-separated list, the announcement ServeHTTP sends
   * holds one empty element per trailer in front of the trailer names.
   */
  lemma TrailerAnnouncementElements(order: seq<string>)
    requires order != []
    requires forall i :: 0 <= i < |order| ==> IsListToken(order[i])
    ensures TrimAll(Split(TrailerAnnouncement(order), ',')) == Blanks(|order|) + order
  {
    var names := Blanks(|order|) + order;
    assert TrimSpace("") == "";
    forall i | 0 <= i < |names| ensures ',' !in names[i] && TrimSpace(names[i]) == names[i] {
      if i >= |order| {
        assert names[i] == order[i - |order|];
      }
    }
    TrimAllSplitJoin(names, ',');
  }

  /** With a single trailer `name` the announcement is ", " followed by the name: an empty element comes first. */
  lemma TrailerAnnouncementOfOne(name: string)
    ensures TrailerAnnouncement([name]) == ", " + name
  {
    var parts := Blanks(1) + [name];
    assert parts == ["", name];
    assert Join(parts[1..], ", ") == name;
    assert "" + ", " + name == ", " + name;
  }

  /** The announcement evidently intended: the trailer names joined by ", ", nothing else. */
  function IntendedTrailerAnnouncement(order: seq<string>): string
  {
    Join(order, ", ")
  }

  /** The intended announcement reads back as exactly the trailer names. */
  lemma IntendedTrailerAnnouncementElements(order: seq<string>)
    requires order != []
    requires forall i :: 0 <= i < |order| ==> IsListToken(order[i])
    ensures TrimAll(Split(IntendedTrailerAnnouncement(order), ',')) == order
  {
    TrimAllSplitJoin(order, ',');
  }

  /**
   * Every trailer the upstream declares is announced in the last `Trailer`
   * value the client receives, so the values added after the body under
   * those names go out as trailers.
   */
  lemma RelayAnnouncesTrailers(initial: Fields, res: Response, order: seq<string>)
    requires IsTrailerOrder(order, res.declaredTrailers)
    requires res.declaredTrailers != {}
    requires forall k :: k in res.declaredTrailers ==> IsListToken(k)
    ensures var vs := RelayedHeader(initial, res, order)["Trailer"];
            vs != [] && forall k :: k in res.declaredTrailers ==> k in TrimAll(Split(vs[|vs| - 1], ','))
  {
    var vs := LastTrailerValue(initial, res, order);
    var k0 :| k0 in res.declaredTrailers;
    assert k0 in order;
    forall i | 0 <= i < |order| ensures IsListToken(order[i]) {
      assert order[i] in order;
    }
    AnnouncementListsOrder(order);
  }

  /**
   * A trailer that arrives without having been declared is added to the
   * writer's header after the body, but its name is not in the announcement,
   * so the client is never told to expect it.
   */
  lemma RelayOmitsUndeclared(initial: Fields, res: Response, order: seq<string>, k: string)
    requires IsTrailerOrder(order, res.declaredTrailers)
    requires forall d :: d in res.declaredTrailers ==> IsListToken(d)
    requires k in res.trailer && k !in res.declaredTrailers && k != ""
    ensures var sent := RelayedHeader(initial, res, order);
            && k !in TrimAll(Split(sent["Trailer"][|sent["Trailer"]| - 1], ','))
            && Values(Merged(sent, res.trailer), k) == Values(sent, k) + res.trailer[k]
  {
    var sent := RelayedHeader(initial, res, order);
    var vs := LastTrailerValue(initial, res, order);
    MergedValues(sent, res.trailer, k);
    forall i | 0 <= i < |order| ensures IsListToken(order[i]) {
      assert order[i] in order;
    }
    assert k !in order;
    AnnouncementOmits(order, k);
  }

  /** A non-empty name outside `order` is not among the elements of the announcement made from it. */
  lemma AnnouncementOmits(order: seq<string>, k: string)
    requires forall i :: 0 <= i < |order| ==> IsListToken(order[i])
    requires k !in order && k != ""
    ensures k !in TrimAll(Split(TrailerAnnouncement(order), ','))
  {
    if order == [] {
      assert TrailerAnnouncement(order) == "";
      assert TrimAll(Split("", ',')) == [TrimSpace("")];
    } else {
      TrailerAnnouncementElements(order);
      assert k !in Blanks(|order|);
    }
  }

  /** The last `Trailer` value of the relayed header is the announcement. */
  lemma LastTrailerValue(initial: Fields, res: Response, order: seq<string>) returns (vs: seq<string>)
    ensures vs == RelayedHeader(initial, res, order)["Trailer"]
    ensures vs != [] && vs[|vs| - 1] == TrailerAnnouncement(order)
  {
    var h := Merged(initial, Sanitized(res.header));
    vs := Values(h, "Trailer") + [TrailerAnnouncement(order)];
  }

  /** Every name of `order` is among the elements of the announcement made from it. */
  lemma AnnouncementListsOrder(order: seq<string>)
    requires order != []
    requires forall i :: 0 <= i < |order| ==> IsListToken(order[i])
    ensures forall k :: k in order ==> k in TrimAll(Split(TrailerAnnouncement(order), ','))
  {
    TrailerAnnouncementElements(order);
    forall k | k in order ensures k in Blanks(|order|) + order {
      var i :| 0 <= i < |order| && order[i] == k;
      assert (Blanks(|order|) + order)[|order| + i] == k;
    }
  }

  /**
   * The client receives no hop-by-hop header of the upstream response, except
   * `Trailer`, which carries the proxy's own announcement last; every other
   * upstream header arrives after what the writer's header already held.
   */
  lemma RelayedHeaderSanitized(initial: Fields, res: Response, order: seq<string>, k: string)
    requires k != "Trailer"
    ensures k in HopByHopKeys || k in CanonNames(ConnectionTokens(res.header)) ==>
              Values(RelayedHeader(initial, res, order), k) == Values(initial, k)
    ensures k !in HopByHopKeys && k !in CanonNames(ConnectionTokens(res.header)) ==>
              Values(RelayedHeader(initial, res, order), k) == Values(initial, k) + Values(res.header, k)
  {
    MergedValues(initial, Sanitized(res.header), k);
  }

  /**
   * The piece-by-piece `TE` test misses `trailers` after a comma and a blank:
   * "deflate, trailers" does not force trailers.
   */
  lemma ForcesTrailersMissesSpacedToken(first: string)
    requires ',' !in first && first != "trailers"
    ensures !ForcesTrailers(first + ", trailers")
  {
    var rest := " trailers";
    assert first + ", trailers" == first + [','] + rest by {
      assert ", trailers" == [','] + rest;
    }
    assert ',' !in rest;
    SplitAtFirst(first, rest, ',');
    SplitFree(rest, ',');
    assert |rest| != |"trailers"|;
  }

  /** The `TE` test evidently intended: some comma-separated element, trimmed, is "trailers". */
  predicate IntendedForcesTrailers(te: string)
  {
    "trailers" in TrimAll(Split(te, ','))
  }

  /** The intended test accepts every value the written one does. */
  lemma IntendedForcesTrailersWeaker(te: string)
    ensures ForcesTrailers(te) ==> IntendedForcesTrailers(te)
  {
    if ForcesTrailers(te) {
      var parts := Split(te, ',');
      var i :| 0 <= i < |parts| && parts[i] == "trailers";
      TrimSpaceOfTrimmed(parts[i]);
      assert TrimAll(parts)[i] == "trailers";
    }
  }

  /** On a list of elements written with ", ", the intended test holds exactly when one of them is "trailers". */
  lemma IntendedForcesTrailersElements(elements: seq<string>)
    requires elements != []
    requires forall i :: 0 <= i < |elements| ==> IsListToken(elements[i])
    ensures IntendedForcesTrailers(Join(elements, ", ")) <==> "trailers" in elements
  {
    TrimAllSplitJoin(elements, ',');
  }

  /** The intended test catches the case the written one misses. */
  lemma IntendedForcesTrailersSpacedToken(first: string)
    requires IsListToken(first)
    ensures IntendedForcesTrailers(first + ", trailers")
  {
    var elements := [first, "trailers"];
    assert ',' !in "trailers";
    TrimSpaceOfTrimmed("trailers");
    assert Join(elements, ", ") == first + ", trailers";
    IntendedForcesTrailersElements(elements);
  }

  /** The value "deflate, trailers": the written test misses it, the intended one catches it. */
  lemma DeflateThenTrailers()
    ensures !ForcesTrailers("deflate, trailers")
    ensures IntendedForcesTrailers("deflate, trailers")
  {
    assert "deflate" + ", trailers" == "deflate, trailers";
    assert IsListToken("deflate") by {
      TrimSpaceOfTrimmed("deflate");
    }
    ForcesTrailersMissesSpacedToken("deflate");
    IntendedForcesTrailersSpacedToken("deflate");
  }
}
