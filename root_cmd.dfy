/**
 * The earlier command of `cmd/gorp/root.go`: URL-shape checks for the
 * `--src` and `--dst` flags, the port check, and a first version of the
 * proxy handler with its own hop-by-hop sanitiser.
 */
module RootCmd {
  import opened Outcomes
  import opened GoStrings
  import opened GoStrconv
  import opened HttpHeader
  import opened NetUrl
  import opened HttpMessages
  import opened Validate
  import Proxy

  /** `validateOnlyPathURL`: nothing but a path (and no user information). */
  predicate ValidateOnlyPathURL(u: Url)
  {
    u.scheme == "" && u.user.None? && u.host == "" && u.rawQuery == "" && u.fragment == ""
  }

  /** `validateOriginServerURL`: an `http` URL with a host and nothing after it. */
  predicate ValidateOriginServerURL(u: Url)
  {
    u.scheme == "http" && u.user.None? && u.host != "" && u.path == "" && u.rawQuery == "" && u.fragment == ""
  }

  /** No URL passes both checks: one demands an empty host, the other a host. */
  lemma ValidatorsDisjoint(u: Url)
    ensures !(ValidateOnlyPathURL(u) && ValidateOriginServerURL(u))
  {
  }

  /**
   * A bare path passes the `--src` check and fails the `--dst` one; an
   * `http` URL with a host passes the `--dst` check, but not with the path
   * "/" that `url.Parse` gives "http://hello.com/".
   */
  lemma ValidatorExamples()
    ensures ValidateOnlyPathURL(Url("", None, "", "/hello/bello", "", ""))
    ensures !ValidateOriginServerURL(Url("", None, "", "/hello/bello", "", ""))
    ensures ValidateOriginServerURL(Url("http", None, "hello.com:80", "", "", ""))
    ensures !ValidateOriginServerURL(Url("http", None, "hello.com", "/", "", ""))
    ensures !ValidateOriginServerURL(Url("https", None, "hello.com", "", "", ""))
  {
  }

  /**
   * What this version's removeHopByHopHeaders leaves: the static list is
   * deleted first, then the names read from the (by then deleted)
   * `Connection` header.
   */
  function LegacySanitized(m: Fields): Fields
  {
    var s := m - Proxy.Elements(Proxy.HopByHopKeys);
    s - Proxy.CanonNames(Proxy.ConnectionTokens(s))
  }

  /**
   * Since `Connection` is gone when it is read, the second step only
   * deletes the empty name: the result is the static list and "" removed.
   */
  lemma LegacySanitizedDropsStaticOnly(m: Fields)
    ensures LegacySanitized(m) == m - Proxy.Elements(Proxy.HopByHopKeys) - {""}
  {
    var s := m - Proxy.Elements(Proxy.HopByHopKeys);
    assert "Connection" == Proxy.HopByHopKeys[2];
    Proxy.ConnectionTokensWithoutConnection(s);
    Proxy.CanonNamesOfBlank();
  }

  /**
   * A header named in `Connection` that is not itself hop-by-hop survives
   * this version's sanitiser, while the sanitiser of `proxy.go` removes it.
   */
  lemma LegacyKeepsConnectionListed(m: Fields, t: string)
    requires t in Proxy.ConnectionTokens(m)
    requires Canon(t) in m && Canon(t) !in Proxy.HopByHopKeys && Canon(t) != ""
    ensures Canon(t) in LegacySanitized(m)
    ensures Canon(t) !in Proxy.Sanitized(m)
  {
    LegacySanitizedDropsStaticOnly(m);
    var tokens := Proxy.ConnectionTokens(m);
    var i :| 0 <= i < |tokens| && tokens[i] == t;
    assert Canon(t) in Proxy.CanonNames(tokens);
  }

  /** This version's `removeHopByHopHeaders`, on the request's header in place. */
  method RemoveHopByHopHeaders(r: Request)
    modifies r.header
    ensures r.header.fields == LegacySanitized(old(r.header.fields))
  {
    Proxy.RemoveStaticHopByHop(r.header);
    Proxy.RemoveConnectionListed(r.header);
  }

  /** The request this version's handler sends to the origin server `dest`. */
  function LegacyOutbound(dest: Url, inbound: RequestData): RequestData
  {
    var h := LegacySanitized(inbound.header);
    inbound.(url := inbound.url.(host := dest.host, scheme := dest.scheme),
             host := dest.host,
             header := h["Via" := Values(h, "Via") + [Proxy.ViaEntry(inbound.proto)]])
  }

  /** `Via` gets the proxy's entry as one more value: earlier `Via` values stay separate entries. */
  lemma LegacyViaAppends(dest: Url, inbound: RequestData)
    ensures Values(LegacyOutbound(dest, inbound).header, "Via") == Values(inbound.header, "Via") + [Proxy.ViaEntry(inbound.proto)]
  {
    LegacySanitizedDropsStaticOnly(inbound.header);
  }

  /** The status this version's handler leaves written: 0 when nothing was written. */
  function LegacyStatus(res: Response): int
  {
    if res.body != [] then StatusOK else if res.bodyFails then StatusBadGateway as int else 0
  }

  /**
   * The status the client of this version receives is 200 or 502, never the
   * upstream one (unless that is one of the two).
   */
  lemma LegacyStatusIgnoresUpstream(res: Response)
    ensures var status := ClientStatus(LegacyStatus(res));
            (status == StatusOK || status == StatusBadGateway)
            && (!res.bodyFails ==> status == StatusOK)
  {
  }

  /** The header this version writes before the body: the unsanitised upstream header, then one `Trailer` value per trailer. */
  function LegacyAnnounced(initial: Fields, res: Response, order: seq<string>): Fields
  {
    Merged(Merged(initial, res.header), map["Trailer" := order])
  }

  /**
   * `handleProxyRequest(dest)`. The upstream status is never written: the
   * body copy writes 200 first when there is a body, and a failed copy
   * writes 502 only if nothing was written yet.
   */
  method HandleProxyRequest(dest: Url, w: ResponseWriter, r: Request, transport: RequestData -> RoundTrip)
    returns (sent: RequestData, ghost order: seq<string>)
    requires w.status == 0
    requires w.header != r.header
    modifies w, w.header
    ensures sent == LegacyOutbound(dest, r.Data())
    ensures transport(sent).TransportError? ==>
              && w.status == StatusBadGateway && w.sentHeader == old(w.header.fields)
              && w.header.fields == old(w.header.fields) && w.body == old(w.body)
    ensures transport(sent).Delivered? ==>
              var res := transport(sent).response;
              var announced := LegacyAnnounced(old(w.header.fields), res, order);
              && Proxy.IsTrailerOrder(order, res.declaredTrailers)
              && w.status == LegacyStatus(res)
              && (w.status != 0 ==> w.sentHeader == announced)
              && w.body == old(w.body) + res.body
              && w.header.fields == if res.bodyFails then announced else Merged(announced, res.trailer)
  {
    var req := r.Clone();
    req.url := req.url.(host := dest.host, scheme := dest.scheme);
    req.host := dest.host;
    RemoveHopByHopHeaders(req);
    Proxy.NameCanonical("Via");
    req.header.Add("Via", r.proto + " " + Proxy.ProxyPseudonym);
    sent := req.Data();

    var roundTrip := transport(sent);
    if roundTrip.TransportError? {
      w.WriteHeader(StatusBadGateway);
      return sent, [];
    }
    var res := roundTrip.response;
    AddAll(w.header, res.header);
    order := AddTrailerNames(w.header, res.declaredTrailers);

    var failed := Copy(w, res);
    if failed {
      w.WriteHeader(StatusBadGateway);
      return;
    }
    AddAll(w.header, res.trailer);
  }

  /** The loop adding each declared trailer name as one more `Trailer` value. */
  method AddTrailerNames(header: Header, declared: set<string>) returns (ghost order: seq<string>)
    modifies header
    ensures Proxy.IsTrailerOrder(order, declared)
    ensures header.fields == Merged(old(header.fields), map["Trailer" := order])
  {
    Proxy.NameCanonical("Trailer");
    var remaining := declared;
    ghost var before := header.fields;
    order := [];
    while remaining != {}
      invariant remaining <= declared
      invariant forall k :: k in order ==> k in declared && k !in remaining
      invariant forall k :: k in declared ==> k in order || k in remaining
      invariant |order| + |remaining| == |declared|
      invariant forall i, j :: 0 <= i < j < |order| ==> order[i] != order[j]
      invariant header.fields == WithTrailerNames(before, order)
      decreases remaining
    {
      var name :| name in remaining;
      WithTrailerNamesSnoc(before, order, name);
      header.Add("Trailer", name);
      order := order + [name];
      remaining := remaining - {name};
    }
    MergedOne(before, "Trailer", order);
  }

  /** `before` with `names` appended to its `Trailer` values (unchanged when there are none). */
  function WithTrailerNames(before: Fields, names: seq<string>): Fields
  {
    if names == [] then before else before["Trailer" := Values(before, "Trailer") + names]
  }

  lemma WithTrailerNamesSnoc(before: Fields, names: seq<string>, name: string)
    ensures var h := WithTrailerNames(before, names);
            h["Trailer" := Values(h, "Trailer") + [name]] == WithTrailerNames(before, names + [name])
  {
    var h := WithTrailerNames(before, names);
    if names == [] {
      assert names + [name] == [name];
    } else {
      assert Values(h, "Trailer") == Values(before, "Trailer") + names;
      assert Values(before, "Trailer") + names + [name] == Values(before, "Trailer") + (names + [name]);
    }
  }

  /** The `--port` check: the flag parses as an integer and is not negative. */
  predicate PortFlagAccepted(port: string)
  {
    Atoi(port).Some? && Atoi(port).value >= 0
  }

  /** Every non-negative 64-bit number written in decimal is accepted, every negative one rejected. */
  lemma PortFlagDecimal(p: int)
    requires MinInt <= p <= MaxInt
    ensures PortFlagAccepted(Itoa(p)) <==> p >= 0
  {
    AtoiItoa(p);
  }

  /** There is no upper bound: ports above 65535 pass this check, which ValidatePort rejects. */
  lemma PortFlagUnbounded(p: int)
    requires MaxPort < p <= MaxInt
    ensures PortFlagAccepted(Itoa(p))
    ensures ValidatePort(p).Some?
  {
    PortFlagDecimal(p);
  }
}
