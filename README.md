# gorp reverse proxy, modelled in Dafny

gorp is a single-host HTTP reverse proxy written in Go. This project models
its per-request header pipeline and the small validators around it, and
proves what they do:

- `proxy.go` (module `Proxy`): `removeHopByHopHeaders` deletes the headers
  named in `Connection` and then the static hop-by-hop list of section
  13.5.1 of RFC 2616. `addXForwardedHeaders` composes `X-Forwarded-For`,
  `X-Forwarded-Host` and `X-Forwarded-Proto`. `ReverseProxy.ServeHTTP`
  clones the request, sanitises it, applies the two X-Forwarded options,
  points the URL and `Host` at the upstream, appends itself to `Via`,
  forwards `TE: trailers`, and then relays the upstream response: the
  sanitised headers, a `Trailer` announcement, the status, the body and the
  trailers.
- `cmd/gorp/root.go` (module `RootCmd`): the earlier command. It holds the
  URL-shape checks for `--src` and `--dst`, the `--port` check, and the
  first handler with its own sanitiser, which runs the two deletion steps
  in the opposite order.
- `cmd/gorp/main.go` (module `MainCmd`): `FlagStringMap.Set`, the
  `name:value` flag parser.
- `validate.go` (module `Validate`): `ValidatePort`.

Supporting modules model the parts of Go's standard library that the code
relies on:

- `GoStrings`: `strings.Split`, `Join`, `TrimSpace` and `Count`.
- `GoStrconv`: `strconv.Atoi` and `Itoa` on 64-bit `int`.
- `GoNet`: `net.SplitHostPort`.
- `HttpHeader`: `http.Header`, with `textproto.CanonicalMIMEHeaderKey` modelled exactly.
- `HttpMessages`: the request, the response and the `ResponseWriter`.
- `NetUrl`: the `url.URL` fields that are read.

The header map is a class whose methods (`Get`, `Set`, `Add`, `Del`)
change it in place, as Go's `http.Header` does. Each proxy step is a method
proved against a specification function: `Sanitized`, `XForwarded`,
`WithVia`, `Outbound` and `RelayedHeader`. Lemmas then state what those
functions guarantee. Go's map iteration is modelled as an arbitrary choice
of the next key, so every result holds for every iteration order.

The transport (`http.DefaultTransport.RoundTrip`) is a parameter: a function
from the outbound request to either a response or an error. `ServeHTTP`
returns the request it hands to the transport. That result is `None` when
`addXForwardedHeaders` panics because the remote address does not split
into host and port (no port, too many colons, a missing or stray bracket);
the writer is then left untouched. A `ResponseWriter` records the status line
once. Its first `WriteHeader`, or a `Write` without one (which writes 200),
fixes the status and the header the client receives. Values added to the
header after that are what the server sends as trailers.

An upstream response carries its trailers twice, as Go's `res.Trailer`
does: the names declared in its `Trailer` header, which are the keys
`res.Trailer` holds while the body is read, and the trailers present once
the body is read, which include every declared name (with no values if it
did not arrive) and any trailer that arrived undeclared. The announcement
is built from the first, the values copied after the body from the second.

## Model

| member | source | states |
|---|---|---|
| Proxy.RemoveHopByHopHeaders | proxy.go:108-118 | The header is left as `Sanitized` of the old one: every trimmed token of the first `Connection` value is deleted under its canonical name, then every name of the static list |
| Proxy.RemoveConnectionListed | proxy.go:110-113 | Every header named by a trimmed comma-separated piece of the first `Connection` value is deleted under its canonical name, and nothing else |
| Proxy.RemoveStaticHopByHop | proxy.go:115-117 | Exactly the canonical names of the static list are deleted |
| Proxy.HopByHopCanon | proxy.go:16-25 | Each name of the static list deletes its canonical key; `TE` deletes `Te` |
| Proxy.SanitizedRemoves | proxy.go:109-117 | After sanitising, neither a static hop-by-hop header nor a header named in `Connection` is present |
| Proxy.SanitizedKeeps | proxy.go:108-118 | A header survives sanitising iff it was present and is neither listed in `Connection` nor hop-by-hop, and it keeps its exact value list |
| Proxy.SanitizedIdempotent | proxy.go:108-118 | Sanitising twice equals sanitising once, for headers without the empty name |
| Proxy.SanitizedEmptyName | proxy.go:110-113 | With a header under the empty name that `Connection` does not list, the first pass keeps it and the second deletes it, which is why idempotence needs that exclusion |
| Proxy.ConnectionTokensOfSanitized | proxy.go:110 | A sanitised header has no `Connection`, so reading it again gives the single empty token |
| Proxy.AddXForwardedHeaders | proxy.go:120-140 | Fails, changing nothing, exactly when the remote address does not split into host and port; otherwise the header becomes `XForwarded` of the old one with the host part as client address |
| Proxy.Outbound | proxy.go:33-65 | There is no outbound request iff `AddXFHeaders` is set and the remote address does not split; otherwise URL host, URL scheme and `Host` are the upstream's and remote address, TLS and protocol are kept |
| Proxy.OutboundDropsHopByHop | proxy.go:36 | No static hop-by-hop header other than `TE` reaches the upstream |
| Proxy.OutboundTE | proxy.go:58-65 | Outbound `TE` is present iff some untrimmed comma-separated piece of the inbound first `TE` value is `trailers`, and then it is exactly `["trailers"]` |
| Proxy.OutboundDropsConnectionListed | proxy.go:109-113 | A header named in the inbound `Connection` is not sent unless it is `Via`, `TE` or, with `AddXFHeaders`, an X-Forwarded header that the proxy sets itself |
| Proxy.OutboundKeyOrigin | proxy.go:34-65 | A name the proxy does not set is sent only if it survived sanitising |
| Proxy.OutboundKeepsOthers | proxy.go:34-65 | Every header the proxy neither strips nor sets reaches the upstream with the value list it came with |
| Proxy.OutboundVia | proxy.go:51-56 | Outbound `Via` is the single value `prior + ", " + proto + " gorp"`, or `proto + " gorp"` when there is no prior; the prior is the inbound first `Via` unless `Connection` listed `Via` |
| Proxy.OutboundXForwardedAdded | proxy.go:121-139 | With `AddXFHeaders`, `X-Forwarded-For` is the client IP alone when `RemoveXFHeaders` is set or there is no prior, else `prior + ", " + ip`; `X-Forwarded-Host` is the inbound `Host` from before the rewrite; `X-Forwarded-Proto` is `https` iff the request came over TLS, else `http` |
| Proxy.OutboundXForwardedRemoved | proxy.go:38-42 | With only `RemoveXFHeaders`, none of the three X-Forwarded headers is sent |
| Proxy.OutboundXForwardedKept | proxy.go:38-45 | With neither option, the X-Forwarded headers pass through sanitising unchanged |
| Proxy.ForwardHeaders | proxy.go:36-45 | Fails exactly when `AddXFHeaders` is set and the remote address does not split; otherwise the header becomes `ForwardedFields`: sanitised, stripped of the X-Forwarded headers if asked, then given the proxy's own X-Forwarded headers if asked |
| Proxy.RemoveXForwarded | proxy.go:38-42 | Exactly the three X-Forwarded keys are deleted |
| Proxy.AddVia | proxy.go:51-56 | The header becomes `WithVia` of the old one |
| Proxy.ForwardTE | proxy.go:60-65 | After the loop over the pieces of the inbound `TE`, `Te` is set to `["trailers"]` iff a piece equals `trailers`, and nothing else changes |
| Proxy.ReverseProxy.Rewrite | proxy.go:34-65 | The fresh clone it returns carries exactly `Outbound` of the inbound request, or it reports the panic exactly when `Outbound` is `None` |
| Proxy.ReverseProxy.ServeHTTP | proxy.go:33-106 | The transport receives `Outbound` of the inbound request. On a panic nothing is written. On a transport error the client gets 502 with the writer's header. Otherwise the upstream status, `RelayedHeader` announcing the declared trailer names, the upstream body and, unless the body fails, the received trailers after it |
| Proxy.RelayResponse | proxy.go:75-105 | The client status is the upstream status even when the body copy fails; the header sent is `RelayedHeader`; the body is appended; the received trailer values, declared or not, follow the sent header unless the copy failed |
| Proxy.PrepareHeader | proxy.go:75-89 | Before the status line, the writer's header holds its old values, then the sanitised upstream header, then the trailer announcement |
| Proxy.AnnounceTrailers | proxy.go:85-89 | One value, `TrailerAnnouncement(order)`, is appended to `Trailer`, where `order` lists every declared trailer name once |
| Proxy.TrailerNames | proxy.go:85-88 | The slice holds as many empty strings as there are declared trailers, followed by every declared name exactly once |
| Proxy.RelayAnnouncesTrailers | proxy.go:85-89 | Every trailer name the upstream declared is among the comma-separated elements of the last `Trailer` value the client receives |
| Proxy.RelayOmitsUndeclared | proxy.go:85-105 | A trailer that arrives undeclared is added to the writer's header after the body, yet its name is not among the elements of the announcement |
| Proxy.RelayedHeaderSanitized | proxy.go:75-82 | A hop-by-hop or `Connection`-listed upstream header other than `Trailer` does not reach the client; every other one arrives after what the writer already held |
| Proxy.TrailerAnnouncementElements | proxy.go:85-89 | Read back as a list, the announcement is n empty elements followed by the n trailer names |
| Proxy.TrailerAnnouncementOfOne | proxy.go:85-89 | A single trailer `name` is announced as `", " + name` |
| Proxy.IntendedTrailerAnnouncementElements | proxy.go:85-89 | The names joined by `", "` read back as exactly the names |
| Proxy.ForcesTrailersMissesSpacedToken | proxy.go:60-62 | `x + ", trailers"` does not force trailers for any comma-free `x` other than `trailers` |
| Proxy.IntendedForcesTrailersWeaker | proxy.go:60-62 | The trimmed test accepts every `TE` value the written one accepts |
| Proxy.IntendedForcesTrailersElements | proxy.go:60-62 | On elements joined by `", "`, the trimmed test holds iff one element is `trailers` |
| Proxy.IntendedForcesTrailersSpacedToken | proxy.go:60-62 | The trimmed test accepts `x + ", trailers"` |
| Proxy.DeflateThenTrailers | proxy.go:60-62 | `deflate, trailers` is missed by the written test and caught by the trimmed one |
| HttpHeader.AddAll | proxy.go:78-82 | After the copy loop the writer's header is `Merged(old, src)`: each key's old values, then the copied ones, whatever the iteration order |
| HttpHeader.MergedValues | proxy.go:101-105 | The trailer copy appends each trailer's values after those already held under that name |
| HttpMessages.Request.Clone | proxy.go:34 | The clone is fresh, with its own header object, and has the same value as the original |
| HttpMessages.ResponseWriter.WriteHeader | proxy.go:91-96 | Only the first call fixes the status and the header sent; later calls, like the 502 after a failed copy, change nothing |
| HttpMessages.Copy | proxy.go:94-98 | The body is appended; a non-empty body writes 200 first if nothing was written; the read failure is reported |
| GoNet.SplitJoinHostPort | proxy.go:121 | Splitting a joined host and port gives them back, so the client IP of a well-formed remote address is its host part |
| Validate.ValidatePort | validate.go:5-10 | No error iff 0 <= port <= 65535; the error is `<port>: must be in range 0..65535` |
| Validate.ValidatePortBounds | validate.go:6-9 | Every negative port and every port above 65535 is rejected; 0 and 65535 are accepted |
| Validate.PortRangeMessageNamesPort | validate.go:7 | The error message starts with the rejected port in decimal, which parses back to that port |
| MainCmd.FlagStringMap.Set | cmd/gorp/main.go:25-32 | Succeeds iff the input has exactly one colon; then the text before it maps to the text after it, overwriting that key only; otherwise `parse error` and the map is unchanged |
| MainCmd.SetPieces | cmd/gorp/main.go:26-30 | Any colon-free name and value written `name:value` are accepted and stored untrimmed |
| MainCmd.SetAcceptedShape | cmd/gorp/main.go:26-29 | Every accepted input is a colon-free name, a colon and a colon-free value |
| MainCmd.SetEmptyNameAndValue | cmd/gorp/main.go:26-30 | `:` is accepted and maps the empty name to the empty value |
| RootCmd.ValidatorsDisjoint | cmd/gorp/root.go:38-54 | No URL passes both the path-only check and the origin-server check |
| RootCmd.ValidatorExamples | cmd/gorp/root.go:38-54 | A bare path passes only the path check; an `http` URL with a host passes the origin check; a path `/` or the `https` scheme fails it |
| RootCmd.RemoveHopByHopHeaders | cmd/gorp/root.go:56-66 | The header becomes `LegacySanitized` of the old one: static list first, then the names read from `Connection` |
| RootCmd.LegacySanitizedDropsStaticOnly | cmd/gorp/root.go:56-66 | That result is the old header minus the static list and the empty name only |
| RootCmd.LegacyKeepsConnectionListed | cmd/gorp/root.go:56-66 | A non-hop-by-hop header named in `Connection` survives here but not in `proxy.go`'s sanitiser |
| RootCmd.LegacyViaAppends | cmd/gorp/root.go:78 | `Via` keeps every inbound value and gets `proto + " gorp"` as one more value |
| RootCmd.HandleProxyRequest | cmd/gorp/root.go:68-115 | The transport receives `LegacyOutbound`. On error the client gets 502. Otherwise the unsanitised upstream header and one `Trailer` value per declared trailer are kept; the status is 200 if there is a body, else 502 if the copy fails, else unwritten; the body is appended, then the received trailers unless the copy failed |
| RootCmd.AddTrailerNames | cmd/gorp/root.go:95-98 | Every declared trailer name, each once, is appended as its own `Trailer` value |
| RootCmd.LegacyStatusIgnoresUpstream | cmd/gorp/root.go:88-105 | Whatever the upstream status, the client of this handler receives 200 or 502 (a status never written goes out as 200), and 200 whenever the body copy does not fail |
| RootCmd.PortFlagDecimal | cmd/gorp/root.go:144-147 | A 64-bit number in decimal passes the `--port` check iff it is not negative |
| RootCmd.PortFlagUnbounded | cmd/gorp/root.go:144-147 | Every port above 65535 passes the `--port` check, though `ValidatePort` rejects it |

## Left out

- The network round trip is a function parameter. Connection handling, TLS key loading and the listener (`ListenAndServe`, `ListenAndServeTLS`) are not part of this model.
- Command-line parsing (the `flag` and cobra registration, `usage`, `main`, `Execute`, `init`) is not modelled; nor is `validate` in `main.go`, which calls `ValidatePath` and `ValidateUpstream`, whose code is not part of this model.
- `url.Parse` is not modelled. The URL checks take the parsed fields.
- `FlagStringMap.String` (formatting with `fmt`) is not modelled.
- Logging (`log.Print`, `log.Fatal`) is left out.
- `res.Body.Close` is left out.
- The request's `TransferEncoding` and `Trailer` fields are left out. Only the header map, URL, `Host`, remote address, TLS flag and protocol are modelled.
- HttpMessages.Copy: the body is delivered in one piece and a read failure is reported after it. Go's `io.Copy` may fail after any prefix, which the model does not distinguish.
- Proxy.ReverseProxy.ServeHTTP: a panic in `addXForwardedHeaders` is a `None` result with nothing written. What the Go server does afterwards (it closes the connection) is not modelled.
- Proxy.RelayResponse: the model states the header held after the body. Which of those values the server then sends is not modelled: it sends only announced names as trailers. `Proxy.RelayAnnouncesTrailers` shows that every declared name is announced, and `Proxy.RelayOmitsUndeclared` shows that an undeclared trailer is not.
- `AddInHeaders` and `AddOutHeaders`, which `proxy_test.go` and `main.go` pass to `ReverseProxy`, do not exist in the `ReverseProxy` of `proxy.go`, so nothing is modelled for them.
- `proxy_test.go` line 130 expects the response header named in `Connection` to survive. The code removes it (proxy.go:75 with 109-113), and the model follows the code.
- Go's `int` is 64-bit. `ValidatePort` takes an unbounded integer, which gives the same answers for every 64-bit value. `Atoi` enforces the 64-bit range.
- Header values are sequences of characters, not bytes; non-ASCII names are never canonicalised, as in Go.

## Findings

The operations model the code as written. Each corrected definition below is stated and proved beside the code as written.

| source | as written | input that shows it | evidently intended | confidence | as-written member | corrected member |
|---|---|---|---|---|---|---|
| proxy.go:85-89 | `make([]string, len(res.Trailer))` followed by `append` puts one empty element per trailer in front of the names joined into `Trailer` | one declared trailer `Expires`: the client gets `Trailer: , Expires` | `Trailer: Expires`, the names alone (a zero-length slice with that capacity) | medium (empty list elements are to be ignored by recipients under section 7 of RFC 7230); not executed | Proxy.TrailerAnnouncementElements | Proxy.IntendedTrailerAnnouncementElements |
| proxy.go:60-62 | the pieces of `TE` split at commas are compared with `trailers` untrimmed | `TE: deflate, trailers` gives the piece ` trailers`, so `TE: trailers` is not forwarded | compare each trimmed piece | high; not executed | Proxy.ForcesTrailersMissesSpacedToken | Proxy.IntendedForcesTrailersElements |
| cmd/gorp/root.go:56-66 | the static list, which contains `Connection`, is deleted before `Connection` is read | `Connection: close, Remove-Header` with `Remove-Header: test`: `Remove-Header` is forwarded | read `Connection` first, as `proxy.go` does | high; not executed | RootCmd.LegacyKeepsConnectionListed | Proxy.SanitizedRemoves |
| cmd/gorp/root.go:88-105 | the upstream status is never written | upstream 404 with a body: the client receives 200 | relay the upstream status, as `proxy.go` does | high; not executed | RootCmd.LegacyStatusIgnoresUpstream | Proxy.RelayResponse |
| cmd/gorp/root.go:144-147 | the port is only checked to be non-negative | `--port 70000` is accepted | reject ports above 65535, as `ValidatePort` does | high; not executed | RootCmd.PortFlagUnbounded | Validate.ValidatePortBounds |
