# Filtering snapshot proxy: request disposition model

A Dafny model of the request-handling core of a reverse proxy that sits in front of a
snapshot and JSON-RPC service (upstream `http://localhost:8899`). Every inbound request
goes through one handler, which does the following:

1. It classifies the request by URL path. `/genesis.tar.bz2`, and any path starting with
   `/snapshot-` or `/incremental-snapshot`, is a **file download**. This is decided
   before the body is read.
2. A download is forwarded upstream and the reply is streamed back with a
   `Content-Disposition` header. Snapshot paths use a POST handshake with no body and
   forced `Content-Type`/`Content-Length`. The genesis file uses a plain GET.
3. For any other request, the handler reads the body and tries to decode it as a JSON-RPC
   envelope. If that works, it checks the method name against a **policy**: the
   blacklist first, then the whitelist, and a name on neither list is rejected. A
   rejected call gets `403 Method not allowed`. A body that does not decode skips the
   check.
4. The request is then forwarded buffered. POST sends the body to the upstream base URL.
   GET sends only `?` plus the raw query. Any other method is a 500. The upstream status
   and body come back verbatim as `application/json`.

Modules follow the components of `main.go`:

- `Http` covers byte strings, header maps (`Get`/`Set` as in Go's `http.Header`),
  requests, replies and responses. It also holds `ErrorResponse`, the plain-text
  response `http.Error` writes: `text/plain; charset=utf-8`, `nosniff`, and the message
  plus a newline.
- `Policy` is `isMethodAllowed`.
- `Classifier` is the path tests of lines 82 and 144.
- `Forwarder` has the request builders of `forwardToSnapshotProxy` and
  `handleFileDownload`, and the two response shapers.
- `Handler` is `logRequestAndForward`: `Dispatch` holds every decision taken before the
  upstream is contacted, and `Serve` adds the upstream reply.
- `Scenarios` runs concrete requests through the model.

Go strings and byte slices are both modelled as `Bytes = seq<byte>`. Three collaborators
whose code is not part of this model are taken as function parameters:

- the JSON decoder: `Some(method)` when decoding succeeds, `None` when it fails;
- the URL check inside `http.NewRequest`: `Some(reason)` when it rejects a URL;
- the upstream client call: `Unreachable(reason)` or `Reply(status, header, body)`.

Every body read is a `Body(bytes, complete)` value: the bytes delivered and whether the
read ended cleanly.

Two behaviours of `main.go` worth knowing:

- A non-200 download reply is relayed as `Proxy error: ` + upstream body + newline, not
  as the bare upstream body.
- Transport and construction errors on the buffered path become 500
  `Failed to forward request: <reason>`.
- The policy lists are sequences scanned in order. Order and duplicates are proved
  irrelevant (`Policy.DecisionDependsOnlyOnNames`).

One consequence is worth knowing: the policy only sees bodies the decoder accepts. A
body that fails to decode skips the check entirely (`Handler.UndecodedBodySkipsPolicy`).
This includes a JSON-RPC batch (a JSON array) and an envelope whose `method` is not a
string. Such a body reaches the upstream even when it names blacklisted methods.

## Model

| member | source | states |
|---|---|---|
| Policy.Listed | main.go:60-72 | The scan of one list is true exactly when some entry equals the name; equality is exact byte equality, so matching is case-sensitive. |
| Policy.IsMethodAllowed | main.go:58-77 | A blacklisted name is rejected even when it is also whitelisted; a whitelisted, non-blacklisted name is admitted; a name on neither list is rejected (default deny). |
| Policy.DecisionDependsOnlyOnNames | main.go:58-77 | Two configurations whose lists hold the same names decide every method alike: order and repetition of entries do not matter. |
| Policy.WideningTheWhitelistOnlyAdmits | main.go:68-72 | Appending names to the whitelist never turns an admitted method into a rejected one. |
| Policy.WideningTheBlacklistOnlyRejects | main.go:60-65 | Appending names to the blacklist never turns a rejected method into an admitted one. |
| Classifier.FamiliesDisjoint | main.go:82 | No path is both the genesis file and a snapshot path, nor both a snapshot and an incremental-snapshot path. |
| Classifier.KindOf | main.go:82 | The download family is Genesis exactly for `/genesis.tar.bz2`, Snapshot exactly for paths starting `/snapshot-`, IncrementalSnapshot exactly for paths starting `/incremental-snapshot`, and none otherwise. |
| Classifier.IsFileDownload | main.go:82 | The dispatcher's download test holds exactly for the paths that belong to one of the three download families. |
| Classifier.IsSnapshotPath | main.go:144 | The download handler's POST test holds exactly for the snapshot and incremental-snapshot families. |
| Classifier.ClassificationAgrees | main.go:144 | The download test of the dispatcher and the POST test of the download handler agree with the family: a download that is not a snapshot is exactly the genesis file. |
| Http.Get | main.go:183-185 | Reading a header gives its first value, and the empty string when the name is absent or holds no values. |
| Http.ErrorResponse | main.go:178 | An error reply carries the given status, a plain-text content type, and the message followed by a newline. |
| Http.Set | main.go:161-162 | Setting a header leaves exactly one value under that name and every other header untouched. |
| Forwarder.ForwardRequest | main.go:32-51 | POST goes to the base URL with the original body; GET goes to base + `?` + raw query with no body, even for an empty query; both carry the inbound method and exactly the inbound headers; a rejected URL gives the wrapped construction error; any other method fails with `unsupported HTTP method: <method>`. |
| Forwarder.WithHeader | main.go:46-51 | A construction error comes back wrapped as `failed to create forward request: <reason>`; a built request keeps its method, URL and body and takes exactly the given headers. |
| Forwarder.ForwardDropsPath | main.go:39-42 | The inbound path never reaches the buffered outbound request. |
| Forwarder.ForwardIsLossless | main.go:39-51 | Equal outbound requests come from equal inbound method and headers, equal POST bodies and equal GET queries: nothing the forward keeps is lost. |
| Forwarder.DownloadRequest | main.go:138-163 | The URL is base + inbound path with no body; snapshot paths use POST where `Content-Type` holds exactly `application/octet-stream` and `Content-Length` exactly `0`, over a copy of the inbound headers with every other header unchanged; the genesis path uses GET with the inbound headers as they are; a rejected URL yields no request. |
| Forwarder.DownloadIgnoresVerbQueryAndBody | main.go:144-163 | The download request depends only on the path and headers, not on the inbound method, query or body. |
| Forwarder.RelayBuffered | main.go:114-134 | A fully read reply is relayed with the upstream status, `Content-Type: application/json` as the only header and the body verbatim; an unreachable upstream gives exactly the error response 500 `Failed to forward request: <reason>`; a reply body read error gives exactly the error response 500 `Failed to read proxy response`. |
| Forwarder.RelayDownload | main.go:165-189 | On 200 the handler writes status 200 and exactly three headers, each with a single value: the upstream's `Content-Type` and `Content-Length` and `Content-Disposition: attachment; filename=<path>`, plus the body bytes unchanged. A non-200 status is relayed as exactly the error response with that status and text `Proxy error: ` + upstream body. An unreachable upstream gives exactly the error response 500 `Failed to download file`. |
| Forwarder.ProxyErrorRecoversUpstreamBody | main.go:175-179 | The upstream error body can be read back from the relayed error response. |
| Handler.Dispatch | main.go:80-118 | Download paths only ever yield a download forward (or the 500 of an unbuildable request); the answer is 403 `Method not allowed` exactly when the path is not a download, the body was read, it decodes and the policy rejects its method; an unreadable body on an ordinary path is answered 500 `Unable to read request body`; a readable, non-rejected body is forwarded whenever the forwarder builds the request, and otherwise answered 500 with the forwarder's error; a buildable download is always forwarded. |
| Handler.BufferedDisposition | main.go:114-117 | A built request is sent; a build failure becomes 500 `Failed to forward request: <reason>`. |
| Handler.Serve | main.go:80-193 | The written response is, per case: the download relay of the upstream's reply (or 500 when the download request cannot be built); 500 for an unreadable body; 403 for a rejected call; otherwise the buffered relay of the upstream's reply, or 500 with the forwarder's error. The lemmas below state its end-to-end consequences. |
| Handler.DownloadIgnoresBodyAndPolicy | main.go:82-86 | For a download path the decision is the same under any policy, any decoder, and any inbound method, query or body, and it is never a rejection. |
| Handler.UndecodedBodySkipsPolicy | main.go:99-114 | A body that does not decode gets no policy check: any two configurations give the same decision. When the body was read and the forwarder can build the request (any GET or POST whose URL is accepted), that request is sent upstream. |
| Handler.UnsupportedVerbIsInternalError | main.go:39-47 | A method other than GET or POST on an ordinary path is answered 500 `Failed to forward request: unsupported HTTP method: <method>`, whatever the upstream. |
| Handler.AdmittedCallForwardsAsOpaque | main.go:106-114 | An admitted call is forwarded exactly as the same request with an undecodable body would be. |
| Handler.LocalAnswerNeverContactsUpstream | main.go:89-118 | When the handler answers locally (rejection, unreadable body, unbuildable request) the response does not depend on the upstream at all. |
| Handler.RejectedCallIsForbidden | main.go:106-110 | A rejected call is answered 403 with the text `Method not allowed`, whatever the upstream. |
| Handler.BufferedPostRoundTrip | main.go:113-134 | An admitted or undecodable POST reaches the upstream base URL with its headers and body unchanged, and the upstream's status and body come back verbatim as JSON. |
| Handler.BufferedGetRoundTrip | main.go:41-42 | An admitted or undecodable GET reaches the upstream as a GET of base + `?` + raw query, with the inbound headers and no body, and the reply comes back verbatim as JSON. |
| Handler.DownloadRoundTrip | main.go:182-189 | A download whose upstream answers 200 is written with status 200, the payload bytes unchanged and an attachment header naming the requested path. |
| Scenarios.AdmittedCallIsRelayed | main.go:101-134 | With whitelist `[getHealth]`, a `getHealth` call is forwarded with its body and its reply relayed as JSON. |
| Scenarios.UnlistedCallIsForbidden | main.go:106-110 | With the same policy a `getSlot` call, on neither list, is answered 403 `Method not allowed`. |
| Scenarios.GenesisIsFetchedWithGet | main.go:148-159 | GET `/genesis.tar.bz2` becomes a GET of base + the same path with the inbound headers and no body. |
| Scenarios.GenesisIsStreamed | main.go:182-189 | A 200 reply for `/genesis.tar.bz2` with `Content-Length: 500` reaches the client with status 200, its 500 bytes unchanged and `Content-Disposition: attachment; filename=/genesis.tar.bz2`. |
| Scenarios.SnapshotUsesPostHandshake | main.go:144-163 | `/snapshot-100-abc.tar.zst` becomes a POST with no body, octet-stream content type and zero length, other headers unchanged. |
| Scenarios.MalformedBodyIsForwarded | main.go:99-114 | A malformed body on an ordinary path goes upstream unchanged under any policy. |
| Scenarios.SnapshotPathOverridesRpcBody | main.go:82-86 | `/snapshot-123` carrying a call to a blacklisted method is still a download. |

## Left out

- Network I/O: `client.Do`, the streaming `io.Copy`, and failures while writing to the
  client are not modelled. The upstream reply is an input value, so streaming and
  buffering both come down to relaying the same byte sequence. On the download path the
  client receives whatever bytes were read. A read error after the headers were sent is
  only logged by the source, so it has no modelled effect.
- JSON decoding of the request body and of `config.json` happens in a foreign library.
  The body decoder is a parameter. `loadConfig`, `setupServer`, `handleShutdown` and
  `main` (lines 196-265) are process plumbing. The configuration is taken as given.
- URL parsing inside `http.NewRequest` is reduced to accept-or-reject with a reason.
  The outbound URL is recorded as the text handed to the constructor. Any re-escaping
  net/url applies to it is not modelled.
- Logging (lines 62, 75, 83, 97, 104, 129, 147, 168, 177, 191) has no effect on outcomes.
- Header aliasing is modelled as value copy. Line 51 shares the inbound map and line 159
  clones it, and both are a copy here.
- Header-name canonicalisation: all header names are taken as already canonical, as Go's
  server delivers inbound names.
- Headers the Go server or transport adds or drops on the wire (`Date`, the computed
  length of a buffered reply, the transport writing `Content-Length` from the body
  length) are not modelled. Neither are Go's panics on status codes outside 100-999:
  upstream statuses are taken as they arrive.
- Repeating a request gives an identical outcome because `Handler.Serve` is a pure
  function of its inputs. No lemma states this.
- Bodies the Go server suppresses: `Response` is what the handler writes, not what reaches the client. For a HEAD request, and for statuses 1xx, 204 and 304, the server drops every body write. A `HEAD /genesis.tar.bz2` is still fetched with GET (line 150) and copied (line 189), but the client receives no bytes. An upstream 304 relayed at line 178 likewise arrives without its `Proxy error: ` text. `Handler.DownloadRoundTrip`, `Handler.DownloadIgnoresBodyAndPolicy` and `Forwarder.ProxyErrorRecoversUpstreamBody` speak of the bytes written.
- Handler.DownloadRoundTrip: states the bytes written, which a HEAD client does not receive, because the server's body suppression is transport behaviour outside the handler.
- Forwarder.ProxyErrorRecoversUpstreamBody: states the error text written, which the server drops for an upstream 1xx, 204 or 304 status, for the same reason.
- No timeout and no retry: each forward is exactly one call of the upstream parameter.
