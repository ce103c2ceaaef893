/** The HTTP vocabulary the proxy works in: byte strings, header maps,
    inbound and outbound requests, upstream replies and client responses.
    Go's `string` and `[]byte` are both byte sequences, so both become `Bytes`. */
module Http {

  newtype byte = x: int | 0 <= x < 256

  type Bytes = seq<byte>

  /** The bytes of a text constant; every constant of the proxy is ASCII. */
  function Ascii(s: string): Bytes
  {
    seq(|s|, i requires 0 <= i < |s| => (s[i] as int % 256) as byte)
  }

  /** A header map as in Go's `http.Header`: canonical name to its values. */
  type Header = map<Bytes, seq<Bytes>>

  /** `Header.Get`: the first value stored under `name`, or the empty string. */
  function Get(h: Header, name: Bytes): (v: Bytes)
    ensures name !in h ==> v == []
    ensures name in h && |h[name]| > 0 ==> v == h[name][0]
    ensures name in h && |h[name]| == 0 ==> v == []
  {
    if name in h && |h[name]| > 0 then h[name][0] else []
  }

  /** `Header.Set`: `name` now holds the single value `v`; every other entry is kept. */
  function Set(h: Header, name: Bytes, v: Bytes): (r: Header)
    ensures name in r && r[name] == [v] && Get(r, name) == v
    ensures forall other :: other != name ==> (other in r <==> other in h)
    ensures forall other :: other != name && other in h ==> r[other] == h[other]
  {
    h[name := [v]]
  }

  /** What was read from a body: the bytes delivered before the read stopped,
      and whether it stopped at the end of the body rather than on an error. */
  datatype Body = Body(bytes: Bytes, complete: bool)

  /** An inbound request as the HTTP server hands it to the handler; `verb` is the HTTP method.
      `path` is the decoded URL path, `rawQuery` the undecoded query text. */
  datatype Request = Request(verb: Bytes, path: Bytes, rawQuery: Bytes, header: Header, body: Body)

  /** A request the proxy sends upstream; `url` is the text handed to the request constructor. */
  datatype Outbound = Outbound(verb: Bytes, url: Bytes, header: Header, body: Bytes)

  /** The upstream's answer to one outbound request: either the client call failed,
      or a status line and headers arrived followed by a body. */
  datatype UpstreamReply =
    | Unreachable(reason: Bytes)
    | Reply(status: int, header: Header, body: Body)

  /** What the handler writes to its response writer: status, headers and body bytes. */
  datatype Response = Response(status: int, header: Header, body: Bytes)

  const MethodGet: Bytes := Ascii("GET")
  const MethodPost: Bytes := Ascii("POST")

  const StatusOK: int := 200
  const StatusForbidden: int := 403
  const StatusInternalServerError: int := 500

  const ContentType: Bytes := Ascii("Content-Type")
  const ContentLength: Bytes := Ascii("Content-Length")
  const ContentDisposition: Bytes := Ascii("Content-Disposition")
  const ContentTypeOptions: Bytes := Ascii("X-Content-Type-Options")

  const PlainText: Bytes := Ascii("text/plain; charset=utf-8")
  const NoSniff: Bytes := Ascii("nosniff")
  const Newline: byte := 10

  /** `http.Error(w, text, code)` on a fresh response writer: a plain-text
      response whose body is the message followed by a newline. */
  function ErrorResponse(code: int, text: Bytes): (r: Response)
    ensures r.status == code
    ensures Get(r.header, ContentType) == PlainText
    ensures |r.body| == |text| + 1 && r.body[..|text|] == text && r.body[|text|] == Newline
  {
    Response(code, map[ContentType := [PlainText], ContentTypeOptions := [NoSniff]], text + [Newline])
  }

  /** The message an error response carries, without its trailing newline. */
  function ErrorText(r: Response): Bytes
  {
    if |r.body| == 0 then [] else r.body[..|r.body| - 1]
  }

  lemma ErrorTextRoundTrip(code: int, text: Bytes)
    ensures ErrorText(ErrorResponse(code, text)) == text
  {
  }
}
