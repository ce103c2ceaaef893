/** Building the outbound request for each path and shaping the reply the
    client receives. The client call itself is not here: the upstream's reply
    arrives as a value. */
module Forwarder {
  import opened Wrappers
  import opened Http
  import Classifier

  const UpstreamBase: Bytes := Ascii("http://localhost:8899")
  const QueryMark: byte := 63

  const Json: Bytes := Ascii("application/json")
  const OctetStream: Bytes := Ascii("application/octet-stream")
  const ZeroLength: Bytes := Ascii("0")
  const AttachmentPrefix: Bytes := Ascii("attachment; filename=")

  const UnsupportedMethodPrefix: Bytes := Ascii("unsupported HTTP method: ")
  const CreateRequestFailedPrefix: Bytes := Ascii("failed to create forward request: ")
  const ForwardFailedPrefix: Bytes := Ascii("Failed to forward request: ")
  const ProxyErrorPrefix: Bytes := Ascii("Proxy error: ")
  const ReadReplyFailed: Bytes := Ascii("Failed to read proxy response")
  const DownloadFailed: Bytes := Ascii("Failed to download file")

  /** `http.NewRequest`: fails with the reason `urlError` gives when the URL text
      is rejected; otherwise a request with an empty header map. */
  function NewRequest(verb: Bytes, url: Bytes, body: Bytes, urlError: Bytes -> Option<Bytes>): Result<Outbound, Bytes>
  {
    match urlError(url)
    case Some(reason) => Failure(reason)
    case None => Success(Outbound(verb, url, map[], body))
  }

  /** The URL a buffered GET goes to: the upstream base, a `?`, and the raw query. */
  function GetUrl(rawQuery: Bytes): Bytes
  {
    UpstreamBase + [QueryMark] + rawQuery
  }

  /** `forwardToSnapshotProxy` up to the client call. */
  function ForwardRequest(req: Request, body: Bytes, urlError: Bytes -> Option<Bytes>): (r: Result<Outbound, Bytes>)
    ensures r.Success? ==> r.value.verb == req.verb && r.value.header == req.header
    ensures req.verb == MethodPost ==>
      && (r.Success? <==> urlError(UpstreamBase).None?)
      && (r.Success? ==> r.value.url == UpstreamBase && r.value.body == body)
    ensures req.verb == MethodGet ==>
      && (r.Success? <==> urlError(GetUrl(req.rawQuery)).None?)
      && (r.Success? ==> r.value.url == GetUrl(req.rawQuery) && r.value.body == [])
    ensures r.Failure? && (req.verb == MethodPost || req.verb == MethodGet) ==>
      r.error == CreateRequestFailedPrefix + urlError(if req.verb == MethodPost then UpstreamBase else GetUrl(req.rawQuery)).value
    ensures req.verb != MethodPost && req.verb != MethodGet ==>
      r == Failure(UnsupportedMethodPrefix + req.verb)
  {
    if req.verb == MethodPost then WithHeader(NewRequest(req.verb, UpstreamBase, body, urlError), req.header)
    else if req.verb == MethodGet then WithHeader(NewRequest(req.verb, GetUrl(req.rawQuery), [], urlError), req.header)
    else Failure(UnsupportedMethodPrefix + req.verb)
  }

  /** The tail of `forwardToSnapshotProxy` before the call: a construction error is
      wrapped, otherwise the inbound headers replace the new request's headers. */
  function WithHeader(built: Result<Outbound, Bytes>, header: Header): (r: Result<Outbound, Bytes>)
    ensures r.Success? <==> built.Success?
    ensures r.Success? ==> r.value.header == header
    ensures r.Success? ==> r.value.verb == built.value.verb && r.value.url == built.value.url
                           && r.value.body == built.value.body
    ensures r.Failure? ==> r.error == CreateRequestFailedPrefix + built.error
  {
    match built
    case Failure(reason) => Failure(CreateRequestFailedPrefix + reason)
    case Success(out) => Success(out.(header := header))
  }

  /** The buffered forward drops the inbound path: requests that differ only
      in their path are forwarded identically. */
  lemma ForwardDropsPath(req: Request, path: Bytes, body: Bytes, urlError: Bytes -> Option<Bytes>)
    ensures ForwardRequest(req.(path := path), body, urlError) == ForwardRequest(req, body, urlError)
  {
  }

  /** Nothing the buffered forward keeps is lost: from the outbound request one
      can read back the inbound method and headers, the body of a POST and the
      raw query of a GET, even when that query is empty. */
  lemma {:induction false} ForwardIsLossless(r1: Request, b1: Bytes, r2: Request, b2: Bytes, urlError: Bytes -> Option<Bytes>)
    requires ForwardRequest(r1, b1, urlError).Success? && ForwardRequest(r2, b2, urlError).Success?
    requires ForwardRequest(r1, b1, urlError).value == ForwardRequest(r2, b2, urlError).value
    ensures r1.verb == r2.verb && r1.header == r2.header
    ensures r1.verb == MethodPost ==> b1 == b2
    ensures r1.verb == MethodGet ==> r1.rawQuery == r2.rawQuery
  {
    if r1.verb == MethodGet {
      var n := |UpstreamBase| + 1;
      assert GetUrl(r1.rawQuery)[n..] == r1.rawQuery;
      assert GetUrl(r2.rawQuery)[n..] == r2.rawQuery;
    }
  }

  /** `handleFileDownload` up to the client call. Snapshot paths become a POST
      with no body and two forced headers; the genesis file (and any other path
      handed here) becomes a plain GET. */
  function DownloadRequest(req: Request, urlError: Bytes -> Option<Bytes>): (r: Option<Outbound>)
    ensures r.Some? <==> urlError(UpstreamBase + req.path).None?
    ensures r.Some? ==> r.value.url == UpstreamBase + req.path && r.value.body == []
    ensures r.Some? ==> (r.value.verb == MethodPost <==> Classifier.IsSnapshotPath(req.path))
    ensures r.Some? ==> (r.value.verb == MethodGet <==> !Classifier.IsSnapshotPath(req.path))
    ensures r.Some? && !Classifier.IsSnapshotPath(req.path) ==> r.value.header == req.header
    ensures r.Some? && Classifier.IsSnapshotPath(req.path) ==>
      && ContentType in r.value.header && r.value.header[ContentType] == [OctetStream]
      && ContentLength in r.value.header && r.value.header[ContentLength] == [ZeroLength]
      && (forall name :: name != ContentType && name != ContentLength ==>
            (name in r.value.header <==> name in req.header))
      && (forall name :: name != ContentType && name != ContentLength && name in req.header ==>
            r.value.header[name] == req.header[name])
  {
    var snapshot := Classifier.IsSnapshotPath(req.path);
    var built := NewRequest(if snapshot then MethodPost else MethodGet, UpstreamBase + req.path, [], urlError);
    match built
    case Failure(_) => None
    case Success(out) =>
      var header := if snapshot then Set(Set(req.header, ContentType, OctetStream), ContentLength, ZeroLength)
                    else req.header;
      Some(out.(header := header))
  }

  /** A download request is built from the path and headers alone: the inbound
      method, query and body play no part. */
  lemma DownloadIgnoresVerbQueryAndBody(req: Request, verb: Bytes, rawQuery: Bytes, body: Body, urlError: Bytes -> Option<Bytes>)
    ensures DownloadRequest(req.(verb := verb, rawQuery := rawQuery, body := body), urlError) == DownloadRequest(req, urlError)
  {
  }

  /** What the client receives on the buffered path once the upstream call was made. */
  function RelayBuffered(reply: UpstreamReply): (resp: Response)
    ensures reply.Reply? && reply.body.complete ==>
      && resp.status == reply.status
      && resp.header == map[ContentType := [Json]]
      && resp.body == reply.body.bytes
    ensures reply.Reply? && !reply.body.complete ==>
      resp == ErrorResponse(StatusInternalServerError, ReadReplyFailed)
    ensures reply.Unreachable? ==>
      resp == ErrorResponse(StatusInternalServerError, ForwardFailedPrefix + reply.reason)
  {
    match reply
    case Unreachable(reason) => ErrorResponse(StatusInternalServerError, ForwardFailedPrefix + reason)
    case Reply(status, _, body) =>
      if !body.complete then ErrorResponse(StatusInternalServerError, ReadReplyFailed)
      else Response(status, map[ContentType := [Json]], body.bytes)
  }

  /** What the client receives on the download path once the upstream call was made. */
  function RelayDownload(path: Bytes, reply: UpstreamReply): (resp: Response)
    ensures reply.Reply? && reply.status == StatusOK ==>
      && resp.status == StatusOK
      && resp.header.Keys == {ContentType, ContentDisposition, ContentLength}
      && resp.header[ContentType] == [Get(reply.header, ContentType)]
      && resp.header[ContentLength] == [Get(reply.header, ContentLength)]
      && resp.header[ContentDisposition] == [AttachmentPrefix + path]
      && resp.body == reply.body.bytes
    ensures reply.Reply? && reply.status != StatusOK ==>
      resp == ErrorResponse(reply.status, ProxyErrorPrefix + reply.body.bytes)
    ensures reply.Unreachable? ==>
      resp == ErrorResponse(StatusInternalServerError, DownloadFailed)
  {
    match reply
    case Unreachable(_) => ErrorResponse(StatusInternalServerError, DownloadFailed)
    case Reply(status, header, body) =>
      if status != StatusOK then ErrorResponse(status, ProxyErrorPrefix + body.bytes)
      else
        var h := map[ContentType := [Get(header, ContentType)]];
        var h := Set(h, ContentDisposition, AttachmentPrefix + path);
        var h := Set(h, ContentLength, Get(header, ContentLength));
        Response(status, h, body.bytes)
  }

  /** The exact response a 200 download reply produces. */
  lemma RelayDownloadOk(path: Bytes, header: Header, body: Body)
    ensures RelayDownload(path, Reply(StatusOK, header, body))
         == Response(StatusOK,
                     map[ContentType := [Get(header, ContentType)],
                         ContentDisposition := [AttachmentPrefix + path],
                         ContentLength := [Get(header, ContentLength)]],
                     body.bytes)
  {
  }

  /** An upstream error body is relayed inside the client's error response and can
      be read back from it: the inverse of the shaping applied to a non-200 reply. */
  lemma ProxyErrorRecoversUpstreamBody(path: Bytes, reply: UpstreamReply)
    requires reply.Reply? && reply.status != StatusOK
    ensures ErrorText(RelayDownload(path, reply))[|ProxyErrorPrefix|..] == reply.body.bytes
  {
  }
}
