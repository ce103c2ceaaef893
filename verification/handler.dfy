/** `logRequestAndForward`: the handler every inbound request goes through.
    `Dispatch` takes every decision the handler makes before the upstream is
    contacted; `Serve` adds the upstream call and the relay of its reply. */
module Handler {
  import opened Wrappers
  import opened Http
  import Policy
  import Classifier
  import Forwarder

  /** The collaborators whose code is not part of this model.
      `decode` is the JSON decoding of a body into the JSON-RPC envelope: the
      method name when decoding succeeds (`""` when the field is absent), `None`
      when it fails. `urlError` is the URL check of the request constructor: the
      reason when it rejects a URL text. `upstream` is the client call together
      with the reading of the reply body. */
  datatype Env = Env(
    decode: Bytes -> Option<Bytes>,
    urlError: Bytes -> Option<Bytes>,
    upstream: Outbound -> UpstreamReply)

  /** The handler's decision before any upstream contact: answer locally, or send
      one outbound request whose reply is relayed buffered or as a download. */
  datatype Disposition =
    | Respond(response: Response)
    | ForwardBuffered(out: Outbound)
    | ForwardDownload(out: Outbound, path: Bytes)

  const Forbidden: Response := ErrorResponse(StatusForbidden, Ascii("Method not allowed"))
  const UnreadableBody: Response := ErrorResponse(StatusInternalServerError, Ascii("Unable to read request body"))
  const DownloadRequestFailed: Response :=
    ErrorResponse(StatusInternalServerError, Ascii("Failed to create file download request"))

  /** True when the body decodes as a JSON-RPC envelope naming a method the policy rejects. */
  predicate Rejected(config: Policy.Config, decode: Bytes -> Option<Bytes>, body: Bytes)
  {
    decode(body).Some? && !Policy.IsMethodAllowed(decode(body).value, config)
  }

  function Dispatch(config: Policy.Config, decode: Bytes -> Option<Bytes>, urlError: Bytes -> Option<Bytes>,
                    req: Request): (d: Disposition)
    ensures Classifier.IsFileDownload(req.path) ==>
      d.ForwardDownload? || d == Respond(DownloadRequestFailed)
    ensures d.ForwardDownload? ==>
      && Classifier.IsFileDownload(req.path)
      && d.path == req.path
      && Some(d.out) == Forwarder.DownloadRequest(req, urlError)
    ensures d == Respond(Forbidden) <==>
      && !Classifier.IsFileDownload(req.path)
      && req.body.complete
      && Rejected(config, decode, req.body.bytes)
    ensures d.ForwardBuffered? ==>
      && !Classifier.IsFileDownload(req.path)
      && req.body.complete
      && !Rejected(config, decode, req.body.bytes)
      && Success(d.out) == Forwarder.ForwardRequest(req, req.body.bytes, urlError)
    ensures Classifier.IsFileDownload(req.path) && Forwarder.DownloadRequest(req, urlError).Some? ==>
      d == ForwardDownload(Forwarder.DownloadRequest(req, urlError).value, req.path)
    ensures !Classifier.IsFileDownload(req.path) && !req.body.complete ==>
      d == Respond(UnreadableBody)
    ensures !Classifier.IsFileDownload(req.path) && req.body.complete && !Rejected(config, decode, req.body.bytes) ==>
      d == BufferedDisposition(Forwarder.ForwardRequest(req, req.body.bytes, urlError))
  {
    if Classifier.IsFileDownload(req.path) then
      match Forwarder.DownloadRequest(req, urlError)
      case None => Respond(DownloadRequestFailed)
      case Some(out) => ForwardDownload(out, req.path)
    else if !req.body.complete then
      Respond(UnreadableBody)
    else if Rejected(config, decode, req.body.bytes) then
      Respond(Forbidden)
    else
      BufferedDisposition(Forwarder.ForwardRequest(req, req.body.bytes, urlError))
  }

  /** Lines 114-117: a request the forwarder cannot build is answered 500
      `Failed to forward request: <reason>`; a built one is sent. */
  function BufferedDisposition(built: Result<Outbound, Bytes>): (d: Disposition)
    ensures built.Success? ==> d == ForwardBuffered(built.value)
    ensures built.Failure? ==>
      d == Respond(ErrorResponse(StatusInternalServerError, Forwarder.ForwardFailedPrefix + built.error))
  {
    match built
    case Failure(reason) => Respond(ErrorResponse(StatusInternalServerError, Forwarder.ForwardFailedPrefix + reason))
    case Success(out) => ForwardBuffered(out)
  }

  /** The response the handler writes, case by case as `logRequestAndForward`
      and `handleFileDownload` decide it. */
  function Serve(config: Policy.Config, env: Env, req: Request): (resp: Response)
    ensures Classifier.IsFileDownload(req.path) ==>
      resp == match Forwarder.DownloadRequest(req, env.urlError)
              case None => DownloadRequestFailed
              case Some(out) => Forwarder.RelayDownload(req.path, env.upstream(out))
    ensures !Classifier.IsFileDownload(req.path) && !req.body.complete ==> resp == UnreadableBody
    ensures !Classifier.IsFileDownload(req.path) && req.body.complete && Rejected(config, env.decode, req.body.bytes) ==>
      resp == Forbidden
    ensures !Classifier.IsFileDownload(req.path) && req.body.complete && !Rejected(config, env.decode, req.body.bytes) ==>
      resp == match Forwarder.ForwardRequest(req, req.body.bytes, env.urlError)
              case Failure(reason) =>
                ErrorResponse(StatusInternalServerError, Forwarder.ForwardFailedPrefix + reason)
              case Success(out) => Forwarder.RelayBuffered(env.upstream(out))
  {
    match Dispatch(config, env.decode, env.urlError, req)
    case Respond(response) => response
    case ForwardBuffered(out) => Forwarder.RelayBuffered(env.upstream(out))
    case ForwardDownload(out, path) => Forwarder.RelayDownload(path, env.upstream(out))
  }

  /** A download-shaped path is decided by its path and headers alone: the
      policy, the decoder, the inbound method, the query and the body (readable
      or not, RPC-shaped or not) change nothing. */
  lemma DownloadIgnoresBodyAndPolicy(c1: Policy.Config, c2: Policy.Config,
                                     d1: Bytes -> Option<Bytes>, d2: Bytes -> Option<Bytes>,
                                     urlError: Bytes -> Option<Bytes>, req: Request,
                                     verb: Bytes, rawQuery: Bytes, body: Body)
    requires Classifier.IsFileDownload(req.path)
    ensures Dispatch(c1, d1, urlError, req)
         == Dispatch(c2, d2, urlError, req.(verb := verb, rawQuery := rawQuery, body := body))
    ensures Dispatch(c1, d1, urlError, req) != Respond(Forbidden)
  {
  }

  /** A body that does not decode is forwarded without consulting the policy:
      any two configurations lead to the same decision, and a readable body is
      sent upstream whenever the forwarder can build the request. */
  lemma UndecodedBodySkipsPolicy(c1: Policy.Config, c2: Policy.Config, decode: Bytes -> Option<Bytes>,
                                 urlError: Bytes -> Option<Bytes>, req: Request)
    requires !Classifier.IsFileDownload(req.path)
    requires decode(req.body.bytes).None?
    ensures Dispatch(c1, decode, urlError, req) == Dispatch(c2, decode, urlError, req)
    ensures req.body.complete && Forwarder.ForwardRequest(req, req.body.bytes, urlError).Success? ==>
      Dispatch(c1, decode, urlError, req)
        == ForwardBuffered(Forwarder.ForwardRequest(req, req.body.bytes, urlError).value)
  {
  }

  /** A method other than GET or POST on an ordinary path with a readable,
      non-rejected body is answered 500 and never reaches the upstream. */
  lemma UnsupportedVerbIsInternalError(config: Policy.Config, env: Env, req: Request)
    requires !Classifier.IsFileDownload(req.path) && req.body.complete
    requires !Rejected(config, env.decode, req.body.bytes)
    requires req.verb != MethodPost && req.verb != MethodGet
    ensures Serve(config, env, req)
         == ErrorResponse(StatusInternalServerError,
                          Forwarder.ForwardFailedPrefix + Forwarder.UnsupportedMethodPrefix + req.verb)
  {
  }

  /** The policy check has no effect on an admitted call: it is forwarded exactly
      as the same request with an undecodable body would be. */
  lemma AdmittedCallForwardsAsOpaque(config: Policy.Config, decode: Bytes -> Option<Bytes>,
                                     urlError: Bytes -> Option<Bytes>, req: Request)
    requires decode(req.body.bytes).Some?
    requires Policy.IsMethodAllowed(decode(req.body.bytes).value, config)
    ensures Dispatch(config, decode, urlError, req)
         == Dispatch(config, (_: Bytes) => None, urlError, req)
  {
  }

  /** Whenever the handler answers locally (a rejection, an unreadable body, a
      request that cannot be built) the upstream is never contacted: the
      response is the same whatever the upstream would have replied. */
  lemma LocalAnswerNeverContactsUpstream(config: Policy.Config, env: Env, req: Request,
                                         other: Outbound -> UpstreamReply)
    requires Dispatch(config, env.decode, env.urlError, req).Respond?
    ensures Serve(config, env, req) == Serve(config, env.(upstream := other), req)
    ensures Serve(config, env, req) == Dispatch(config, env.decode, env.urlError, req).response
  {
  }

  /** A rejected JSON-RPC call is answered 403 `Method not allowed` whatever the upstream. */
  lemma RejectedCallIsForbidden(config: Policy.Config, env: Env, req: Request)
    requires !Classifier.IsFileDownload(req.path) && req.body.complete
    requires Rejected(config, env.decode, req.body.bytes)
    ensures Serve(config, env, req) == Forbidden
    ensures Serve(config, env, req).status == StatusForbidden
    ensures ErrorText(Serve(config, env, req)) == Ascii("Method not allowed")
  {
  }

  /** End to end on the buffered path: an admitted or undecodable POST reaches
      the upstream base URL with its body and headers unchanged, and the
      upstream's status and body come back verbatim as JSON. */
  lemma BufferedPostRoundTrip(config: Policy.Config, env: Env, req: Request, status: int,
                              header: Header, reply: Bytes)
    requires !Classifier.IsFileDownload(req.path) && req.body.complete
    requires !Rejected(config, env.decode, req.body.bytes)
    requires req.verb == MethodPost && env.urlError(Forwarder.UpstreamBase).None?
    requires env.upstream(Outbound(MethodPost, Forwarder.UpstreamBase, req.header, req.body.bytes))
          == Reply(status, header, Body(reply, true))
    ensures Serve(config, env, req) == Response(status, map[ContentType := [Forwarder.Json]], reply)
  {
  }

  /** End to end on the buffered path for GET: the upstream receives a GET of
      base + `?` + raw query with the inbound headers and no body, whatever the
      inbound path, and its status and body come back verbatim as JSON. */
  lemma BufferedGetRoundTrip(config: Policy.Config, env: Env, req: Request, status: int,
                             header: Header, reply: Bytes)
    requires !Classifier.IsFileDownload(req.path) && req.body.complete
    requires !Rejected(config, env.decode, req.body.bytes)
    requires req.verb == MethodGet && env.urlError(Forwarder.GetUrl(req.rawQuery)).None?
    requires env.upstream(Outbound(MethodGet, Forwarder.GetUrl(req.rawQuery), req.header, []))
          == Reply(status, header, Body(reply, true))
    ensures Serve(config, env, req) == Response(status, map[ContentType := [Forwarder.Json]], reply)
  {
  }

  /** End to end on the download path: the client gets the upstream's bytes
      unchanged under a `Content-Disposition` naming the requested path. */
  lemma DownloadRoundTrip(config: Policy.Config, env: Env, req: Request, header: Header, payload: Body)
    requires Classifier.IsFileDownload(req.path)
    requires env.urlError(Forwarder.UpstreamBase + req.path).None?
    requires env.upstream(Forwarder.DownloadRequest(req, env.urlError).value) == Reply(StatusOK, header, payload)
    ensures Serve(config, env, req).status == StatusOK
    ensures Serve(config, env, req).body == payload.bytes
    ensures Get(Serve(config, env, req).header, ContentDisposition) == Forwarder.AttachmentPrefix + req.path
  {
  }
}
