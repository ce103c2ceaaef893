/** Concrete requests run through the model: an admitted call, a rejected call,
    a genesis download, a snapshot download, an undecodable body, and a
    snapshot path carrying a call the policy would reject. */
module Scenarios {
  import opened Wrappers
  import opened Http
  import Policy
  import Classifier
  import Forwarder
  import Handler

  const HealthOnly: Policy.Config := Policy.Config([Ascii("getHealth")], [])
  const JsonHeader: Header := map[ContentType := [Forwarder.Json]]

  function RpcCall(name: string): Bytes
  {
    Ascii("{\"jsonrpc\":\"2.0\",\"id\":1,\"method\":\"") + Ascii(name) + Ascii("\",\"params\":[]}")
  }

  function PostRoot(body: Bytes): Request
  {
    Request(MethodPost, Ascii("/"), [], JsonHeader, Body(body, true))
  }

  /** A whitelisted call is forwarded with its body and relayed as JSON. */
  lemma AdmittedCallIsRelayed(env: Handler.Env, status: int, header: Header, reply: Bytes)
    requires env.decode(RpcCall("getHealth")) == Some(Ascii("getHealth"))
    requires env.urlError(Forwarder.UpstreamBase).None?
    requires env.upstream(Outbound(MethodPost, Forwarder.UpstreamBase, JsonHeader, RpcCall("getHealth")))
          == Reply(status, header, Body(reply, true))
    ensures Handler.Serve(HealthOnly, env, PostRoot(RpcCall("getHealth"))) == Response(status, JsonHeader, reply)
  {
    var req := PostRoot(RpcCall("getHealth"));
    assert !Classifier.IsFileDownload(req.path);
    assert Policy.IsMethodAllowed(Ascii("getHealth"), HealthOnly) by {
      assert HealthOnly.whitelisted[0] == Ascii("getHealth");
    }
    Handler.BufferedPostRoundTrip(HealthOnly, env, req, status, header, reply);
  }

  /** A call on neither list is refused with 403 and never forwarded. */
  lemma UnlistedCallIsForbidden(env: Handler.Env)
    requires env.decode(RpcCall("getSlot")) == Some(Ascii("getSlot"))
    ensures Handler.Serve(HealthOnly, env, PostRoot(RpcCall("getSlot"))).status == StatusForbidden
    ensures ErrorText(Handler.Serve(HealthOnly, env, PostRoot(RpcCall("getSlot")))) == Ascii("Method not allowed")
  {
    var req := PostRoot(RpcCall("getSlot"));
    assert !Classifier.IsFileDownload(req.path);
    assert Ascii("getSlot") != Ascii("getHealth") by {
      assert |Ascii("getSlot")| != |Ascii("getHealth")|;
    }
    Handler.RejectedCallIsForbidden(HealthOnly, env, req);
  }

  /** The genesis archive is fetched with a GET of the same path, headers as they came. */
  lemma GenesisIsFetchedWithGet(config: Policy.Config, env: Handler.Env, header: Header)
    requires env.urlError(Forwarder.UpstreamBase + Classifier.GenesisPath).None?
    ensures Handler.Dispatch(config, env.decode, env.urlError,
                             Request(MethodGet, Classifier.GenesisPath, [], header, Body([], true)))
         == Handler.ForwardDownload(Outbound(MethodGet, Forwarder.UpstreamBase + Classifier.GenesisPath, header, []),
                                    Classifier.GenesisPath)
  {
    Classifier.FamiliesDisjoint(Classifier.GenesisPath);
  }

  /** A 200 reply for the genesis archive reaches the client byte for byte under an attachment header. */
  lemma GenesisIsStreamed(env: Handler.Env, data: Bytes)
    requires |data| == 500
    requires env.urlError(Forwarder.UpstreamBase + Classifier.GenesisPath).None?
    requires env.upstream(Outbound(MethodGet, Forwarder.UpstreamBase + Classifier.GenesisPath, map[], []))
          == Reply(StatusOK, map[ContentLength := [Ascii("500")], ContentType := [Forwarder.OctetStream]], Body(data, true))
    ensures Handler.Serve(Policy.Config([], []), env, Request(MethodGet, Classifier.GenesisPath, [], map[], Body([], true)))
         == Response(StatusOK,
                     map[ContentType := [Forwarder.OctetStream],
                         ContentDisposition := [Ascii("attachment; filename=/genesis.tar.bz2")],
                         ContentLength := [Ascii("500")]],
                     data)
  {
    var upstreamHeader := map[ContentLength := [Ascii("500")], ContentType := [Forwarder.OctetStream]];
    GenesisIsFetchedWithGet(Policy.Config([], []), env, map[]);
    Forwarder.RelayDownloadOk(Classifier.GenesisPath, upstreamHeader, Body(data, true));
    GenesisAttachment();
  }

  lemma GenesisAttachment()
    ensures Forwarder.AttachmentPrefix + Classifier.GenesisPath == Ascii("attachment; filename=/genesis.tar.bz2")
  {
  }

  /** A snapshot is fetched with a POST carrying no body, an octet-stream
      content type and a zero content length; other headers go along unchanged. */
  lemma SnapshotUsesPostHandshake(urlError: Bytes -> Option<Bytes>, header: Header)
    requires urlError(Forwarder.UpstreamBase + Ascii("/snapshot-100-abc.tar.zst")).None?
    ensures Forwarder.DownloadRequest(
              Request(MethodPost, Ascii("/snapshot-100-abc.tar.zst"), [], header, Body([], true)), urlError)
         == Some(Outbound(MethodPost, Forwarder.UpstreamBase + Ascii("/snapshot-100-abc.tar.zst"),
                          header[ContentType := [Forwarder.OctetStream]][ContentLength := [Forwarder.ZeroLength]],
                          []))
  {
    var path := Ascii("/snapshot-100-abc.tar.zst");
    assert Classifier.SnapshotPrefix <= path by {
      assert path[..|Classifier.SnapshotPrefix|] == Classifier.SnapshotPrefix;
    }
  }

  /** A body the decoder rejects goes upstream as it came, under any policy. */
  lemma MalformedBodyIsForwarded(config: Policy.Config, decode: Bytes -> Option<Bytes>,
                                 urlError: Bytes -> Option<Bytes>)
    requires decode(Ascii("{not json")).None?
    requires urlError(Forwarder.UpstreamBase).None?
    ensures Handler.Dispatch(config, decode, urlError, PostRoot(Ascii("{not json")))
         == Handler.ForwardBuffered(Outbound(MethodPost, Forwarder.UpstreamBase, JsonHeader, Ascii("{not json")))
  {
    assert !Classifier.IsFileDownload(Ascii("/"));
  }

  /** A snapshot path wins over a body naming a blocked method: the request is
      a download and the policy is never asked. */
  lemma SnapshotPathOverridesRpcBody(decode: Bytes -> Option<Bytes>, urlError: Bytes -> Option<Bytes>)
    requires decode(RpcCall("getSlot")) == Some(Ascii("getSlot"))
    requires urlError(Forwarder.UpstreamBase + Ascii("/snapshot-123")).None?
    ensures Handler.Dispatch(Policy.Config([], [Ascii("getSlot")]), decode, urlError,
                             Request(MethodPost, Ascii("/snapshot-123"), [], map[], Body(RpcCall("getSlot"), true))).ForwardDownload?
  {
    var path := Ascii("/snapshot-123");
    assert Classifier.SnapshotPrefix <= path by {
      assert path[..|Classifier.SnapshotPrefix|] == Classifier.SnapshotPrefix;
    }
  }
}
