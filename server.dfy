/** The HTTP side of the engine (`run_server`): one request at a time, taken
    out of its worker thread. A request is answered from its method, its URL and
    the configuration snapshot; a GET on the stream URL registers a client for
    the duration of the response and reports Started and Ended. */
module StreamingServer {
  import opened Common
  import opened Decimal
  import opened Addresses
  import opened ClientRegistry

  datatype HttpMethod = Get | Head | Post | Other(name: string)

  datatype Request = Request(verb: HttpMethod, url: string, remoteAddr: string)

  datatype Header = Header(field: string, value: string)

  /** No body, or the client's stream sent with an advertised length (none:
      unknown) and the size after which the body is sent chunked. */
  datatype Body = NoBody | Stream(length: Option<nat>, chunkedThreshold: nat)

  datatype Response = Response(status: nat, headers: seq<Header>, body: Body)

  const STREAM_URL := "/stream/swyh.wav"
  const WAVE_CONTENT_TYPE := "audio/vnd.wave;codec=1"
  const L16_PREFIX := "audio/L16;rate="
  const L16_SUFFIX := ";channels=2"
  /** Body size after which the response switches to chunked transfer coding. */
  const CHUNKED_THRESHOLD: nat := 8192

  const SERVER_HEADER := Header("Server", "UPnP/1.0 DLNADOC/1.50 LAB/1.0")
  const ICY_NAME_HEADER := Header("icy-name", "swyh-rs")
  const CONNECTION_HEADER := Header("Connection", "close")
  const TRANSFER_MODE_HEADER := Header("TransferMode.DLNA.ORG", "Streaming")

  /** The media type of the stream: the WAVE container when configured,
      otherwise raw 16-bit PCM (the RFC 2586 `audio/L16` type) at the capture
      rate, always with two channels. */
  function ContentType(useWaveFormat: bool, sampleRate: uint32): (ct: string)
  {
    if useWaveFormat then WAVE_CONTENT_TYPE
    else L16_PREFIX + ToDecimal(sampleRate) + L16_SUFFIX
  }

  /** The sample rate announced by an `audio/L16` content type, if it is one. */
  function L16Rate(ct: string): (r: Option<nat>)
  {
    if |ct| >= |L16_PREFIX| + |L16_SUFFIX|
       && ct[..|L16_PREFIX|] == L16_PREFIX
       && ct[|ct| - |L16_SUFFIX|..] == L16_SUFFIX
    then ParseDecimal(ct[|L16_PREFIX|..|ct| - |L16_SUFFIX|])
    else None
  }

  /** The content type is the WAVE type exactly when the wave flag is set, and
      otherwise announces the capture rate, which reads back unchanged. */
  lemma ContentTypeAnnouncesRate(useWaveFormat: bool, sampleRate: uint32)
    ensures (ContentType(useWaveFormat, sampleRate) == WAVE_CONTENT_TYPE) <==> useWaveFormat
    ensures L16Rate(ContentType(useWaveFormat, sampleRate)) ==
            if useWaveFormat then None else Some(sampleRate)
  {
    if !useWaveFormat {
      var digits := ToDecimal(sampleRate);
      var ct := L16_PREFIX + digits + L16_SUFFIX;
      assert ct[6] == 'L' != WAVE_CONTENT_TYPE[6];
      assert ct[..|L16_PREFIX|] == L16_PREFIX;
      assert ct[|ct| - |L16_SUFFIX|..] == L16_SUFFIX;
      assert ct[|L16_PREFIX|..|ct| - |L16_SUFFIX|] == digits;
      ParseToDecimal(sampleRate);
    }
  }

  /** Transfer policy of a stream response. With chunking disabled a fixed
      length just below usize::MAX is advertised and the chunking threshold is
      above it, so the body is never chunked; otherwise no length is advertised
      and the body is chunked after 8192 bytes (section 4.1 of RFC 7230). */
  function TransferPolicy(disableChunked: bool): (b: Body)
    ensures b.Stream?
    ensures b.length.Some? <==> disableChunked
    ensures b.length.Some? ==> b.length.value < b.chunkedThreshold <= USIZE_MAX
    ensures b.length.Some? ==> b.length.value == USIZE_MAX - 1 && b.chunkedThreshold == USIZE_MAX
    ensures b.length.None? ==> b.chunkedThreshold == CHUNKED_THRESHOLD
  {
    if disableChunked then Stream(Some(USIZE_MAX - 1), USIZE_MAX)
    else Stream(None, CHUNKED_THRESHOLD)
  }

  function Fields(headers: seq<Header>): (names: seq<string>)
    ensures |names| == |headers|
    ensures forall i :: 0 <= i < |headers| ==> names[i] == headers[i].field
  {
    if headers == [] then [] else [headers[0].field] + Fields(headers[1..])
  }

  /** Headers of a GET or HEAD on the stream URL, in the order they are added. */
  function StreamingHeaders(contentType: string): seq<Header> {
    [CONNECTION_HEADER, Header("Content-Type", contentType), TRANSFER_MODE_HEADER,
     SERVER_HEADER, ICY_NAME_HEADER]
  }

  /** Headers of a 404 and of a POST. */
  function MinimalHeaders(): seq<Header> {
    [CONNECTION_HEADER, SERVER_HEADER, ICY_NAME_HEADER]
  }

  lemma StreamingFields(contentType: string)
    ensures Fields(StreamingHeaders(contentType)) ==
            ["Connection", "Content-Type", "TransferMode.DLNA.ORG", "Server", "icy-name"]
  {
  }

  lemma MinimalFields()
    ensures Fields(MinimalHeaders()) == ["Connection", "Server", "icy-name"]
  {
  }

  /** The request that streams: a GET on exactly the stream URL. */
  predicate IsStreamRequest(rq: Request) {
    rq.url == STREAM_URL && rq.verb == Get
  }

  /** What the server answers; None when it answers nothing (a method other
      than GET, HEAD or POST on the stream URL). */
  function ResponseFor(rq: Request, conf: Configuration, wd: WavData): (r: Option<Response>)
    ensures r.None? <==> rq.url == STREAM_URL && rq.verb.Other?
    ensures r.Some? ==> r.value.status == if rq.url == STREAM_URL then 200 else 404
    ensures r.Some? ==> (CONNECTION_HEADER in r.value.headers
                         && SERVER_HEADER in r.value.headers
                         && ICY_NAME_HEADER in r.value.headers)
    ensures r.Some? ==> (r.value.body.Stream? <==> IsStreamRequest(rq))
    ensures r.Some? && rq.url != STREAM_URL ==>
              Fields(r.value.headers) == ["Connection", "Server", "icy-name"]
    ensures r.Some? && rq.url == STREAM_URL && rq.verb == Post ==>
              Fields(r.value.headers) == ["Connection", "Server", "icy-name"]
    ensures r.Some? && rq.url == STREAM_URL && rq.verb in {Get, Head} ==>
              Fields(r.value.headers) ==
                ["Connection", "Content-Type", "TransferMode.DLNA.ORG", "Server", "icy-name"]
              && r.value.headers[1].value == ContentType(conf.useWaveFormat, wd.sampleRate)
              && r.value.headers[2] == TRANSFER_MODE_HEADER
    ensures IsStreamRequest(rq) ==> r.value.body == TransferPolicy(conf.disableChunked)
  {
    if rq.url != STREAM_URL then
      MinimalFields();
      Some(Response(404, MinimalHeaders(), NoBody))
    else
      var ct := ContentType(conf.useWaveFormat, wd.sampleRate);
      MinimalFields();
      StreamingFields(ct);
      match rq.verb
      case Get => Some(Response(200, StreamingHeaders(ct), TransferPolicy(conf.disableChunked)))
      case Head => Some(Response(200, StreamingHeaders(ct), NoBody))
      case Post => Some(Response(200, MinimalHeaders(), NoBody))
      case Other(_) => None
  }

  /** A HEAD probe announces exactly the headers the GET will carry. */
  lemma HeadAnnouncesGetHeaders(url: string, remoteAddr: string, conf: Configuration, wd: WavData)
    requires url == STREAM_URL
    ensures ResponseFor(Request(Head, url, remoteAddr), conf, wd).value.headers ==
            ResponseFor(Request(Get, url, remoteAddr), conf, wd).value.headers
  {
  }

  /** The stream entry a GET registers for its connection. */
  function NewStream(rq: Request, conf: Configuration, wd: WavData): (cs: ChannelStream)
    ensures cs.remoteIp == RemoteIp(rq.remoteAddr) && cs.written == []
    ensures cs.useWaveFormat == conf.useWaveFormat && cs.sampleRate == wd.sampleRate
  {
    ChannelStream(RemoteIp(rq.remoteAddr), conf.useWaveFormat, wd.sampleRate, [])
  }

  /** A feedback event together with the registry as it stood when it was sent. */
  datatype Emission = Emission(event: StreamerFeedback, registry: map<string, ChannelStream>)

  class Server {
    const wd: WavData
    /** The feedback channel: every event sent, in order. */
    var feedback: seq<StreamerFeedback>
    /** Remote addresses whose response ended in a write error, in order (the
        "connection terminated" log lines). */
    var terminated: seq<string>
    /** The same events, each with the registry contents at the moment it was sent. */
    ghost var emissions: seq<Emission>

    ghost predicate Valid()
      reads this
    {
      |emissions| == |feedback|
      && forall i :: 0 <= i < |feedback| ==> emissions[i].event == feedback[i]
    }

    constructor (wd: WavData)
      ensures Valid() && this.wd == wd && feedback == [] && terminated == []
    {
      this.wd := wd;
      feedback := [];
      terminated := [];
      emissions := [];
    }

    /** Handles one request. `respondOk` is the outcome of writing the response
        (for a GET, of streaming the body until the client goes away): a
        failure is only logged, so the registry and the feedback do not depend
        on it. Only a GET on the stream
        URL touches the registry or the feedback channel; it leaves the
        registry as it found it except that its own key is gone, and sends one
        Started, while its entry is registered, then one Ended, after the entry
        is removed. */
    method HandleRequest(registry: Clients, rq: Request, conf: Configuration, respondOk: bool)
      returns (response: Option<Response>)
      requires Valid() && registry.Valid()
      modifies this, registry
      ensures Valid() && registry.Valid()
      ensures response == ResponseFor(rq, conf, wd)
      ensures terminated == old(terminated) + if response.Some? && !respondOk then [rq.remoteAddr] else []
      ensures !IsStreamRequest(rq) ==>
                registry.clients == old(registry.clients) && feedback == old(feedback)
                && emissions == old(emissions)
      ensures IsStreamRequest(rq) ==>
                var ip := RemoteIp(rq.remoteAddr);
                && registry.clients == old(registry.clients) - {rq.remoteAddr}
                && feedback == old(feedback) + [StreamerFeedback(ip, Started), StreamerFeedback(ip, Ended)]
                && emissions == old(emissions) + [
                     Emission(StreamerFeedback(ip, Started), old(registry.clients)[rq.remoteAddr := NewStream(rq, conf, wd)]),
                     Emission(StreamerFeedback(ip, Ended), registry.clients)]
    {
      if rq.url != STREAM_URL {
        response := Some(Response(404, MinimalHeaders(), NoBody));
        LogOutcome(rq.remoteAddr, respondOk);
        return;
      }
      var ct := ContentType(conf.useWaveFormat, wd.sampleRate);
      match rq.verb {
        case Get =>
          response := ServeStream(registry, rq, conf, ct, respondOk);
        case Head =>
          response := Some(Response(200, StreamingHeaders(ct), NoBody));
          LogOutcome(rq.remoteAddr, respondOk);
        case Post =>
          response := Some(Response(200, MinimalHeaders(), NoBody));
          LogOutcome(rq.remoteAddr, respondOk);
        case Other(_) =>
          response := None;
      }
    }

    /** The GET on the stream URL: register the client, report Started,
        stream the body, then unregister the client and report Ended. */
    method ServeStream(registry: Clients, rq: Request, conf: Configuration, ct: string, respondOk: bool)
      returns (response: Option<Response>)
      requires Valid() && registry.Valid()
      modifies this, registry
      ensures Valid() && registry.Valid()
      ensures terminated == old(terminated) + if respondOk then [] else [rq.remoteAddr]
      ensures response == Some(Response(200, StreamingHeaders(ct), TransferPolicy(conf.disableChunked)))
      ensures var ip := RemoteIp(rq.remoteAddr);
                && registry.clients == old(registry.clients) - {rq.remoteAddr}
                && feedback == old(feedback) + [StreamerFeedback(ip, Started), StreamerFeedback(ip, Ended)]
                && emissions == old(emissions) + [
                     Emission(StreamerFeedback(ip, Started), old(registry.clients)[rq.remoteAddr := NewStream(rq, conf, wd)]),
                     Emission(StreamerFeedback(ip, Ended), registry.clients)]
    {
      ghost var ip, before := RemoteIp(rq.remoteAddr), feedback;
      ghost var sentBefore, registered := emissions, old(registry.clients)[rq.remoteAddr := NewStream(rq, conf, wd)];
      Register(registry, rq, conf);
      response := Some(Response(200, StreamingHeaders(ct), TransferPolicy(conf.disableChunked)));
      // the body is streamed here; an error ends the response and is logged
      LogOutcome(rq.remoteAddr, respondOk);
      Unregister(registry, rq);
      assert feedback == before + [StreamerFeedback(ip, Started)] + [StreamerFeedback(ip, Ended)];
      assert emissions == sentBefore + [Emission(StreamerFeedback(ip, Started), registered)]
                                     + [Emission(StreamerFeedback(ip, Ended), registry.clients)];
    }

    /** Registers the connection's stream under its address and reports Started. */
    method Register(registry: Clients, rq: Request, conf: Configuration)
      requires Valid() && registry.Valid()
      modifies this, registry
      ensures Valid() && registry.Valid() && terminated == old(terminated)
      ensures registry.clients == old(registry.clients)[rq.remoteAddr := NewStream(rq, conf, wd)]
      ensures var event := StreamerFeedback(RemoteIp(rq.remoteAddr), Started);
              && feedback == old(feedback) + [event]
              && emissions == old(emissions) + [Emission(event, registry.clients)]
    {
      var _ := registry.Insert(rq.remoteAddr, NewStream(rq, conf, wd));
      Send(StreamerFeedback(RemoteIp(rq.remoteAddr), Started), registry.clients);
    }

    /** Removes whatever the registry holds under the connection's address and
        reports Ended for its host. */
    method Unregister(registry: Clients, rq: Request)
      requires Valid() && registry.Valid()
      modifies this, registry
      ensures Valid() && registry.Valid() && terminated == old(terminated)
      ensures registry.clients == old(registry.clients) - {rq.remoteAddr}
      ensures var event := StreamerFeedback(RemoteIp(rq.remoteAddr), Ended);
              && feedback == old(feedback) + [event]
              && emissions == old(emissions) + [Emission(event, registry.clients)]
    {
      var _ := registry.Remove(rq.remoteAddr);
      Send(StreamerFeedback(RemoteIp(rq.remoteAddr), Ended), registry.clients);
    }

    /** Logs a response that could not be written. */
    method LogOutcome(remoteAddr: string, respondOk: bool)
      modifies this
      ensures feedback == old(feedback) && emissions == old(emissions)
      ensures terminated == old(terminated) + if respondOk then [] else [remoteAddr]
    {
      if !respondOk {
        terminated := terminated + [remoteAddr];
      }
    }

    /** Sends one event on the feedback channel. */
    method Send(event: StreamerFeedback, ghost registry: map<string, ChannelStream>)
      requires Valid()
      modifies this
      ensures Valid()
      ensures feedback == old(feedback) + [event] && terminated == old(terminated)
      ensures emissions == old(emissions) + [Emission(event, registry)]
    {
      feedback := feedback + [event];
      emissions := emissions + [Emission(event, registry)];
    }
  }
}
