/**
 * The stream router `POST /api/stream` and its `GET` alias: it validates the
 * request, reads torrent metadata or estimates the HLS size, and answers with
 * the record that tells the page where to stream from.
 *
 * The collaborators are inputs: what parse-torrent returned for the magnet,
 * the playlist text the fetch returned, and what the dedicated node service
 * answered. The configuration predicate `shouldUseNodeService`, `formatBytes`
 * and the `URL` constructor's acceptance test are parameters.
 */
module StreamRouter {
  import opened Wrappers
  import opened Text
  import HlsEstimate

  datatype Service = NextJs | NodeJs

  /** The JSON record of a successful answer (`StreamResponse`). */
  datatype StreamResponse = StreamResponse(
    service: Service,
    streamUrl: string,
    downloadUrl: Option<string>,
    fileSize: Option<real>,
    fileSizeFormatted: Option<string>,
    fileName: Option<string>,
    message: Option<string>)

  /** An HTTP answer: 200 with the record, or an error status with `{ error, details? }`. */
  datatype Reply =
    | Ok(response: StreamResponse)
    | Failed(status: int, error: string, details: Option<string>)

  /** The JSON body's two fields; absent and `null` are both None. */
  datatype StreamRequest = StreamRequest(magnetUri: Option<string>, m3u8Url: Option<string>)

  /** The body as `request.json()` produced it, or the message it threw. */
  datatype RequestBody = Body(request: StreamRequest) | Unreadable(message: string)

  /** Fields parse-torrent returned (each may be missing). */
  datatype ParsedTorrent = ParsedTorrent(infoHash: Option<string>, name: Option<string>, length: Option<nat>)

  datatype Metadata = Metadata(infoHash: string, name: string, size: nat)

  /** The JSON the node service answered with (`data.id` as the text it interpolates to). */
  datatype NodeData = NodeData(id: string, fileSize: Option<real>, fileSizeFormatted: Option<string>, fileName: Option<string>)

  /** The node service's answer: ok with its JSON, not ok with its status text, or a thrown error. */
  datatype NodeAnswer = NodeOk(data: NodeData) | NodeNotOk(statusText: string) | NodeThrew(message: string)

  /** What the dedicated service is sent (`magnetUri ? { magnetUri } : { m3u8Url }`). */
  datatype NodePayload = MagnetPayload(magnetUri: string) | PlaylistPayload(m3u8Url: Option<string>)

  datatype Config = Config(
    nodeStreamerUrl: string,
    shouldUseNodeService: real -> bool,
    formatBytes: real -> string,
    urlParses: string -> bool)

  /**
   * The collaborators' answers for one request: parse-torrent (None: it threw),
   * the playlist fetch (None: it threw), and the node service's answer to the
   * payload it is sent.
   */
  datatype Collaborators = Collaborators(parsed: Option<ParsedTorrent>, playlist: Option<string>, node: NodePayload -> NodeAnswer)

  const ProcessingFailed: string := "Failed to process stream request"
  const MissingSource: string := "Either magnetUri or m3u8Url is required"
  const BadMagnetFormat: string := "Invalid magnet URI format"
  const BadMagnet: string := "Invalid magnet URI"
  const BadPlaylistUrl: string := "Invalid m3u8 URL format"
  const NoValidSource: string := "No valid stream source provided"
  const MagnetPrefix: string := "magnet:?"

  /** JavaScript truthiness of an optional string. */
  predicate Truthy(o: Option<string>) {
    o.Some? && o.value != []
  }

  /** `getTorrentMetadata`: defaults for missing fields, and 'Invalid magnet URI' when parsing threw. */
  function GetTorrentMetadata(parsed: Option<ParsedTorrent>): (r: Result<Metadata>)
    ensures parsed.None? <==> r == Failure(BadMagnet)
    ensures r.Success? ==> r.value.name != []
  {
    match parsed
    case None => Failure(BadMagnet)
    case Some(p) =>
      Success(Metadata(
        p.infoHash.GetOr(""),
        if Truthy(p.name) then p.name.value else "Unknown",
        p.length.GetOr(0)))
  }

  /** Relay URL of the first file of a torrent. */
  function RelayStreamUrl(infoHash: string): string {
    "/api/relay/stream/" + infoHash + "/0"
  }

  function RelayDownloadUrl(infoHash: string): string {
    "/api/relay/download/" + infoHash
  }

  /** `handleViaNextjs`: the record pointing at the in-process relay. */
  function HandleViaNextjs(cfg: Config, infoHash: string, name: string, size: nat): (r: StreamResponse)
    ensures r.service == NextJs
    ensures r.fileSize == Some(size as real) && r.fileName == Some(name)
  {
    StreamResponse(
      NextJs,
      RelayStreamUrl(infoHash),
      Some(RelayDownloadUrl(infoHash)),
      Some(size as real),
      Some(cfg.formatBytes(size as real)),
      Some(name),
      Some("Small file - handled by Next.js"))
  }

  /** The body `forwardToNodeService` posts: the magnet link when it is truthy, else the playlist URL. */
  function ForwardPayload(magnetUri: Option<string>, m3u8Url: Option<string>): NodePayload {
    if Truthy(magnetUri) then MagnetPayload(magnetUri.value) else PlaylistPayload(m3u8Url)
  }

  /** `forwardToNodeService` after the POST: the record pointing at the dedicated service, or the error it throws. */
  function ForwardToNodeService(cfg: Config, answer: NodeAnswer): (r: Result<StreamResponse>)
    ensures r.Success? <==> answer.NodeOk?
    ensures r.Success? ==>
              && r.value.service == NodeJs
              && r.value.streamUrl == cfg.nodeStreamerUrl + "/api/stream/" + answer.data.id
              && r.value.downloadUrl == Some(cfg.nodeStreamerUrl + "/api/download/" + answer.data.id)
              && r.value.fileSize == answer.data.fileSize
              && r.value.fileSizeFormatted == answer.data.fileSizeFormatted
              && r.value.fileName == answer.data.fileName
              && r.value.message == Some("Large file - routed to dedicated streaming service")
    ensures answer.NodeNotOk? ==> r == Failure("Node service error: " + answer.statusText)
    ensures answer.NodeThrew? ==> r == Failure(answer.message)
  {
    match answer
    case NodeThrew(message) => Failure(message)
    case NodeNotOk(statusText) => Failure("Node service error: " + statusText)
    case NodeOk(data) =>
      Success(StreamResponse(
        NodeJs,
        cfg.nodeStreamerUrl + "/api/stream/" + data.id,
        Some(cfg.nodeStreamerUrl + "/api/download/" + data.id),
        data.fileSize,
        data.fileSizeFormatted,
        data.fileName,
        Some("Large file - routed to dedicated streaming service")))
  }

  /** The magnet branch: prefix check, metadata, and the three-way message. Always the in-process relay. */
  function MagnetBranch(cfg: Config, parsed: Option<ParsedTorrent>, magnetUri: string): (r: Reply)
    ensures !StartsWith(magnetUri, MagnetPrefix) ==> r == Failed(400, BadMagnetFormat, None)
    ensures StartsWith(magnetUri, MagnetPrefix) && parsed.None? ==> r == Failed(500, ProcessingFailed, Some(BadMagnet))
    ensures r.Ok? ==> r.response.service == NextJs
  {
    if !StartsWith(magnetUri, MagnetPrefix) then Failed(400, BadMagnetFormat, None)
    else match GetTorrentMetadata(parsed)
      case Failure(e) => Failed(500, ProcessingFailed, Some(e))
      case Success(md) =>
        var base := HandleViaNextjs(cfg, md.infoHash, md.name, md.size);
        var size := md.size as real;
        if md.size == 0 then Ok(base)
        else if cfg.shouldUseNodeService(size) then
          Ok(base.(message := Some("Large file (" + cfg.formatBytes(size) + ") - using dedicated server-side streaming")))
        else
          Ok(base.(message := Some("Small file (" + cfg.formatBytes(size) + ") - using client-side browser streaming")))
  }

  /** The HLS branch: URL check, size estimate, and the threshold. */
  function HlsBranch(cfg: Config, env: Collaborators, m3u8Url: string): (r: Reply)
    ensures !cfg.urlParses(m3u8Url) ==> r == Failed(400, BadPlaylistUrl, None)
    ensures r.Ok? && r.response.service == NextJs ==> r.response.streamUrl == m3u8Url
  {
    if !cfg.urlParses(m3u8Url) then Failed(400, BadPlaylistUrl, None)
    else
      var estimatedSize := HlsEstimate.EstimateHlsSize(env.playlist);
      if cfg.shouldUseNodeService(estimatedSize) then
        match ForwardToNodeService(cfg, env.node(ForwardPayload(None, Some(m3u8Url))))
        case Failure(e) => Failed(500, ProcessingFailed, Some(e))
        case Success(response) => Ok(response)
      else
        Ok(StreamResponse(
          NextJs,
          m3u8Url,
          None,
          Some(estimatedSize),
          Some(cfg.formatBytes(estimatedSize)),
          None,
          Some("Small HLS stream - handled client-side")))
  }

  /** `POST /api/stream`. */
  function Post(cfg: Config, env: Collaborators, body: RequestBody): (r: Reply)
    ensures body.Unreadable? ==> r == Failed(500, ProcessingFailed, Some(body.message))
    ensures body.Body? && !Truthy(body.request.magnetUri) && !Truthy(body.request.m3u8Url)
      ==> r == Failed(400, MissingSource, None)
    ensures r.Ok? && r.response.service == NodeJs ==> body.Body? && !Truthy(body.request.magnetUri)
  {
    match body
    case Unreadable(message) => Failed(500, ProcessingFailed, Some(message))
    case Body(req) =>
      if !Truthy(req.magnetUri) && !Truthy(req.m3u8Url) then Failed(400, MissingSource, None)
      else if Truthy(req.magnetUri) then MagnetBranch(cfg, env.parsed, req.magnetUri.value)
      else if Truthy(req.m3u8Url) then HlsBranch(cfg, env, req.m3u8Url.value)
      else Failed(400, NoValidSource, None)
  }

  /** `GET /api/stream?magnet=…&m3u8=…`: the query parameters become the POST body. */
  function Get(cfg: Config, env: Collaborators, magnet: Option<string>, m3u8: Option<string>): (r: Reply)
    ensures r == Post(cfg, env, Body(StreamRequest(magnet, m3u8)))
    ensures !Truthy(magnet) && !Truthy(m3u8) ==> r == Failed(400, MissingSource, None)
    ensures Truthy(magnet) ==> r == MagnetBranch(cfg, env.parsed, magnet.value)
    ensures !Truthy(magnet) && Truthy(m3u8) ==> r == HlsBranch(cfg, env, m3u8.value)
  {
    Post(cfg, env, Body(StreamRequest(magnet, m3u8)))
  }

  // ---------------------------------------------------------------------------
  // Properties of the decision tree.

  /** With a magnet, the m3u8 field, the playlist fetch and the node service play no part. */
  lemma MagnetTakesPrecedence(cfg: Config, env: Collaborators, magnet: string, m3u8: Option<string>, playlist: Option<string>, node: NodePayload -> NodeAnswer)
    requires magnet != []
    ensures Post(cfg, env, Body(StreamRequest(Some(magnet), m3u8)))
         == Post(cfg, env.(playlist := playlist, node := node), Body(StreamRequest(Some(magnet), None)))
  {
  }

  /** The metadata defaults: '' for a missing info-hash, 'Unknown' for a missing or empty name, 0 for a missing length. */
  lemma MetadataDefaults(p: ParsedTorrent)
    ensures GetTorrentMetadata(Some(p)) == Success(Metadata(
      if p.infoHash.Some? then p.infoHash.value else "",
      if p.name.Some? && p.name.value != [] then p.name.value else "Unknown",
      if p.length.Some? then p.length.value else 0))
  {
  }

  /**
   * Every accepted magnet is sent to the in-process relay, stream and download
   * URLs built from the info-hash, whatever its size and whatever the threshold.
   */
  lemma MagnetAlwaysRelayed(cfg: Config, env: Collaborators, magnet: string, m3u8: Option<string>)
    requires StartsWith(magnet, MagnetPrefix) && env.parsed.Some?
    ensures var r := Post(cfg, env, Body(StreamRequest(Some(magnet), m3u8)));
      var md := GetTorrentMetadata(env.parsed).value;
      && r.Ok?
      && r.response.service == NextJs
      && r.response.streamUrl == "/api/relay/stream/" + md.infoHash + "/0"
      && r.response.downloadUrl == Some("/api/relay/download/" + md.infoHash)
      && r.response.fileSize == Some(md.size as real)
      && r.response.fileName == Some(md.name)
  {
    assert magnet != [] by { assert |MagnetPrefix| == 8; }
  }

  /** The magnet message: unknown size keeps the default; otherwise the threshold picks 'Large' or 'Small'. */
  lemma MagnetMessage(cfg: Config, env: Collaborators, magnet: string)
    requires StartsWith(magnet, MagnetPrefix) && env.parsed.Some?
    ensures var r := Post(cfg, env, Body(StreamRequest(Some(magnet), None)));
      var size := GetTorrentMetadata(env.parsed).value.size;
      && r.Ok?
      && (size == 0 ==> r.response.message == Some("Small file - handled by Next.js"))
      && (size != 0 && cfg.shouldUseNodeService(size as real) ==>
            r.response.message == Some("Large file (" + cfg.formatBytes(size as real) + ") - using dedicated server-side streaming"))
      && (size != 0 && !cfg.shouldUseNodeService(size as real) ==>
            r.response.message == Some("Small file (" + cfg.formatBytes(size as real) + ") - using client-side browser streaming"))
  {
    assert magnet != [] by { assert |MagnetPrefix| == 8; }
  }

  /**
   * A request for a playlist alone: over the threshold the node service is sent
   * the playlist URL and its answer is relayed (or the request fails with 500);
   * otherwise the URL is streamed as given.
   */
  lemma HlsRouting(cfg: Config, env: Collaborators, url: string)
    requires url != [] && cfg.urlParses(url)
    ensures var r := Post(cfg, env, Body(StreamRequest(None, Some(url))));
      var size := HlsEstimate.EstimateHlsSize(env.playlist);
      var answer := env.node(PlaylistPayload(Some(url)));
      && (cfg.shouldUseNodeService(size) && answer.NodeOk? ==>
            r.Ok? && r.response.service == NodeJs
            && r.response.streamUrl == cfg.nodeStreamerUrl + "/api/stream/" + answer.data.id)
      && (cfg.shouldUseNodeService(size) && !answer.NodeOk? ==> r.Failed? && r.status == 500)
      && (!cfg.shouldUseNodeService(size) ==>
            r.Ok? && r.response.service == NextJs && r.response.streamUrl == url
            && r.response.fileSize == Some(size) && r.response.downloadUrl.None?)
  {
  }

  /** A playlist that cannot be fetched is estimated at 100 MiB rather than failing the request. */
  lemma UnfetchablePlaylistFallsBack(cfg: Config, env: Collaborators, url: string)
    requires url != [] && cfg.urlParses(url) && env.playlist.None?
    requires !cfg.shouldUseNodeService(HlsEstimate.FallbackEstimate)
    ensures Post(cfg, env, Body(StreamRequest(None, Some(url)))).Ok?
    ensures Post(cfg, env, Body(StreamRequest(None, Some(url)))).response.fileSize == Some(104857600.0)
  {
  }

  /** The final 'No valid stream source provided' answer can never be given. */
  lemma NoValidSourceUnreachable(cfg: Config, env: Collaborators, body: RequestBody)
    ensures Post(cfg, env, body) != Failed(400, NoValidSource, None)
  {
    if body.Body? && Truthy(body.request.magnetUri) {
      var r := Post(cfg, env, body);
      assert r == MagnetBranch(cfg, env.parsed, body.request.magnetUri.value);
      assert |BadMagnetFormat| != |NoValidSource|;
    }
  }
}
