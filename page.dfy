/**
 * The home page: it posts the submitted input to `/api/stream`, keeps the
 * active stream, the loading flag and the error message, and chooses the
 * player from the routing answer.
 */
module Page {
  import opened Wrappers
  import opened Text
  import StreamRouter
  import InputForm

  /** 500 * 1024 * 1024 bytes: above this a relayed torrent is played through the server. */
  const LargeFileThreshold: real := 524288000.0
  const DefaultStreamFailure: string := "Failed to process stream"

  /** `activeStream`: the submitted text, the routed stream URL, the kind, and the routing answer. */
  datatype ActiveStream = ActiveStream(
    originalUrl: string,
    streamUrl: string,
    kind: InputForm.InputKind,
    streamInfo: StreamRouter.StreamResponse)

  /** What the `fetch` of `/api/stream` produced: the route's answer, or the error it threw. */
  datatype ApiOutcome = Answered(reply: StreamRouter.Reply) | FetchThrew(message: string)

  /** The player component mounted, with the text it is given. */
  datatype Player =
    | TorrentPlayerBackend(magnet: string)
    | TorrentPlayer(magnet: string)
    | HlsPlayer(m3u8Url: string)
  {
    function Source(): string {
      match this
      case TorrentPlayerBackend(m) => m
      case TorrentPlayer(m) => m
      case HlsPlayer(u) => u
    }
  }

  /** What the page shows. */
  datatype View =
    | InputFormView
    | Spinner
    | StreamView(player: Player, downloadUrl: Option<string>, error: Option<string>)

  /** The JSON body sent to `/api/stream`: the text under the field its kind names; the other is left out. */
  function RequestFor(url: string, kind: InputForm.InputKind): StreamRouter.StreamRequest {
    match kind
    case Magnet => StreamRouter.StreamRequest(Some(url), None)
    case Hls => StreamRouter.StreamRequest(None, Some(url))
  }

  /** The submission's outcome: the new active stream, or the message `handleSubmit` stores. */
  function SubmitResult(url: string, kind: InputForm.InputKind, outcome: ApiOutcome): (r: Result<ActiveStream>)
    ensures r.Success? <==> outcome.Answered? && outcome.reply.Ok?
    ensures r.Success? ==> r.value.originalUrl == url && r.value.kind == kind && r.value.streamInfo == outcome.reply.response
    ensures r.Success? ==> r.value.streamUrl == outcome.reply.response.streamUrl
    ensures outcome.FetchThrew? ==> r == Failure(outcome.message)
    ensures outcome.Answered? && outcome.reply.Failed? ==>
      r == Failure(if outcome.reply.error != [] then outcome.reply.error else DefaultStreamFailure)
  {
    match outcome
    case FetchThrew(message) => Failure(message)
    case Answered(Failed(_, error, _)) => Failure(if error != [] then error else DefaultStreamFailure)
    case Answered(Ok(info)) => Success(ActiveStream(url, info.streamUrl, kind, info))
  }

  /** The server-side player is used for a relayed torrent whose size is truthy and over 500 MiB. */
  predicate UseBackendPlayer(info: StreamRouter.StreamResponse) {
    info.service == StreamRouter.NextJs && info.fileSize.Some? && info.fileSize.value != 0.0
    && info.fileSize.value > LargeFileThreshold
  }

  /** The player for an active stream; every player gets the text the user submitted, not the routed URL. */
  function ChoosePlayer(a: ActiveStream): (p: Player)
    ensures p.Source() == a.originalUrl
    ensures p.HlsPlayer? <==> a.kind == InputForm.Hls
  {
    match a.kind
    case Hls => HlsPlayer(a.originalUrl)
    case Magnet =>
      if UseBackendPlayer(a.streamInfo) then TorrentPlayerBackend(a.originalUrl) else TorrentPlayer(a.originalUrl)
  }

  /** The page's state. */
  class Home {
    var activeStream: Option<ActiveStream>
    var loading: bool
    var error: string

    constructor ()
      ensures activeStream.None? && !loading && error == []
    {
      activeStream := None;
      loading := false;
      error := [];
    }

    /** What is rendered: the form or the spinner without a stream, the player panel with one. */
    function Screen(): View
      reads this
    {
      match activeStream
      case None => if loading then Spinner else InputFormView
      case Some(a) =>
        StreamView(
          ChoosePlayer(a),
          if StreamRouter.Truthy(a.streamInfo.downloadUrl) then a.streamInfo.downloadUrl else None,
          if error != [] then Some(error) else None)
    }

    /** `handleSubmit` before the request: clears the error and shows the spinner. */
    method BeginSubmit()
      modifies this
      ensures error == [] && loading && activeStream == old(activeStream)
    {
      error := [];
      loading := true;
    }

    /** `handleSubmit` after the request, including its `finally`. */
    method FinishSubmit(url: string, kind: InputForm.InputKind, outcome: ApiOutcome)
      modifies this
      ensures !loading
      ensures match SubmitResult(url, kind, outcome)
        case Success(a) => activeStream == Some(a) && error == old(error)
        case Failure(message) => activeStream == old(activeStream) && error == message
    {
      match SubmitResult(url, kind, outcome) {
        case Success(a) => activeStream := Some(a);
        case Failure(message) => error := message;
      }
      loading := false;
    }

    /** `handleError`, the callback every player reports through. */
    method HandleError(message: string)
      modifies this
      ensures error == message && activeStream == old(activeStream) && loading == old(loading)
    {
      error := message;
    }

    /** `handleReset`, the 'Back to Input' button. */
    method HandleReset()
      modifies this
      ensures activeStream.None? && error == [] && loading == old(loading)
    {
      activeStream := None;
      error := [];
    }
  }

  // ---------------------------------------------------------------------------
  // The page and the routing API together.

  /** A failed route answer always carries a non-empty `error`, so the page's fallback text is never used. */
  lemma RouteErrorsAreNonEmpty(cfg: StreamRouter.Config, env: StreamRouter.Collaborators, body: StreamRouter.RequestBody)
    requires StreamRouter.Post(cfg, env, body).Failed?
    ensures StreamRouter.Post(cfg, env, body).error != []
  {
    var e := StreamRouter.Post(cfg, env, body).error;
    assert e in {StreamRouter.ProcessingFailed, StreamRouter.MissingSource, StreamRouter.BadMagnetFormat,
                 StreamRouter.BadPlaylistUrl, StreamRouter.NoValidSource};
  }

  /** A submitted input is routed by the branch its kind names and is never 'required' missing. */
  lemma SubmissionTakesItsBranch(cfg: StreamRouter.Config, env: StreamRouter.Collaborators, url: string, kind: InputForm.InputKind)
    requires url != []
    ensures var r := StreamRouter.Post(cfg, env, StreamRouter.Body(RequestFor(url, kind)));
      && (kind == InputForm.Magnet ==> r == StreamRouter.MagnetBranch(cfg, env.parsed, url))
      && (kind == InputForm.Hls ==> r == StreamRouter.HlsBranch(cfg, env, url))
  {
  }

  /**
   * For a magnet link the form accepted and the API routed, the page picks the
   * server-side player exactly when the torrent is over 500 MiB, whatever the
   * configured threshold said; a torrent of unknown size plays in the browser.
   */
  lemma BackendPlayerIffOver500MiB(cfg: StreamRouter.Config, env: StreamRouter.Collaborators, url: string)
    requires InputForm.ValidateInput(url, cfg.urlParses) == Some(InputForm.Magnet) && env.parsed.Some?
    ensures var outcome := Answered(StreamRouter.Post(cfg, env, StreamRouter.Body(RequestFor(url, InputForm.Magnet))));
      var size := StreamRouter.GetTorrentMetadata(env.parsed).value.size;
      && SubmitResult(url, InputForm.Magnet, outcome).Success?
      && var p := ChoosePlayer(SubmitResult(url, InputForm.Magnet, outcome).value);
      && (p.TorrentPlayerBackend? <==> size as real > LargeFileThreshold)
      && (p.TorrentPlayer? <==> size as real <= LargeFileThreshold)
  {
    StreamRouter.MagnetAlwaysRelayed(cfg, env, url, None);
  }

  /** A submitted playlist always mounts the HLS player on the submitted URL, even when the API routed it to the node service. */
  lemma PlaylistAlwaysHlsPlayer(cfg: StreamRouter.Config, env: StreamRouter.Collaborators, url: string)
    requires InputForm.ValidateInput(url, cfg.urlParses) == Some(InputForm.Hls)
    requires StreamRouter.Post(cfg, env, StreamRouter.Body(RequestFor(url, InputForm.Hls))).Ok?
    ensures var outcome := Answered(StreamRouter.Post(cfg, env, StreamRouter.Body(RequestFor(url, InputForm.Hls))));
      ChoosePlayer(SubmitResult(url, InputForm.Hls, outcome).value) == HlsPlayer(url)
  {
  }

  /**
   * A failed first submission leaves the page on the input form, which has no
   * place for the page's error: the message is stored but not shown.
   */
  method FailedSubmissionIsNotShown(url: string, kind: InputForm.InputKind, message: string) returns (home: Home)
    requires message != []
    ensures home.error == message && home.Screen() == InputFormView
  {
    home := new Home();
    home.BeginSubmit();
    home.FinishSubmit(url, kind, FetchThrew(message));
  }
}
