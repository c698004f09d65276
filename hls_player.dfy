/**
 * The HLS player component: native playback or an hls.js instance, the
 * fatal-error recovery table, and the quality-level state.
 *
 * hls.js is opaque: an `Instance` records what the component asked of it, and
 * its events are method calls carrying the event data. Whether the `<video>`
 * element exists when the effect looks it up is a parameter; the render rule
 * that decides it is `VideoElement.RenderedAsWritten`.
 */
module HlsPlayer {
  import opened Wrappers
  import VideoElement

  const VideoNotReady: string := "Video element not ready"
  const NotSupported: string := "HLS is not supported in this browser"
  const NetworkErrorMessage: string := "Network error loading HLS stream"
  const MediaErrorMessage: string := "Media error in HLS stream"
  const FatalErrorMessage: string := "Fatal error loading HLS stream"
  const InitFailedPrefix: string := "Failed to initialize HLS: "

  /** The quality index meaning automatic level selection (the 'Auto' button). */
  const AutoLevel: int := -1

  /** A level as hls.js reports it in `MANIFEST_PARSED`. */
  datatype Level = Level(height: int, bitrate: int)

  /** A quality button: the level's height and bitrate and its position. */
  datatype QualityLevel = QualityLevel(height: int, bitrate: int, index: nat)

  /** `data.type` of an `ERROR` event. */
  datatype ErrorType = NetworkError | MediaError | OtherError(name: string)

  /** What the component asks of hls.js after a fatal error. */
  datatype Recovery = StartLoad | RecoverMediaError | Destroy

  /** The `switch` on the fatal error's type: the message reported and the recovery asked for. */
  function FatalRecovery(t: ErrorType): (r: (string, Recovery))
    ensures t.NetworkError? <==> r.1 == StartLoad
    ensures t.MediaError? <==> r.1 == RecoverMediaError
    ensures t.OtherError? <==> r.1 == Destroy
    ensures r.0 == match r.1
      case StartLoad => NetworkErrorMessage
      case RecoverMediaError => MediaErrorMessage
      case Destroy => FatalErrorMessage
  {
    match t
    case NetworkError => (NetworkErrorMessage, StartLoad)
    case MediaError => (MediaErrorMessage, RecoverMediaError)
    case OtherError(_) => (FatalErrorMessage, Destroy)
  }

  /** `data.levels.map((level, index) => ({ height, bitrate, index }))`, numbering from `start`. */
  function QualitiesFrom(levels: seq<Level>, start: nat): (r: seq<QualityLevel>)
    ensures |r| == |levels|
    ensures forall i :: 0 <= i < |levels| ==> r[i] == QualityLevel(levels[i].height, levels[i].bitrate, start + i)
  {
    if levels == [] then []
    else [QualityLevel(levels[0].height, levels[0].bitrate, start)] + QualitiesFrom(levels[1..], start + 1)
  }

  /** The quality list keeps the level order, and button i selects level i. */
  function QualityList(levels: seq<Level>): (r: seq<QualityLevel>)
    ensures |r| == |levels|
    ensures forall i :: 0 <= i < |r| ==> r[i].index == i && r[i].height == levels[i].height && r[i].bitrate == levels[i].bitrate
  {
    QualitiesFrom(levels, 0)
  }

  /** An hls.js instance, as far as the component drives it. */
  class Instance {
    const source: string
    var currentLevel: int
    var loadRestarts: nat
    var mediaRecoveries: nat
    var destroyed: bool

    /** `new Hls(...)`, `loadSource(url)` and `attachMedia(video)`. */
    constructor (source: string)
      ensures this.source == source && currentLevel == AutoLevel
      ensures loadRestarts == 0 && mediaRecoveries == 0 && !destroyed
    {
      this.source := source;
      currentLevel := AutoLevel;
      loadRestarts := 0;
      mediaRecoveries := 0;
      destroyed := false;
    }

    method Apply(recovery: Recovery)
      modifies this
      ensures currentLevel == old(currentLevel)
      ensures loadRestarts == old(loadRestarts) + (if recovery == StartLoad then 1 else 0)
      ensures mediaRecoveries == old(mediaRecoveries) + (if recovery == RecoverMediaError then 1 else 0)
      ensures destroyed == (old(destroyed) || recovery == Destroy)
    {
      match recovery {
        case StartLoad => loadRestarts := loadRestarts + 1;
        case RecoverMediaError => mediaRecoveries := mediaRecoveries + 1;
        case Destroy => destroyed := true;
      }
    }
  }

  /** The component's state, its refs, and the messages it passed to `onError`. */
  class Player {
    const m3u8Url: string
    var mounted: bool
    var loading: bool
    var qualities: seq<QualityLevel>
    var currentQuality: int
    var videoSrc: Option<string>
    var hls: Instance?
    var reported: seq<string>

    constructor (m3u8Url: string)
      ensures this.m3u8Url == m3u8Url && mounted && loading
      ensures qualities == [] && currentQuality == AutoLevel && videoSrc.None? && hls == null && reported == []
    {
      this.m3u8Url := m3u8Url;
      mounted := true;
      loading := true;
      qualities := [];
      currentQuality := AutoLevel;
      videoSrc := None;
      hls := null;
      reported := [];
    }

    /**
     * `initHls` after its delay. `videoPresent` is whether `videoRef.current` is
     * set, `native` the `canPlayType` answer, `importError` what the try block
     * threw before the instance was stored (the import, `Hls.isSupported`,
     * `new Hls`, `loadSource`, `attachMedia`, `hls.on`), and `supported` the
     * `Hls.isSupported()` answer.
     */
    method Init(videoPresent: bool, native: bool, importError: Option<string>, supported: bool)
      requires hls == null
      modifies this
      ensures mounted == old(mounted) && qualities == old(qualities) && currentQuality == old(currentQuality)
      ensures !videoPresent ==>
        && reported == old(reported) + [VideoNotReady]
        && loading == old(loading) && videoSrc == old(videoSrc) && hls == null
      ensures videoPresent && native ==> videoSrc == Some(m3u8Url) && !loading && hls == null && reported == old(reported)
      ensures videoPresent && !native && importError.Some? ==>
        && hls == null && videoSrc == old(videoSrc)
        && (old(mounted) ==> reported == old(reported) + [InitFailedPrefix + importError.value] && !loading)
        && (!old(mounted) ==> reported == old(reported) && loading == old(loading))
      ensures videoPresent && !native && importError.None? && !supported ==>
        && reported == old(reported) + [NotSupported] && !loading && hls == null && videoSrc == old(videoSrc)
      ensures videoPresent && !native && importError.None? && supported ==>
        && reported == old(reported) && loading == old(loading) && videoSrc == old(videoSrc)
        && (old(mounted) ==> hls != null && fresh(hls) && hls.source == m3u8Url && hls.currentLevel == AutoLevel && !hls.destroyed)
        && (!old(mounted) ==> hls == null)
    {
      if !videoPresent {
        reported := reported + [VideoNotReady];
        return;
      }
      if native {
        videoSrc := Some(m3u8Url);
        loading := false;
        return;
      }
      if importError.Some? {
        if mounted {
          reported := reported + [InitFailedPrefix + importError.value];
          loading := false;
        }
        return;
      }
      if !supported {
        reported := reported + [NotSupported];
        loading := false;
        return;
      }
      if !mounted {
        return;
      }
      hls := new Instance(m3u8Url);
    }

    /** `MANIFEST_PARSED`: loading ends; with more than one level, the quality buttons appear. */
    method OnManifestParsed(levels: seq<Level>)
      requires hls != null
      modifies this
      ensures hls == old(hls) && mounted == old(mounted) && videoSrc == old(videoSrc) && reported == old(reported)
      ensures !mounted ==> loading == old(loading) && qualities == old(qualities) && currentQuality == old(currentQuality)
      ensures mounted ==> !loading
      ensures mounted && |levels| > 1 ==> qualities == QualityList(levels) && currentQuality == hls.currentLevel
      ensures mounted && |levels| <= 1 ==> qualities == old(qualities) && currentQuality == old(currentQuality)
    {
      if !mounted {
        return;
      }
      loading := false;
      if |levels| > 1 {
        qualities := QualityList(levels);
        currentQuality := hls.currentLevel;
      }
    }

    /** `ERROR`: only fatal errors act, by the recovery table. */
    method OnError(fatal: bool, errorType: ErrorType)
      requires hls != null
      modifies this, hls
      ensures hls == old(hls) && mounted == old(mounted) && loading == old(loading)
      ensures qualities == old(qualities) && currentQuality == old(currentQuality) && videoSrc == old(videoSrc)
      ensures hls.currentLevel == old(hls.currentLevel)
      ensures !(mounted && fatal) ==> reported == old(reported) && unchanged(hls)
      ensures mounted && fatal ==>
        var (message, recovery) := FatalRecovery(errorType);
        && reported == old(reported) + [message]
        && hls.loadRestarts == old(hls.loadRestarts) + (if recovery == StartLoad then 1 else 0)
        && hls.mediaRecoveries == old(hls.mediaRecoveries) + (if recovery == RecoverMediaError then 1 else 0)
        && hls.destroyed == (old(hls.destroyed) || recovery == Destroy)
    {
      if !mounted {
        return;
      }
      if fatal {
        var (message, recovery) := FatalRecovery(errorType);
        reported := reported + [message];
        hls.Apply(recovery);
      }
    }

    /** `LEVEL_SWITCHED`: the highlighted quality follows the level hls.js switched to. */
    method OnLevelSwitched(level: int)
      modifies this
      ensures hls == old(hls) && mounted == old(mounted) && loading == old(loading) && qualities == old(qualities)
      ensures videoSrc == old(videoSrc) && reported == old(reported)
      ensures currentQuality == if mounted then level else old(currentQuality)
    {
      if mounted {
        currentQuality := level;
      }
    }

    /** `handleQualityChange`: without an instance nothing happens; otherwise the instance and the buttons move to the level (-1 is Auto). */
    method HandleQualityChange(levelIndex: int)
      modifies this, hls
      ensures hls == old(hls) && mounted == old(mounted) && loading == old(loading) && qualities == old(qualities)
      ensures videoSrc == old(videoSrc) && reported == old(reported)
      ensures hls == null ==> currentQuality == old(currentQuality)
      ensures hls != null ==>
        && currentQuality == levelIndex && hls.currentLevel == levelIndex
        && hls.loadRestarts == old(hls.loadRestarts) && hls.mediaRecoveries == old(hls.mediaRecoveries)
        && hls.destroyed == old(hls.destroyed)
    {
      if hls != null {
        hls.currentLevel := levelIndex;
        currentQuality := levelIndex;
      }
    }

    /** The effect's cleanup: later events are ignored and the instance is destroyed. */
    method Unmount()
      modifies this, hls
      ensures !mounted && hls == old(hls) && loading == old(loading) && qualities == old(qualities)
      ensures currentQuality == old(currentQuality) && videoSrc == old(videoSrc) && reported == old(reported)
      ensures hls != null ==> hls.destroyed && hls.currentLevel == old(hls.currentLevel)
    {
      mounted := false;
      if hls != null {
        hls.Apply(Destroy);
      }
    }
  }

  /** Each fatal error type gets its own message: the message tells which recovery was tried. */
  lemma RecoveryMessagesDistinct(s: ErrorType, t: ErrorType)
    requires FatalRecovery(s).0 == FatalRecovery(t).0
    ensures FatalRecovery(s).1 == FatalRecovery(t).1
  {
  }

  /**
   * As written, the player never starts: the effect looks the video element up
   * while `loading` is still true, when the element is not rendered, and
   * reports 'Video element not ready' whatever the browser supports.
   */
  method StartAsWritten(m3u8Url: string, native: bool, importError: Option<string>, supported: bool)
    returns (p: Player)
    ensures p.reported == [VideoNotReady] && p.loading && p.videoSrc.None? && p.hls == null
  {
    p := new Player(m3u8Url);
    p.Init(VideoElement.RenderedAsWritten(p.loading), native, importError, supported);
  }

  /**
   * With the video element rendered while loading (the spinner drawn over it),
   * native playback starts on the URL and otherwise an hls.js instance loads it.
   */
  method StartWithVideoRendered(m3u8Url: string, native: bool, supported: bool)
    returns (p: Player)
    ensures native ==> p.videoSrc == Some(m3u8Url) && !p.loading && p.reported == []
    ensures !native && supported ==> p.hls != null && p.hls.source == m3u8Url && p.reported == []
    ensures !native && !supported ==> p.reported == [NotSupported] && !p.loading
  {
    p := new Player(m3u8Url);
    p.Init(true, native, None, supported);
  }
}
