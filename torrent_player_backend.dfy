/**
 * The server-side torrent player: it registers the magnet link with
 * `/api/relay/add`, picks the first playable file of the answer, and points
 * the video element at the relay's stream URL for it. The `fetch` is a value
 * (the route's answer or the error thrown); whether `videoRef.current` is set
 * is a parameter, decided as written by `VideoElement.RenderedAsWritten`.
 */
module TorrentPlayerBackend {
  import opened Wrappers
  import VideoElement
  import opened Text
  import PlayableFiles
  import RelayAdd
  import StreamRouter

  const NoPlayableFile: string := "No playable video file found in torrent"
  const AddFailedPrefix: string := "Failed to add torrent: "
  const AddFailedDefault: string := "Failed to add torrent to server"

  /** What the `fetch` of `/api/relay/add` produced. */
  datatype AddOutcome = Answered(reply: RelayAdd.AddReply) | FetchThrew(message: string)

  /** `torrentInfo`: what a successful answer carried. */
  datatype TorrentInfo = TorrentInfo(infoHash: string, name: string, files: seq<RelayAdd.ListedFile>)

  /** The request body `{ magnetURI: magnet }`. */
  function AddRequestBody(magnet: string): RelayAdd.AddBody {
    RelayAdd.AddBody(RelayAdd.Str(magnet))
  }

  function Names(files: seq<RelayAdd.ListedFile>): (r: seq<string>)
    ensures |r| == |files| && forall i :: 0 <= i < |files| ==> r[i] == files[i].name
  {
    seq(|files|, i requires 0 <= i < |files| => files[i].name)
  }

  /** The message for a failed registration: the server's `error`, or the fallback when it is empty. */
  function FailureMessage(outcome: AddOutcome): (m: Option<string>)
    ensures outcome.FetchThrew? ==> m == Some(AddFailedPrefix + outcome.message)
    ensures outcome.Answered? && outcome.reply.AddFailed? ==>
      m == Some(AddFailedPrefix + if outcome.reply.error != [] then outcome.reply.error else AddFailedDefault)
    ensures m.None? <==> outcome.Answered? && outcome.reply.Added?
  {
    match outcome
    case FetchThrew(message) => Some(AddFailedPrefix + message)
    case Answered(AddFailed(_, error)) => Some(AddFailedPrefix + if error != [] then error else AddFailedDefault)
    case Answered(Added(_, _, _)) => None
  }

  /** The component's state, the video element's source, and the messages passed to `onError`. */
  class Player {
    const magnet: string
    var mounted: bool
    var loading: bool
    var torrentInfo: Option<TorrentInfo>
    var selectedFileIndex: int
    var videoSrc: Option<string>
    var reported: seq<string>

    constructor (magnet: string)
      ensures this.magnet == magnet && mounted && loading && torrentInfo.None? && selectedFileIndex == 0
      ensures videoSrc.None? && reported == []
    {
      this.magnet := magnet;
      mounted := true;
      loading := true;
      torrentInfo := None;
      selectedFileIndex := 0;
      videoSrc := None;
      reported := [];
    }

    /** `playFile`: the source becomes the relay URL of the file, if there is a video element. */
    method PlayFile(infoHash: string, fileIndex: nat, videoPresent: bool)
      modifies this
      ensures mounted == old(mounted) && loading == old(loading) && torrentInfo == old(torrentInfo)
      ensures selectedFileIndex == old(selectedFileIndex) && reported == old(reported)
      ensures videoSrc == if videoPresent then Some(PlayableFiles.StreamUrl(infoHash, fileIndex)) else old(videoSrc)
    {
      if videoPresent {
        videoSrc := Some(PlayableFiles.StreamUrl(infoHash, fileIndex));
      }
    }

    /** `addTorrentToServer` once the `fetch` settled. */
    method OnAddResponse(outcome: AddOutcome, videoPresent: bool)
      modifies this
      ensures mounted == old(mounted)
      ensures !mounted ==>
        && loading == old(loading) && torrentInfo == old(torrentInfo)
        && selectedFileIndex == old(selectedFileIndex) && videoSrc == old(videoSrc) && reported == old(reported)
      ensures mounted && FailureMessage(outcome).Some? ==>
        && reported == old(reported) + [FailureMessage(outcome).value] && !loading
        && torrentInfo == old(torrentInfo) && selectedFileIndex == old(selectedFileIndex) && videoSrc == old(videoSrc)
      ensures mounted && FailureMessage(outcome).None? ==>
        var info := TorrentInfo(outcome.reply.infoHash, outcome.reply.name, outcome.reply.files);
        var playable := PlayableFiles.FirstPlayable(Names(info.files));
        && torrentInfo == Some(info) && !loading
        && (playable == -1 ==>
              reported == old(reported) + [NoPlayableFile]
              && selectedFileIndex == old(selectedFileIndex) && videoSrc == old(videoSrc))
        && (playable >= 0 ==>
              reported == old(reported) && selectedFileIndex == playable
              && videoSrc == if videoPresent then Some(PlayableFiles.StreamUrl(info.infoHash, playable as nat)) else old(videoSrc))
    {
      if !mounted {
        return;
      }
      var failure := FailureMessage(outcome);
      if failure.Some? {
        reported := reported + [failure.value];
        loading := false;
        return;
      }
      var info := TorrentInfo(outcome.reply.infoHash, outcome.reply.name, outcome.reply.files);
      torrentInfo := Some(info);
      var playableIndex := PlayableFiles.FirstPlayable(Names(info.files));
      if playableIndex == -1 {
        reported := reported + [NoPlayableFile];
        loading := false;
        return;
      }
      selectedFileIndex := playableIndex;
      PlayFile(info.infoHash, playableIndex, videoPresent);
      loading := false;
    }

    /** A click on entry `index` of the file list. */
    method OnFileClick(index: nat, videoPresent: bool)
      requires torrentInfo.Some? && index < |torrentInfo.value.files|
      modifies this
      ensures mounted == old(mounted) && loading == old(loading) && torrentInfo == old(torrentInfo) && reported == old(reported)
      ensures selectedFileIndex == index
      ensures videoSrc == if videoPresent then Some(PlayableFiles.StreamUrl(torrentInfo.value.infoHash, index)) else old(videoSrc)
    {
      selectedFileIndex := index;
      if videoPresent {
        videoSrc := Some(PlayableFiles.StreamUrl(torrentInfo.value.infoHash, index));
      }
    }

    /** The effect's cleanup: a later answer changes nothing. */
    method Unmount()
      modifies this
      ensures !mounted && loading == old(loading) && torrentInfo == old(torrentInfo)
      ensures selectedFileIndex == old(selectedFileIndex) && videoSrc == old(videoSrc) && reported == old(reported)
    {
      mounted := false;
    }
  }

  /** The relay registers the player's request exactly when the magnet link is non-empty. */
  lemma RequestAcceptedIffNonEmpty(magnet: string)
    ensures RelayAdd.IsUsableMagnet(AddRequestBody(magnet).magnetURI) <==> magnet != []
  {
  }

  /** The stream router's first-file URL is the player's URL for file 0. */
  lemma RouterUrlIsFileZero(infoHash: string)
    ensures StreamRouter.RelayStreamUrl(infoHash) == PlayableFiles.StreamUrl(infoHash, 0)
  {
    assert NatToString(0) == "0";
  }

  /**
   * The file the player picks from the relay's answer is the engine's first
   * playable file: the listed names are the engine's names in the engine's order.
   */
  lemma PicksEnginesFirstPlayable(files: seq<RelayAdd.EngineFile>)
    ensures PlayableFiles.FirstPlayable(Names(RelayAdd.FileList(files)))
         == PlayableFiles.FirstPlayable(seq(|files|, i requires 0 <= i < |files| => files[i].name))
  {
    assert Names(RelayAdd.FileList(files)) == seq(|files|, i requires 0 <= i < |files| => files[i].name);
  }

  /**
   * As written, the first file never gets a source: it is played while
   * `loading` is true, when the video element is not rendered; the element
   * then appears with no source.
   */
  method FirstLoadAsWritten(magnet: string, infoHash: string, name: string, files: seq<RelayAdd.ListedFile>)
    returns (p: Player)
    requires PlayableFiles.FirstPlayable(Names(files)) >= 0
    ensures !p.loading && p.videoSrc.None? && p.selectedFileIndex == PlayableFiles.FirstPlayable(Names(files))
  {
    p := new Player(magnet);
    p.OnAddResponse(Answered(RelayAdd.Added(infoHash, name, files)), VideoElement.RenderedAsWritten(p.loading));
  }

  /** With the video element rendered while loading, the first playable file is streamed from the relay. */
  method FirstLoadWithVideoRendered(magnet: string, infoHash: string, name: string, files: seq<RelayAdd.ListedFile>)
    returns (p: Player)
    requires PlayableFiles.FirstPlayable(Names(files)) >= 0
    ensures !p.loading && p.reported == []
    ensures p.videoSrc == Some(PlayableFiles.StreamUrl(infoHash, PlayableFiles.FirstPlayable(Names(files)) as nat))
  {
    p := new Player(magnet);
    p.OnAddResponse(Answered(RelayAdd.Added(infoHash, name, files)), true);
  }
}
