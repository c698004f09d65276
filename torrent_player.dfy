/**
 * The in-browser torrent player: WebTorrent is opaque; its `add` callback,
 * its `error` events and the import of the library are method calls carrying
 * what they report. Whether `videoRef.current` is set when a file is played is
 * a parameter; the render rule that decides it is `VideoElement.RenderedAsWritten`.
 */
module TorrentPlayer {
  import opened Wrappers
  import VideoElement
  import PlayableFiles

  const NoPlayableFile: string := "No playable video file found in torrent"
  const TorrentErrorPrefix: string := "Torrent error: "
  const ClientErrorPrefix: string := "WebTorrent error: "
  const InitFailedPrefix: string := "Failed to initialize torrent: "

  /** A file as WebTorrent reports it, and as the file list shows it. */
  datatype TorrentFile = TorrentFile(name: string, length: nat)

  function Names(files: seq<TorrentFile>): (r: seq<string>)
    ensures |r| == |files| && forall i :: 0 <= i < |files| ==> r[i] == files[i].name
  {
    seq(|files|, i requires 0 <= i < |files| => files[i].name)
  }

  /** The component's state, its client ref, and the messages it passed to `onError`. */
  class Player {
    const magnet: string
    var mounted: bool
    var loading: bool
    var files: seq<TorrentFile>
    var selectedFileIndex: int
    var rendering: Option<nat>
    var clientCreated: bool
    var clientDestroyed: bool
    var reported: seq<string>

    constructor (magnet: string)
      ensures this.magnet == magnet && mounted && loading && files == [] && selectedFileIndex == 0
      ensures rendering.None? && !clientCreated && !clientDestroyed && reported == []
    {
      this.magnet := magnet;
      mounted := true;
      loading := true;
      files := [];
      selectedFileIndex := 0;
      rendering := None;
      clientCreated := false;
      clientDestroyed := false;
      reported := [];
    }

    /**
     * `initTorrent` once its try block settled: a new client, or `importError`,
     * what the try block threw before the client was stored (the import,
     * `new WebTorrent`, `client.add`).
     */
    method Init(importError: Option<string>)
      modifies this
      ensures files == old(files) && selectedFileIndex == old(selectedFileIndex) && rendering == old(rendering)
      ensures mounted == old(mounted) && clientDestroyed == old(clientDestroyed)
      ensures importError.Some? && mounted ==>
        reported == old(reported) + [InitFailedPrefix + importError.value] && !loading && clientCreated == old(clientCreated)
      ensures importError.Some? && !mounted ==>
        reported == old(reported) && loading == old(loading) && clientCreated == old(clientCreated)
      ensures importError.None? ==>
        reported == old(reported) && loading == old(loading) && clientCreated == (old(clientCreated) || mounted)
    {
      if importError.Some? {
        if mounted {
          reported := reported + [InitFailedPrefix + importError.value];
          loading := false;
        }
        return;
      }
      if !mounted {
        return;
      }
      clientCreated := true;
    }

    /** `playFile`: the file is rendered to the video element, if there is one. */
    method PlayFile(index: nat, videoPresent: bool)
      modifies this
      ensures mounted == old(mounted) && files == old(files) && selectedFileIndex == old(selectedFileIndex)
      ensures clientCreated == old(clientCreated) && clientDestroyed == old(clientDestroyed) && reported == old(reported)
      ensures videoPresent ==> rendering == Some(index) && !loading
      ensures !videoPresent ==> rendering == old(rendering) && loading == old(loading)
    {
      if videoPresent {
        rendering := Some(index);
        loading := false;
      }
    }

    /** The `client.add` callback with the torrent's files. */
    method OnTorrentAdded(torrentFiles: seq<TorrentFile>, videoPresent: bool)
      modifies this
      ensures mounted == old(mounted) && clientCreated == old(clientCreated) && clientDestroyed == old(clientDestroyed)
      ensures !mounted ==>
        && files == old(files) && selectedFileIndex == old(selectedFileIndex) && rendering == old(rendering)
        && loading == old(loading) && reported == old(reported)
      ensures mounted ==> files == torrentFiles
      ensures mounted && PlayableFiles.FirstPlayable(Names(torrentFiles)) == -1 ==>
        && reported == old(reported) + [NoPlayableFile] && !loading
        && selectedFileIndex == old(selectedFileIndex) && rendering == old(rendering)
      ensures mounted && PlayableFiles.FirstPlayable(Names(torrentFiles)) >= 0 ==>
        && reported == old(reported)
        && selectedFileIndex == PlayableFiles.FirstPlayable(Names(torrentFiles))
        && (videoPresent ==> rendering == Some(selectedFileIndex as nat) && !loading)
        && (!videoPresent ==> rendering == old(rendering) && loading == old(loading))
    {
      if !mounted {
        return;
      }
      files := torrentFiles;
      var playableIndex := PlayableFiles.FirstPlayable(Names(torrentFiles));
      if playableIndex == -1 {
        reported := reported + [NoPlayableFile];
        loading := false;
        return;
      }
      selectedFileIndex := playableIndex;
      PlayFile(playableIndex, videoPresent);
    }

    /**
     * The torrent's `error` event. The source attaches this handler only after
     * a playable file was found and played, so callers model it only on that
     * path; the method itself does not check it.
     */
    method OnTorrentError(message: string)
      modifies this
      ensures mounted == old(mounted) && loading == old(loading) && files == old(files)
      ensures selectedFileIndex == old(selectedFileIndex) && rendering == old(rendering)
      ensures clientCreated == old(clientCreated) && clientDestroyed == old(clientDestroyed)
      ensures reported == old(reported) + (if mounted then [TorrentErrorPrefix + message] else [])
    {
      if mounted {
        reported := reported + [TorrentErrorPrefix + message];
      }
    }

    /** The client's `error` event: reported, and loading ends. */
    method OnClientError(message: string)
      modifies this
      ensures mounted == old(mounted) && files == old(files)
      ensures selectedFileIndex == old(selectedFileIndex) && rendering == old(rendering)
      ensures clientCreated == old(clientCreated) && clientDestroyed == old(clientDestroyed)
      ensures reported == old(reported) + (if mounted then [ClientErrorPrefix + message] else [])
      ensures loading == (old(loading) && !mounted)
    {
      if mounted {
        reported := reported + [ClientErrorPrefix + message];
        loading := false;
      }
    }

    /** The effect's cleanup: later callbacks are ignored and the client is destroyed. */
    method Unmount()
      modifies this
      ensures !mounted && loading == old(loading) && files == old(files)
      ensures selectedFileIndex == old(selectedFileIndex) && rendering == old(rendering) && reported == old(reported)
      ensures clientCreated == old(clientCreated) && clientDestroyed == (old(clientDestroyed) || clientCreated)
    {
      mounted := false;
      if clientCreated {
        clientDestroyed := true;
      }
    }
  }

  /**
   * As written, a torrent with a playable file never plays: the file is played
   * while `loading` is true, when the video element is not rendered, so
   * nothing is rendered and the spinner stays.
   */
  method PlayAsWritten(magnet: string, torrentFiles: seq<TorrentFile>) returns (p: Player)
    requires PlayableFiles.FirstPlayable(Names(torrentFiles)) >= 0
    ensures p.loading && p.rendering.None? && p.reported == []
    ensures p.selectedFileIndex == PlayableFiles.FirstPlayable(Names(torrentFiles))
  {
    p := new Player(magnet);
    p.Init(None);
    p.OnTorrentAdded(torrentFiles, VideoElement.RenderedAsWritten(p.loading));
  }

  /** With the video element rendered while loading, the first playable file plays and loading ends. */
  method PlayWithVideoRendered(magnet: string, torrentFiles: seq<TorrentFile>) returns (p: Player)
    requires PlayableFiles.FirstPlayable(Names(torrentFiles)) >= 0
    ensures !p.loading && p.reported == []
    ensures p.rendering == Some(PlayableFiles.FirstPlayable(Names(torrentFiles)) as nat)
    ensures p.files == torrentFiles
  {
    p := new Player(magnet);
    p.Init(None);
    p.OnTorrentAdded(torrentFiles, true);
  }
}
