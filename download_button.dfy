/**
 * The download panel: a set of selected file indices toggled by checkboxes,
 * two download handlers that only show a notice, and the render and disable
 * conditions. `alert` is recorded as the list of notices shown.
 */
module DownloadButton {
  import opened Wrappers
  import opened Text

  datatype PanelType = TorrentType | HlsType

  /** A torrent file as the panel lists it. */
  datatype FileEntry = FileEntry(name: string, length: nat)

  /** What is rendered: the torrent panel, the HLS panel, or nothing. */
  datatype Panel =
    | TorrentPanel(checked: seq<bool>, disabled: bool, caption: string)
    | HlsPanel(disabled: bool, caption: string)
    | NoPanel

  const SelectAtLeastOne: string := "Please select at least one file to download"
  const TorrentDownloadNotice: string := "Browser-based torrent download has memory limitations. For large files, use a desktop torrent client with the magnet link."
  const HlsDownloadNotice: string := "HLS download requires server-side processing or segment concatenation. This is a placeholder for future implementation."
  const PreparingLabel: string := "Preparing..."
  const HlsLabel: string := "Download Stream"

  /** `handleFileToggle`'s new set: the index's membership flips and every other index keeps its own. */
  function Toggle(selected: set<nat>, index: nat): (r: set<nat>)
    ensures index in r <==> index !in selected
    ensures forall j :: j != index ==> (j in r <==> j in selected)
    ensures |r| == if index in selected then |selected| - 1 else |selected| + 1
  {
    if index in selected then selected - {index} else selected + {index}
  }

  /** Toggling the same checkbox twice restores the selection. */
  lemma ToggleTwice(selected: set<nat>, index: nat)
    ensures Toggle(Toggle(selected, index), index) == selected
  {
  }

  /** Toggles of listed files keep the selection within the list. */
  lemma ToggleStaysInList(selected: set<nat>, index: nat, count: nat)
    requires forall j :: j in selected ==> j < count
    requires index < count
    ensures forall j :: j in Toggle(selected, index) ==> j < count
  {
  }

  /** The torrent button's text: 'Preparing...' while downloading, else the selection size. */
  function TorrentLabel(downloading: bool, selected: set<nat>): string {
    if downloading then PreparingLabel else "Download Selected (" + NatToString(|selected|) + ")"
  }

  /** Different selection sizes give different button texts. */
  lemma TorrentLabelShowsCount(s: set<nat>, t: set<nat>)
    requires TorrentLabel(false, s) == TorrentLabel(false, t)
    ensures |s| == |t|
  {
    var prefix := "Download Selected (";
    var ls := prefix + NatToString(|s|) + ")";
    var lt := prefix + NatToString(|t|) + ")";
    assert ls[|prefix|..|ls| - 1] == NatToString(|s|);
    assert lt[|prefix|..|lt| - 1] == NatToString(|t|);
    NatToStringInjective(|s|, |t|);
  }

  /** The component's props and state, and the notices it showed. */
  class Button {
    const panelType: PanelType
    const torrentFiles: Option<seq<FileEntry>>
    const hlsUrl: Option<string>
    var selectedFiles: set<nat>
    var downloading: bool
    var notices: seq<string>

    constructor (panelType: PanelType, torrentFiles: Option<seq<FileEntry>>, hlsUrl: Option<string>)
      ensures this.panelType == panelType && this.torrentFiles == torrentFiles && this.hlsUrl == hlsUrl
      ensures selectedFiles == {} && !downloading && notices == []
    {
      this.panelType := panelType;
      this.torrentFiles := torrentFiles;
      this.hlsUrl := hlsUrl;
      selectedFiles := {};
      downloading := false;
      notices := [];
    }

    /** What the component renders (an array prop is truthy even when empty; a URL only when non-empty). */
    function Render(): (p: Panel)
      reads this
      ensures p.TorrentPanel? <==> panelType == TorrentType && torrentFiles.Some?
      ensures p.HlsPanel? <==> panelType == HlsType && hlsUrl.Some? && hlsUrl.value != []
      ensures p.TorrentPanel? ==>
        && |p.checked| == |torrentFiles.value|
        && (forall i :: 0 <= i < |p.checked| ==> (p.checked[i] <==> i in selectedFiles))
        && (p.disabled <==> downloading || selectedFiles == {})
        && p.caption == TorrentLabel(downloading, selectedFiles)
      ensures p.HlsPanel? ==> p.disabled == downloading && p.caption == (if downloading then PreparingLabel else HlsLabel)
    {
      if panelType == TorrentType && torrentFiles.Some? then
        var files := torrentFiles.value;
        var selected := selectedFiles;
        TorrentPanel(
          seq(|files|, i requires 0 <= i < |files| => i in selected),
          downloading || |selectedFiles| == 0,
          TorrentLabel(downloading, selectedFiles))
      else if panelType == HlsType && hlsUrl.Some? && hlsUrl.value != [] then
        HlsPanel(downloading, if downloading then PreparingLabel else HlsLabel)
      else
        NoPanel
    }

    /** `handleFileToggle`. */
    method HandleFileToggle(index: nat)
      modifies this
      ensures selectedFiles == Toggle(old(selectedFiles), index)
      ensures downloading == old(downloading) && notices == old(notices)
    {
      if index in selectedFiles {
        selectedFiles := selectedFiles - {index};
      } else {
        selectedFiles := selectedFiles + {index};
      }
    }

    /** `handleDownloadTorrent`: an empty selection only shows the reminder; otherwise the notice. */
    method HandleDownloadTorrent()
      modifies this
      ensures selectedFiles == old(selectedFiles)
      ensures selectedFiles == {} ==> notices == old(notices) + [SelectAtLeastOne] && downloading == old(downloading)
      ensures selectedFiles != {} ==> notices == old(notices) + [TorrentDownloadNotice] && !downloading
    {
      if |selectedFiles| == 0 {
        notices := notices + [SelectAtLeastOne];
        return;
      }
      downloading := true;
      notices := notices + [TorrentDownloadNotice];
      downloading := false;
    }

    /** `handleDownloadHls`: nothing without a URL; otherwise the notice. */
    method HandleDownloadHls()
      modifies this
      ensures selectedFiles == old(selectedFiles)
      ensures !(hlsUrl.Some? && hlsUrl.value != []) ==> notices == old(notices) && downloading == old(downloading)
      ensures hlsUrl.Some? && hlsUrl.value != [] ==> notices == old(notices) + [HlsDownloadNotice] && !downloading
    {
      if !(hlsUrl.Some? && hlsUrl.value != []) {
        return;
      }
      downloading := true;
      notices := notices + [HlsDownloadNotice];
      downloading := false;
    }
  }

  /** A click on the torrent panel: a file's checkbox, or the download button. */
  datatype Click = ToggleFile(index: nat) | DownloadTorrent

  /**
   * `downloading` is false after every handler, so across any sequence of
   * clicks the torrent button is disabled exactly when nothing is selected
   * and never reads 'Preparing...'.
   */
  method ClickSequence(files: seq<FileEntry>, clicks: seq<Click>) returns (b: Button)
    ensures !b.downloading
    ensures b.Render().TorrentPanel?
    ensures b.Render().disabled <==> b.selectedFiles == {}
    ensures b.Render().caption != PreparingLabel
  {
    b := new Button(TorrentType, Some(files), None);
    var k := 0;
    while k < |clicks|
      invariant 0 <= k <= |clicks|
      invariant !b.downloading && b.panelType == TorrentType && b.torrentFiles == Some(files)
    {
      match clicks[k] {
        case ToggleFile(i) => b.HandleFileToggle(i);
        case DownloadTorrent => b.HandleDownloadTorrent();
      }
      k := k + 1;
    }
    assert "Download Selected (" + NatToString(|b.selectedFiles|) + ")" != PreparingLabel by {
      assert ("Download Selected (" + NatToString(|b.selectedFiles|) + ")")[0] != PreparingLabel[0];
    }
  }
}
