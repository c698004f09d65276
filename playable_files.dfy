/**
 * What both torrent players share: the playable-file test
 * `/\.(mp4|webm|ogg|mkv)$/i`, the choice of the first playable file, and the
 * relay URL a file is streamed from.
 */
module PlayableFiles {
  import opened Text

  /** The extensions the players accept, in lower case. */
  const VideoExtensions: seq<string> := [".mp4", ".webm", ".ogg", ".mkv"]

  /**
   * The name ends in one of the extensions, ASCII letters compared without case
   * (`$` without the `m` flag anchors at the very end of the name).
   */
  predicate IsPlayable(name: string) {
    exists k :: 0 <= k < |VideoExtensions| && EndsWith(LowerAsciiString(name), VideoExtensions[k])
  }

  /** The scan of `findIndex` from position `from`: the first playable name at or after it, or -1. */
  function FirstPlayableFrom(names: seq<string>, from: nat): (r: int)
    requires from <= |names|
    ensures r == -1 || from <= r < |names|
    decreases |names| - from
  {
    if from == |names| then -1
    else if IsPlayable(names[from]) then from
    else FirstPlayableFrom(names, from + 1)
  }

  /** `files.findIndex(...)` over the file names: -1 when no file is playable. */
  function FirstPlayable(names: seq<string>): (r: int)
    ensures -1 <= r < |names|
  {
    FirstPlayableFrom(names, 0)
  }

  lemma {:induction false} FirstPlayableFromSpec(names: seq<string>, from: nat)
    requires from <= |names|
    ensures var r := FirstPlayableFrom(names, from);
      && (r == -1 <==> forall j :: from <= j < |names| ==> !IsPlayable(names[j]))
      && (r >= 0 ==> IsPlayable(names[r]) && forall j :: from <= j < r ==> !IsPlayable(names[j]))
    decreases |names| - from
  {
    if from < |names| && !IsPlayable(names[from]) {
      FirstPlayableFromSpec(names, from + 1);
    }
  }

  /** The index found is -1 exactly when no name is playable; otherwise a playable name with no playable name before it. */
  lemma FirstPlayableSpec(names: seq<string>)
    ensures var r := FirstPlayable(names);
      && (r == -1 <==> forall j :: 0 <= j < |names| ==> !IsPlayable(names[j]))
      && (r >= 0 ==> IsPlayable(names[r]) && forall j :: 0 <= j < r ==> !IsPlayable(names[j]))
  {
    FirstPlayableFromSpec(names, 0);
  }

  /** Adding files after the first playable one does not change the choice. */
  lemma FirstPlayableAppend(names: seq<string>, more: seq<string>)
    requires FirstPlayable(names) >= 0
    ensures FirstPlayable(names + more) == FirstPlayable(names)
  {
    FirstPlayableSpec(names);
    FirstPlayableSpec(names + more);
    var i := FirstPlayable(names);
    var r := FirstPlayable(names + more);
    assert IsPlayable((names + more)[i]);
    assert r <= i;
    assert forall j :: 0 <= j < i ==> !IsPlayable((names + more)[j]);
  }

  /** Upper-case extensions match. */
  lemma UpperCaseExtension(name: string)
    requires name == "Movie.MKV"
    ensures IsPlayable(name)
  {
    assert LowerAsciiString(name)[5..] == ".mkv";
    assert EndsWith(LowerAsciiString(name), VideoExtensions[3]);
  }

  /** The extension must end the name: `a.mp4.txt` is not playable. */
  lemma ExtensionMustBeLast(name: string)
    requires name == "a.mp4.txt"
    ensures !IsPlayable(name)
  {
    var lower := LowerAsciiString(name);
    assert lower[|lower| - 1] == 't';
    forall k | 0 <= k < |VideoExtensions|
      ensures !EndsWith(lower, VideoExtensions[k])
    {
      var ext := VideoExtensions[k];
      assert ext[|ext| - 1] != 't';
      assert |ext| <= |lower| ==> lower[|lower| - |ext|..][|ext| - 1] == lower[|lower| - 1];
    }
  }

  /** `/api/relay/stream/<infoHash>/<fileIndex>`. */
  function StreamUrl(infoHash: string, fileIndex: nat): string {
    "/api/relay/stream/" + infoHash + "/" + NatToString(fileIndex)
  }

  /** The text before the first `c` in `s`, all of `s` when there is none. */
  function Before(s: string, c: char): (r: string)
    ensures c !in r && |r| <= |s| && r == s[..|r|]
  {
    if s == [] || s[0] == c then [] else [s[0]] + Before(s[1..], c)
  }

  lemma {:induction false} BeforeSeparator(a: string, c: char, rest: string)
    requires c !in a
    ensures Before(a + [c] + rest, c) == a
  {
    if a != [] {
      assert (a + [c] + rest)[1..] == a[1..] + [c] + rest;
      BeforeSeparator(a[1..], c, rest);
    }
  }

  /**
   * The stream URL names its torrent and file unambiguously: an info-hash
   * holds no `/`, so different torrents or files never share a URL.
   */
  lemma StreamUrlInjective(h1: string, i1: nat, h2: string, i2: nat)
    requires '/' !in h1 && '/' !in h2
    requires StreamUrl(h1, i1) == StreamUrl(h2, i2)
    ensures h1 == h2 && i1 == i2
  {
    var prefix := "/api/relay/stream/";
    var t1 := h1 + "/" + NatToString(i1);
    var t2 := h2 + "/" + NatToString(i2);
    assert StreamUrl(h1, i1) == prefix + t1 && StreamUrl(h2, i2) == prefix + t2;
    assert t1 == StreamUrl(h1, i1)[|prefix|..] == t2;
    BeforeSeparator(h1, '/', NatToString(i1));
    BeforeSeparator(h2, '/', NatToString(i2));
    assert NatToString(i1) == t1[|h1| + 1..] == t2[|h2| + 1..] == NatToString(i2);
    NatToStringInjective(i1, i2);
  }
}
