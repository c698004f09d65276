/**
 * The input form: it trims what the user typed, classifies it as a magnet
 * link or an HLS playlist URL, and either hands it to the page or shows the
 * validation message. The `URL` constructor's acceptance test is a parameter.
 */
module InputForm {
  import opened Wrappers
  import opened Text
  import StreamRouter

  datatype InputKind = Magnet | Hls

  /** What `onSubmit` receives: the trimmed input and its kind. */
  datatype Submission = Submission(value: string, kind: InputKind)

  const InvalidInputMessage: string := "Please enter a valid magnet link (magnet:?xt=...) or HLS playlist URL (.m3u8)"
  const ClipboardFailedMessage: string := "Failed to read clipboard. Please paste manually."
  const MagnetMarker: string := "xt=urn:"
  const PlaylistSuffix: string := ".m3u8"
  const PlaylistWithQuery: string := ".m3u8?"

  /** The magnet test: the `magnet:?` prefix and an exact-topic `xt=urn:` parameter. */
  predicate LooksLikeMagnet(value: string) {
    StartsWith(value, StreamRouter.MagnetPrefix) && Contains(value, MagnetMarker)
  }

  /** The playlist test: a path ending in `.m3u8`, with or without a query string. */
  predicate LooksLikePlaylist(value: string) {
    EndsWith(value, PlaylistSuffix) || Contains(value, PlaylistWithQuery)
  }

  /** `validateInput`: `None` is `{ valid: false }`. */
  function ValidateInput(value: string, urlParses: string -> bool): (r: Option<InputKind>)
    ensures r == Some(Magnet) ==> LooksLikeMagnet(value)
    ensures r == Some(Hls) ==> LooksLikePlaylist(value) && urlParses(value) && !LooksLikeMagnet(value)
    ensures r.None? ==> !LooksLikeMagnet(value) && (LooksLikePlaylist(value) ==> !urlParses(value))
  {
    if LooksLikeMagnet(value) then Some(Magnet)
    else if LooksLikePlaylist(value) then (if urlParses(value) then Some(Hls) else None)
    else None
  }

  /** The form's two pieces of state. */
  class MagnetInputForm {
    var input: string
    var error: string

    constructor ()
      ensures input == [] && error == []
    {
      input := [];
      error := [];
    }

    /** The text field's `onChange`. */
    method Change(value: string)
      modifies this
      ensures input == value && error == old(error)
    {
      input := value;
    }

    /** The submit button is disabled while the trimmed input is empty. */
    function SubmitDisabled(): bool
      reads this
    {
      Trim(input) == []
    }

    /** `handleSubmit`: `submitted` is the `onSubmit` call, if one is made. */
    method HandleSubmit(urlParses: string -> bool) returns (submitted: Option<Submission>)
      modifies this
      ensures input == old(input)
      ensures match ValidateInput(Trim(input), urlParses)
        case Some(kind) => submitted == Some(Submission(Trim(input), kind)) && error == []
        case None => submitted.None? && error == InvalidInputMessage
    {
      error := [];
      var sanitized := Trim(input);
      var validation := ValidateInput(sanitized, urlParses);
      if validation.None? {
        error := InvalidInputMessage;
        return None;
      }
      submitted := Some(Submission(sanitized, validation.value));
    }

    /** `handlePaste`, with the clipboard's text or `None` when reading it failed. */
    method HandlePaste(clipboard: Option<string>)
      modifies this
      ensures clipboard.Some? ==> input == clipboard.value && error == old(error)
      ensures clipboard.None? ==> input == old(input) && error == ClipboardFailedMessage
    {
      match clipboard
      case Some(text) => input := text;
      case None => error := ClipboardFailedMessage;
    }
  }

  /** Both tests passing makes the input a magnet link: the magnet test is tried first. */
  lemma MagnetWinsOverPlaylist(value: string, urlParses: string -> bool)
    requires LooksLikeMagnet(value) && LooksLikePlaylist(value)
    ensures ValidateInput(value, urlParses) == Some(Magnet)
  {
  }

  /** A `magnet:?` input without `xt=urn:` is not rejected outright: it is tried as a playlist URL. */
  lemma MagnetWithoutTopicFallsThrough(value: string, urlParses: string -> bool)
    requires StartsWith(value, StreamRouter.MagnetPrefix) && !Contains(value, MagnetMarker)
    ensures ValidateInput(value, urlParses) == if LooksLikePlaylist(value) && urlParses(value) then Some(Hls) else None
  {
  }

  /** Whenever the form's submit button is disabled, submitting would be rejected: no valid submission is lost. */
  lemma DisabledMeansInvalid(f: MagnetInputForm, urlParses: string -> bool)
    requires f.SubmitDisabled()
    ensures ValidateInput(Trim(f.input), urlParses).None?
  {
    EmptyIsInvalid(urlParses);
  }

  /** The empty string is neither a magnet link nor a playlist URL. */
  lemma EmptyIsInvalid(urlParses: string -> bool)
    ensures ValidateInput([], urlParses).None?
  {
    assert !Contains([], PlaylistWithQuery);
  }

  /** What `onSubmit` receives is non-empty and already trimmed. */
  lemma SubmittedIsTrimmed(input: string, urlParses: string -> bool)
    requires ValidateInput(Trim(input), urlParses).Some?
    ensures Trim(input) != [] && Trim(Trim(input)) == Trim(input)
  {
    EmptyIsInvalid(urlParses);
    TrimIdempotent(input);
  }

  /** An accepted magnet link passes the API's `magnet:?` format check. */
  lemma AcceptedMagnetPassesApiCheck(cfg: StreamRouter.Config, parsed: Option<StreamRouter.ParsedTorrent>, value: string)
    requires ValidateInput(value, cfg.urlParses) == Some(Magnet)
    ensures StreamRouter.MagnetBranch(cfg, parsed, value) != StreamRouter.Failed(400, StreamRouter.BadMagnetFormat, None)
  {
  }

  /** An accepted playlist URL passes the API's URL check, since both use the same `URL` constructor. */
  lemma AcceptedPlaylistPassesApiCheck(cfg: StreamRouter.Config, env: StreamRouter.Collaborators, value: string)
    requires ValidateInput(value, cfg.urlParses) == Some(Hls)
    ensures StreamRouter.HlsBranch(cfg, env, value) != StreamRouter.Failed(400, StreamRouter.BadPlaylistUrl, None)
  {
  }

  /** The unit test's invalid input: an error, no submission. */
  lemma RejectsPlainText(s: string, urlParses: string -> bool)
    requires s == "invalid-link"
    ensures ValidateInput(Trim(s), urlParses).None?
  {
    TrimUnpadded(s);
    assert !StartsWith(s, StreamRouter.MagnetPrefix) by { assert s[0] != StreamRouter.MagnetPrefix[0]; }
    assert !EndsWith(s, PlaylistSuffix) by { assert s[|s| - 5] != PlaylistSuffix[0]; }
    MissingFirstCharNotContained(s, PlaylistWithQuery);
  }

  /** The unit test's magnet link (written as its prefix, its `xt` parameter and its info-hash) is submitted as a magnet link. */
  lemma AcceptsTestMagnet(s: string, urlParses: string -> bool)
    requires s == "magnet:?" + "xt=urn:" + "btih:08ada5a7a6183aae1e09d831df6748d566095a10"
    ensures Trim(s) == s
    ensures ValidateInput(Trim(s), urlParses) == Some(Magnet)
  {
    assert s[0] == 'm' && s[|s| - 1] == '0';
    TrimUnpadded(s);
    assert s[..8] == StreamRouter.MagnetPrefix;
    assert s[8..15] == MagnetMarker;
    assert OccursAt(s, 8, MagnetMarker);
  }

  /** The unit test's playlist URL is submitted as HLS, given that the `URL` constructor accepts it. */
  lemma AcceptsTestPlaylist(s: string, urlParses: string -> bool)
    requires s == "https://example.com/playlist.m3u8" && urlParses(s)
    ensures ValidateInput(Trim(s), urlParses) == Some(Hls)
  {
    TrimUnpadded(s);
    assert !StartsWith(s, StreamRouter.MagnetPrefix) by { assert s[0] != StreamRouter.MagnetPrefix[0]; }
    assert EndsWith(s, PlaylistSuffix);
  }
}
