/** How the image-plane and camera-projection operators configure the image
    user of their Image Texture node, so that an image sequence or a movie
    plays in step with the scene: cyclic playback, a duration equal to the
    scene's frame range, the scene's start frame, and an offset taken from the
    first frame number of the sequence's file name. */
module ImageUserSetup {
  import opened Common
  import opened Decimal
  import PathFrame

  /** `Image.source` as the operators see it. */
  datatype ImageSource = File | Sequence | Movie | OtherSource

  /** The image-user settings the operators write. */
  datatype ImageUser = ImageUser(
    useCyclic: bool,
    useAutoRefresh: bool,
    frameDuration: int,
    frameOffset: int,
    frameStart: int)

  /** Number of frames the image user plays: starting at the scene's first
      frame, playback of that many frames ends exactly at the scene's last. */
  function FrameDuration(sceneStart: int, sceneEnd: int): (n: int)
    ensures sceneStart + n - 1 == sceneEnd
  {
    sceneEnd - sceneStart + 1
  }

  /** The frame offset of an image sequence: its first frame number minus one,
      or 0 when the file path carries no frame number. */
  function SequenceOffset(filepath: seq<char>): (offset: int)
    ensures offset >= -1
    ensures PathFrame.ParseFrameNumber(filepath).None? ==> offset == 0
    ensures PathFrame.ParseFrameNumber(filepath).Some? ==>
      offset + 1 == PathFrame.ParseFrameNumber(filepath).value
  {
    match PathFrame.ParseFrameNumber(filepath)
    case Some(first) => first - 1
    case None => 0
  }

  /** For a sequence whose files are numbered `base + <n, zero-padded> + "." + ext`,
      the offset is n - 1. */
  lemma SequenceOffsetOfFormattedPath(base: seq<char>, n: nat, width: nat, ext: seq<char>)
    requires base == [] || !IsDigit(base[|base| - 1])
    requires |ext| >= 1 && PathFrame.AllWord(ext)
    ensures SequenceOffset(base + ZeroPad(n, width) + ['.'] + ext) == n - 1
  {
    PathFrame.ParseFormattedPath(base, n, width, ext);
  }

  /** The image-plane operator turns a still image into a sequence. */
  function ImagePlaneSource(loaded: ImageSource): (s: ImageSource)
    ensures loaded == File ==> s == Sequence
    ensures loaded != File ==> s == loaded
  {
    if loaded == File then Sequence else loaded
  }

  /** The projection operator turns a still image into a sequence only when
      the movie clip itself is a sequence. */
  function ProjectionSource(loaded: ImageSource, clipSource: ImageSource): (s: ImageSource)
    ensures loaded == File && clipSource == Sequence ==> s == Sequence
    ensures loaded != File ==> s == loaded
    ensures s == File <==> loaded == File && clipSource != Sequence
  {
    if loaded == File && clipSource == Sequence then Sequence else loaded
  }

  /** The two conversions agree when the clip is a sequence; otherwise the
      projection operator keeps the loaded source. Converting again changes
      nothing. */
  lemma SourceConversionsAgree(loaded: ImageSource, clipSource: ImageSource)
    ensures ProjectionSource(loaded, Sequence) == ImagePlaneSource(loaded)
    ensures clipSource != Sequence ==> ProjectionSource(loaded, clipSource) == loaded
    ensures ImagePlaneSource(ImagePlaneSource(loaded)) == ImagePlaneSource(loaded)
    ensures ProjectionSource(ProjectionSource(loaded, clipSource), clipSource)
         == ProjectionSource(loaded, clipSource)
  {
  }

  /** The image user after the image-plane operator configured it. */
  function ImagePlaneImageUser(u: ImageUser, source: ImageSource, filepath: seq<char>,
                               sceneStart: int, sceneEnd: int): (r: ImageUser)
    ensures r.useCyclic && r.useAutoRefresh
    ensures source == Sequence || source == Movie ==>
      && r.frameStart == sceneStart
      && r.frameDuration == FrameDuration(sceneStart, sceneEnd)
      && r.frameOffset == (if source == Sequence then SequenceOffset(filepath) else 0)
    ensures source != Sequence && source != Movie ==>
      r.frameDuration == u.frameDuration && r.frameOffset == u.frameOffset && r.frameStart == u.frameStart
  {
    var v := u.(useCyclic := true, useAutoRefresh := true);
    if source == Sequence then
      v.(frameDuration := FrameDuration(sceneStart, sceneEnd),
         frameOffset := SequenceOffset(filepath),
         frameStart := sceneStart)
    else if source == Movie then
      v.(frameDuration := FrameDuration(sceneStart, sceneEnd),
         frameOffset := 0,
         frameStart := sceneStart)
    else v
  }

  /** The image user after the projection operator configured it. */
  function ProjectionImageUser(u: ImageUser, source: ImageSource, filepath: seq<char>,
                               sceneStart: int, sceneEnd: int): (r: ImageUser)
    ensures r.useAutoRefresh
    ensures source != Sequence && source != Movie ==> r == u.(useAutoRefresh := true)
  {
    var v := u.(useAutoRefresh := true);
    if source == Sequence || source == Movie then
      v.(useCyclic := true,
         frameDuration := FrameDuration(sceneStart, sceneEnd),
         frameStart := sceneStart,
         frameOffset := if source == Sequence then SequenceOffset(filepath) else 0)
    else v
  }

  /** The two operators configure a sequence or a movie identically; for any
      other source they differ only in whether playback is made cyclic. */
  lemma SetupsAgree(u: ImageUser, source: ImageSource, filepath: seq<char>, sceneStart: int, sceneEnd: int)
    ensures source == Sequence || source == Movie ==>
      ImagePlaneImageUser(u, source, filepath, sceneStart, sceneEnd)
        == ProjectionImageUser(u, source, filepath, sceneStart, sceneEnd)
    ensures ImagePlaneImageUser(u, source, filepath, sceneStart, sceneEnd)
        == ProjectionImageUser(u, source, filepath, sceneStart, sceneEnd).(useCyclic := true)
  {
  }

  /** Configuring twice is the same as configuring once. */
  lemma SetupsIdempotent(u: ImageUser, source: ImageSource, filepath: seq<char>, sceneStart: int, sceneEnd: int)
    ensures ImagePlaneImageUser(ImagePlaneImageUser(u, source, filepath, sceneStart, sceneEnd),
                                source, filepath, sceneStart, sceneEnd)
         == ImagePlaneImageUser(u, source, filepath, sceneStart, sceneEnd)
    ensures ProjectionImageUser(ProjectionImageUser(u, source, filepath, sceneStart, sceneEnd),
                                source, filepath, sceneStart, sceneEnd)
         == ProjectionImageUser(u, source, filepath, sceneStart, sceneEnd)
  {
  }
}
