/** The OpenCV composer of video.py (`create_portrait_video`, lines 5-79): load the image, letterbox
    it onto a black portrait canvas, hold that frame for `duration` seconds and fit the audio to the
    same duration. Every library call that can raise is a parameter carrying its outcome. */
module Video {
  import opened Outcomes
  import opened Frame

  /** A side of a decoded image: `cv2.imread` returns `None` for an image with no pixels, so every
      image it does return has positive sides. */
  type Side = n: int | n > 0 witness 1

  /** A decoded image as `cv2.imread` returns it; its pixels matter only through the resampler. */
  datatype Image = Image(width: Side, height: Side)

  /** How the audio track is fitted to the video: `subclip(start, end)` or `set_duration(length)`. */
  datatype AudioFit = Subclip(start: real, end: real) | SetDuration(length: real)

  /** The video as it is handed to the encoder. */
  datatype Clip = Clip(placement: Placement, videoDuration: real, audio: AudioFit, fps: int)

  datatype Outcome = Created(clip: Clip) | Failed(message: string)

  const FramesPerSecond: int := 30
  const ErrorPrefix: string := "Error creating video: "

  /** Trim the audio from time 0 when it is longer than `duration`, otherwise extend it to `duration`. */
  function FitAudio(audioDuration: real, duration: real): (f: AudioFit)
    ensures f.Subclip? <==> audioDuration > duration
    ensures f.Subclip? ==> f.start == 0.0
  {
    if audioDuration > duration then Subclip(0.0, duration) else SetDuration(duration)
  }

  /** Length in seconds of the fitted track. */
  function FittedLength(f: AudioFit): real {
    match f
    case Subclip(start, end) => end - start
    case SetDuration(length) => length
  }

  /** Seconds of the source audio that are heard once the track is fitted: a subclip plays the
      source from `start` to `end`, an extended track plays all of it, at most `length`. */
  function Heard(f: AudioFit, audioDuration: real): real {
    match f
    case Subclip(start, end) => end - start
    case SetDuration(length) => if length < audioDuration then length else audioDuration
  }

  /** Either branch yields a track exactly as long as the video, playing the first
      `min(audioDuration, duration)` seconds of the source. */
  lemma FitAudioMatchesVideo(audioDuration: real, duration: real)
    requires duration >= 0.0
    ensures FitAudio(audioDuration, duration).Subclip? ==> FitAudio(audioDuration, duration).start == 0.0
    ensures FittedLength(FitAudio(audioDuration, duration)) == duration
    ensures Heard(FitAudio(audioDuration, duration), audioDuration)
            == if audioDuration < duration then audioDuration else duration
  {}

  /** The decision flow of `create_portrait_video`. `resizeError` is the text `cv2.resize` raises for a
      zero-sized target, `audio` the outcome of loading the audio file, `writeError` the exception (if
      any) raised once the audio has loaded: setting the duration, the volume and the audio track,
      and writing the file. */
  function Compose(image: Option<Image>, resizeError: string, audio: Load<real>,
                   writeError: Option<string>, duration: real): (r: Outcome)
    ensures image.None? ==> r == Failed("Failed to load image")
    ensures r.Created? <==> BuildsCanvas(image) && audio.Loaded? && writeError.None?
    ensures r.Created? ==>
      r.clip == Clip(Place(image.value.width, image.value.height), duration,
                        FitAudio(audio.value, duration), FramesPerSecond)
    ensures r.Created? ==>
      && image.Some?
      && var p := r.clip.placement;
      && 0 < p.newWidth && 0 <= p.startX && p.startX + p.newWidth <= TargetWidth
      && 0 < p.newHeight && 0 <= p.startY && p.startY + p.newHeight <= TargetHeight
      && (p.newWidth == TargetWidth || p.newHeight == TargetHeight)
      && r.clip.videoDuration == duration
      && FittedLength(r.clip.audio) == r.clip.videoDuration
  {
    if image.None? then Failed("Failed to load image")
    else
      var p := Place(image.value.width, image.value.height);
      PlaceFits(image.value.width, image.value.height);
      PlaceCentred(image.value.width, image.value.height);
      PlaceFillsConstrainedAxis(image.value.width, image.value.height);
      if p.newWidth == 0 || p.newHeight == 0 then Failed(ErrorPrefix + resizeError)
      else if audio.Raised? then Failed(ErrorPrefix + audio.message)
      else if writeError.Some? then Failed(ErrorPrefix + writeError.value)
      else
        Created(Clip(p, duration, FitAudio(audio.value, duration), FramesPerSecond))
  }

  /** The `(success, message)` pair the function returns. */
  function Report(o: Outcome): (r: (bool, string))
    ensures r.0 <==> o.Created?
    ensures o.Failed? ==> r.1 == o.message
  {
    match o
    case Created(_) => (true, "Video created successfully!")
    case Failed(message) => (false, message)
  }

  /** Success is reported exactly when the canvas is built, the audio loads and writing raises
      nothing; every failure reports the text of the step that failed, in the order the steps run. */
  lemma ReportsEachStep(image: Option<Image>, resizeError: string, audio: Load<real>,
                        writeError: Option<string>, duration: real)
    ensures var r := Report(Compose(image, resizeError, audio, writeError, duration));
      && (r.0 <==> BuildsCanvas(image) && audio.Loaded? && writeError.None?)
      && (r.0 ==> r.1 == "Video created successfully!")
      && (image.None? ==> r == (false, "Failed to load image"))
      && (image.Some? && !BuildsCanvas(image) ==>
            r == (false, ErrorPrefix + resizeError))
      && (BuildsCanvas(image) && audio.Raised? ==> r == (false, ErrorPrefix + audio.message))
      && (BuildsCanvas(image) && audio.Loaded? && writeError.Some? ==>
            r == (false, ErrorPrefix + writeError.value))
  {}

  /** The canvas is built exactly when the image loaded and its scaled size is not empty. */
  predicate BuildsCanvas(image: Option<Image>) {
    && image.Some?
    && Place(image.value.width, image.value.height).newWidth > 0
    && Place(image.value.width, image.value.height).newHeight > 0
  }

  /** `create_portrait_video` with its frame: `resize(w, h)` is the Lanczos resampling of the loaded
      image to `w` x `h`. Returns the reported pair and, when it was built, the canvas. */
  method CreatePortraitVideo(image: Option<Image>, resize: (int, int) -> Grid, resizeError: string,
                             audio: Load<real>, writeError: Option<string>, duration: real)
    returns (ok: bool, message: string, frame: array3?<uint8>)
    requires forall w, h :: w > 0 && h > 0 ==> Shaped(resize(w, h), h, w)
    ensures (ok, message) == Report(Compose(image, resizeError, audio, writeError, duration))
    ensures frame != null <==> BuildsCanvas(image)
    ensures frame != null ==>
      var p := Place(image.value.width, image.value.height);
      var resized := resize(p.newWidth, p.newHeight);
      && fresh(frame)
      && Shaped(resized, p.newHeight, p.newWidth)
      && frame.Length0 == TargetHeight && frame.Length1 == TargetWidth && frame.Length2 == Channels
      && forall y, x, k :: 0 <= y < frame.Length0 && 0 <= x < frame.Length1 && 0 <= k < frame.Length2
           ==> frame[y, x, k] == if InBlock(p, y, x) then resized[y - p.startY][x - p.startX][k] else 0
  {
    frame := null;
    if image.None? {
      return false, "Failed to load image", null;
    }
    var width, height := image.value.width, image.value.height;
    var p := Place(width, height);
    if p.newWidth == 0 || p.newHeight == 0 {
      return false, ErrorPrefix + resizeError, null;
    }
    PlaceFits(width, height);
    var resized := resize(p.newWidth, p.newHeight);
    frame := RenderFrame(width, height, resized);
    match audio {
      case Raised(m) => return false, ErrorPrefix + m, frame;
      case Loaded(_) =>
        if writeError.Some? {
          return false, ErrorPrefix + writeError.value, frame;
        }
        return true, "Video created successfully!", frame;
    }
  }
}
