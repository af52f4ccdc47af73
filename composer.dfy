/** The moviepy composer of app.py (`create_portrait_video`, lines 1-67): check the inputs in a fixed
    order, reconcile the requested duration with the audio's, write the video, and on an exception
    remove whatever output file exists. Media decoding and encoding are parameters carrying their
    outcomes; the filesystem is a set of paths. */
module Composer {
  import opened Outcomes
  import opened Files

  /** `ImageClip(path).size`. */
  datatype Size = Size(width: int, height: int)

  /** What building and writing the clip does: it returns (having created the output file or not), or
      it raises, possibly after a partial output file was created. */
  datatype Render = Rendered(created: bool) | RenderRaised(message: string, partial: bool)

  /** The media library's behaviour on this call's inputs. */
  datatype Media = Media(image: Load<Size>, audio: Load<real>, render: Render)

  /** The durations the video clip and its audio track are set to, and the audio's volume factor. */
  datatype Tracks = Tracks(videoDuration: real, audioDuration: real, volume: real)

  /** The `(success, message)` pair, the paths that exist afterwards, and the tracks when they were set. */
  datatype Result = Result(ok: bool, message: string, paths: set<Path>, tracks: Option<Tracks>)

  const ErrorPrefix: string := "Error creating video: "
  const Created: string := "Video created successfully"
  const NotCreated: string := "Video file was not created successfully"
  const InvalidImage: string := "Invalid image dimensions"
  const InvalidAudio: string := "Invalid audio file duration"

  /** Python truthiness of the `duration` argument: `None` and `0` are false. */
  predicate Truthy(duration: Option<real>) {
    duration.Some? && duration.value != 0.0
  }

  /** `min(duration, audio_duration) if duration else audio_duration`. */
  function FinalDuration(duration: Option<real>, audioDuration: real): (d: real)
    ensures d <= audioDuration
    ensures Truthy(duration) ==> d <= duration.value
    ensures d == audioDuration || (Truthy(duration) && d == duration.value)
  {
    if Truthy(duration) then
      (if audioDuration < duration.value then audioDuration else duration.value)
    else audioDuration
  }

  /** The `except` branch: remove the output if it exists and report the exception's text. */
  function Abort(paths: set<Path>, outputPath: Path, message: string, tracks: Option<Tracks>): (r: Result)
    ensures !r.ok && outputPath !in r.paths
  {
    Result(false, ErrorPrefix + message, paths - {outputPath}, tracks)
  }

  /** Every check before writing passes: both files exist, the image loads with non-zero dimensions
      and the audio loads with a non-zero duration. */
  predicate Checked(paths: set<Path>, imagePath: Path, audioPath: Path, media: Media) {
    && imagePath in paths && audioPath in paths
    && media.image.Loaded? && media.image.value.width != 0 && media.image.value.height != 0
    && media.audio.Loaded? && media.audio.value != 0.0
  }

  /** The whole function, over the paths that exist when it is called. */
  function Compose(paths: set<Path>, imagePath: Path, audioPath: Path, outputPath: Path,
                   volume: real, duration: Option<real>, media: Media): (r: Result)
    ensures r.tracks.Some? ==>
      && r.tracks.value.videoDuration == r.tracks.value.audioDuration
      && r.tracks.value.volume == volume
      && media.audio.Loaded? && 0.0 != media.audio.value
      && r.tracks.value.videoDuration == FinalDuration(duration, media.audio.value)
    ensures r.ok ==> r.tracks.Some? && outputPath in r.paths && r.message == Created
    ensures r.ok <==> Checked(paths, imagePath, audioPath, media)
                      && media.render.Rendered? && (media.render.created || outputPath in paths)
    ensures Checked(paths, imagePath, audioPath, media) && media.render.Rendered? && !r.ok
            ==> r.message == NotCreated
    ensures imagePath in paths && audioPath in paths && media.image.Raised?
            ==> r.message == ErrorPrefix + media.image.message
    ensures imagePath in paths && audioPath in paths
            && media.image.Loaded? && media.image.value.width != 0 && media.image.value.height != 0
            && media.audio.Raised?
            ==> r.message == ErrorPrefix + media.audio.message
    ensures Checked(paths, imagePath, audioPath, media) && media.render.RenderRaised?
            ==> r.message == ErrorPrefix + media.render.message
  {
    if imagePath !in paths then Result(false, "Image file not found: " + imagePath, paths, None)
    else if audioPath !in paths then Result(false, "Audio file not found: " + audioPath, paths, None)
    else match media.image
      case Raised(m) => Abort(paths, outputPath, m, None)
      case Loaded(size) =>
        if size.width == 0 || size.height == 0 then Result(false, InvalidImage, paths, None)
        else match media.audio
          case Raised(m) => Abort(paths, outputPath, m, None)
          case Loaded(audioDuration) =>
            if audioDuration == 0.0 then Result(false, InvalidAudio, paths, None)
            else
              var d := FinalDuration(duration, audioDuration);
              var tracks := Some(Tracks(d, d, volume));
              match media.render
              case RenderRaised(m, partial) =>
                Abort(if partial then paths + {outputPath} else paths, outputPath, m, tracks)
              case Rendered(created) =>
                var written := if created then paths + {outputPath} else paths;
                if outputPath !in written then Result(false, NotCreated, written, tracks)
                else Result(true, Created, written, tracks)
  }

  /** The checks run in order and each failure returns at once with its own message, touching nothing. */
  lemma ValidationOrder(paths: set<Path>, imagePath: Path, audioPath: Path, outputPath: Path,
                        volume: real, duration: Option<real>, media: Media)
    ensures var r := Compose(paths, imagePath, audioPath, outputPath, volume, duration, media);
      && (imagePath !in paths ==>
            r == Result(false, "Image file not found: " + imagePath, paths, None))
      && (imagePath in paths && audioPath !in paths ==>
            r == Result(false, "Audio file not found: " + audioPath, paths, None))
      && (imagePath in paths && audioPath in paths && media.image.Loaded?
          && (media.image.value.width == 0 || media.image.value.height == 0) ==>
            r == Result(false, InvalidImage, paths, None))
      && (imagePath in paths && audioPath in paths && media.image.Loaded?
          && media.image.value.width != 0 && media.image.value.height != 0
          && media.audio.Loaded? && media.audio.value == 0.0 ==>
            r == Result(false, InvalidAudio, paths, None))
  {}

  /** `FinalDuration`'s bounds restated in the form app.py:26 is usually quoted: never above the audio,
      nor above a positive requested duration; the audio's own length with no usable request, and
      otherwise the smaller of the two (ties going to the request). */
  lemma FinalDurationBounds(duration: Option<real>, audioDuration: real)
    ensures FinalDuration(duration, audioDuration) <= audioDuration
    ensures duration.Some? && duration.value > 0.0 ==> FinalDuration(duration, audioDuration) <= duration.value
    ensures !Truthy(duration) ==> FinalDuration(duration, audioDuration) == audioDuration
    ensures Truthy(duration) ==>
      FinalDuration(duration, audioDuration) == (if duration.value <= audioDuration then duration.value else audioDuration)
  {}

  /** Only the output path can change. A failure never leaves behind an output file that was not there
      before, and a failure reported as an exception leaves no output file at all. */
  lemma FailureLeavesNoOutput(paths: set<Path>, imagePath: Path, audioPath: Path, outputPath: Path,
                              volume: real, duration: Option<real>, media: Media)
    ensures var r := Compose(paths, imagePath, audioPath, outputPath, volume, duration, media);
      && r.paths - {outputPath} == paths - {outputPath}
      && (!r.ok && outputPath in r.paths ==> outputPath in paths)
      && (!r.ok && IsPrefix(ErrorPrefix, r.message) ==> outputPath !in r.paths)
  {
    var r := Compose(paths, imagePath, audioPath, outputPath, volume, duration, media);
    if !r.ok && IsPrefix(ErrorPrefix, r.message) {
      assert r.message[0] == 'E' by {
        assert r.message[..|ErrorPrefix|][0] == ErrorPrefix[0];
      }
    }
  }

  predicate IsPrefix(prefix: string, s: string) {
    |prefix| <= |s| && s[..|prefix|] == prefix
  }

  /** `create_portrait_video(image_path, audio_path, output_path, volume, duration)` over `fs`. */
  method CreatePortraitVideo(fs: FileSystem, imagePath: Path, audioPath: Path, outputPath: Path,
                             volume: real, duration: Option<real>, media: Media)
    returns (ok: bool, message: string)
    modifies fs
    ensures var r := Compose(old(fs.paths), imagePath, audioPath, outputPath, volume, duration, media);
      ok == r.ok && message == r.message && fs.paths == r.paths
  {
    if !fs.Exists(imagePath) {
      return false, "Image file not found: " + imagePath;
    }
    if !fs.Exists(audioPath) {
      return false, "Audio file not found: " + audioPath;
    }
    var error: Option<string> := None;
    match media.image {
      case Raised(m) => error := Some(m);
      case Loaded(size) =>
        if size.width == 0 || size.height == 0 {
          return false, InvalidImage;
        }
        match media.audio {
          case Raised(m) => error := Some(m);
          case Loaded(audioDuration) =>
            if audioDuration == 0.0 {
              return false, InvalidAudio;
            }
            match media.render {
              case RenderRaised(m, partial) =>
                if partial {
                  fs.Create(outputPath);
                }
                error := Some(m);
              case Rendered(created) =>
                if created {
                  fs.Create(outputPath);
                }
                if !fs.Exists(outputPath) {
                  return false, NotCreated;
                }
                return true, Created;
            }
        }
    }
    // The `except` branch.
    if fs.Exists(outputPath) {
      fs.Remove(outputPath);
    }
    return false, ErrorPrefix + error.value;
  }
}
