# Portrait video composer — a Dafny model

This project models the decision and geometry logic of a small HTTP service that turns a still image
and an audio clip into a portrait (1080×1920) video. It has two composers and one request handler.

- `video.py` holds an OpenCV composer, `create_portrait_video`. It loads the image and scales it
  uniformly by `min(1080/w, 1920/h)`. It truncates the scaled size to whole pixels and centres the
  result on a zero-initialised 1920×1080×3 canvas, using floor division for the offsets. The frame is
  held for `duration` seconds at 30 fps. The audio is trimmed with `subclip(0, duration)` when it is
  longer than that, and extended to `duration` with `set_duration(duration)` otherwise.
- `app.py` holds a moviepy composer of the same name. It checks, in order, that the image file exists,
  that the audio file exists, that the image has non-zero width and height, and that the audio has a
  non-zero duration. It then sets both the video and the audio track to
  `min(duration, audio_duration) if duration else audio_duration` and writes the file. On any
  exception it removes the output file.
- `app.py` also holds the `POST /image-to-video` handler. It rejects an empty or incomplete JSON body
  with 400. It downloads the image and then the audio into a fresh temporary directory, answering 400
  at the first failed download. It calls the composer with `volume=1.0, duration=10`. It answers with
  the file, or with 500 carrying the composer's message. Once it has created the temporary directory, it removes
  it on every exit.

Files and modules:

- `outcomes.dfy`, module `Outcomes`: `Option`, and `Load`, which is a library call's value or the
  text of the exception it raised.
- `frame.dfy`, module `Frame`: scale, size and offsets over exact reals, and the lemmas about them.
  It also holds the canvas, an `array3<uint8>`, with the in-place blit.
- `video.py` is modelled by `video.dfy`, module `Video`: the composer's flow as a function, the
  audio fit, and the method that builds the frame.
- `files.dfy`, module `Files`: the filesystem as a class holding a set of existing paths, with
  `os.path.join` and `shutil.rmtree`.
- `app.py`'s composer is modelled by `composer.dfy`, module `Composer`.
- `app.py`'s handler is modelled by `handler.dfy`, module `Handler`.

Each imperative method (`Blit`, the two `CreatePortraitVideo`s, `ImageToVideo`) is proved equal to a
pure function of its inputs and old state. The properties are proved as lemmas about those
functions.

Every library call whose behaviour cannot be seen is a parameter carrying its outcome:

- `cv2.imread` is an `Option<Image>`.
- `cv2.resize` is a function from target size to a pixel grid of that shape, plus the text it raises
  for a zero-sized target.
- `AudioFileClip` and `ImageClip` are `Load` values in the app.py composer. In the video.py composer,
  `writeError` is the exception raised after the audio has loaded (video.py:48-74).
- Writing the clip is a `Render` outcome: it created the file or not, or it raised, possibly leaving
  a partial file behind.
- `download_file` is a function from URL and local path to `(success, error_message)`. A success creates the local
  file.
- `tempfile.mkdtemp` is the `tempDir` parameter. The directory it names is added to the paths.

Behaviour of the code worth noting:

- The handler ignores any `duration` or `volume` in the request and always passes 10 and 1.0. This is
  proved in `Handler.IgnoresOtherFields` and `Handler.ComposesTenSecondsAtMost`.
- The video.py composer does not validate dimensions or duration, and does not reconcile the duration
  with the audio length. The video is always `duration` long. An image with no pixels never reaches the
  scale computation, because `cv2.imread` returns `None` for it ("Failed to load image").
- The video.py composer does not remove output on failure.
- The app.py composer returns its "Invalid image dimensions" and "Invalid audio file duration" results
  without removing the output. Only the `except` branch removes it.
- app.py binds no names at module level: `Flask`, `request`, `jsonify`, `send_file`, `tempfile`,
  `os` and `download_file` are used by the handler but never imported there (`os` is imported only
  inside the composer, app.py:7). The model assumes these names resolve to the usual library calls.
- The two composers use different frame rates (30 in video.py, 24 in app.py). Only video.py's frame
  rate is recorded, in its `Clip`.

## Model

| member | source | states |
|---|---|---|
| `Frame.Scale` | video.py:26 | The scale is positive, is one of the two per-axis ratios, and is no larger than either. |
| `Frame.ScaleIsLargestFit` | video.py:25-26 | The scale fits the image inside the canvas, and every uniform scale that fits is no larger: letterbox, not crop. |
| `Frame.Place` | video.py:26-38 | `int()` truncation: each scaled size is the largest whole number not above the exact scaled length. Floor division: each offset is half the remaining margin, rounded down. |
| `Frame.PlaceFits` | video.py:19-28 | The truncated scaled size satisfies `0 <= new_width <= 1080` and `0 <= new_height <= 1920`. |
| `Frame.PlaceFillsConstrainedAxis` | video.py:25-28 | In exact arithmetic, `new_width == 1080` when `1080/w <= 1920/h`, and `new_height == 1920` otherwise. |
| `Frame.PlaceCentred` | video.py:36-38 | The offsets are non-negative and the block lies inside the canvas. On each axis the two margins differ by 0 or 1, because of the floor division. |
| `Frame.SquarePlacement` | video.py:26-38 | A square image of any size becomes 1080×1080 at offset (0, 420), with equal bars of 420 rows above and below. |
| `Frame.BlackCanvas` | video.py:33-34 | A fresh 1920×1080×3 canvas in which every value is 0. |
| `Frame.Blit` | video.py:39 | After the slice assignment, every value inside the block equals `resized[y-start_y][x-start_x][k]` and every value outside is unchanged. |
| `Frame.RenderFrame` | video.py:26-39 | The frame has shape 1920×1080×3, holds the resized image at the centred placement, and is 0 everywhere else. |
| `Video.FitAudio` | video.py:53-57 | The audio is cut with `subclip` exactly when its duration exceeds `duration`, and the cut starts at time 0. |
| `Video.FitAudioMatchesVideo` | video.py:47-57 | For a non-negative `duration`, either branch gives a track exactly `duration` long, the length the video is set to. A subclip starts at 0, so the track plays the first `min(audio, duration)` seconds of the source. |
| `Video.Compose` | video.py:9-79 | A failed `imread` gives `(False, "Failed to load image")`. A clip is created exactly when the image loads with a non-empty scaled size, the audio loads, and writing raises nothing. A created clip is exactly the one video.py builds: the centred `Place` of the image, `duration` seconds long, the audio fitted by `FitAudio`, at 30 fps. So its scaled block lies inside the canvas, fills one canvas axis, and has a fitted audio track of length `duration` (see Left out for negative durations). |
| `Video.Report` | video.py:76-79 | `True` exactly for a created clip. A failure carries its own message. |
| `Video.ReportsEachStep` | video.py:9-79 | The pair reports success exactly when the canvas is built, the audio loads and writing raises nothing. Each failure reports the text of its step, in order: "Failed to load image", then "Error creating video: " followed by the resize error, the audio error, or the write error. |
| `Video.CreatePortraitVideo` | video.py:5-79 | Returns the pair `Compose` gives. The canvas is built exactly when the image loaded with a non-empty scaled size. It is then the centred letterboxed frame on black. |
| `Files.Join` | app.py:92-94 | `os.path.join(dir, name)` names a path inside `dir`, distinct from it. |
| `Files.WithoutTree` | app.py:131-137 | `rmtree(dir)` keeps exactly the paths that are neither `dir` nor below it. |
| `Files.FileSystem.Remove` | app.py:61-63 | `os.remove` removes exactly that path. |
| `Files.FileSystem.RemoveTree` | app.py:133-135 | The paths afterwards are those `WithoutTree` keeps. |
| `Composer.FinalDuration` | app.py:26 | The result never exceeds the audio duration. It is at most `duration` when `duration` is truthy. It is always either the audio duration or the requested one. |
| `Composer.FinalDurationBounds` | app.py:25-26 | With a positive request the result is at most both durations. With `None` or 0 it is the audio's own length. Otherwise it is the smaller of the two. |
| `Composer.Abort` | app.py:59-67 | The `except` branch fails and leaves no output file. |
| `Composer.Compose` | app.py:1-67 | Success happens exactly when both files exist, the image loads with non-zero dimensions, the audio loads with non-zero duration, and writing returns with the output file present. When writing returns without that file, the message is "Video file was not created successfully". Each exception (image, audio or write) is reported as "Error creating video: " plus its text. Whenever the tracks are set, video and audio get the same `final_duration` and the volume is passed through. Success implies the output exists. |
| `Composer.ValidationOrder` | app.py:9-23 | The checks run in a fixed order: image file, audio file, image dimensions, audio duration. Each failure returns its own message at once, with the paths unchanged. |
| `Composer.FailureLeavesNoOutput` | app.py:54-67 | Only the output path can change. A failure never leaves an output file that was not already there. A failure reported as an exception leaves no output file. |
| `Composer.CreatePortraitVideo` | app.py:1-67 | The pair it returns and the paths afterwards are exactly those `Compose` gives for the paths before. |
| `Handler.Jobs` | app.py:92-100 | Two jobs, the image first and then the audio, each with its request URL and a distinct local path inside the temporary directory. |
| `Handler.RunDownloads` | app.py:96-107 | The download loop fetches at most one URL per job. With no failure it fetches every job. |
| `Handler.RunDownloadsFetchesInOrder` | app.py:96-107 | The URLs are fetched in list order. Every job before the failing one succeeded and left its file. The failing job is the last one fetched and its error is the one reported. |
| `Handler.RunDownloadsKeepsPaths` | app.py:96-107 | Downloads only add paths, and only the jobs' local paths. |
| `Handler.RejectsBadBody` | app.py:75-87 | A missing or empty body gives 400 "No JSON data received". A body without both URL fields gives 400 with the missing-fields message. Neither downloads or creates anything. |
| `Handler.DownloadsImageThenAudio` | app.py:96-107 | The image is fetched first. Its failure gives 400 naming the image and its URL, and the audio is never fetched. Otherwise the audio is fetched, and its failure is answered the same way. |
| `Handler.ComposesTenSecondsAtMost` | app.py:109-129 | After both downloads the composer runs with `volume=1.0, duration=10`, so both tracks last the same length of at most 10 s. The file is sent exactly when the composer succeeds. Otherwise the answer is 500 "Video creation failed: …". |
| `Handler.IgnoresOtherFields` | app.py:83-116 | For a non-empty body, adding or changing any field other than the two URLs changes nothing the handler does. |
| `Handler.LeavesNoTrace` | app.py:89-137 | Given a fresh temporary directory, the paths after the request are exactly the paths before it. |
| `Handler.Handle` | app.py:75-137 | The file is sent exactly when the composer ran and succeeded. Every JSON answer is a failure with status 400 or 500, and 500 happens exactly when the composer ran and failed. The temporary directory survives only when the request was rejected before it was made and nothing was fetched. |
| `Handler.ImageToVideo` | app.py:73-137 | The response, the paths afterwards and the URLs fetched in order are exactly those `Handle` gives. |

## Left out

- moviepy and OpenCV internals: `ImageClip`, `AudioFileClip`, `write_videofile`, the Lanczos resampling, the BGR→RGB conversion, and the codec, bitrate and preset parameters. They are foreign library calls. Their outcomes are parameters, and the resampled pixels are an oracle.
- `volumex` sample scaling. It is floating-point audio processing inside the library. The app.py model only records the volume factor passed on.
- IEEE-754 rounding of `src_width * scale`. The model uses exact reals. In floating point the product can fall just below 1080 or 1920 and truncate one pixel short, which `Frame.PlaceFillsConstrainedAxis` does not capture.
- Python's `int()` truncates toward zero, and `.Floor` agrees with it because the products are never negative.
- Frame rate and the `ImageClip` of the canvas: the video.py clip records the 30 fps constant, and nothing else about encoding is modelled.
- Video.FitAudioMatchesVideo: requires `duration >= 0`. With a negative end, moviepy's `subclip` counts from the end of the clip, and that is not modelled.
- Video.Compose: its audio-length clause holds of the modelled `Subclip(0, duration)` for every `duration`. For a negative `duration` moviepy would cut to a different length, counting from the end of the clip, so the clause matches the source only for `duration >= 0`.
- `ImageClip(canvas)` raising in the video.py composer (video.py:42) is not modelled. It runs before
  `AudioFileClip`, so if both would raise, the source reports the `ImageClip` error, whereas the model has
  no such outcome and reports the audio error.
- `download_file` itself, the Flask routing and `send_file`: these are I/O and framework plumbing. A failed download is assumed to leave no file. A successful one creates its local path.
- The generic `Server error` wrapper (app.py:139-143) and `request.get_json` raising on a malformed body: these are framework exception paths and are not modelled.
- An `os.remove` that itself fails inside the `except` branch is silently ignored by the source. The model assumes the removal succeeds.
- The temporary audio file `temp-audio.m4a` that moviepy writes beside the output is not part of the path set.
- JSON values other than strings: the body is a map from strings to strings.
