/** The `POST /image-to-video` handler of app.py (`imageToVideo`, lines 73-137): validate the JSON
    body, download the image and then the audio into a fresh temporary directory, compose a ten-second
    video and answer with the file or an error; once created, the temporary directory is removed on every exit. */
module Handler {
  import opened Outcomes
  import opened Files
  import Composer

  /** `request.get_json()`: no body, or the decoded object with its string fields. */
  type Body = Option<map<string, string>>

  /** `download_file(url, local_path)`: whether it succeeded, and its error message. */
  type Fetcher = (string, Path) -> (bool, string)

  datatype Response =
    | SendFile(path: Path, mimetype: string, downloadName: string)
    | Json(status: int, success: bool, message: string, url: Option<string>)

  /** One entry of the download list: which URL goes to which local file, and what it is called. */
  datatype Job = Job(url: string, localPath: Path, fileType: string)

  /** After the download loop: the job that failed and its error, if one did; the paths that exist;
      and the URLs fetched so far, in order. */
  datatype Downloads = Downloads(failed: Option<(Job, string)>, paths: set<Path>, fetched: seq<string>)

  /** What the handler does: its response, the paths left afterwards, the URLs it fetched in order,
      and the composer's result when the composer was called. */
  datatype Handled = Handled(response: Response, paths: set<Path>, fetched: seq<string>,
                             composed: Option<Composer.Result>)

  const NoJson: string := "No JSON data received"
  const MissingFields: string := "Missing required fields: 'image_url' and/or 'audio_url'"
  const FixedVolume: real := 1.0
  const FixedDuration: real := 10.0

  function ImagePath(tempDir: Path): Path { Join(tempDir, "input_image.png") }
  function AudioPath(tempDir: Path): Path { Join(tempDir, "input_audio.mp3") }
  function OutputPath(tempDir: Path): Path { Join(tempDir, "output_video.mp4") }

  /** The download list, image first. */
  function Jobs(data: map<string, string>, tempDir: Path): (r: seq<Job>)
    requires "image_url" in data && "audio_url" in data
    ensures |r| == 2 && r[0].fileType == "image" && r[1].fileType == "audio"
    ensures r[0].url == data["image_url"] && r[1].url == data["audio_url"]
    ensures forall j :: j in r ==> Under(j.localPath, tempDir) && j.localPath != tempDir
    ensures r[0].localPath != r[1].localPath
  {
    [Job(data["image_url"], ImagePath(tempDir), "image"), Job(data["audio_url"], AudioPath(tempDir), "audio")]
  }

  /** The download loop: fetch each job in turn, creating its file, and stop at the first failure. */
  function RunDownloads(jobs: seq<Job>, fetch: Fetcher, paths: set<Path>, fetched: seq<string>): (d: Downloads)
    ensures |d.fetched| <= |fetched| + |jobs|
    ensures d.failed.None? ==> |d.fetched| == |fetched| + |jobs|
    decreases |jobs|
  {
    if jobs == [] then Downloads(None, paths, fetched)
    else
      var (ok, error) := fetch(jobs[0].url, jobs[0].localPath);
      if !ok then Downloads(Some((jobs[0], error)), paths, fetched + [jobs[0].url])
      else RunDownloads(jobs[1..], fetch, paths + {jobs[0].localPath}, fetched + [jobs[0].url])
  }

  /** The downloads fetch a prefix of the jobs' URLs in order; the failing job, if any, is the last
      one fetched and its fetch reported failure, and every job before it succeeded and left its file. */
  lemma {:induction false} RunDownloadsFetchesInOrder(jobs: seq<Job>, fetch: Fetcher, paths: set<Path>,
                                                      fetched: seq<string>)
    ensures var d := RunDownloads(jobs, fetch, paths, fetched);
      var n := |d.fetched| - |fetched|;
      && 0 <= n <= |jobs|
      && d.fetched[..|fetched|] == fetched
      && (forall i :: 0 <= i < n ==> d.fetched[|fetched| + i] == jobs[i].url)
      && (forall i :: 0 <= i < n && (d.failed.None? || i < n - 1) ==>
            fetch(jobs[i].url, jobs[i].localPath).0 && jobs[i].localPath in d.paths)
      && (d.failed.Some? ==> 0 < n && d.failed.value.0 == jobs[n - 1]
                             && fetch(jobs[n - 1].url, jobs[n - 1].localPath) == (false, d.failed.value.1))
      && (d.failed.None? ==> n == |jobs|)
  {
    if jobs != [] {
      var (ok, error) := fetch(jobs[0].url, jobs[0].localPath);
      if ok {
        var rest := fetched + [jobs[0].url];
        RunDownloadsFetchesInOrder(jobs[1..], fetch, paths + {jobs[0].localPath}, rest);
        var d := RunDownloads(jobs[1..], fetch, paths + {jobs[0].localPath}, rest);
        assert d.fetched[..|rest|] == rest;
        assert d.fetched[..|fetched|] == rest[..|fetched|];
        RunDownloadsKeepsPaths(jobs[1..], fetch, paths + {jobs[0].localPath}, rest);
      }
    }
  }

  /** The downloads only ever add files. */
  lemma {:induction false} RunDownloadsKeepsPaths(jobs: seq<Job>, fetch: Fetcher, paths: set<Path>,
                                                  fetched: seq<string>)
    ensures paths <= RunDownloads(jobs, fetch, paths, fetched).paths
    ensures RunDownloads(jobs, fetch, paths, fetched).paths - paths <= set j | j in jobs :: j.localPath
    decreases |jobs|
  {
    if jobs != [] {
      var (ok, error) := fetch(jobs[0].url, jobs[0].localPath);
      if ok {
        RunDownloadsKeepsPaths(jobs[1..], fetch, paths + {jobs[0].localPath}, fetched + [jobs[0].url]);
        assert jobs[0].localPath in set j | j in jobs :: j.localPath;
        assert (set j | j in jobs[1..] :: j.localPath) <= set j | j in jobs :: j.localPath;
      }
    }
  }

  /** One successful download: its file now exists and the loop goes on with the next job. */
  lemma RunDownloadsStep(jobs: seq<Job>, fetch: Fetcher, paths: set<Path>, fetched: seq<string>)
    requires jobs != [] && fetch(jobs[0].url, jobs[0].localPath).0
    ensures RunDownloads(jobs, fetch, paths, fetched)
         == RunDownloads(jobs[1..], fetch, paths + {jobs[0].localPath}, fetched + [jobs[0].url])
  {}

  /** The handler as a whole, over the paths that exist when the request arrives; `tempDir` is the
      directory `tempfile.mkdtemp` creates. */
  function Handle(paths: set<Path>, body: Body, tempDir: Path, fetch: Fetcher, media: Composer.Media): (h: Handled)
    ensures h.response.SendFile? <==> h.composed.Some? && h.composed.value.ok
    ensures h.response.Json? ==> !h.response.success && h.response.status in {400, 500}
    ensures h.response.Json? && h.response.status == 500 <==> h.composed.Some? && !h.composed.value.ok
    ensures tempDir in h.paths ==> h.paths == paths && h.fetched == []
  {
    if body.None? || |body.value| == 0 then Handled(Json(400, false, NoJson, None), paths, [], None)
    else if "image_url" !in body.value || "audio_url" !in body.value then
      Handled(Json(400, false, MissingFields, None), paths, [], None)
    else
      var run := RunDownloads(Jobs(body.value, tempDir), fetch, paths + {tempDir}, []);
      if run.failed.Some? then
        var (job, error) := run.failed.value;
        Handled(Json(400, false, "Failed to download " + job.fileType + ": " + error, Some(job.url)),
                WithoutTree(run.paths, tempDir), run.fetched, None)
      else
        var c := Composer.Compose(run.paths, ImagePath(tempDir), AudioPath(tempDir), OutputPath(tempDir),
                                  FixedVolume, Some(FixedDuration), media);
        var response :=
          if c.ok && OutputPath(tempDir) in c.paths then SendFile(OutputPath(tempDir), "video/mp4", "output_video.mp4")
          else Json(500, false, "Video creation failed: " + c.message, None);
        Handled(response, WithoutTree(c.paths, tempDir), run.fetched, Some(c))
  }

  /** A missing or empty body, or one without both URL fields, is refused with 400 before anything
      is downloaded or created. */
  lemma RejectsBadBody(paths: set<Path>, body: Body, tempDir: Path, fetch: Fetcher, media: Composer.Media)
    ensures var h := Handle(paths, body, tempDir, fetch, media);
      && (body.None? || |body.value| == 0 ==> h.response == Json(400, false, NoJson, None))
      && (body.Some? && |body.value| > 0 && ("image_url" !in body.value || "audio_url" !in body.value) ==>
            h.response == Json(400, false, MissingFields, None))
      && (body.None? || |body.value| == 0 || "image_url" !in body.value || "audio_url" !in body.value ==>
            h.paths == paths && h.fetched == [] && h.composed.None?)
  {}

  /** The image is downloaded first; if it fails the answer is 400 naming the image and its URL and the
      audio is never fetched. Otherwise the audio is fetched, and its failure is answered the same way. */
  lemma DownloadsImageThenAudio(paths: set<Path>, data: map<string, string>, tempDir: Path,
                                fetch: Fetcher, media: Composer.Media)
    requires "image_url" in data && "audio_url" in data
    ensures var h := Handle(paths, Some(data), tempDir, fetch, media);
      var image, audio := data["image_url"], data["audio_url"];
      var gotImage, gotAudio := fetch(image, ImagePath(tempDir)), fetch(audio, AudioPath(tempDir));
      && (!gotImage.0 ==>
            && h.response == Json(400, false, "Failed to download image: " + gotImage.1, Some(image))
            && h.fetched == [image] && h.composed.None?)
      && (gotImage.0 && !gotAudio.0 ==>
            && h.response == Json(400, false, "Failed to download audio: " + gotAudio.1, Some(audio))
            && h.fetched == [image, audio] && h.composed.None?)
      && (gotImage.0 && gotAudio.0 ==> h.fetched == [image, audio] && h.composed.Some?)
  {
    var jobs := Jobs(data, tempDir);
    var p0 := paths + {tempDir};
    var image, audio := data["image_url"], data["audio_url"];
    if fetch(image, ImagePath(tempDir)).0 {
      var p1 := p0 + {ImagePath(tempDir)};
      RunDownloadsStep(jobs, fetch, p0, []);
      assert [] + [image] == [image];
      if fetch(audio, AudioPath(tempDir)).0 {
        RunDownloadsStep(jobs[1..], fetch, p1, [image]);
        assert jobs[1..][1..] == [];
      }
    }
  }

  /** Once both files are downloaded, the composer is called on them with volume 1.0 and duration 10
      whatever the request holds, so the video and its audio last min(10, audio length) seconds; the
      file is sent exactly when the composer succeeded and the output exists, otherwise the answer is
      500 carrying the composer's message. */
  lemma ComposesTenSecondsAtMost(paths: set<Path>, data: map<string, string>, tempDir: Path,
                                 fetch: Fetcher, media: Composer.Media)
    requires "image_url" in data && "audio_url" in data
    requires fetch(data["image_url"], ImagePath(tempDir)).0 && fetch(data["audio_url"], AudioPath(tempDir)).0
    ensures var h := Handle(paths, Some(data), tempDir, fetch, media);
      && h.composed.Some?
      && var c := h.composed.value;
      && c == Composer.Compose(paths + {tempDir, ImagePath(tempDir), AudioPath(tempDir)},
                               ImagePath(tempDir), AudioPath(tempDir), OutputPath(tempDir),
                               1.0, Some(10.0), media)
      && (c.tracks.Some? ==> c.tracks.value.volume == 1.0
                             && c.tracks.value.videoDuration == c.tracks.value.audioDuration <= 10.0)
      && (h.response.SendFile? <==> c.ok)
      && (h.response.SendFile? ==> h.response == SendFile(OutputPath(tempDir), "video/mp4", "output_video.mp4"))
      && (!c.ok ==> h.response == Json(500, false, "Video creation failed: " + c.message, None))
  {
    var jobs := Jobs(data, tempDir);
    var image, audio := data["image_url"], data["audio_url"];
    var p1 := paths + {tempDir} + {ImagePath(tempDir)};
    RunDownloadsStep(jobs, fetch, paths + {tempDir}, []);
    assert [] + [image] == [image];
    RunDownloadsStep(jobs[1..], fetch, p1, [image]);
    assert jobs[1..][1..] == [];
    assert p1 + {AudioPath(tempDir)} == paths + {tempDir, ImagePath(tempDir), AudioPath(tempDir)};
  }

  /** Fields other than the two URLs (`duration`, `volume`, anything else) change nothing. */
  lemma IgnoresOtherFields(paths: set<Path>, data: map<string, string>, key: string, value: string,
                           tempDir: Path, fetch: Fetcher, media: Composer.Media)
    requires |data| > 0
    requires key != "image_url" && key != "audio_url"
    ensures Handle(paths, Some(data[key := value]), tempDir, fetch, media)
         == Handle(paths, Some(data), tempDir, fetch, media)
  {}


  /** Given a fresh temporary directory, the request leaves the filesystem exactly as it found it. */
  lemma LeavesNoTrace(paths: set<Path>, body: Body, tempDir: Path, fetch: Fetcher, media: Composer.Media)
    requires tempDir !in paths && forall p :: p in paths ==> !Under(p, tempDir)
    ensures Handle(paths, body, tempDir, fetch, media).paths == paths
  {
    if body.Some? && |body.value| > 0 && "image_url" in body.value && "audio_url" in body.value {
      var jobs := Jobs(body.value, tempDir);
      var run := RunDownloads(jobs, fetch, paths + {tempDir}, []);
      RunDownloadsKeepsPaths(jobs, fetch, paths + {tempDir}, []);
      var locals := set j | j in jobs :: j.localPath;
      assert locals <= {ImagePath(tempDir), AudioPath(tempDir)} by {
        forall j | j in jobs ensures j.localPath in {ImagePath(tempDir), AudioPath(tempDir)} {
          assert j == jobs[0] || j == jobs[1];
        }
      }
      assert Under(ImagePath(tempDir), tempDir) && Under(AudioPath(tempDir), tempDir);
      forall p | p in run.paths ensures p in paths || p == tempDir || Under(p, tempDir) {
        if p !in paths + {tempDir} {
          assert p in locals;
        }
      }
      if run.failed.None? {
        var c := Composer.Compose(run.paths, ImagePath(tempDir), AudioPath(tempDir), OutputPath(tempDir),
                                  FixedVolume, Some(FixedDuration), media);
        Composer.FailureLeavesNoOutput(run.paths, ImagePath(tempDir), AudioPath(tempDir), OutputPath(tempDir),
                                       FixedVolume, Some(FixedDuration), media);
        assert Under(OutputPath(tempDir), tempDir);
        assert forall p :: p in c.paths ==> p in paths || p == tempDir || Under(p, tempDir);
        assert paths <= c.paths;
      }
    }
  }

  /** The `imageToVideo` view function over `fs`. Returns the response and, as a trace, the URLs it
      downloaded in order. */
  method ImageToVideo(fs: FileSystem, body: Body, tempDir: Path, fetch: Fetcher, media: Composer.Media)
    returns (response: Response, ghost fetched: seq<string>)
    modifies fs
    ensures var h := Handle(old(fs.paths), body, tempDir, fetch, media);
      response == h.response && fs.paths == h.paths && fetched == h.fetched
  {
    fetched := [];
    if body.None? || |body.value| == 0 {
      return Json(400, false, NoJson, None), fetched;
    }
    var data := body.value;
    if "image_url" !in data || "audio_url" !in data {
      return Json(400, false, MissingFields, None), fetched;
    }
    fs.Create(tempDir);
    var imagePath, audioPath, outputPath := ImagePath(tempDir), AudioPath(tempDir), OutputPath(tempDir);
    var jobs := [Job(data["image_url"], imagePath, "image"), Job(data["audio_url"], audioPath, "audio")];
    ghost var run := RunDownloads(jobs, fetch, fs.paths, []);
    for i := 0 to |jobs|
      invariant RunDownloads(jobs[i..], fetch, fs.paths, fetched) == run
    {
      var (success, errorMessage) := fetch(jobs[i].url, jobs[i].localPath);
      fetched := fetched + [jobs[i].url];
      if !success {
        response := Json(400, false, "Failed to download " + jobs[i].fileType + ": " + errorMessage, Some(jobs[i].url));
        fs.RemoveTree(tempDir);
        return;
      }
      fs.Create(jobs[i].localPath);
      assert jobs[i..][1..] == jobs[i + 1..];
    }
    var success, message := Composer.CreatePortraitVideo(fs, imagePath, audioPath, outputPath,
                                                         FixedVolume, Some(FixedDuration), media);
    if success && fs.Exists(outputPath) {
      response := SendFile(outputPath, "video/mp4", "output_video.mp4");
    } else {
      response := Json(500, false, "Video creation failed: " + message, None);
    }
    fs.RemoveTree(tempDir);
  }
}
