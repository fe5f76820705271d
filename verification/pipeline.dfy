/** The server's responses as the page interprets them: what the viewer
    ends up showing for each branch of `/predict/`, and worked examples. */
module Pipeline {
  import opened Wrappers
  import opened Detections
  import opened Labels
  import opened Dedup
  import opened Predict
  import opened Session
  import opened Overlay

  /** A successfully transcoded video: the page plays
      `http://localhost:3000/outputs/transcoded_{stem}.mp4`, lists the
      de-duplicated detections of all frames, drops the image preview, and
      no two listed detections share a grid key. */
  lemma VideoReplyPlaysTranscodedVideo(s: State, ext: string, inference: Inference)
    requires IsVideoExtension(ext)
    requires inference.savedVideoStem.Some? && inference.transcodeFailure.None?
    ensures var (t, notice) := FinishUpload(s, Parsed(PredictResponse(ext, inference)));
      && t.video == Some(MediaBaseUrl + "/outputs/transcoded_" + inference.savedVideoStem.value + ".mp4")
      && t.predictions == Some(FilterUnique(Collect(inference.videoFrames), DefaultGridSize))
      && t.preview.None? && t.file == s.file && !t.loading
      && notice == Silent
      && forall a, b :: 0 <= a < b < |t.predictions.value| ==>
           KeyOf(t.predictions.value[a], DefaultGridSize) != KeyOf(t.predictions.value[b], DefaultGridSize)
  {
    var stem := inference.savedVideoStem.value;
    var r := PredictResponse(ext, inference);
    assert r.outputPath == Some(OutputPath(stem));
    assert MediaBaseUrl + OutputPath(stem) == MediaBaseUrl + "/outputs/transcoded_" + stem + ".mp4";
    FilterKeysUnique(Collect(inference.videoFrames), DefaultGridSize);
  }

  /** An image upload: the page shows exactly the detector's boxes,
      unfiltered, keeps the preview for the overlay and leaves the video
      untouched. */
  lemma ImageReplyKeepsPreview(s: State, ext: string, inference: Inference)
    requires !IsVideoExtension(ext)
    ensures FinishUpload(s, Parsed(PredictResponse(ext, inference))) ==
      (s.(predictions := Some(inference.imageBoxes), loading := false), Silent)
  {
  }

  /** A failure the server reports as JSON (`{"error": ...}`: no video found,
      or ffmpeg exited non-zero) carries neither field, so the page stores
      nothing and says no detections were found. */
  lemma ErrorReplyStoresNothing(s: State, ext: string, inference: Inference)
    requires IsVideoExtension(ext)
    requires inference.savedVideoStem.None? || inference.transcodeFailure.Some?
    ensures FinishUpload(s, Parsed(PredictResponse(ext, inference))) == (s.(loading := false), NoDetections)
  {
  }

  /** What the page's `fetch` and `res.json()` make of a body: a body that
      is not JSON is a failed request, anything else a parsed object. */
  function Received(body: Option<Response>): Reply {
    match body
    case None => Failed
    case Some(response) => Parsed(response)
  }

  /** An exception escaping `/predict/` reaches the page as a failed request:
      nothing is stored and the send-failure alert is raised, not the
      "no detections" one. Without one, the page interprets exactly the JSON
      object of the branch taken. */
  lemma UncaughtRaiseIsSendFailure(s: State, ext: string, inference: Inference)
    ensures inference.uncaught ==>
      FinishUpload(s, Received(PredictBody(ext, inference))) == (s.(loading := false), SendFailed)
    ensures !inference.uncaught ==>
      Received(PredictBody(ext, inference)) == Parsed(PredictResponse(ext, inference))
  {
  }

  const ExampleBox: Detection := Detection(10.0, 20.0, 50.0, 60.0, 0.9, 2)

  /** `{result: [{bbox: [10, 20, 50, 60], confidence: 0.9, class_id: 2}]}` on a
      previewed image stores one detection, keeps the preview, and the
      overlay strokes a red 40 x 40 box at (10, 20) labelled "Car" at (10, 75). */
  lemma ExampleImageReply(file: File, objectUrl: string, size: ImageSize)
    requires objectUrl != ""
    ensures
      var s := StartUpload(SelectFile(Initial, Some(file), objectUrl));
      var (t, notice) := FinishUpload(s, Parsed(Response(None, None, Some([ExampleBox]), None, None)));
      var drawn := Redraw(t, Some(size));
      && t.predictions == Some([ExampleBox]) && t.preview == Some(objectUrl) && notice == Silent
      && drawn.Some? && |drawn.value| == |Prelude(size)| + 2
      && drawn.value[|Prelude(size)|] == StrokeRect(Red, Rect(10.0, 20.0, 40.0, 40.0))
      && drawn.value[|Prelude(size)| + 1] == FillText(Red, "Car", 10.0, 75.0)
  {
    ClassColor(2);
  }

  /** `{output_path: "/out/vid1.mp4"}` plays `http://localhost:3000/out/vid1.mp4`,
      clears the preview and leaves the detections absent. */
  lemma ExampleVideoReply(file: File, objectUrl: string)
    ensures
      var s := StartUpload(SelectFile(Initial, Some(file), objectUrl));
      var (t, notice) := FinishUpload(s, Parsed(Response(None, Some("/out/vid1.mp4"), None, None, None)));
      && t.video == Some("http://localhost:3000/out/vid1.mp4")
      && t.preview.None? && t.predictions.None? && notice == Silent
  {
    assert MediaBaseUrl + "/out/vid1.mp4" == "http://localhost:3000/out/vid1.mp4";
  }

  /** `{}` changes neither detections nor video and raises the
      "no detections" alert. */
  lemma ExampleEmptyReply(s: State)
    ensures
      var (t, notice) := FinishUpload(s, Parsed(Response(None, None, None, None, None)));
      t.predictions == s.predictions && t.video == s.video && notice == NoDetections
  {
  }
}
