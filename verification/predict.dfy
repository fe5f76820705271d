/** The decisions of the `/predict/` endpoint: which branch an upload takes,
    how per-frame detections are gathered and de-duplicated, and the JSON
    object returned. The detector, the file system and ffmpeg are not
    modelled; what they produce is passed in as an `Inference`. */
module Predict {
  import opened Wrappers
  import opened Text
  import opened Detections
  import opened Dedup

  /** Extensions (lower case, with the dot) that select the video branch. */
  const VideoExtensions: seq<string> := [".mp4", ".avi", ".mov", ".mkv"]

  const OutputsPrefix: string := "/outputs/transcoded_"
  const OutputSuffix: string := ".mp4"

  const VideoSuccessMessage: string := "Video berhasil diproses"
  const VideoNotFoundError: string := "Hasil deteksi tidak ditemukan"
  const TranscodeError: string := "Gagal melakukan transcoding video"

  /** Whether an upload's file extension selects the video branch; the
      extension is lower-cased before the membership test. */
  predicate IsVideoExtension(ext: string) {
    ToLower(ext) in VideoExtensions
  }

  /** The branch choice ignores letter case, and exactly the four listed
      extensions (in any case) take the video branch. */
  lemma VideoExtensionIgnoresCase(ext: string)
    ensures IsVideoExtension(ext) == IsVideoExtension(ToLower(ext))
    ensures IsVideoExtension(ext) <==>
      ToLower(ext) == ".mp4" || ToLower(ext) == ".avi" || ToLower(ext) == ".mov" || ToLower(ext) == ".mkv"
  {
    ToLowerIdempotent(ext);
  }

  /** The `output_path` of a transcoded video whose saved file had stem `stem`. */
  function OutputPath(stem: string): (path: string)
    ensures |path| == |OutputsPrefix| + |stem| + |OutputSuffix|
  {
    OutputsPrefix + stem + OutputSuffix
  }

  /** Reads the stem back out of an `output_path`. */
  function StemOf(path: string): Option<string> {
    if |path| >= |OutputsPrefix| + |OutputSuffix|
      && path[..|OutputsPrefix|] == OutputsPrefix
      && path[|path| - |OutputSuffix|..] == OutputSuffix
    then Some(path[|OutputsPrefix|..|path| - |OutputSuffix|])
    else None
  }

  /** The stem can be recovered from the path, so different saved videos
      are served under different paths. */
  lemma OutputPathRoundTrip(stem: string)
    ensures StemOf(OutputPath(stem)) == Some(stem)
  {
    var path := OutputPath(stem);
    assert path[..|OutputsPrefix|] == OutputsPrefix;
    assert path[|path| - |OutputSuffix|..] == OutputSuffix;
    assert path[|OutputsPrefix|..|path| - |OutputSuffix|] == stem;
  }

  /** All detections of all frames, frame by frame, skipping frames whose
      boxes are absent. A detection is collected exactly when some frame
      holds it. */
  function Collect(frames: seq<Option<seq<Detection>>>): (r: seq<Detection>)
    ensures forall d :: d in r <==> exists f :: 0 <= f < |frames| && frames[f].Some? && d in frames[f].value
  {
    if |frames| == 0 then []
    else
      var boxes := frames[0].GetOr([]);
      var rest := Collect(frames[1..]);
      assert forall f :: 1 <= f < |frames| ==> frames[f] == frames[1..][f - 1];
      boxes + rest
  }

  /** Collecting a run of frames is collecting each part and concatenating:
      earlier frames come first, and nothing is merged or dropped. */
  lemma {:induction false} CollectAppend(a: seq<Option<seq<Detection>>>, b: seq<Option<seq<Detection>>>)
    ensures Collect(a + b) == Collect(a) + Collect(b)
  {
    if |a| == 0 {
      assert a + b == b;
    } else {
      assert (a + b)[0] == a[0];
      assert (a + b)[1..] == a[1..] + b;
      CollectAppend(a[1..], b);
      assert Collect(a + b) == a[0].GetOr([]) + (Collect(a[1..]) + Collect(b));
    }
  }

  /** One frame contributes exactly its boxes, in their order and with their
      repetitions, or nothing when its boxes are absent. */
  lemma CollectOneFrame(boxes: seq<Detection>)
    ensures Collect([Some(boxes)]) == boxes
    ensures Collect([None]) == []
  {
    assert [Some(boxes)][1..] == [];
  }

  /** Order decides which detection survives de-duplication: of two
      detections with the same grid key in consecutive frames, the one from
      the earlier frame is kept. */
  lemma EarlierFrameWins(a: Detection, b: Detection)
    requires KeyOf(a, DefaultGridSize) == KeyOf(b, DefaultGridSize)
    ensures FilterUnique(Collect([Some([a]), Some([b])]), DefaultGridSize) == [a]
  {
    CollectAppend([Some([a])], [Some([b])]);
    CollectOneFrame([a]);
    CollectOneFrame([b]);
    assert [Some([a]), Some([b])] == [Some([a])] + [Some([b])];
    assert Collect([Some([a]), Some([b])]) == [a, b];
    SameKeyKeepsFirst(a, b, DefaultGridSize);
  }

  /** What the detector, the output folder and ffmpeg produced for one upload. */
  datatype Inference = Inference(
    imageBoxes: seq<Detection>,                  // boxes of the single image result
    videoFrames: seq<Option<seq<Detection>>>,    // boxes of each video frame, if any
    savedVideoStem: Option<string>,              // stem of the annotated video found on disk
    transcodeFailure: Option<string>,            // ffmpeg's error text, if it exited non-zero
    uncaught: bool)                              // an exception escaped the handler

  /** The JSON object `/predict/` answers with, given the upload's extension,
      when no exception escapes the handler. */
  function PredictResponse(ext: string, inference: Inference): (r: Response)
    ensures !IsVideoExtension(ext) ==> r.outputPath.None? && r.result == Some(inference.imageBoxes)
    ensures r.outputPath.Some? <==>
      IsVideoExtension(ext) && inference.savedVideoStem.Some? && inference.transcodeFailure.None?
    ensures r.outputPath.Some? ==>
      && StemOf(r.outputPath.value) == Some(inference.savedVideoStem.value)
      && r.result == Some(FilterUnique(Collect(inference.videoFrames), DefaultGridSize))
    ensures r.result.Some? <==> r.error.None?
  {
    if IsVideoExtension(ext) then
      var unique := FilterUnique(Collect(inference.videoFrames), DefaultGridSize);
      match inference.savedVideoStem
      case None => Response(None, None, None, Some(VideoNotFoundError), None)
      case Some(stem) =>
        if inference.transcodeFailure.Some? then
          Response(None, None, None, Some(TranscodeError), inference.transcodeFailure)
        else
          OutputPathRoundTrip(stem);
          Response(Some(VideoSuccessMessage), Some(OutputPath(stem)), Some(unique), None, None)
    else
      Response(None, None, Some(inference.imageBoxes), None, None)
  }

  /** The body `/predict/` delivers: `None` when an exception escapes the
      handler, so FastAPI answers 500 with a plain-text body that is not
      JSON. Two such exceptions are the detector raising and ffmpeg failing
      to start at all (its executable missing), which is not the
      `CalledProcessError` the handler catches. */
  function PredictBody(ext: string, inference: Inference): Option<Response> {
    if inference.uncaught then None else Some(PredictResponse(ext, inference))
  }
}
