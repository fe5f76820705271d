# Detection viewer and detection de-duplication, modelled in Dafny

This project models the two pieces of real logic in a small object-detection
app. The first is the browser page (`src/app/page.tsx`). It lets a user pick an
image or video, uploads it to `http://127.0.0.1:8000/predict/`, and shows the
result in one of two ways: a labelled overlay on the image, or the processed
video. The second is the `/predict/` endpoint (`backend/main.py`). It chooses the
image or the video branch from the file extension. For a video it collects the
boxes of every frame and keeps only the first detection in each coarse grid
cell of each class (`filter_unique_detections`). It then answers with an
`output_path` to the transcoded video.

Modules, one per concern:

- `Wrappers` (wrappers.dfy): `Option` and `Result`.
- `Text` (text.dfy): lower-casing, and the decimal printing of an integer with a parser that inverts it.
- `Detections` (detections.dfy): the `Detection` payload and the JSON `Response` object.
- `Labels` (labels.dfy): the class-id label table with its `Class {id}` fallback, `getSummary`, and the colour switch.
- `Dedup` (dedup.dfy): `filter_unique_detections`, as a reference function and as the loop as written.
- `Predict` (predict.dfy): the extension test, per-frame collection, `output_path`, and the response of each branch.
- `Session` (session.dfy): the page's state record, its handlers as pure transitions, what the page shows, and event traces.
- `Overlay` (overlay.dfy): the canvas effect, as the sequence of drawing calls it makes.
- `Pipeline` (pipeline.dfy): server responses as the page interprets them, and worked examples.

Calls to code outside the model become parameters:

- `URL.createObjectURL` becomes the `objectUrl` argument.
- The parsed reply, or a network or JSON failure, becomes a `Reply`.
- The loaded image's size becomes `loaded`.
- The detector's boxes, the saved video's stem, ffmpeg exiting non-zero, and whether an exception escaped the handler become an `Inference`.
- Alerts are returned as a `Notice`.

The page follows JavaScript truthiness. An `output_path` counts only when it is
a non-empty string. A `result` counts whenever it is present, even as an empty
list, because every array is truthy.

## Model

| member | source | states |
|---|---|---|
| Labels.LabelOf | src/app/page.tsx:14-26 | Label resolution is total and never empty. The class id can always be read back from the label, so the fallback `Class {id}` never collides with a table entry or another fallback. |
| Labels.LabelTable | src/app/page.tsx:14-21 | Ids 0 to 5 are Person, Bicycle, Car, Motorcycle, Bus and Truck. Every other id gives `"Class " + id`. |
| Labels.LabelInjective | src/app/page.tsx:26 | Two class ids share a label exactly when they are equal. |
| Text.IntToStringRoundTrip | src/app/page.tsx:26 | The decimal text interpolated for an id, with a minus sign when negative, parses back to that id. |
| Labels.Summary | src/app/page.tsx:23-30 | The summary's keys are exactly the labels the detections resolve to, and every count is positive. |
| Labels.SummaryOfEmpty | src/app/page.tsx:23-30 | An empty detection list has an empty summary. |
| Labels.SummaryCounts | src/app/page.tsx:25-28 | A label is in the summary iff some detection resolves to it. Its count equals the number of such detections, counted independently front to back. |
| Labels.SummaryCountsClass | src/app/page.tsx:25-28 | The entry for a class's label counts exactly the detections with that class id. |
| Labels.SummarySumsToLength | src/app/page.tsx:25-28 | The summary's counts add up to the number of detections. |
| Labels.ColorTable | src/app/page.tsx:102-109 | bus is green, person orange, motorcycle blue and bicycle pink, each iff the lower-cased label is that word. Every other label is red, car included. |
| Labels.ColorIgnoresCase | src/app/page.tsx:103 | Labels equal up to letter case get the same colour, and lower-casing first changes nothing. |
| Labels.ClassColor | src/app/page.tsx:100-109 | Per class id: Person orange, Bicycle pink, Car red, Motorcycle blue, Bus green. Truck has no case of its own and is red, and so is every fallback label. |
| Overlay.RectOf | src/app/page.tsx:99-113 | The stroked rectangle starts at (x1, y1) and its opposite corner is (x2, y2). Inverted corners give a negative width or height and are not normalised. |
| Overlay.BoxesCommands | src/app/page.tsx:98-115 | Each detection, in order, draws exactly two calls: its rectangle, then its label. |
| Overlay.Redraw | src/app/page.tsx:82-118 | Drawing happens iff the canvas is shown and the image loaded. The canvas is sized to the image, cleared and redrawn from scratch. Detection k gives a stroke in its label's colour and the label at (x1, y2 + 15). |
| Overlay.BoxesIgnoreConfidence | src/app/page.tsx:98 | Lists that agree on boxes and classes draw the same calls, whatever their confidences. |
| Overlay.RedrawExcludesVideo | src/app/page.tsx:86 | In a well-formed state, the overlay is never drawn while a video is set or shown. |
| Session.SelectFile | src/app/page.tsx:40-48 | A chosen file replaces the old one and gets the new preview. It clears detections and video, so summary, canvas and video disappear. The busy flag is untouched. An empty choice changes nothing. |
| Session.StartUpload | src/app/page.tsx:50-52 | Without a file, pressing upload changes nothing. Otherwise the page becomes busy and the button is disabled with the busy caption. |
| Session.Interpret | src/app/page.tsx:65-73 | A non-empty `output_path` wins: video = `http://localhost:3000` + path, detections = `result` or none, preview cleared. Else any `result` replaces the detections and keeps the preview. Else nothing changes and "no detections" is raised. On screen, a video reply shows the player without the canvas, and an image reply shows its summary, with the canvas iff a preview is set. |
| Session.FinishUpload | src/app/page.tsx:57-79 | Every completion clears the busy flag. A failure stores nothing and raises the send-failure alert. A parsed reply is interpreted as above. |
| Session.TransitionsPreserveWellFormed | src/app/page.tsx:40-79 | Choosing, starting and finishing all keep the state well formed. Preview and video never coexist, and without a file nothing else is set. |
| Session.CanvasAndVideoExclusive | src/app/page.tsx:140-153 | A well-formed state never shows the canvas and the video player together. |
| Session.RunInvariant | src/app/page.tsx:125 | Every state reachable by events is well formed. The page is busy exactly while the last press has not been answered. |
| Dedup.FilterUnique | backend/main.py:30-44 | The filtered list is never longer than its input. |
| Dedup.KeptIndicesAreFirstOccurrences | backend/main.py:34-43 | A position is kept iff no earlier position has the same key (class_id, floor(x1/grid), floor(y1/grid)). |
| Dedup.FilterIsSubsequence | backend/main.py:30-44 | The output is the input at strictly increasing positions, an order-preserving subsequence. |
| Dedup.FilterKeysUnique | backend/main.py:35-42 | No two output detections share a key. |
| Dedup.FilterCoversEveryKey | backend/main.py:34-43 | Every input key appears in the output, carried by the key's first occurrence, which is at or before the given position. |
| Dedup.FilterIdempotent | backend/main.py:30-44 | Filtering a filtered list returns it unchanged. |
| Dedup.KeptIndicesIgnoreOtherFields | backend/main.py:35-38 | Lists that agree on class_id, x1 and y1 keep the same positions. Changing x2, y2 or confidence never changes what is kept. |
| Dedup.FilterEmpty | backend/main.py:30-44 | An empty list filters to an empty list. |
| Dedup.FilterUniqueDetections | backend/main.py:30-44 | The loop with a seen set computes the reference filter for any non-zero grid. The grid size defaults to 50, as in Python. A zero grid raises on non-empty input and returns [] on empty input. |
| Predict.VideoExtensionIgnoresCase | backend/main.py:66 | Video is chosen iff the lower-cased extension is .mp4, .avi, .mov or .mkv. The choice ignores case. |
| Predict.OutputPathRoundTrip | backend/main.py:100-126 | The stem can be read back from `/outputs/transcoded_{stem}.mp4`, so distinct videos get distinct paths. |
| Predict.Collect | backend/main.py:79-87 | A detection is collected iff some frame with boxes holds it. |
| Predict.CollectAppend | backend/main.py:79-87 | Collecting a run of frames is collecting its parts and concatenating, so earlier frames come first. |
| Predict.CollectOneFrame | backend/main.py:81-87 | A frame contributes exactly its boxes, in order and with repetitions, or nothing when it has no boxes. |
| Predict.EarlierFrameWins | backend/main.py:79-90 | For any two detections with the same grid key (grid 50) in consecutive frames, de-duplication keeps only the one from the earlier frame. |
| Dedup.SameKeyKeepsFirst | backend/main.py:34-43 | Of two detections sharing a key, only the first is kept. |
| Predict.PredictResponse | backend/main.py:46-140 | Images answer with the unfiltered boxes and no path. An `output_path` appears iff the video branch found and transcoded its video. It then carries the stem and the de-duplicated frames (grid 50). A `result` is present iff no error is. |
| Pipeline.VideoReplyPlaysTranscodedVideo | src/app/page.tsx:65-68 | A transcoded video reply plays `http://localhost:3000/outputs/transcoded_{stem}.mp4`. It drops the preview and lists the de-duplicated detections, no two sharing a key. |
| Pipeline.ImageReplyKeepsPreview | backend/main.py:131-140 | An image reply stores exactly the detector's boxes, keeps the preview and leaves the video alone. |
| Pipeline.ErrorReplyStoresNothing | backend/main.py:96-119 | A server error reply has neither field. The page stores nothing and raises "no detections". |
| Pipeline.UncaughtRaiseIsSendFailure | src/app/page.tsx:57-79 | The endpoint delivers no JSON when an exception escapes the handler (the detector raising at backend/main.py:70-76 or 131, or ffmpeg failing to start, which the `CalledProcessError` handler at backend/main.py:116-119 does not catch). `res.json()` then fails, so the page stores nothing and raises "Gagal mengirim ke server.", not "no detections". Without an exception, the page interprets exactly the branch's JSON object. |
| Pipeline.ExampleImageReply | src/app/page.tsx:110-114 | One Car box (10,20)-(50,60) is stored, the preview is kept, and a red 40x40 box at (10,20) is drawn with "Car" at (10,75). |
| Pipeline.ExampleVideoReply | src/app/page.tsx:65-68 | `/out/vid1.mp4` plays `http://localhost:3000/out/vid1.mp4`, clears the preview and leaves detections absent. |
| Pipeline.ExampleEmptyReply | src/app/page.tsx:71-73 | An empty object changes neither detections nor video and raises "no detections". |

## Left out

- `fetch`, `FormData`, `res.json()`, `alert` and `console.error`: these are network and UI side effects. The reply is an input (`Reply`), and alerts are a returned `Notice`.
- `URL.createObjectURL`, image loading, canvas context calls, React hooks and JSX: these are browser APIs. Their results are parameters, and drawing is a list of calls.
- Object URLs are never revoked by the page. Resource lifetime is not modelled.
- Stale replies: a reply is applied to whatever the state is when it arrives. This is last-write-wins, as in the code. No property about stale replies is proved.
- The YOLO calls, file writes, directories, `uuid`, `glob`, ffmpeg, `shutil.rmtree` and the FastAPI/CORS setup: these are foreign libraries and I/O. Their outcomes form the `Inference` argument.
- `os.path.splitext`: the extension is given as a string. Only lower-casing and the membership test are modelled.
- Text.ToLower: lower-cases ASCII letters only, not the full Unicode mapping of `toLowerCase` and `str.lower`. All labels and extensions that matter are ASCII.
- Dedup.Cell: divides exactly on reals, not in floating point, so float rounding near cell borders is not modelled.
- Labels.LabelOf: takes integral class ids only, as unbounded integers. The server sends floats such as `2.0`, which JavaScript prints as `2`. Non-integral ids would print with a fraction and are not modelled. JavaScript numbers are doubles: an id of magnitude 10^21 or more prints in exponent form (`Class 1e+21`), and integers beyond 2^53 are not distinct numbers. So LabelInjective and Text.IntToStringRoundTrip hold for the page only for ids of magnitude below 2^53. The detector's class ids are small.
- Labels.Summary: a map, so the display order of `Object.entries` (first-seen label order) is not modelled.
- Detection: has exactly four corner fields. A `bbox` list of another length would make Python's unpacking raise, and this is not modelled.
- Predict.PredictResponse: is the JSON object only when no exception escapes. What raises, and why, is a single flag of the `Inference` (see Pipeline.UncaughtRaiseIsSendFailure). FastAPI's 500 body is not modelled beyond "not JSON".
- Predict.PredictResponse: treats "no video file found" and "file does not exist" as one absent stem. The case-sensitive suffix test on YOLO's output files is part of the file-system input.
