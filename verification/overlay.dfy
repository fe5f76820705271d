/** The overlay effect: once the previewed image has loaded, the canvas is
    sized to it, cleared, the image drawn, and every detection outlined and
    labelled in its class colour. Drawing is modelled as the sequence of
    canvas calls it makes. */
module Overlay {
  import opened Wrappers
  import opened Detections
  import opened Labels
  import opened Session

  const LineWidth: real := 2.0
  const Font: string := "14px Arial"
  /** How far below the box's `y2` edge the label's baseline sits. */
  const LabelOffset: real := 15.0

  /** A canvas rectangle: origin and signed extent. */
  datatype Rect = Rect(x: real, y: real, width: real, height: real)

  /** The natural pixel size of the loaded preview image. */
  datatype ImageSize = ImageSize(width: nat, height: nat)

  /** One call on the 2D context (colours are set just before each use). */
  datatype DrawCmd =
    | Resize(width: nat, height: nat)
    | ClearRect(rect: Rect)
    | DrawImage(x: real, y: real)
    | SetLineWidth(lineWidth: real)
    | SetFont(font: string)
    | StrokeRect(color: Color, rect: Rect)
    | FillText(color: Color, text: string, x: real, y: real)

  /** The rectangle stroked for a box: it starts at `(x1, y1)` and its
      opposite corner is `(x2, y2)`. Inverted corners are not normalised:
      they give a negative width or height. */
  function RectOf(d: Detection): (r: Rect)
    ensures r.x == d.x1 && r.y == d.y1
    ensures r.x + r.width == d.x2 && r.y + r.height == d.y2
    ensures r.width < 0.0 <==> d.x2 < d.x1
    ensures r.height < 0.0 <==> d.y2 < d.y1
  {
    Rect(d.x1, d.y1, d.x2 - d.x1, d.y2 - d.y1)
  }

  /** The two calls that draw one detection: its outline, then its label. */
  function BoxCommands(d: Detection): seq<DrawCmd> {
    var color := ColorOf(LabelOf(d.classId));
    [StrokeRect(color, RectOf(d)), FillText(color, LabelOf(d.classId), d.x1, d.y2 + LabelOffset)]
  }

  /** The calls for all detections, in order: two per detection. */
  function BoxesCommands(preds: seq<Detection>): (cmds: seq<DrawCmd>)
    ensures |cmds| == 2 * |preds|
    ensures forall k :: 0 <= k < |preds| ==> cmds[2 * k .. 2 * k + 2] == BoxCommands(preds[k])
  {
    if |preds| == 0 then []
    else
      var rest := BoxesCommands(preds[1..]);
      var cmds := BoxCommands(preds[0]) + rest;
      assert forall k :: 1 <= k < |preds| ==> cmds[2 * k .. 2 * k + 2] == rest[2 * (k - 1) .. 2 * (k - 1) + 2];
      cmds
  }

  /** The calls before any box: size the canvas to the image, clear it, draw
      the image unscaled at the origin, and set the stroke width and font. */
  function Prelude(size: ImageSize): seq<DrawCmd> {
    [ Resize(size.width, size.height),
      ClearRect(Rect(0.0, 0.0, size.width as real, size.height as real)),
      DrawImage(0.0, 0.0),
      SetLineWidth(LineWidth),
      SetFont(Font) ]
  }

  /** The effect run after every change of the preview or the detections.
      `loaded` is the image's size once it has loaded, `None` if it never
      loads. It draws only when the canvas is on the page, and then redraws
      everything from a cleared canvas. */
  function Redraw(s: State, loaded: Option<ImageSize>): (r: Option<seq<DrawCmd>>)
    ensures r.Some? <==> ScreenOf(s).canvas && loaded.Some?
    ensures r.Some? ==>
      var preds := s.predictions.value;
      && |r.value| == |Prelude(loaded.value)| + 2 * |preds|
      && r.value[..|Prelude(loaded.value)|] == Prelude(loaded.value)
      && forall k :: 0 <= k < |preds| ==>
           && r.value[|Prelude(loaded.value)| + 2 * k] == StrokeRect(ColorOf(LabelOf(preds[k].classId)), RectOf(preds[k]))
           && r.value[|Prelude(loaded.value)| + 2 * k + 1] ==
                FillText(ColorOf(LabelOf(preds[k].classId)), LabelOf(preds[k].classId), preds[k].x1, preds[k].y2 + LabelOffset)
  {
    if ScreenOf(s).canvas && loaded.Some? then
      var preds := s.predictions.value;
      var prelude := Prelude(loaded.value);
      var boxes := BoxesCommands(preds);
      var cmds := prelude + boxes;
      assert forall k :: 0 <= k < |preds| ==>
        cmds[|prelude| + 2 * k] == boxes[2 * k .. 2 * k + 2][0] && cmds[|prelude| + 2 * k + 1] == boxes[2 * k .. 2 * k + 2][1];
      Some(cmds)
    else
      None
  }

  /** Two detection lists that agree on every box and class. */
  predicate SameBoxes(a: seq<Detection>, b: seq<Detection>) {
    |a| == |b| &&
    forall i :: 0 <= i < |a| ==>
      a[i].x1 == b[i].x1 && a[i].y1 == b[i].y1 && a[i].x2 == b[i].x2 && a[i].y2 == b[i].y2 && a[i].classId == b[i].classId
  }

  /** The drawing never depends on the confidence scores. */
  lemma {:induction false} BoxesIgnoreConfidence(a: seq<Detection>, b: seq<Detection>)
    requires SameBoxes(a, b)
    ensures BoxesCommands(a) == BoxesCommands(b)
  {
    if |a| > 0 {
      assert BoxCommands(a[0]) == BoxCommands(b[0]);
      BoxesIgnoreConfidence(a[1..], b[1..]);
    }
  }

  /** The overlay is only ever drawn when no processed video is set. */
  lemma RedrawExcludesVideo(s: State, loaded: Option<ImageSize>)
    requires WellFormed(s)
    ensures Redraw(s, loaded).Some? ==> s.video.None? && ScreenOf(s).player.None?
  {
  }
}
