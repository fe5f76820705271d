/** The payload exchanged between the inference server and the viewer:
    one detection per box, and the JSON object `/predict/` answers with. */
module Detections {
  import opened Wrappers

  /** One box found by the detector: corners `(x1, y1)` and `(x2, y2)` in
      image pixels (not necessarily ordered), a confidence score the viewer
      never reads, and the numeric class of the object. */
  datatype Detection = Detection(x1: real, y1: real, x2: real, y2: real, confidence: real, classId: int)

  /** The JSON object returned by the server. Every field is optional; the
      viewer only inspects `outputPath` (`output_path`) and `result`. */
  datatype Response = Response(
    message: Option<string>,
    outputPath: Option<string>,
    result: Option<seq<Detection>>,
    error: Option<string>,
    detail: Option<string>)

  /** JavaScript truthiness of an optional string field: present and non-empty. */
  predicate Truthy(field: Option<string>) {
    field.Some? && field.value != ""
  }
}
