/** The viewer page's state and its handlers as pure transitions: choosing a
    file, pressing the upload button, and the server's reply arriving. The
    browser's object URLs, `fetch`, JSON parsing and alerts are not modelled:
    their results are parameters, and alerts are returned as a `Notice`. */
module Session {
  import opened Wrappers
  import opened Detections
  import opened Labels

  /** Base URL that the processed videos are served from. */
  const MediaBaseUrl: string := "http://localhost:3000"

  const IdleCaption: string := "Upload & Deteksi"
  const BusyCaption: string := "Memproses..."

  /** A file chosen in the file input; only its identity matters here. */
  datatype File = File(name: string)

  /** The page's state: the chosen file, the object URL previewing it, the
      detections to show, the processed video's URL, and the busy flag. */
  datatype State = State(
    file: Option<File>,
    preview: Option<string>,
    predictions: Option<seq<Detection>>,
    video: Option<string>,
    loading: bool)

  const Initial: State := State(None, None, None, None, false)

  /** The alert a handler raises, if any. */
  datatype Notice = Silent | NoDetections | SendFailed {
    function Text(): string {
      match this
      case Silent => ""
      case NoDetections => "Tidak ada hasil deteksi."
      case SendFailed => "Gagal mengirim ke server."
    }
  }

  /** What the page shows for a state: the summary list, the canvas, the
      video player, and whether the upload button is enabled and its caption. */
  datatype Screen = Screen(
    summary: Option<map<string, nat>>,
    canvas: bool,
    player: Option<string>,
    uploadEnabled: bool,
    caption: string)

  function ScreenOf(s: State): Screen {
    Screen(
      if s.predictions.Some? then Some(Summary(s.predictions.value)) else None,
      Truthy(s.preview) && s.predictions.Some?,
      if Truthy(s.video) then s.video else None,
      !(s.loading || s.file.None?),
      if s.loading then BusyCaption else IdleCaption)
  }

  /** The states the page can be in: the image preview and the video never
      coexist, and without a chosen file nothing else is set either. */
  predicate WellFormed(s: State) {
    && !(s.preview.Some? && s.video.Some?)
    && (s.file.None? ==> s.preview.None? && s.predictions.None? && s.video.None? && !s.loading)
  }

  /** `handleFileChange`: a chosen file replaces the old one, gets a fresh
      preview URL and clears the previous detections and video, so the page
      shows no summary, no canvas and no video until the next reply. An empty
      choice changes nothing. */
  function SelectFile(s: State, selected: Option<File>, objectUrl: string): (t: State)
    ensures selected.None? ==> t == s
    ensures selected.Some? ==>
      && t.file == selected && t.preview == Some(objectUrl) && t.loading == s.loading
      && t.predictions.None? && t.video.None?
      && ScreenOf(t).summary.None? && !ScreenOf(t).canvas && ScreenOf(t).player.None?
  {
    match selected
    case None => s
    case Some(_) => s.(file := selected, preview := Some(objectUrl), predictions := None, video := None)
  }

  /** The start of `handleUpload`: without a file nothing happens, otherwise
      the page becomes busy and the request is sent. */
  function StartUpload(s: State): (t: State)
    ensures s.file.None? ==> t == s
    ensures s.file.Some? ==> t == s.(loading := true) && !ScreenOf(t).uploadEnabled && ScreenOf(t).caption == BusyCaption
  {
    if s.file.None? then s else s.(loading := true)
  }

  /** The reply branch of `handleUpload`, applied to the parsed JSON object. */
  function Interpret(s: State, reply: Response): (r: (State, Notice))
    // A non-empty `output_path` wins: play the video, show `result` if any, drop the preview.
    ensures Truthy(reply.outputPath) ==>
      && r.0 == s.(video := Some(MediaBaseUrl + reply.outputPath.value), predictions := reply.result, preview := None)
      && r.1 == Silent
    // Otherwise any `result` (even an empty list) replaces the detections and keeps the preview.
    ensures !Truthy(reply.outputPath) && reply.result.Some? ==>
      r.0 == s.(predictions := reply.result) && r.1 == Silent
    // Otherwise nothing is stored and the user is told nothing was found.
    ensures !Truthy(reply.outputPath) && reply.result.None? ==> r == (s, NoDetections)
    // On screen: a video reply shows the player and hides the canvas; an image
    // reply shows its summary, and the canvas exactly when a preview is set.
    ensures Truthy(reply.outputPath) ==>
      ScreenOf(r.0).player == Some(MediaBaseUrl + reply.outputPath.value) && !ScreenOf(r.0).canvas
    ensures !Truthy(reply.outputPath) && reply.result.Some? ==>
      && ScreenOf(r.0).summary == Some(Summary(reply.result.value))
      && ScreenOf(r.0).canvas == Truthy(s.preview)
      && ScreenOf(r.0).player == ScreenOf(s).player
  {
    if Truthy(reply.outputPath) then
      (s.(video := Some(MediaBaseUrl + reply.outputPath.value), predictions := reply.result, preview := None), Silent)
    else if reply.result.Some? then
      (s.(predictions := reply.result), Silent)
    else
      (s, NoDetections)
  }

  /** How a request ended: a network failure or unparsable body, or a parsed object. */
  datatype Reply = Failed | Parsed(response: Response)

  /** The rest of `handleUpload`: interpret the reply (or report the failure)
      and, either way, clear the busy flag. A failure stores nothing. */
  function FinishUpload(s: State, reply: Reply): (r: (State, Notice))
    ensures !r.0.loading
    ensures reply.Failed? ==> r == (s.(loading := false), SendFailed)
    ensures reply.Parsed? ==> r.0 == Interpret(s, reply.response).0.(loading := false) && r.1 == Interpret(s, reply.response).1
  {
    match reply
    case Failed => (s.(loading := false), SendFailed)
    case Parsed(response) =>
      var (t, notice) := Interpret(s, response);
      (t.(loading := false), notice)
  }

  /** Every transition keeps the page well formed, whatever the reply. */
  lemma TransitionsPreserveWellFormed(s: State, selected: Option<File>, objectUrl: string, reply: Reply)
    requires WellFormed(s)
    ensures WellFormed(SelectFile(s, selected, objectUrl))
    ensures WellFormed(StartUpload(s))
    ensures s.file.Some? ==> WellFormed(FinishUpload(s, reply).0)
  {
  }

  /** In a well-formed state the canvas and the video player are never shown together. */
  lemma CanvasAndVideoExclusive(s: State)
    requires WellFormed(s)
    ensures !(ScreenOf(s).canvas && ScreenOf(s).player.Some?)
  {
  }

  /** What the user can do, and the reply arriving. */
  datatype Event = Choose(selected: Option<File>, objectUrl: string) | Press | Arrive(reply: Reply)

  /** One event; `None` when the event cannot happen in that state: the
      button is disabled while busy or without a file, and a reply only
      arrives while a request is outstanding. */
  function Step(s: State, e: Event): Option<State> {
    match e
    case Choose(selected, objectUrl) => Some(SelectFile(s, selected, objectUrl))
    case Press => if ScreenOf(s).uploadEnabled then Some(StartUpload(s)) else None
    case Arrive(reply) => if s.loading then Some(FinishUpload(s, reply).0) else None
  }

  /** The state after a sequence of events from the initial page, if every
      event could happen. */
  function Run(events: seq<Event>): Option<State> {
    if |events| == 0 then Some(Initial)
    else
      match Run(events[..|events| - 1])
      case None => None
      case Some(s) => Step(s, events[|events| - 1])
  }

  /** Whether the last press has not yet been answered. */
  function InFlight(events: seq<Event>): bool {
    if |events| == 0 then false
    else
      match events[|events| - 1]
      case Press => true
      case Arrive(_) => false
      case Choose(_, _) => InFlight(events[..|events| - 1])
  }

  /** Every reachable state is well formed, and the page is busy exactly
      while a request is outstanding. */
  lemma {:induction false} RunInvariant(events: seq<Event>)
    ensures Run(events).Some? ==> WellFormed(Run(events).value) && Run(events).value.loading == InFlight(events)
  {
    if |events| > 0 {
      var prefix := events[..|events| - 1];
      RunInvariant(prefix);
      if Run(prefix).Some? {
        var s := Run(prefix).value;
        var e := events[|events| - 1];
        match e
        case Choose(selected, objectUrl) =>
          TransitionsPreserveWellFormed(s, selected, objectUrl, Failed);
        case Press =>
          TransitionsPreserveWellFormed(s, None, "", Failed);
        case Arrive(reply) =>
          TransitionsPreserveWellFormed(s, None, "", reply);
      }
    }
  }
}
