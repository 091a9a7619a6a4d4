/**
 * The result envelope (`output_json`, `output_error`): the one JSON object the
 * program prints, and the exit status derived from it.
 */
module Envelope {
  import opened Wrappers
  import opened PyJson
  import Recognition

  /** The error codes a run can report. */
  datatype ErrorCode = NoPipewire | NoPython310 | CaptureFailed | RecognitionFailed

  function CodeText(code: ErrorCode): string {
    match code
    case NoPipewire => "no_pipewire"
    case NoPython310 => "no_python310"
    case CaptureFailed => "capture_failed"
    case RecognitionFailed => "recognition_failed"
  }

  function CodeOf(text: string): (r: Option<ErrorCode>)
    ensures r.Some? ==> CodeText(r.value) == text
  {
    if text == "no_pipewire" then Some(NoPipewire)
    else if text == "no_python310" then Some(NoPython310)
    else if text == "capture_failed" then Some(CaptureFailed)
    else if text == "recognition_failed" then Some(RecognitionFailed)
    else None
  }

  /** What a run prints: the success record, "no match", or an error with its code and message. */
  datatype Envelope =
    | Success(track: Recognition.Track)
    | NoMatch
    | Error(code: ErrorCode, message: string)

  /**
   * The dict given to `output_json`. The success record is the one built by
   * `recognize_audio`, so it carries the track "key" besides the four fields
   * the usage text lists.
   */
  function ToJson(e: Envelope): (data: map<string, Json>)
    ensures "status" in data && data["status"].JStr?
    ensures e.Success? ==>
      data.Keys == {"status", "title", "artist", "coverUrl", "shazamUrl", "key"} &&
      data["status"] == JStr("success")
    ensures e.NoMatch? ==> data == map["status" := JStr("no_match")]
    ensures e.Error? ==>
      data.Keys == {"status", "error", "message"} &&
      data["status"] == JStr("error") &&
      data["error"] == JStr(CodeText(e.code)) && data["message"] == JStr(e.message)
  {
    match e
    case Success(t) =>
      map["status" := JStr("success"), "title" := t.title, "artist" := t.artist,
          "coverUrl" := t.coverUrl, "shazamUrl" := t.shazamUrl, "key" := t.key]
    case NoMatch => map["status" := JStr("no_match")]
    case Error(code, message) =>
      map["status" := JStr("error"), "error" := JStr(CodeText(code)), "message" := JStr(message)]
  }

  /** Reads a printed dict back as an envelope, if it is one. */
  function FromJson(data: map<string, Json>): Option<Envelope> {
    var status := Lookup(data, "status", JNull);
    if status == JStr("success") then
      if "title" in data && "artist" in data && "coverUrl" in data && "shazamUrl" in data && "key" in data
      then Some(Success(Recognition.Track(data["title"], data["artist"], data["coverUrl"],
                                          data["shazamUrl"], data["key"])))
      else None
    else if status == JStr("no_match") then Some(NoMatch)
    else if status == JStr("error") && "error" in data && data["error"].JStr? &&
            "message" in data && data["message"].JStr? then
      match CodeOf(data["error"].s)
      case Some(code) => Some(Error(code, data["message"].s))
      case None => None
    else None
  }

  /** The printed dict determines the envelope. */
  lemma EnvelopeRoundTrip(e: Envelope)
    ensures FromJson(ToJson(e)) == Some(e)
  {
    if e.Error? {
      assert CodeOf(CodeText(e.code)) == Some(e.code) by {
        match e.code
        case NoPipewire =>
        case NoPython310 =>
        case CaptureFailed =>
        case RecognitionFailed =>
      }
    }
  }

  /** The exit status `output_json` gives a dict: 0 when its status is "success", 1 otherwise. */
  function ExitCode(data: map<string, Json>): int {
    if Lookup(data, "status", JNull) == JStr("success") then 0 else 1
  }

  /** A run exits with 0 exactly for a success, with 1 for "no match" and every error. */
  lemma ExitCodeIffSuccess(e: Envelope)
    ensures ExitCode(ToJson(e)) == 0 <==> e.Success?
    ensures ExitCode(ToJson(e)) == 1 <==> !e.Success?
  {
  }
}
