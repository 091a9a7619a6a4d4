/**
 * The recognition client (`recognize_audio`): how the result of the Shazam call,
 * or the exception it raised, becomes a match, "no match", or a failure with a
 * message.
 */
module Recognition {
  import opened PyJson

  const UnknownTitle := "Unknown"
  const UnknownArtist := "Unknown Artist"
  const TimeoutMessage := "Recognition timeout"
  const MissingLibraryMessage := "shazamio not installed"

  /**
   * How the awaited `shazam.recognize(path)` ended: the 30-second `wait_for`
   * expired (any `TimeoutError`), importing the library failed (any `ImportError`),
   * some other exception with its `str()`, or a decoded response.
   */
  datatype Call = TimedOut | ImportFailed | CallRaised(detail: string) | Returned(response: Json)

  /** The success record's fields, as taken from the track payload. */
  datatype Track = Track(title: Json, artist: Json, coverUrl: Json, shazamUrl: Json, key: Json)

  /** What `recognize_audio` leads to: a record, None, or `output_error("recognition_failed", …)`. */
  datatype Recognised = Matched(track: Track) | NoMatch | Failed(message: string)

  /** The success record built from a dict-valued track payload whose `images` is a dict. */
  function TrackRecord(fields: map<string, Json>, images: map<string, Json>): Track {
    Track(
      Lookup(fields, "title", JStr(UnknownTitle)),
      Lookup(fields, "subtitle", JStr(UnknownArtist)),
      Lookup(images, "coverart", JStr("")),
      Lookup(fields, "url", JStr("")),
      Lookup(fields, "key", JStr("")))
  }

  /**
   * The track dict literal of lines 166-173, evaluated field by field: calling
   * `.get` on a track or an `images` value that is not a dict raises.
   */
  function ReadTrack(track: Json): Recognised {
    match Get(track, "title", JStr(UnknownTitle))
    case Raised(m) => Failed(m)
    case Value(_) =>
      match Get(Lookup(track.fields, "images", EmptyObj), "coverart", JStr(""))
      case Raised(m) => Failed(m)
      case Value(_) => Matched(TrackRecord(track.fields, Lookup(track.fields, "images", EmptyObj).fields))
  }

  /** The response's track payload, `result.get("track")`, for a dict response. */
  function TrackOf(response: Json): Json
    requires response.JObj?
  {
    Lookup(response.fields, "track", JNull)
  }

  /**
   * The outcome of `recognize_audio` for the given call.
   *
   * No match exactly when the call returned and either the response is falsy or
   * it is a dict whose track is missing or falsy; such a response is never an
   * error. A match exactly when the response is a dict whose track is a non-empty
   * dict with a dict (or missing) `images`; each field is then passed through
   * when present and otherwise takes its default. Everything else is a failure:
   * the fixed text for a timeout or a missing library, the exception's text
   * otherwise, including the AttributeError of calling `.get` on a response,
   * track or `images` that is not a dict.
   */
  function Normalise(call: Call): (r: Recognised)
    ensures r == NoMatch <==>
      call.Returned? &&
      (!Truthy(call.response) || (call.response.JObj? && !Truthy(TrackOf(call.response))))
    ensures r.Matched? <==>
      call.Returned? && call.response.JObj? &&
      TrackOf(call.response).JObj? && Truthy(TrackOf(call.response)) &&
      Lookup(TrackOf(call.response).fields, "images", EmptyObj).JObj?
    ensures r.Matched? ==>
      var f := TrackOf(call.response).fields;
      (if "title" in f then r.track.title == f["title"] else r.track.title == JStr(UnknownTitle)) &&
      (if "subtitle" in f then r.track.artist == f["subtitle"] else r.track.artist == JStr(UnknownArtist)) &&
      (if "url" in f then r.track.shazamUrl == f["url"] else r.track.shazamUrl == JStr("")) &&
      (if "key" in f then r.track.key == f["key"] else r.track.key == JStr("")) &&
      (var images := if "images" in f then f["images"].fields else map[];
       if "coverart" in images then r.track.coverUrl == images["coverart"] else r.track.coverUrl == JStr(""))
    ensures call == TimedOut ==> r == Failed(TimeoutMessage)
    ensures call == ImportFailed ==> r == Failed(MissingLibraryMessage)
    ensures call.CallRaised? ==> r == Failed(call.detail)
    ensures call.Returned? && Truthy(call.response) && !call.response.JObj? ==>
      r == Failed("'" + TypeName(call.response) + "' object has no attribute 'get'")
  {
    match call
    case TimedOut => Failed(TimeoutMessage)
    case ImportFailed => Failed(MissingLibraryMessage)
    case CallRaised(detail) => Failed(detail)
    case Returned(response) =>
      if !Truthy(response) then NoMatch
      else
        match Get(response, "track", JNull)
        case Raised(m) => Failed(m)
        case Value(track) => if !Truthy(track) then NoMatch else ReadTrack(track)
  }

  /**
   * A non-empty track dict without `subtitle`, whose `images` is a dict or absent,
   * is still a match, with artist "Unknown Artist".
   */
  lemma MissingSubtitleDefaults(f: map<string, Json>)
    requires f != map[]
    requires "subtitle" !in f
    requires "images" !in f || f["images"].JObj?
    ensures Normalise(Returned(JObj(map["track" := JObj(f)]))).Matched?
    ensures Normalise(Returned(JObj(map["track" := JObj(f)]))).track.artist == JStr(UnknownArtist)
  {
    assert "track" in map["track" := JObj(f)];
  }
}
