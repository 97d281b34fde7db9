/** Camera access helpers (src/lib/webcam.ts): the capability probe, the
    classification of every platform failure into a fixed set of messages,
    and stopping every track of a stream. The platform call itself
    (`getUserMedia`) is not modelled; its outcome is an input. */
module CameraAccess {
  import opened Common

  /** What the host exposes: `navigator.mediaDevices`, and on it a
      `getUserMedia` member. */
  datatype MediaDevices = MediaDevices(hasGetUserMedia: bool)
  datatype Environment = Environment(mediaDevices: Option<MediaDevices>)

  /** `isCameraSupported()`. */
  function IsCameraSupported(env: Environment): (r: bool)
    ensures r <==> env.mediaDevices != None && env.mediaDevices.value.hasGetUserMedia
    ensures env.mediaDevices == None ==> !r
  {
    match env.mediaDevices
    case None => false
    case Some(md) => md.hasGetUserMedia
  }

  /** The `name` and `message` of the error `getUserMedia` rejects with. */
  datatype MediaError = MediaError(name: string, message: string)

  /** How the platform call settled: a stream, or a rejection. */
  datatype MediaOutcome<S> = Resolved(stream: S) | Rejected(err: MediaError)

  /** `{ stream, error }` as `requestCameraAccess` returns it. */
  datatype AccessResult<S> = AccessResult(stream: Option<S>, error: Option<string>)

  /** The closed set of causes a failed request is sorted into. */
  datatype Cause =
    | Unsupported
    | PermissionDenied
    | NoCamera
    | InUse
    | ConstraintsNotSatisfied
    | InvalidConstraints
    | OtherError(message: string)

  const UnsupportedMessage := "Your browser doesn't support camera access. Please try a different browser."
  const PermissionDeniedMessage := "Camera access denied. Please grant permission to use your camera."
  const NoCameraMessage := "No camera detected. Please connect a camera and try again."
  const InUseMessage := "Camera is in use by another application. Please close other apps using your camera."
  const ConstraintsMessage := "Camera constraints not satisfied. Please try with different settings."
  const InvalidConstraintsMessage := "Invalid camera constraints specified."
  const OtherErrorPrefix := "Camera error: "

  /** The cause a rejection is filed under, decided by the error's name
      alone, first match wins. */
  function Classify(err: MediaError): Cause {
    if err.name == "NotAllowedError" || err.name == "PermissionDeniedError" then PermissionDenied
    else if err.name == "NotFoundError" || err.name == "DevicesNotFoundError" then NoCamera
    else if err.name == "NotReadableError" || err.name == "TrackStartError" then InUse
    else if err.name == "OverconstrainedError" then ConstraintsNotSatisfied
    else if err.name == "TypeError" then InvalidConstraints
    else OtherError(err.message)
  }

  /** Each group of error names has exactly one cause; every other name is
      "other" and keeps its message; nothing is filed as unsupported. */
  lemma ClassifyCases(err: MediaError)
    ensures var c := Classify(err);
            && (c == PermissionDenied <==> err.name in {"NotAllowedError", "PermissionDeniedError"})
            && (c == NoCamera <==> err.name in {"NotFoundError", "DevicesNotFoundError"})
            && (c == InUse <==> err.name in {"NotReadableError", "TrackStartError"})
            && (c == ConstraintsNotSatisfied <==> err.name == "OverconstrainedError")
            && (c == InvalidConstraints <==> err.name == "TypeError")
            && (c.OtherError? <==> err.name !in KnownNames())
            && (c.OtherError? ==> c.message == err.message)
            && c != Unsupported
  {
  }

  /** The error names that have a message of their own. */
  function KnownNames(): set<string> {
    {"NotAllowedError", "PermissionDeniedError", "NotFoundError", "DevicesNotFoundError",
     "NotReadableError", "TrackStartError", "OverconstrainedError", "TypeError"}
  }

  /** The text shown for each cause; an unknown error without a message
      reads "Camera error: Unknown error". */
  function Message(c: Cause): string {
    match c
    case Unsupported => UnsupportedMessage
    case PermissionDenied => PermissionDeniedMessage
    case NoCamera => NoCameraMessage
    case InUse => InUseMessage
    case ConstraintsNotSatisfied => ConstraintsMessage
    case InvalidConstraints => InvalidConstraintsMessage
    case OtherError(msg) => OtherErrorPrefix + (if msg == "" then "Unknown error" else msg)
  }

  /** Every message is non-empty, and an unknown error's names its own
      message after the prefix. */
  lemma MessageCases(c: Cause)
    ensures var m := Message(c);
            && m != ""
            && (c.OtherError? ==> OtherErrorPrefix <= m)
            && (c.OtherError? && c.message != "" ==> m == OtherErrorPrefix + c.message)
            && (c.OtherError? && c.message == "" ==> m == OtherErrorPrefix + "Unknown error")
  {
  }

  /** `requestCameraAccess(options)`: in an unsupported environment the
      platform is never asked, so `outcome` is not looked at. */
  function RequestCameraAccess<S>(env: Environment, outcome: MediaOutcome<S>): AccessResult<S> {
    if !IsCameraSupported(env) then AccessResult(None, Some(Message(Unsupported)))
    else
      match outcome
      case Resolved(s) => AccessResult(Some(s), None)
      case Rejected(e) => AccessResult(None, Some(Message(Classify(e))))
  }

  /** Exactly one of stream and error is set: the fixed message when the
      browser lacks support, the stream when the platform grants one, and
      the classified message when it refuses. */
  lemma RequestCameraAccessCases<S>(env: Environment, outcome: MediaOutcome<S>)
    ensures var r := RequestCameraAccess(env, outcome);
            && (r.stream.Some? != r.error.Some?)
            && (!IsCameraSupported(env) ==> r == AccessResult(None, Some(UnsupportedMessage)))
            && (IsCameraSupported(env) && outcome.Resolved? ==> r == AccessResult(Some(outcome.stream), None))
            && (IsCameraSupported(env) && outcome.Rejected? ==>
                  r == AccessResult(None, Some(Message(Classify(outcome.err)))))
  {
  }

  // ---------------------------------------------------------------------
  // Streams and their tracks

  /** A media track; `stop()` ends it for good. */
  class Track {
    var ended: bool

    constructor ()
      ensures !ended
    {
      ended := false;
    }
  }

  /** A camera stream: a fixed list of tracks. */
  class MediaStream {
    const tracks: seq<Track>

    constructor (tracks: seq<Track>)
      ensures this.tracks == tracks
    {
      this.tracks := tracks;
    }
  }

  /** The tracks a possibly-null stream holds. */
  function TracksOf(s: MediaStream?): set<Track> {
    if s == null then {} else set t | t in s.tracks
  }

  /** `stopMediaStream(stream)`: null is a no-op; otherwise every track is
      stopped (stopping an ended track changes nothing, so a second call is
      harmless). */
  method StopMediaStream(stream: MediaStream?)
    modifies TracksOf(stream)
    ensures forall t :: t in TracksOf(stream) ==> t.ended
  {
    if stream != null {
      var i := 0;
      while i < |stream.tracks|
        invariant 0 <= i <= |stream.tracks|
        invariant forall j :: 0 <= j < i ==> stream.tracks[j].ended
      {
        stream.tracks[i].ended := true;
        i := i + 1;
      }
    }
  }
}
