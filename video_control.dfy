/**
 * The start/stop latch for movie recording (VideoControl.swift), the older
 * sibling of the capture latch: a noted request is carried out on the next
 * sample buffer when the output is in the opposite recording state.  The
 * lock around each method is left out: calls are taken one at a time.
 */
module VideoControl {
  import W = Wrappers

  type Url = string

  /** `VideoControlStatus`. */
  datatype VideoControlStatus = None | ShouldStart | ShouldStop

  /** What a sample buffer makes the output do. */
  datatype Action = StartRecording(url: Url) | StopRecording | NoAction

  /** A pending start always has a file to record to, so `url!` never traps. */
  predicate Consistent(status: VideoControlStatus, url: W.Option<Url>)
  {
    status == ShouldStart ==> url.Some?
  }

  datatype Outcome = Outcome(status: VideoControlStatus, url: W.Option<Url>, action: Action)

  /** `captureOutput(_:didOutputSampleBuffer:fromConnection:)`. */
  function OnSample(status: VideoControlStatus, url: W.Option<Url>, recording: bool): (o: Outcome)
    requires Consistent(status, url)
    ensures Consistent(o.status, o.url)
    ensures o.action != NoAction ==> o.status == None
    ensures o.action == NoAction ==> o.status == status && o.url == url
    ensures o.action.StartRecording? <==> status == ShouldStart && !recording
    ensures o.action.StartRecording? ==> W.Some(o.action.url) == url && o.url == W.None
    ensures o.action == StopRecording <==> status == ShouldStop && recording
  {
    match status
    case ShouldStart => if !recording then Outcome(None, W.None, StartRecording(url.value)) else Outcome(status, url, NoAction)
    case ShouldStop => if recording then Outcome(None, url, StopRecording) else Outcome(status, url, NoAction)
    case None => Outcome(status, url, NoAction)
  }

  /** A carried-out request is spent: the next sample buffer does nothing, whatever the recording state. */
  lemma RequestsAreOneShot(status: VideoControlStatus, url: W.Option<Url>, recording: bool, nextRecording: bool)
    requires Consistent(status, url)
    requires OnSample(status, url, recording).action != NoAction
    ensures var o := OnSample(status, url, recording); OnSample(o.status, o.url, nextRecording).action == NoAction
  {
  }

  /** A stop requested while not recording stays pending until recording is seen, then stops it. */
  lemma StopWaitsForRecording(url: W.Option<Url>)
    ensures OnSample(ShouldStop, url, false) == Outcome(ShouldStop, url, NoAction)
    ensures OnSample(ShouldStop, url, true) == Outcome(None, url, StopRecording)
  {
  }

  /** `VideoControl`. */
  class VideoControl {
    var status: VideoControlStatus
    var url: W.Option<Url>

    /** `init(parent:)`. */
    constructor()
      ensures status == None && url == W.None
      ensures Valid()
    {
      status := None;
      url := W.None;
    }

    predicate Valid()
      reads this
    {
      Consistent(status, url)
    }

    /** `shouldStart(_:)`. */
    method ShouldStart(file: Url)
      modifies this
      ensures status == VideoControlStatus.ShouldStart && url == W.Some(file)
      ensures Valid()
    {
      status := VideoControlStatus.ShouldStart;
      url := W.Some(file);
    }

    /** `shouldStop()`. */
    method ShouldStop()
      modifies this
      ensures status == VideoControlStatus.ShouldStop && url == old(url)
      ensures Valid()
    {
      status := VideoControlStatus.ShouldStop;
    }

    /** `captureOutputShouldProvideSampleAccurateRecordingStart`: always. */
    function ShouldProvideSampleAccurateRecordingStart(): (b: bool)
      ensures b
    {
      true
    }

    /** `captureOutput(_:didOutputSampleBuffer:fromConnection:)`. */
    method CaptureOutput(recording: bool) returns (action: Action)
      requires Valid()
      modifies this
      ensures Outcome(status, url, action) == OnSample(old(status), old(url), recording)
      ensures Valid()
    {
      action := NoAction;
      match status {
        case ShouldStart =>
          if !recording {
            action := StartRecording(url.value);
            url := W.None;
            status := None;
          }
        case ShouldStop =>
          if recording {
            action := StopRecording;
            status := None;
          }
        case None =>
      }
    }
  }
}
