/**
 * The start/stop latch for file recording (CaptureControl.swift).  A request
 * is noted by `shouldStart` or `shouldStop` and carried out on the next
 * sample buffer, provided the output is in the opposite recording state.
 * The lock around each method is left out: calls are taken one at a time.
 */
module CaptureControl {
  import W = Wrappers

  type Url = string

  /** An `AVFileType`, by its identifier. */
  type FileType = string

  /** `AVFileType.m4a`, the default output file type. */
  const M4a: FileType := "com.apple.m4a-audio"

  datatype Status = None | ShouldStart | ShouldStop

  /** What a sample buffer makes the output do. */
  datatype Action =
    | StartRecording(url: Url, fileType: W.Option<FileType>)
    | StopRecording
    | NoAction

  /** A pending start always has a file to record to, so `url!` never traps. */
  predicate Consistent(status: Status, url: W.Option<Url>)
  {
    status == ShouldStart ==> url.Some?
  }

  /** The latch after a sample buffer, and what it made the output do. */
  datatype Outcome = Outcome(status: Status, url: W.Option<Url>, action: Action)

  /**
   * `fileOutput(_:didOutputSampleBuffer:from:)`.  An audio file output is
   * told the configured file type; any other output picks its own.
   */
  function OnSample(status: Status, url: W.Option<Url>, outputFileType: FileType, isRecording: bool, isAudioOutput: bool): (o: Outcome)
    requires Consistent(status, url)
    ensures Consistent(o.status, o.url)
    ensures o.action != NoAction ==> o.status == None
    ensures o.action == NoAction ==> o.status == status && o.url == url
    ensures o.action.StartRecording? <==> status == ShouldStart && !isRecording
    ensures o.action.StartRecording? ==> W.Some(o.action.url) == url && o.url == W.None
    ensures o.action.StartRecording? ==> (o.action.fileType.Some? <==> isAudioOutput)
    ensures o.action == StopRecording <==> status == ShouldStop && isRecording
  {
    match status
    case ShouldStart =>
      if !isRecording then
        Outcome(None, W.None, StartRecording(url.value, if isAudioOutput then W.Some(outputFileType) else W.None))
      else Outcome(status, url, NoAction)
    case ShouldStop =>
      if isRecording then Outcome(None, url, StopRecording) else Outcome(status, url, NoAction)
    case None => Outcome(status, url, NoAction)
  }

  /** A carried-out request is spent: the next sample buffer does nothing, whatever the recording state. */
  lemma RequestsAreOneShot(status: Status, url: W.Option<Url>, fileType: FileType, isRecording: bool, isAudio: bool, nextRecording: bool, nextAudio: bool)
    requires Consistent(status, url)
    requires OnSample(status, url, fileType, isRecording, isAudio).action != NoAction
    ensures var o := OnSample(status, url, fileType, isRecording, isAudio);
      OnSample(o.status, o.url, fileType, nextRecording, nextAudio).action == NoAction
  {
  }

  /** A start requested while recording waits: it is carried out on the first sample after recording has stopped. */
  lemma StartWaitsForStop(url: Url, fileType: FileType, isAudio: bool)
    ensures OnSample(ShouldStart, W.Some(url), fileType, true, isAudio) == Outcome(ShouldStart, W.Some(url), NoAction)
    ensures OnSample(ShouldStart, W.Some(url), fileType, false, isAudio).action.StartRecording?
    ensures OnSample(ShouldStart, W.Some(url), fileType, false, isAudio).action.url == url
  {
  }

  /** `CaptureControl`. */
  class CaptureControl {
    var status: Status
    var url: W.Option<Url>
    const outputFileType: FileType

    /** `init(parent:outputFileType:)`; the output file type defaults to `.m4a`. */
    constructor(outputFileType: FileType := M4a)
      ensures status == None && url == W.None && this.outputFileType == outputFileType
      ensures Valid()
    {
      status := None;
      url := W.None;
      this.outputFileType := outputFileType;
    }

    predicate Valid()
      reads this
    {
      Consistent(status, url)
    }

    /** `shouldStart(_:)`: a later request replaces an earlier one not yet carried out. */
    method ShouldStart(file: Url)
      modifies this
      ensures status == Status.ShouldStart && url == W.Some(file)
      ensures Valid()
    {
      status := Status.ShouldStart;
      url := W.Some(file);
    }

    /** `shouldStop()`: the stored file is left as it is. */
    method ShouldStop()
      modifies this
      ensures status == Status.ShouldStop && url == old(url)
      ensures Valid()
    {
      status := Status.ShouldStop;
    }

    /** `fileOutputShouldProvideSampleAccurateRecordingStart`: always. */
    function ShouldProvideSampleAccurateRecordingStart(): (b: bool)
      ensures b
    {
      true
    }

    /** `fileOutput(_:didOutputSampleBuffer:from:)`. */
    method FileOutput(isRecording: bool, isAudioOutput: bool) returns (action: Action)
      requires Valid()
      modifies this
      ensures Outcome(status, url, action) == OnSample(old(status), old(url), outputFileType, isRecording, isAudioOutput)
      ensures Valid()
    {
      action := NoAction;
      match status {
        case ShouldStart =>
          if !isRecording {
            if isAudioOutput {
              action := StartRecording(url.value, W.Some(outputFileType));
            } else {
              action := StartRecording(url.value, W.None);
            }
            url := W.None;
            status := None;
          }
        case ShouldStop =>
          if isRecording {
            action := StopRecording;
            status := None;
          }
        case None =>
      }
    }
  }

  /** Two start requests before a sample: the second file is the one recorded. */
  method LaterStartWins(c: CaptureControl, first: Url, second: Url, isAudio: bool) returns (action: Action)
    modifies c
    ensures action.StartRecording? && action.url == second
    ensures c.status == None && c.url == W.None
  {
    c.ShouldStart(first);
    c.ShouldStart(second);
    action := c.FileOutput(false, isAudio);
  }

  /** A control made without a file type tells an audio file output to record `.m4a`. */
  method DefaultRecordsM4a(file: Url) returns (action: Action)
    ensures action == StartRecording(file, W.Some(M4a))
  {
    var c := new CaptureControl();
    c.ShouldStart(file);
    action := c.FileOutput(false, true);
  }
}
