/**
 * The decision end of the song detector (SongDetection/SongDetector.swift):
 * which audio formats it accepts, and how the debounced detection is held
 * high for a while after a song ends and reported to the delegate.  The
 * spectral analysis that produces each raw detection is not modelled: every
 * analysed segment arrives as one boolean.
 */
module SongDetector {
  import opened Wrappers
  import DB = DebounceBoolean

  /** `kAudioFormatLinearPCM`, the four characters `lpcm`. */
  const LinearPCM: int := 0x6C70636D

  /** `kAudioFormatFlagIsFloat`. */
  const FlagIsFloat: bv32 := 1

  /**
   * `supportsFormat`: linear PCM only; 32-bit samples whether float or
   * integer, 16- and 8-bit samples only as integers.
   */
  function SupportsFormat(formatID: int, formatFlags: bv32, bitsPerChannel: int): (ok: bool)
    ensures ok ==> formatID == LinearPCM
    ensures ok ==> bitsPerChannel in {8, 16, 32}
    ensures ok && formatFlags & FlagIsFloat != 0 ==> bitsPerChannel == 32
    ensures formatID == LinearPCM && bitsPerChannel == 32 ==> ok
    ensures formatID == LinearPCM && formatFlags & FlagIsFloat == 0 && bitsPerChannel in {8, 16} ==> ok
  {
    if formatID != LinearPCM then false
    else
      var isFloat := 0 < formatFlags & FlagIsFloat;
      match (isFloat, bitsPerChannel)
      case (_, 32) => true
      case (false, 16) => true
      case (false, 8) => true
      case _ => false
  }

  /** The old and new reported values after the post-song hold, and the hold counter. */
  datatype Held = Held(remaining: int, oldValue: bool, newValue: bool)

  /**
   * The hold step (lines 327-337): a fall of the debounced value starts a
   * hold of `iterationsAfterSong` segments during which the report stays
   * high; each quiet segment counts it down.
   */
  function Hold(iterationsAfterSong: int, remaining: int, oldValue: bool, newValue: bool): Held
  {
    if oldValue && !newValue && iterationsAfterSong > 0 then Held(iterationsAfterSong, oldValue, true)
    else if !oldValue && !newValue && remaining > 0 then Held(remaining - 1, true, remaining - 1 > 0)
    else Held(remaining, oldValue, newValue)
  }

  /** The delegate call of lines 339-342, if any. */
  function Notification(h: Held): (n: Option<bool>)
    ensures n.Some? <==> h.oldValue != h.newValue
    ensures n.Some? ==> n.value == h.newValue
  {
    if h.oldValue != h.newValue then Some(h.newValue) else None
  }

  /** Everything the detector's decision end keeps between segments. */
  datatype DetectorState = DetectorState(debounce: DB.DebounceState, remaining: int, notifications: seq<bool>)

  /** `lastDetected`. */
  function LastDetected(st: DetectorState): bool
  {
    st.debounce.last || st.remaining > 0
  }

  /** One segment (lines 324-342), given its raw detection. */
  function Step(checks: int, iterationsAfterSong: int, st: DetectorState, detected: bool): DetectorState
  {
    var debounced := DB.Next(checks, st.debounce, detected);
    var h := Hold(iterationsAfterSong, st.remaining, st.debounce.last, debounced.last);
    var sent := match Notification(h) case Some(v) => [v] case None => [];
    DetectorState(debounced, h.remaining, st.notifications + sent)
  }

  /** The state after a sequence of segments, oldest first. */
  function Run(checks: int, iterationsAfterSong: int, st: DetectorState, detections: seq<bool>): DetectorState
  {
    if detections == [] then st
    else Step(checks, iterationsAfterSong, Run(checks, iterationsAfterSong, st, detections[..|detections| - 1]), detections[|detections| - 1])
  }

  /** When the debounced value falls, the hold starts and the report stays high, with no notification. */
  lemma FallStartsHold(iterationsAfterSong: int, remaining: int)
    requires iterationsAfterSong > 0
    ensures Hold(iterationsAfterSong, remaining, true, false) == Held(iterationsAfterSong, true, true)
    ensures Notification(Hold(iterationsAfterSong, remaining, true, false)) == None
  {
  }

  /**
   * While the debounced value stays low the hold counts down; the report
   * stays high until the count reaches zero, and that segment reports the
   * fall.
   */
  lemma HoldCountsDown(iterationsAfterSong: int, remaining: int)
    requires remaining > 0
    ensures Hold(iterationsAfterSong, remaining, false, false).remaining == remaining - 1
    ensures Notification(Hold(iterationsAfterSong, remaining, false, false)) ==
      if remaining == 1 then Some(false) else None
  {
  }

  /** Whenever the reported value changes, the delegate is told the new value. */
  lemma ReportedChangeIsNotified(checks: int, iterationsAfterSong: int, st: DetectorState, detected: bool)
    requires st.remaining >= 0
    ensures var next := Step(checks, iterationsAfterSong, st, detected);
      LastDetected(next) != LastDetected(st) ==> next.notifications == st.notifications + [LastDetected(next)]
  {
  }

  /**
   * Whatever the delegate is told is the new reported value, unless a hold
   * is still running while the hold length has been set to zero.
   */
  lemma NotifiedValueIsReported(checks: int, iterationsAfterSong: int, st: DetectorState, detected: bool)
    requires iterationsAfterSong > 0 || st.remaining == 0
    ensures var next := Step(checks, iterationsAfterSong, st, detected);
      next.notifications == st.notifications || next.notifications == st.notifications + [LastDetected(next)]
  {
  }

  /**
   * A song resuming during a hold tells the delegate `true` again although
   * the reported value was already true.
   */
  lemma ResumingDuringHoldRenotifies(checks: int, iterationsAfterSong: int, st: DetectorState)
    requires !st.debounce.last && st.remaining > 0
    requires DB.Next(checks, st.debounce, true).last
    ensures var next := Step(checks, iterationsAfterSong, st, true);
      LastDetected(st) && LastDetected(next) && next.notifications == st.notifications + [true]
  {
  }

  /** Notifications are only ever appended, at most one per segment. */
  lemma {:induction false} NotificationsAtMostOnePerSegment(checks: int, iterationsAfterSong: int, st: DetectorState, detections: seq<bool>)
    ensures var sent := Run(checks, iterationsAfterSong, st, detections).notifications;
      |st.notifications| <= |sent| <= |st.notifications| + |detections| && sent[..|st.notifications|] == st.notifications
  {
    if detections != [] {
      var prev := Run(checks, iterationsAfterSong, st, detections[..|detections| - 1]);
      NotificationsAtMostOnePerSegment(checks, iterationsAfterSong, st, detections[..|detections| - 1]);
      var next := Step(checks, iterationsAfterSong, prev, detections[|detections| - 1]);
      assert next.notifications[..|prev.notifications|] == prev.notifications;
    }
  }

  /** The detector's decision end. */
  class SongDetector {
    var iterationsAfterSong: int
    var iterationsRemainingAfterSong: int
    const debounceDetection: DB.DebounceBoolean
    /** The raw detections of the segments waiting in the transform's buffer, oldest first. */
    var pending: seq<bool>
    /** The values passed to `songDetectionDidChangeTo`, oldest first. */
    var notifications: seq<bool>

    constructor(checks: int)
      ensures fresh(debounceDetection)
      ensures debounceDetection.checks == checks && !debounceDetection.last && debounceDetection.count == 0
      ensures iterationsAfterSong == 0 && iterationsRemainingAfterSong == 0
      ensures pending == [] && notifications == []
    {
      debounceDetection := new DB.DebounceBoolean(checks);
      iterationsAfterSong := 0;
      iterationsRemainingAfterSong := 0;
      pending := [];
      notifications := [];
    }

    function Snapshot(): DetectorState
      reads this, debounceDetection
    {
      DetectorState(debounceDetection.Snapshot(), iterationsRemainingAfterSong, notifications)
    }

    /** `lastDetected`. */
    function LastDetected(): bool
      reads this, debounceDetection
    {
      debounceDetection.LastValue() || iterationsRemainingAfterSong > 0
    }

    /** `processNewValue`: false when no segment is waiting, otherwise one segment is processed. */
    method ProcessNewValue() returns (processed: bool)
      modifies this, debounceDetection
      ensures processed <==> old(pending) != []
      ensures !processed ==> Snapshot() == old(Snapshot()) && pending == old(pending)
      ensures processed ==> pending == old(pending)[1..]
      ensures processed ==> Snapshot() == Step(debounceDetection.checks, iterationsAfterSong, old(Snapshot()), old(pending)[0])
      ensures iterationsAfterSong == old(iterationsAfterSong)
    {
      if pending == [] {
        return false;
      }
      var detected := pending[0];
      pending := pending[1..];

      var oldValue := debounceDetection.LastValue();
      var newValue := debounceDetection.Debounce(detected);

      if oldValue && !newValue && iterationsAfterSong > 0 {
        iterationsRemainingAfterSong := iterationsAfterSong;
        newValue := true;
      } else if !oldValue && !newValue && iterationsRemainingAfterSong > 0 {
        oldValue := true;
        iterationsRemainingAfterSong := iterationsRemainingAfterSong - 1;
        if 0 < iterationsRemainingAfterSong {
          newValue := true;
        }
      }

      if oldValue != newValue {
        notifications := notifications + [newValue];
      }
      return true;
    }

    /** `processNewValues`: every waiting segment is processed, in order. */
    method ProcessNewValues()
      modifies this, debounceDetection
      ensures pending == []
      ensures Snapshot() == Run(debounceDetection.checks, iterationsAfterSong, old(Snapshot()), old(pending))
    {
      var more := true;
      while more
        invariant |pending| <= |old(pending)|
        invariant pending == old(pending)[|old(pending)| - |pending|..]
        invariant !more ==> pending == []
        invariant iterationsAfterSong == old(iterationsAfterSong)
        invariant Snapshot() == Run(debounceDetection.checks, iterationsAfterSong, old(Snapshot()), old(pending)[..|old(pending)| - |pending|])
        decreases |pending| + (if more then 1 else 0)
      {
        ghost var before := old(pending)[..|old(pending)| - |pending|];
        more := ProcessNewValue();
        if more {
          assert old(pending)[..|old(pending)| - |pending|] == before + [old(pending)[|before|]];
        }
      }
      assert old(pending)[..|old(pending)|] == old(pending);
    }
  }
}
