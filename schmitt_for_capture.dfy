/**
 * A frame-counting Schmitt trigger (SongDetection/SchmittForCapture.swift).
 * After a trigger the output stays high for a number of frames, then low for
 * `framesLow` frames during which it cannot trigger again, then the trigger
 * is armed once more.
 */
module SchmittForCapture {

  datatype SchmittTrigger = Standard | LeadingEdge | FallingEdge

  datatype SchmittState = Idle | Low | High

  /** The part of the trigger that changes from frame to frame. */
  datatype Frame = Frame(state: SchmittState, count: int, lastInput: bool)

  /** Whether `input`, after `lastInput`, is a trigger. */
  function IsTrigger(trigger: SchmittTrigger, input: bool, lastInput: bool): (b: bool)
    ensures trigger == FallingEdge ==> (b <==> !input && lastInput)
  {
    match trigger
    case Standard => input
    case LeadingEdge => input && !lastInput
    case FallingEdge => !input && lastInput
  }

  /** The trigger code at the end of `processFrame`, reached in state Idle with the given count. */
  function Armed(trigger: SchmittTrigger, enterCount: int, count: int, lastInput: bool, input: bool): Frame
  {
    if IsTrigger(trigger, input, lastInput) then Frame(High, enterCount, input) else Frame(Idle, count, input)
  }

  /**
   * One `processFrame(input)`.  `enterCount` is the count a trigger loads
   * when the output goes high.
   */
  function Step(trigger: SchmittTrigger, enterCount: int, framesLow: int, f: Frame, input: bool): Frame
  {
    match f.state
    case Low =>
      if f.count - 1 <= 0 then Armed(trigger, enterCount, f.count - 1, f.lastInput, input)
      else Frame(Low, f.count - 1, f.lastInput)
    case High =>
      if f.count - 1 <= 0 then Frame(Low, framesLow, f.lastInput)
      else Frame(High, f.count - 1, f.lastInput)
    case Idle => Armed(trigger, enterCount, f.count, f.lastInput, input)
  }

  /** `lastOutput`: the output is high exactly in state High. */
  function Output(f: Frame): bool
  {
    f.state == High
  }

  /** The outputs of successive frames. */
  function Outputs(trigger: SchmittTrigger, enterCount: int, framesLow: int, f: Frame, inputs: seq<bool>): seq<bool>
    decreases |inputs|
  {
    if inputs == [] then []
    else
      var g := Step(trigger, enterCount, framesLow, f, inputs[0]);
      [Output(g)] + Outputs(trigger, enterCount, framesLow, g, inputs[1..])
  }

  /** The frame after successive inputs. */
  function Run(trigger: SchmittTrigger, enterCount: int, framesLow: int, f: Frame, inputs: seq<bool>): Frame
    decreases |inputs|
  {
    if inputs == [] then f
    else Run(trigger, enterCount, framesLow, Step(trigger, enterCount, framesLow, f, inputs[0]), inputs[1..])
  }

  /**
   * The transition the class performs: entering High loads `framesLow`
   * (SchmittForCapture.swift line 98), and `framesHigh` is never read.
   */
  function AsWrittenStep(trigger: SchmittTrigger, framesHigh: int, framesLow: int, f: Frame, input: bool): Frame
  {
    Step(trigger, framesLow, framesLow, f, input)
  }

  /** The evidently intended transition: entering High loads `framesHigh`. */
  function IntendedStep(trigger: SchmittTrigger, framesHigh: int, framesLow: int, f: Frame, input: bool): Frame
  {
    Step(trigger, framesHigh, framesLow, f, input)
  }

  /** In High every frame counts down and keeps the output high until the count runs out; `lastInput` is left alone. */
  lemma {:induction false} HighCountsDown(trigger: SchmittTrigger, enterCount: int, framesLow: int, c: int, li: bool, inputs: seq<bool>)
    requires |inputs| < c
    ensures Run(trigger, enterCount, framesLow, Frame(High, c, li), inputs) == Frame(High, c - |inputs|, li)
    ensures Outputs(trigger, enterCount, framesLow, Frame(High, c, li), inputs) == seq(|inputs|, _ => true)
    decreases |inputs|
  {
    if inputs != [] {
      HighCountsDown(trigger, enterCount, framesLow, c - 1, li, inputs[1..]);
    }
  }

  /** In Low every frame counts down with the output low and `lastInput` untouched until the count runs out. */
  lemma {:induction false} LowCountsDown(trigger: SchmittTrigger, enterCount: int, framesLow: int, c: int, li: bool, inputs: seq<bool>)
    requires |inputs| < c
    ensures Run(trigger, enterCount, framesLow, Frame(Low, c, li), inputs) == Frame(Low, c - |inputs|, li)
    ensures Outputs(trigger, enterCount, framesLow, Frame(Low, c, li), inputs) == seq(|inputs|, _ => false)
    decreases |inputs|
  {
    if inputs != [] {
      LowCountsDown(trigger, enterCount, framesLow, c - 1, li, inputs[1..]);
    }
  }

  /** The last frame of a low phase re-arms the trigger and runs the trigger check on that same frame. */
  lemma LowPhaseEndsArmed(trigger: SchmittTrigger, enterCount: int, framesLow: int, c: int, li: bool, input: bool)
    requires c <= 1
    ensures Step(trigger, enterCount, framesLow, Frame(Low, c, li), input) ==
      (if IsTrigger(trigger, input, li) then Frame(High, enterCount, input) else Frame(Idle, c - 1, input))
  {
  }

  /**
   * With the falling-edge trigger an idle frame goes high exactly on a
   * false input after a true one, and it always records the input.
   */
  lemma FallingEdgeTriggers(enterCount: int, framesLow: int, count: int, li: bool, input: bool)
    ensures Output(Step(FallingEdge, enterCount, framesLow, Frame(Idle, count, li), input)) <==> !input && li
    ensures Step(FallingEdge, enterCount, framesLow, Frame(Idle, count, li), input).lastInput == input
  {
  }

  /**
   * Once triggered, the output stays high for `enterCount` frames in all
   * (the triggering frame and `enterCount - 1` more) and then drops, the low
   * phase loading `framesLow`.
   */
  lemma HighPhaseLength(trigger: SchmittTrigger, enterCount: int, framesLow: int, li: bool, inputs: seq<bool>)
    requires 1 <= enterCount && |inputs| == enterCount
    ensures Outputs(trigger, enterCount, framesLow, Frame(High, enterCount, li), inputs) ==
      seq(enterCount - 1, _ => true) + [false]
    ensures Run(trigger, enterCount, framesLow, Frame(High, enterCount, li), inputs) == Frame(Low, framesLow, li)
  {
    var front, last := inputs[..enterCount - 1], inputs[enterCount - 1..];
    assert inputs == front + last;
    RunSplits(trigger, enterCount, framesLow, Frame(High, enterCount, li), front, last);
    HighCountsDown(trigger, enterCount, framesLow, enterCount, li, front);
  }

  lemma {:induction false} RunSplits(trigger: SchmittTrigger, enterCount: int, framesLow: int, f: Frame, a: seq<bool>, b: seq<bool>)
    ensures Run(trigger, enterCount, framesLow, f, a + b) ==
      Run(trigger, enterCount, framesLow, Run(trigger, enterCount, framesLow, f, a), b)
    ensures Outputs(trigger, enterCount, framesLow, f, a + b) ==
      Outputs(trigger, enterCount, framesLow, f, a) + Outputs(trigger, enterCount, framesLow, Run(trigger, enterCount, framesLow, f, a), b)
    decreases |a|
  {
    if a == [] {
      assert a + b == b;
    } else {
      assert (a + b)[0] == a[0] && (a + b)[1..] == a[1..] + b;
      RunSplits(trigger, enterCount, framesLow, Step(trigger, enterCount, framesLow, f, a[0]), a[1..], b);
    }
  }

  /**
   * As written, a falling edge on an idle trigger keeps the output high for
   * `framesLow` frames, whatever `framesHigh` is.
   */
  lemma AsWrittenHighPhaseLastsFramesLow(framesHigh: int, framesLow: int, inputs: seq<bool>)
    requires 1 <= framesLow && |inputs| == framesLow
    ensures AsWrittenStep(FallingEdge, framesHigh, framesLow, Frame(Idle, 0, true), false) == Frame(High, framesLow, false)
    ensures Outputs(FallingEdge, framesLow, framesLow, Frame(High, framesLow, false), inputs) ==
      seq(framesLow - 1, _ => true) + [false]
  {
    HighPhaseLength(FallingEdge, framesLow, framesLow, false, inputs);
  }

  /** A concrete case: with `framesHigh` 3 and `framesLow` 1 the output is high for one frame only. */
  lemma AsWrittenIgnoresFramesHigh()
    ensures var f := AsWrittenStep(FallingEdge, 3, 1, Frame(Idle, 0, true), false);
      Output(f) && !Output(AsWrittenStep(FallingEdge, 3, 1, f, false))
  {
  }

  /** With the intended transition the output stays high for `framesHigh` frames. */
  lemma IntendedHighPhaseLastsFramesHigh(framesHigh: int, framesLow: int, inputs: seq<bool>)
    requires 1 <= framesHigh && |inputs| == framesHigh
    ensures IntendedStep(FallingEdge, framesHigh, framesLow, Frame(Idle, 0, true), false) == Frame(High, framesHigh, false)
    ensures Outputs(FallingEdge, framesHigh, framesLow, Frame(High, framesHigh, false), inputs) ==
      seq(framesHigh - 1, _ => true) + [false]
  {
    HighPhaseLength(FallingEdge, framesHigh, framesLow, false, inputs);
  }

  /** `SchmittForCapture`. */
  class SchmittForCapture {
    const trigger: SchmittTrigger
    const framesHigh: int
    const framesLow: int
    var state: SchmittState
    var count: int
    var lastInput: bool

    /** `init(framesHigh:framesLow:)`: idle, with the falling-edge trigger. */
    constructor(framesHigh: int, framesLow: int)
      ensures trigger == FallingEdge && this.framesHigh == framesHigh && this.framesLow == framesLow
      ensures state == Idle && count == 0 && !lastInput
    {
      trigger := FallingEdge;
      this.framesHigh := framesHigh;
      this.framesLow := framesLow;
      state := Idle;
      count := 0;
      lastInput := false;
    }

    function Snapshot(): Frame
      reads this
    {
      Frame(state, count, lastInput)
    }

    /** `lastOutput`. */
    function LastOutput(): bool
      reads this
    {
      match state
      case High => true
      case _ => false
    }

    /** `reset()`. */
    method Reset()
      modifies this
      ensures state == Idle && !lastInput && count == 0
    {
      state := Idle;
      lastInput := false;
      count := 0;
    }

    /** `processFrame(input)`: the returned value is `lastOutput` after the frame. */
    method ProcessFrame(input: bool) returns (r: bool)
      modifies this
      ensures Snapshot() == AsWrittenStep(trigger, framesHigh, framesLow, old(Snapshot()), input)
      ensures r == LastOutput()
    {
      match state {
        case Low =>
          count := count - 1;
          if count <= 0 {
            state := Idle;
          } else {
            return false;
          }
        case High =>
          count := count - 1;
          if count <= 0 {
            state := Low;
            count := framesLow;
            return false;
          } else {
            return true;
          }
        case Idle =>
      }

      var isTrigger: bool;
      match trigger {
        case Standard => isTrigger := input;
        case LeadingEdge => isTrigger := input && !lastInput;
        case FallingEdge => isTrigger := !input && lastInput;
      }

      lastInput := input;

      if isTrigger {
        state := High;
        count := framesLow;
        return true;
      }

      return false;
    }
  }
}
