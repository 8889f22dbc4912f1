/**
 * Time-animation playback (ui/playback.py): play/pause with a session counter that
 * retires stale animation loops, and single steps through the time slider's options.
 */
module Playback {
  import opened Wrappers
  import opened Frames
  import opened Arith

  const PLAY_LABEL: string := "\U{25B6}"
  const PAUSE_LABEL: string := "\U{23F8}"
  /** Interval between frames when there is no speed slider, in milliseconds. */
  const DEFAULT_SPEED_MS: int := 1000

  /**
   * The value one step forward: the option after the current one, wrapping from the
   * last to the first, or the first option when the current value is not an option.
   */
  function ForwardValue(options: seq<int>, v: int): (r: int)
    requires |options| > 0
    ensures r in options
    ensures v !in options ==> r == options[0]
    ensures v in options ==> r == options[(IndexOf(options, v).value + 1) % |options|]
  {
    match IndexOf(options, v)
    case Some(i) => options[(i + 1) % |options|]
    case None => options[0]
  }

  /**
   * The value one step backward: the option before the current one, wrapping from the
   * first to the last, or the last option when the current value is not an option.
   * Python's `%` with a positive modulus agrees with Dafny's here.
   */
  function BackwardValue(options: seq<int>, v: int): (r: int)
    requires |options| > 0
    ensures r in options
    ensures v !in options ==> r == options[|options| - 1]
    ensures v in options ==> r == options[(IndexOf(options, v).value - 1) % |options|]
  {
    match IndexOf(options, v)
    case Some(i) => options[(i - 1) % |options|]
    case None => options[|options| - 1]
  }

  /** Over distinct options, the position of an option is where it stands. */
  lemma IndexOfDistinct(options: seq<int>, i: nat)
    requires Distinct(options) && i < |options|
    ensures IndexOf(options, options[i]) == Some(i)
  {
  }

  /** With distinct options, a backward step undoes a forward step... */
  lemma BackwardUndoesForward(options: seq<int>, v: int)
    requires Distinct(options) && v in options
    ensures BackwardValue(options, ForwardValue(options, v)) == v
  {
    var n := |options|;
    var i := IndexOf(options, v).value;
    var j := (i + 1) % n;
    IndexOfDistinct(options, j);
    if i + 1 < n {
      ModUnique(i + 1, n, 0, i + 1);
      ModUnique(i, n, 0, i);
    } else {
      ModUnique(n, n, 1, 0);
      ModOfMinusOne(n);
    }
  }

  /** ...and a forward step undoes a backward step. */
  lemma ForwardUndoesBackward(options: seq<int>, v: int)
    requires Distinct(options) && v in options
    ensures ForwardValue(options, BackwardValue(options, v)) == v
  {
    var n := |options|;
    var i := IndexOf(options, v).value;
    if i > 0 {
      ModUnique(i - 1, n, 0, i - 1);
      ModUnique(i, n, 0, i);
    } else {
      ModOfMinusOne(n);
      ModUnique(n, n, 1, 0);
    }
    IndexOfDistinct(options, (i - 1) % n);
  }

  /** `k` forward steps. */
  function Steps(options: seq<int>, v: int, k: nat): (r: int)
    requires |options| > 0
    ensures k > 0 ==> r in options
  {
    if k == 0 then v else ForwardValue(options, Steps(options, v, k - 1))
  }

  /** Over distinct options, a step forward from position `j` lands on position `j + 1`, cyclically. */
  lemma StepFromPosition(options: seq<int>, j: nat)
    requires Distinct(options) && j < |options|
    ensures ForwardValue(options, options[j]) == options[(j + 1) % |options|]
  {
    IndexOfDistinct(options, j);
  }

  /** From the option at position `i`, `k` forward steps land `k` places further round the options. */
  lemma {:induction false} StepsPosition(options: seq<int>, i: nat, k: nat)
    requires Distinct(options) && i < |options|
    ensures Steps(options, options[i], k) == options[(i + k) % |options|]
  {
    var n := |options|;
    if k == 0 {
      ModUnique(i, n, 0, i);
    } else {
      var a: nat := i + k - 1;
      var j := a % n;
      assert Steps(options, options[i], k - 1) == options[j] by {
        StepsPosition(options, i, k - 1);
      }
      assert ForwardValue(options, options[j]) == options[(j + 1) % n] by {
        StepFromPosition(options, j);
      }
      assert (j + 1) % n == (i + k) % n by {
        ModSucc(a, n);
      }
    }
  }

  /** A whole cycle of forward steps returns to the starting option. */
  lemma {:induction false} FullCycle(options: seq<int>, v: int)
    requires Distinct(options) && v in options
    ensures Steps(options, v, |options|) == v
  {
    var n := |options|;
    var i := IndexOf(options, v).value;
    assert (i + n) % n == i by {
      ModUnique(i + n, n, 1, i);
    }
    StepsPosition(options, i, n);
  }

  /** class PlaybackController with the time slider's visibility, options and value. */
  class PlaybackController {
    var playing: bool
    var sessionId: int
    var buttonLabel: string
    var sliderVisible: bool
    /** the slider's option values, in order */
    var sliderOptions: seq<int>
    var sliderValue: int

    constructor (sliderVisible: bool, sliderOptions: seq<int>, sliderValue: int)
      ensures !playing && sessionId == 0
      ensures this.sliderVisible == sliderVisible && this.sliderOptions == sliderOptions
      ensures this.sliderValue == sliderValue
    {
      playing := false;
      sessionId := 0;
      buttonLabel := PLAY_LABEL;
      this.sliderVisible := sliderVisible;
      this.sliderOptions := sliderOptions;
      this.sliderValue := sliderValue;
    }

    /**
     * `toggle_play(event)`: flips `playing` and moves to a new session either way; on
     * start the first step of the new session is scheduled, and its id returned.
     */
    method TogglePlay() returns (scheduled: Option<int>)
      modifies this
      ensures playing == !old(playing)
      ensures sessionId == old(sessionId) + 1
      ensures buttonLabel == if playing then PAUSE_LABEL else PLAY_LABEL
      ensures scheduled == if playing then Some(sessionId) else None
      ensures sliderVisible == old(sliderVisible) && sliderOptions == old(sliderOptions)
      ensures sliderValue == old(sliderValue)
    {
      playing := !playing;
      if playing {
        buttonLabel := PAUSE_LABEL;
        sessionId := sessionId + 1;
        scheduled := Some(sessionId);
      } else {
        buttonLabel := PLAY_LABEL;
        sessionId := sessionId + 1;
        scheduled := None;
      }
    }

    /**
     * `_step_internal(run_id)`. A stale run or a paused controller does nothing. A hidden
     * slider or one without options stops playback. Otherwise the slider steps forward
     * and the next step of the same run is scheduled after the given interval.
     */
    method StepInternal(runId: int, speed: Option<int>) returns (next: Option<(int, int)>)
      modifies this
      ensures runId != old(sessionId) || !old(playing) ==>
        playing == old(playing) && sessionId == old(sessionId) && sliderValue == old(sliderValue)
        && buttonLabel == old(buttonLabel) && next.None?
      ensures runId == old(sessionId) && old(playing) && (!sliderVisible || |sliderOptions| == 0) ==>
        !playing && sessionId == old(sessionId) + 1 && sliderValue == old(sliderValue) && next.None?
      ensures runId == old(sessionId) && old(playing) && sliderVisible && |sliderOptions| > 0 ==>
        && playing && sessionId == old(sessionId) && buttonLabel == old(buttonLabel)
        && sliderValue == ForwardValue(sliderOptions, old(sliderValue))
        && next == Some((runId, if speed.Some? then speed.value else DEFAULT_SPEED_MS))
      ensures sliderVisible == old(sliderVisible) && sliderOptions == old(sliderOptions)
    {
      next := None;
      if runId != sessionId {
        return;
      }
      if !playing {
        return;
      }
      if !sliderVisible {
        Stop();
        return;
      }
      if |sliderOptions| == 0 {
        Stop();
        return;
      }
      sliderValue := ForwardValue(sliderOptions, sliderValue);
      if playing {
        next := Some((runId, if speed.Some? then speed.value else DEFAULT_SPEED_MS));
      }
    }

    /** `stop()`: playback off, play label, new session. */
    method Stop()
      modifies this
      ensures !playing && buttonLabel == PLAY_LABEL && sessionId == old(sessionId) + 1
      ensures sliderVisible == old(sliderVisible) && sliderOptions == old(sliderOptions)
      ensures sliderValue == old(sliderValue)
    {
      playing := false;
      buttonLabel := PLAY_LABEL;
      sessionId := sessionId + 1;
    }

    /** `step_forward()`: one step forward when the slider is shown and has options. */
    method StepForward()
      modifies this
      ensures sliderValue == if sliderVisible && |sliderOptions| > 0
                             then ForwardValue(sliderOptions, old(sliderValue)) else old(sliderValue)
      ensures playing == old(playing) && sessionId == old(sessionId) && buttonLabel == old(buttonLabel)
      ensures sliderVisible == old(sliderVisible) && sliderOptions == old(sliderOptions)
    {
      if !sliderVisible {
        return;
      }
      if |sliderOptions| == 0 {
        return;
      }
      sliderValue := ForwardValue(sliderOptions, sliderValue);
    }

    /** `step_backward()`: one step backward when the slider is shown and has options. */
    method StepBackward()
      modifies this
      ensures sliderValue == if sliderVisible && |sliderOptions| > 0
                             then BackwardValue(sliderOptions, old(sliderValue)) else old(sliderValue)
      ensures playing == old(playing) && sessionId == old(sessionId) && buttonLabel == old(buttonLabel)
      ensures sliderVisible == old(sliderVisible) && sliderOptions == old(sliderOptions)
    {
      if !sliderVisible {
        return;
      }
      if |sliderOptions| == 0 {
        return;
      }
      sliderValue := BackwardValue(sliderOptions, sliderValue);
    }
  }
}
