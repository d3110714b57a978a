/** The start gate: power above a threshold, held for 30 s, with a raised threshold
    after a session until the load really returns or the port reads empty. */
module StartGate {
  import opened Common
  import opened Detection

  const START_MIN_W := 0.5
  const START_MIN_A := 0.1
  const START_HOLD_SEC := 30.0
  const RESTART_MIN_W := 0.4
  const RESTART_RATIO := 2.0

  datatype Gate = Gate(
    postSession: bool, restartW: real, aboveSince: Option<real>, lastRunStart: Option<real>)

  const CLOSED_GATE := Gate(false, 0.0, None, None)

  /** The raised restart threshold after a session that peaked at `peak`. */
  function RestartThreshold(peak: real): real {
    Max(RESTART_MIN_W, RESTART_RATIO * TailThreshold(peak))
  }

  function NoteSessionEnd(g: Gate, peak: real): Gate {
    g.(postSession := true, restartW := RestartThreshold(peak), aboveSince := None)
  }

  function NoteNoLoad(g: Gate): Gate {
    g.(postSession := false, aboveSince := None)
  }

  function BaseThreshold(v: real): real {
    Max(START_MIN_W, START_MIN_A * Max(0.0, v))
  }

  function ThresholdNow(g: Gate, v: real): real {
    if g.postSession then Max(BaseThreshold(v), g.restartW) else BaseThreshold(v)
  }

  function ShouldStart(g: Gate, t: real, fast: real, v: real): (Gate, bool) {
    if fast < ThresholdNow(g, v) then (g.(aboveSince := None), false)
    else
      var a := if g.aboveSince.None? then g.(aboveSince := Some(t)) else g;
      if t - a.aboveSince.value < START_HOLD_SEC then (a, false)
      else (a.(lastRunStart := a.aboveSince, aboveSince := None, postSession := false), true)
  }
}

module SessionGate {
  import opened Common
  import opened Detection
  import opened StartGate

  /** The gate object; each method performs the transition of the same name. */
  class SessionStartGate {
    var postSession: bool
    var restartW: real
    var aboveSince: Option<real>
    var lastRunStart: Option<real>

    function Value(): Gate
      reads this
    {
      Gate(postSession, restartW, aboveSince, lastRunStart)
    }

    constructor ()
      ensures Value() == CLOSED_GATE
    {
      postSession, restartW, aboveSince, lastRunStart := false, 0.0, None, None;
    }

    method NoteSessionEnd(peak: real)
      modifies this
      ensures Value() == StartGate.NoteSessionEnd(old(Value()), peak)
    {
      postSession := true;
      restartW := Max(RESTART_MIN_W, RESTART_RATIO * TailThreshold(peak));
      aboveSince := None;
    }

    method NoteNoLoad()
      modifies this
      ensures Value() == StartGate.NoteNoLoad(old(Value()))
    {
      postSession := false;
      aboveSince := None;
    }

    method ShouldStart(t: real, fast: real, v: real) returns (start: bool)
      modifies this
      ensures (Value(), start) == StartGate.ShouldStart(old(Value()), t, fast, v)
    {
      if fast < ThresholdNow(Value(), v) {
        aboveSince := None;
        return false;
      }
      if aboveSince.None? {
        aboveSince := Some(t);
      }
      if t - aboveSince.value < START_HOLD_SEC {
        return false;
      }
      lastRunStart := aboveSince;
      aboveSince := None;
      postSession := false;
      return true;
    }
  }
}
