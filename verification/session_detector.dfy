/**
 * The low-power end detector of a charge session.
 *
 * `Det` is the detector's state as a value and `Feed` / `ShouldEnd` its two
 * transitions; the class `SessionDetector.ChargeSessionDetector` is the object that updates
 * its fields in place and is proved to perform exactly these transitions.
 */
module Detection {
  import opened Common
  import opened Medians

  const TAIL_MIN_W := 0.05
  const TAIL_CAP_W := 0.6
  const TAIL_PEAK_RATIO := 0.20

  const FAST_SEC := 20.0
  const SLOW_SEC := 180.0
  const ASSESS_SEC := 300.0
  const RECENT_SEC := 90.0
  const HOLD_SEC := 600.0
  const GRACE_SEC := 120.0
  const RECOVER_FLOOR_W := 5.0
  const RECOVER_SEC := 45.0
  const MIN_WH := 0.05
  const MIN_SEC := 180.0
  const VOLTAGE_FLOOR_V := 4.0

  function TailThreshold(peak: real): real {
    Max(TAIL_MIN_W, Min(TAIL_CAP_W, TAIL_PEAK_RATIO * peak))
  }

  /** The threshold never falls as the peak rises, stays within its two bounds,
      and treats a negative peak like no peak at all. */
  lemma TailThresholdMonotone(p: real, q: real)
    ensures p <= q ==> TailThreshold(p) <= TailThreshold(q)
    ensures TAIL_MIN_W <= TailThreshold(p) <= TAIL_CAP_W
    ensures TailThreshold(Max(0.0, p)) == TailThreshold(p)
  {}

  /** In watts. */
  lemma TailThresholdIs(p: real)
    ensures TailThreshold(p) == if p <= 0.25 then 0.05 else if p <= 3.0 then p / 5.0 else 0.6
  {}

  /** One point of the raw window: time and (non-negative) power. */
  datatype Pt = Pt(t: real, p: real)

  datatype Det = Det(
    samples: seq<Pt>,
    peak: real,
    holdSince: Option<real>,
    grace: real,
    lastEval: Option<real>,
    lastT: Option<real>,
    lastV: Option<real>)

  const RESET := Det([], 0.0, None, 0.0, None, None, None)

  /** Pops from the left while the oldest point is before the cutoff. */
  function Trim(s: seq<Pt>, cutoff: real): seq<Pt> {
    if s != [] && s[0].t < cutoff then Trim(s[1..], cutoff) else s
  }

  /** The powers of the points no older than `since`, in order. */
  function Since(s: seq<Pt>, since: real): seq<real> {
    if s == [] then []
    else (if s[0].t >= since then [s[0].p] else []) + Since(s[1..], since)
  }

  function MedianSince(s: seq<Pt>, since: real): real {
    Median(Since(s, since))
  }

  function LastT(d: Det): real {
    OrElse(d.lastT, 0.0)
  }

  function PFast(d: Det): real {
    MedianSince(d.samples, LastT(d) - FAST_SEC)
  }

  function PSlow(d: Det): real {
    MedianSince(d.samples, LastT(d) - SLOW_SEC)
  }

  function Power(v: real, i: real): real {
    Max(0.0, v * i)
  }

  function Feed(d: Det, t: real, v: real, i: real): Det {
    var d1 := d.(samples := Trim(d.samples + [Pt(t, Power(v, i))], t - ASSESS_SEC),
                 lastT := Some(t), lastV := Some(v),
                 holdSince := if v < VOLTAGE_FLOOR_V then None else d.holdSince);
    d1.(peak := Max(d1.peak, PFast(d1)))
  }

  /** Feeds a whole list of readings, oldest first. */
  function FeedAll(d: Det, xs: seq<Sample>): Det {
    if xs == [] then d
    else
      var x := xs[|xs| - 1];
      Feed(FeedAll(d, xs[..|xs| - 1]), x.t, x.v, x.i)
  }

  function Threshold(d: Det): real {
    TailThreshold(d.peak)
  }

  function RecoverThreshold(d: Det): real {
    Max(RECOVER_FLOOR_W, Threshold(d) * 2.0)
  }

  /** The three loop variables of the recovery scan. */
  datatype Scan = Scan(run: real, longest: real, prev: Option<real>)

  function ScanStep(a: Scan, x: Pt, cutoff: real, limit: real): Scan {
    if x.t < cutoff then a.(prev := Some(x.t))
    else
      var dt := if a.prev.Some? then x.t - a.prev.value else 0.0;
      if x.p > limit then
        var run := a.run + Max(0.0, dt);
        Scan(run, Max(a.longest, run), Some(x.t))
      else
        Scan(0.0, a.longest, Some(x.t))
  }

  function ScanAll(s: seq<Pt>, cutoff: real, limit: real): Scan {
    if s == [] then Scan(0.0, 0.0, None)
    else ScanStep(ScanAll(s[..|s| - 1], cutoff, limit), s[|s| - 1], cutoff, limit)
  }

  function RecoverySec(d: Det): real {
    ScanAll(d.samples, LastT(d) - RECENT_SEC, RecoverThreshold(d)).longest
  }

  predicate Converged(d: Det) {
    && d.lastT.Some?
    && PFast(d) <= Threshold(d)
    && PSlow(d) <= Threshold(d)
    && (d.lastV.None? || d.lastV.value >= VOLTAGE_FLOOR_V)
  }

  function ClearHold(d: Det): Det {
    d.(holdSince := None, grace := 0.0)
  }

  /** The effective-session gates: enough energy, and enough time since a (truthy) start. */
  predicate PassesGates(t: real, wh: real, start: Option<real>) {
    && wh >= MIN_WH
    && (start.Some? && start.value != 0.0 ==> t - start.value >= MIN_SEC)
  }

  function ShouldEnd(d: Det, t: real, wh: real, start: Option<real>): (Det, bool) {
    if !PassesGates(t, wh, start) then (ClearHold(d), false)
    else
      var dt := if d.lastEval.Some? then t - d.lastEval.value else 0.0;
      var e := d.(lastEval := Some(t));
      if RecoverySec(e) >= RECOVER_SEC then (ClearHold(e), false)
      else if Converged(e) then
        var h := if e.holdSince.None? then e.(holdSince := Some(t), grace := 0.0) else e;
        (h, t - h.holdSince.value >= HOLD_SEC)
      else if e.holdSince.None? then (e, false)
      else
        var g := e.(grace := e.grace + Max(0.0, dt));
        if g.grace > GRACE_SEC then (ClearHold(g), false)
        else (g, t - g.holdSince.value >= HOLD_SEC)
  }
}

module SessionDetector {
  import opened Common
  import opened Detection

  /** The detector object: every method performs the transition of the same name. */
  class ChargeSessionDetector {
    var samples: seq<Pt>
    var peak: real
    var holdSince: Option<real>
    var grace: real
    var lastEval: Option<real>
    var lastT: Option<real>
    var lastV: Option<real>

    function Value(): Det
      reads this
    {
      Det(samples, peak, holdSince, grace, lastEval, lastT, lastV)
    }

    constructor ()
      ensures Value() == RESET
    {
      samples, peak, holdSince, grace := [], 0.0, None, 0.0;
      lastEval, lastT, lastV := None, None, None;
    }

    method Reset()
      modifies this
      ensures Value() == RESET
    {
      samples, peak, holdSince, grace := [], 0.0, None, 0.0;
      lastEval, lastT, lastV := None, None, None;
    }

    method Feed(t: real, v: real, i: real)
      modifies this
      ensures Value() == Detection.Feed(old(Value()), t, v, i)
    {
      var power := if v * i > 0.0 then v * i else 0.0;
      lastT := Some(t);
      lastV := Some(v);
      samples := samples + [Pt(t, power)];
      ghost var appended := samples;
      var cutoff := t - ASSESS_SEC;
      while samples != [] && samples[0].t < cutoff
        invariant Trim(samples, cutoff) == Trim(appended, cutoff)
        invariant unchanged(`peak) && unchanged(`holdSince) && unchanged(`grace) && unchanged(`lastEval)
        invariant lastT == Some(t) && lastV == Some(v)
        decreases |samples|
      {
        samples := samples[1..];
      }
      if v < VOLTAGE_FLOOR_V {
        holdSince := None;
      }
      var fast := PFast(Value());
      if fast > peak {
        peak := fast;
      }
    }

    /** Longest recent recovery, in one pass over the window. */
    method RecoverySec() returns (longest: real)
      ensures longest == Detection.RecoverySec(Value())
    {
      var limit := RecoverThreshold(Value());
      var cutoff := LastT(Value()) - RECENT_SEC;
      var run := 0.0;
      longest := 0.0;
      var prev: Option<real> := None;
      for k := 0 to |samples|
        invariant Scan(run, longest, prev) == ScanAll(samples[..k], cutoff, limit)
      {
        assert samples[..k + 1][..k] == samples[..k];
        var x := samples[k];
        if x.t < cutoff {
          prev := Some(x.t);
          continue;
        }
        var dt := if prev.Some? then x.t - prev.value else 0.0;
        prev := Some(x.t);
        if x.p > limit {
          run := run + Max(0.0, dt);
          longest := Max(longest, run);
        } else {
          run := 0.0;
        }
      }
      assert samples[..|samples|] == samples;
    }

    method ClearHold()
      modifies this`holdSince, this`grace
      ensures Value() == Detection.ClearHold(old(Value()))
    {
      holdSince, grace := None, 0.0;
    }

    method ShouldEnd(t: real, wh: real, start: Option<real>) returns (end: bool)
      modifies this
      ensures (Value(), end) == Detection.ShouldEnd(old(Value()), t, wh, start)
    {
      if wh < MIN_WH {
        ClearHold();
        return false;
      }
      if start.Some? && start.value != 0.0 && t - start.value < MIN_SEC {
        ClearHold();
        return false;
      }
      var dt := if lastEval.Some? then t - lastEval.value else 0.0;
      lastEval := Some(t);
      var recovery := RecoverySec();
      if recovery >= RECOVER_SEC {
        ClearHold();
        return false;
      }
      if Converged(Value()) {
        if holdSince.None? {
          holdSince, grace := Some(t), 0.0;
        }
      } else {
        if holdSince.None? {
          return false;
        }
        grace := grace + Max(0.0, dt);
        if grace > GRACE_SEC {
          ClearHold();
          return false;
        }
      }
      return t - holdSince.value >= HOLD_SEC;
    }
  }
}
