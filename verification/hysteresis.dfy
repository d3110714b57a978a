/**
 * After a session has ended by itself, residual power does not open a new one: the restart
 * threshold is at least twice the threshold that ended the session.
 */
module Hysteresis {
  import opened Common
  import opened Medians
  import opened Detection
  import opened DetectorTheorems
  import opened Energy
  import opened StartGate
  import opened PortSession
  import opened EnergyAccounting

  lemma {:induction false} FeedAllBounded(xs: seq<Sample>, c: real)
    requires c >= 0.0 && forall k :: 0 <= k < |xs| ==> xs[k].Power() <= c
    ensures Bounded(FeedAll(RESET, xs), c)
  {
    hide Feed;
    if xs != [] {
      FeedAllBounded(xs[..|xs| - 1], c);
      FeedBounded(FeedAll(RESET, xs[..|xs| - 1]), xs[|xs| - 1], c);
    }
  }

  lemma {:induction false} MaxPowerOfBounds(xs: seq<Sample>, floor: real)
    ensures MaxPowerOf(xs, floor) >= floor
    ensures forall k :: 0 <= k < |xs| ==> xs[k].Power() <= MaxPowerOf(xs, floor)
  {
    if xs != [] { MaxPowerOfBounds(xs[..|xs| - 1], floor); }
  }

  /** The session's recorded maximum covers everything the end detector has seen. */
  ghost predicate PeakCovered(s: Port) {
    s.es.charging ==> Bounded(s.det, Max(0.0, s.es.maxPower))
  }

  lemma OpenCovers(s: Port, x: Sample)
    requires s.es.lastTime == Some(x.t) && s.es.lastPower == x.Power()
    ensures PeakCovered(Open(s, x))
  {
    hide Median, TakePre, Feed, FeedAll, Bounded;
    var pre := TakePre(s.pre, OrElse(s.gate.lastRunStart, x.t), x.t);
    var m := MaxPowerOf(pre, x.Power());
    MaxPowerOfBounds(pre, x.Power());
    OpenEnergyKeepsMax(s.es, pre, x);
    var c := Max(0.0, OpenEnergy(s.es, pre, x).maxPower);
    forall k | 0 <= k < |pre + [x]| ensures (pre + [x])[k].Power() <= c {
      if k < |pre| { assert pre[k].Power() <= m; }
    }
    FeedAllBounded(pre + [x], c);
  }

  lemma {:induction false} OpenEnergyKeepsMax(es: EState, pre: seq<Sample>, x: Sample)
    ensures OpenEnergy(es, pre, x).maxPower >= MaxPowerOf(pre, x.Power())
  {
    if pre != [] {
      var e0 := es.(charging := true, session := 0.0, start := Some(pre[0].t),
                    maxPower := MaxPowerOf(pre, x.Power()), maxCurrent := MaxCurrentOf(pre, x.i),
                    lastTime := Some(pre[0].t), lastPower := pre[0].Power());
      IntegrateAllIsTrapezoidSum(e0, pre[0], pre[1..] + [x]);
    }
  }

  /** Evaluating the detector changes its timers only. */
  lemma ShouldEndKeepsWindow(d: Det, t: real, wh: real, start: Option<real>)
    ensures var r := ShouldEnd(d, t, wh, start).0;
            r.samples == d.samples && r.peak == d.peak && r.lastT == d.lastT && r.lastV == d.lastV
  {
    hide RecoverySec, Converged;
  }

  lemma ManageChargingCovers(s: Port, x: Sample, active: bool, enabled: bool)
    requires s.es.charging && PeakCovered(s)
    ensures PeakCovered(ManageCharging(s, x, active, enabled))
  {
    hide Detection.ShouldEnd, ArmAfterSession, ReleaseLimit, NoteNoLoad, NoteSessionEnd;
    ShouldEndKeepsWindow(s.det, x.t, s.es.session, s.es.start);
    forall p: Port, r ensures !Close(p, x.t, r).es.charging {
      CloseStops(p, x.t, r);
    }
    hide Close;
  }

  lemma CloseStops(s: Port, t: real, r: Reason)
    ensures !Close(s, t, r).es.charging
  {}

  lemma ManageIdleCovers(s: Port, x: Sample, active: bool, enabled: bool)
    requires !s.es.charging
    requires s.es.lastTime == Some(x.t) && s.es.lastPower == x.Power()
    ensures PeakCovered(ManageIdle(s, x, active, enabled))
  {
    hide WatchIdle, Open, PFast, ShouldStart, Bounded;
    WatchKeepsAccounts(s, x);
    var w := WatchIdle(s, x);
    OpenCovers(w.(gate := ShouldStart(w.gate, x.t, PFast(w.det), x.v).0), x);
  }

  lemma EnforcersKeepDetector(s: Port, t: real, flag: bool)
    ensures var l := EnforceLimit(s, t, flag); l.es == s.es && l.det == s.det && l.gate == s.gate
    ensures var f := EnforceFullOff(s, t, flag); f.es == s.es && f.det == s.det && f.gate == s.gate
  {}

  /** What the session management makes of a pushed reading. */
  function Managed(s: Port, e: Event): Port
    requires e.Push?
  {
    Manage(s.(es := Integrate(s.es, e.x)), e.x, e.active, e.enabled)
  }

  /** The limit and power-off enforcement after it only queue commands. */
  lemma PushIsManaged(s: Port, e: Event)
    requires e.Push?
    ensures var m, r := Managed(s, e), Step(s, e);
            r.es == m.es && r.det == m.det && r.gate == m.gate && r.pre == m.pre
            && Sessions(r.log) == Sessions(m.log)
  {
    hide Manage, EnforceLimit, EnforceFullOff, Integrate, Sessions;
    var m := Managed(s, e);
    EnforcersKeepDetector(m, e.x.t, e.room);
    EnforcersKeepDetector(EnforceLimit(m, e.x.t, e.room), e.x.t, e.active);
    EnforcersKeepAccounts(m, e.x.t, e.room);
    EnforcersKeepAccounts(EnforceLimit(m, e.x.t, e.room), e.x.t, e.active);
  }

  /** A reading at a regular distance from the last one raises the maximum with the window. */
  lemma ManageCovers(s: Port, x: Sample, active: bool, enabled: bool)
    requires PeakCovered(s)
    requires s.es.charging ==> s.es.lastTime.Some? && RegularGap(x.t - s.es.lastTime.value)
    ensures PeakCovered(Manage(s.(es := Integrate(s.es, x)), x, active, enabled))
  {
    hide ManageCharging, ManageIdle, Feed, BufferPre, Bounded;
    var i := s.(es := Integrate(s.es, x));
    IntegrateKeepsCharging(s.es, x);
    var f := i.(det := Feed(s.det, x.t, x.v, x.i));
    if s.es.charging {
      BoundedGrows(s.det, Max(0.0, s.es.maxPower), Max(0.0, i.es.maxPower));
      FeedBounded(s.det, x, Max(0.0, i.es.maxPower));
      ManageChargingCovers(f, x, active, enabled);
    } else {
      ManageIdleCovers(f.(pre := BufferPre(s.pre, x)), x, active, enabled);
    }
  }

  lemma BoundedGrows(d: Det, c: real, c': real)
    requires Bounded(d, c) && c <= c'
    ensures Bounded(d, c')
  {}

  lemma StepCovers(s: Port, e: Event)
    requires PeakCovered(s)
    requires e.Push? && s.es.charging ==> s.es.lastTime.Some? && RegularGap(e.x.t - s.es.lastTime.value)
    ensures PeakCovered(Step(s, e))
  {
    hide Bounded;
    if e.Push? {
      hide Step, Manage, Integrate;
      ManageCovers(s, e.x, e.active, e.enabled);
      PushIsManaged(s, e);
    } else {
      OtherCovers(s, e);
    }
  }

  lemma OtherCovers(s: Port, e: Event)
    requires PeakCovered(s) && !e.Push?
    ensures PeakCovered(Step(s, e))
  {
    hide Bounded, Close, CloseActive, EnforceFullOff, NoteNoLoad, Sessions;
    match e {
      case CommandClose(at, reason) => CloseStops(s, at, reason);
      case BulkClose(at, reason) => BulkCloseRecords(s, at, reason);
      case Confirm(at, portActive) => EnforcersKeepDetector(s, at, portActive);
      case _ =>
    }
  }

  /** Readings follow each other at gaps in (0, 30] seconds. */
  ghost predicate RegularReadings(xs: seq<Sample>) {
    && Increasing(xs)
    && forall k {:trigger xs[k]} :: 0 < k < |xs| ==> xs[k].t - xs[k - 1].t <= 30.0
  }

  /** On every run with regular readings, the recorded maximum covers the detector's peak. */
  lemma {:induction false} RunCoversPeak(es: seq<Event>)
    requires RegularReadings(Readings(es))
    ensures PeakCovered(Run(INITIAL, es))
  {
    hide Step, PeakCovered, Increasing;
    if es == [] {
      assert PeakCovered(INITIAL) by { InitialCovered(); }
    } else {
      var n := |es| - 1;
      var init, e := es[..n], es[n];
      RegularPrefix(es);
      RunCoversPeak(init);
      RunIsAccounted(init);
      NextGapRegular(init, e);
      StepCovers(Run(INITIAL, init), e);
    }
  }

  lemma InitialCovered()
    ensures PeakCovered(INITIAL)
  {}

  lemma {:induction false} ReadingsStep(es: seq<Event>, e: Event)
    ensures Readings(es + [e]) == if e.Push? then Readings(es) + [e.x] else Readings(es)
    ensures forall s :: Run(s, es + [e]) == Step(Run(s, es), e)
  {
    hide Step;
    assert (es + [e])[..|es|] == es;
  }

  lemma RegularInit(xs: seq<Sample>, x: Sample)
    requires RegularReadings(xs + [x])
    ensures RegularReadings(xs)
  {
    hide Increasing;
    var ys := xs + [x];
    assert ys[..|xs|] == xs;
    BeforeLast(ys);
    forall k | 0 < k < |xs| ensures xs[k].t - xs[k - 1].t <= 30.0 {
      assert ys[k] == xs[k] && ys[k - 1] == xs[k - 1];
    }
  }

  lemma {:induction false} RegularPrefix(es: seq<Event>)
    requires es != [] && RegularReadings(Readings(es))
    ensures var e := es[|es| - 1];
            var xs := Readings(es[..|es| - 1]);
            RegularReadings(xs) && Readings(es) == if e.Push? then xs + [e.x] else xs
  {
    hide RegularReadings, Readings;
    var init, e := es[..|es| - 1], es[|es| - 1];
    ReadingsStep(init, e);
    assert es == init + [e];
    if e.Push? {
      RegularInit(Readings(init), e.x);
    }
  }

  lemma {:induction false} NextGapRegular(init: seq<Event>, e: Event)
    requires PortAccounted(Run(INITIAL, init), Readings(init))
    requires e.Push? ==> RegularReadings(Readings(init) + [e.x])
    ensures var s := Run(INITIAL, init);
            e.Push? && s.es.charging ==> s.es.lastTime.Some? && RegularGap(e.x.t - s.es.lastTime.value)
  {
    hide Run;
    var s, xs := Run(INITIAL, init), Readings(init);
    if e.Push? && s.es.charging {
      var ys := xs + [e.x];
      assert ys[|xs|].t - ys[|xs| - 1].t <= 30.0 && ys[|xs| - 1].t < ys[|xs|].t;
    }
  }

  // ----- what follows a close by low power -----

  /** Idle after a session, with a raised threshold that nothing in the window reaches. */
  ghost predicate Residual(s: Port, level: real) {
    && !s.es.charging && s.gate.postSession && s.gate.restartW >= level
    && forall k :: 0 <= k < |s.det.samples| ==> s.det.samples[k].p < level
  }

  /** Below the level, and not an empty port. */
  ghost predicate Quiet(e: Event, level: real) {
    && !e.ReadsEmpty?
    && (e.Push? ==> e.x.Power() < level)
  }

  lemma FeedStaysBelow(d: Det, x: Sample, level: real)
    requires level > 0.0 && x.Power() < level
    requires forall k :: 0 <= k < |d.samples| ==> d.samples[k].p < level
    ensures var f := Feed(d, x.t, x.v, x.i);
            PFast(f) < level && forall k :: 0 <= k < |f.samples| ==> f.samples[k].p < level
  {
    hide Median;
    var h := d.samples + [Pt(x.t, Power(x.v, x.i))];
    TrimKeepsMembers(h, x.t - 300.0);
    var f := Feed(d, x.t, x.v, x.i);
    forall k | 0 <= k < |f.samples| ensures f.samples[k].p < level {
      assert f.samples[k] in h;
    }
    SinceBelow(f.samples, LastT(f) - 20.0, level);
    MedianBelow(Since(f.samples, LastT(f) - 20.0), level);
  }

  lemma {:induction false} SinceBelow(s: seq<Pt>, since: real, level: real)
    requires forall k :: 0 <= k < |s| ==> s[k].p < level
    ensures forall k :: 0 <= k < |Since(s, since)| ==> Since(s, since)[k] < level
  {
    if s != [] {
      assert forall k :: 0 <= k < |s[1..]| ==> s[1..][k] == s[k + 1];
      SinceBelow(s[1..], since, level);
    }
  }

  lemma WatchKeepsDetector(s: Port, x: Sample)
    ensures WatchIdle(s, x).det == s.det && WatchIdle(s, x).gate == s.gate
  {}

  lemma QuietManageStaysResidual(s: Port, x: Sample, active: bool, enabled: bool, level: real)
    requires Residual(s, level) && x.Power() < level && level > 0.0
    ensures Residual(Manage(s, x, active, enabled), level)
  {
    hide WatchIdle, Feed, PFast, BufferPre, Open;
    FeedStaysBelow(s.det, x, level);
    var f := s.(det := Feed(s.det, x.t, x.v, x.i), pre := BufferPre(s.pre, x));
    WatchKeepsAccounts(f, x);
    WatchKeepsDetector(f, x);
  }

  lemma QuietStepStaysResidual(s: Port, e: Event, level: real)
    requires Residual(s, level) && Quiet(e, level) && level > 0.0
    ensures Residual(Step(s, e), level)
  {
    hide EnforceFullOff, Manage, Integrate, Close, CloseActive, PushReading, Sessions;
    match e {
      case Push(x, active, enabled, room) =>
        IntegrateKeepsCharging(s.es, x);
        QuietManageStaysResidual(s.(es := Integrate(s.es, x)), x, active, enabled, level);
        PushIsManaged(s, e);
      case CommandClose(at, reason) => CloseIdle(s, at, reason);
      case BulkClose(at, reason) => BulkCloseRecords(s, at, reason);
      case Confirm(at, portActive) => EnforcersKeepDetector(s, at, portActive);
      case _ =>
    }
  }

  lemma {:induction false} ResidualRun(s: Port, es: seq<Event>, level: real)
    requires Residual(s, level) && level > 0.0
    requires forall k :: 0 <= k < |es| ==> Quiet(es[k], level)
    ensures Residual(Run(s, es), level)
  {
    hide Step, Residual, Quiet;
    if es != [] {
      ResidualRun(s, es[..|es| - 1], level);
      QuietStepStaysResidual(Run(s, es[..|es| - 1]), es[|es| - 1], level);
    }
  }

  /** The reading e ended the open session of s by low power. */
  ghost predicate EndsByLowPower(s: Port, e: Event) {
    var cs := Sessions(Step(s, e).log);
    && e.Push? && s.es.charging && !Step(s, e).es.charging
    && |cs| > 0 && cs[|cs| - 1].reason == LowPower
  }

  /** The residual level: at least 0.4 W, and twice the threshold in force when e was judged. */
  function ResidualLevel(s: Port, e: Event): real
    requires e.Push?
  {
    Max(0.4, 2.0 * Threshold(Feed(s.det, e.x.t, e.x.v, e.x.i)))
  }

  /** A reading either leaves the session open or closes it as it stands. */
  lemma ChargingClosesAsIs(s: Port, x: Sample, active: bool, enabled: bool) returns (p: Port, r: Reason)
    requires s.es.charging
    ensures var m := ManageCharging(s, x, active, enabled);
            m.es.charging || (m == Close(p, x.t, r) && p.es == s.es && p.log == s.log)
  {
    hide Close, Detection.ShouldEnd;
    if !enabled {
      p, r := s, UserOff;
    } else if !active || x.i <= 0.0 {
      p, r := s.(gate := NoteNoLoad(s.gate)), if x.v < 4.0 then Unplug else NoLoad;
    } else {
      p := s.(idle := s.idle.(since := None, armed := false),
              det := Detection.ShouldEnd(s.det, x.t, s.es.session, s.es.start).0);
      r := LowPower;
    }
  }

  lemma CloseRaisesGate(s: Port, t: real, r: Reason)
    requires s.es.charging && r != Unplug
    ensures var c := Close(s, t, r);
            !c.es.charging && c.det == RESET && c.gate.postSession
            && c.gate.restartW == RestartThreshold(s.es.maxPower)
  {}

  lemma ManageLowPowerEnd(s: Port, x: Sample, active: bool, enabled: bool)
    requires s.es.charging
    requires var m := ManageCharging(s, x, active, enabled);
             var cs := Sessions(m.log);
             !m.es.charging && |cs| > 0 && cs[|cs| - 1].reason == LowPower
    ensures var m := ManageCharging(s, x, active, enabled);
            !m.es.charging && m.det == RESET && m.gate.postSession
            && m.gate.restartW == RestartThreshold(s.es.maxPower)
  {
    hide ManageCharging, Close, Sessions, RestartThreshold;
    var p, r := ChargingClosesAsIs(s, x, active, enabled);
    CloseRecords(p, x.t, r);
    CloseRaisesGate(p, x.t, r);
  }

  /** With the peak covered, the raised threshold is at least the residual level. */
  lemma LowPowerEndRaisesGate(s: Port, e: Event)
    requires PeakCovered(s) && EndsByLowPower(s, e)
    requires s.es.lastTime.Some? && RegularGap(e.x.t - s.es.lastTime.value)
    ensures Residual(Step(s, e), ResidualLevel(s, e))
  {
    hide ManageCharging, Feed, Step, Integrate, Sessions, Threshold, PeakCovered, TailThreshold;
    var x := e.x;
    IntegrateKeepsCharging(s.es, x);
    PushIsManaged(s, e);
    var f := s.(es := Integrate(s.es, x), det := Feed(s.det, x.t, x.v, x.i));
    ManageLowPowerEnd(f, x, e.active, e.enabled);
    CoveredThreshold(s, x);
  }

  lemma CoveredThreshold(s: Port, x: Sample)
    requires PeakCovered(s) && s.es.charging
    requires s.es.lastTime.Some? && RegularGap(x.t - s.es.lastTime.value)
    ensures Threshold(Feed(s.det, x.t, x.v, x.i)) <= TailThreshold(Integrate(s.es, x).maxPower)
  {
    hide Feed;
    var c := Max(0.0, Integrate(s.es, x).maxPower);
    BoundedGrows(s.det, Max(0.0, s.es.maxPower), c);
    FeedBounded(s.det, x, c);
    TailThresholdMonotone(Feed(s.det, x.t, x.v, x.i).peak, c);
    TailThresholdMonotone(Integrate(s.es, x).maxPower, c);
  }

  /**
   * Hysteresis.  On every run with regular readings: after a reading e ends the session by low
   * power, no session opens as long as every further reading stays below the residual level and
   * the port is never read empty, whatever else (commands, settings, timers) happens meanwhile.
   */
  lemma {:induction false} NoRestartOnResidualPower(es: seq<Event>, e: Event, tail: seq<Event>)
    requires e.Push? && RegularReadings(Readings(es) + [e.x])
    requires EndsByLowPower(Run(INITIAL, es), e)
    requires forall k :: 0 <= k < |tail| ==> Quiet(tail[k], ResidualLevel(Run(INITIAL, es), e))
    ensures !Run(Step(Run(INITIAL, es), e), tail).es.charging
  {
    hide *;
    var s := Run(INITIAL, es);
    RegularInit(Readings(es), e.x);
    RunCoversPeak(es);
    RegularIsIncreasing(Readings(es));
    RunIsAccounted(es);
    NextGapRegular(es, e);
    EndsWhileCharging(s, e);
    LowPowerEndRaisesGate(s, e);
    ResidualRun(Step(s, e), tail, ResidualLevel(s, e));
    assert !Run(Step(s, e), tail).es.charging by {
      ResidualIsIdle(Run(Step(s, e), tail), ResidualLevel(s, e));
    }
  }

  lemma RegularIsIncreasing(xs: seq<Sample>)
    requires RegularReadings(xs)
    ensures Increasing(xs)
  {}

  lemma ResidualIsIdle(s: Port, level: real)
    requires Residual(s, level)
    ensures !s.es.charging
  {}

  lemma EndsWhileCharging(s: Port, e: Event)
    requires EndsByLowPower(s, e)
    ensures e.Push? && s.es.charging && ResidualLevel(s, e) > 0.0
  {}
}
