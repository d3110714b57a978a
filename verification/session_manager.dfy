/** The manager's per-port slots and methods, updating them in place reading by reading. */
module SessionManager {
  import opened Common
  import opened Detection
  import opened Energy
  import opened StartGate
  import opened PortSession
  import SessionDetector
  import SessionGate

  class PortSlots {
    const es: PortEnergyState
    const det: SessionDetector.ChargeSessionDetector
    const gate: SessionGate.SessionStartGate
    const integrator: AdaptiveEnergyIntegrator

    // the manager's per-port dictionaries, grouped by concern
    var idle: Idle
    var pre: seq<Sample>
    var limit: Limit
    var permanent: bool
    var full: FullOff
    ghost var log: seq<Entry>

    ghost function Value(): Port
      reads this, es, det, gate
    {
      Port(es.Value(), det.Value(), gate.Value(), idle, pre, limit, permanent, full, log)
    }

    constructor ()
      ensures Value() == INITIAL
      ensures fresh(es) && fresh(det) && fresh(gate) && fresh(integrator)
    {
      es := new PortEnergyState();
      det := new SessionDetector.ChargeSessionDetector();
      gate := new SessionGate.SessionStartGate();
      integrator := new AdaptiveEnergyIntegrator();
      idle, pre, permanent, log := NOT_IDLE, [], false, [];
      limit := Limit(0.0, Once, false, 0.0);
      full := FullOff(None, 0.0, 0, 0.0, false);
    }

    method BufferPreSession(x: Sample)
      modifies this`pre
      ensures pre == BufferPre(old(pre), x)
    {
      pre := pre + [x];
      ghost var appended := pre;
      var cutoff := x.t - PRE_SESSION_SEC;
      while pre != [] && pre[0].t < cutoff
        invariant TrimPre(pre, cutoff) == TrimPre(appended, cutoff)
        decreases |pre|
      {
        pre := pre[1..];
      }
    }

    method TakePreSessionSamples(runStart: real, now: real) returns (out: seq<Sample>)
      modifies this`pre
      ensures out == TakePre(old(pre), runStart, now) && pre == []
    {
      out := [];
      for k := 0 to |pre|
        invariant out == TakePre(pre[..k], runStart, now)
      {
        var x := pre[k];
        assert pre[..k + 1][..k] == pre[..k];
        if runStart <= x.t < now {
          out := out + [x];
        }
      }
      assert pre[..|pre|] == pre;
      pre := [];
    }

    method ArmFullOff(reason: Reason, t: real)
      modifies this`full, this`log
      ensures Value() == ArmAfterSession(old(Value()), reason, t)
    {
      if full.mode.None? || reason != LowPower {
        return;
      }
      if es.session < FULL_OFF_MIN_WH {
        return;
      }
      full := full.(pending := t, attempts := 0, lastTry := t);
      log := log + [FullArmed(t)];
    }

    method MaybeArmFullOff(t: real)
      modifies this`full, this`log
      ensures Value() == MaybeArm(old(Value()), t)
    {
      if full.mode.None? || full.pending != 0.0 {
        return;
      }
      full := full.(pending := t, attempts := 0, lastTry := t);
      log := log + [FullArmed(t)];
    }

    method EnforceFullOff(t: real, portActive: bool)
      modifies this`full, this`log
      ensures Value() == PortSession.EnforceFullOff(old(Value()), t, portActive)
    {
      if full.pending == 0.0 {
        return;
      }
      if !portActive {
        full := full.(pending := 0.0, fired := true);
        if full.mode == Some(Once) {
          full := full.(mode := None, fired := false);
        }
        return;
      }
      full := full.(fired := false);
      if t - full.lastTry < FULL_OFF_RETRY_SEC {
        return;
      }
      var attempts := full.attempts;
      if attempts >= FULL_OFF_MAX_ATTEMPTS {
        full := full.(pending := 0.0);
        return;
      }
      full := full.(attempts := attempts + 1, lastTry := t);
      log := log + [FullRetry(t)];
    }

    method EnforceChargeLimit(t: real, room: bool)
      modifies this`limit, this`log
      ensures Value() == EnforceLimit(old(Value()), t, room)
    {
      if permanent {
        return;
      }
      if limit.wh <= 0.0 {
        return;
      }
      if !es.charging || !LimitReached(es.session, limit.wh) {
        return;
      }
      if limit.fired {
        if t - limit.firedAt < LIMIT_RETRY_SEC {
          return;
        }
      }
      limit := limit.(fired := true, firedAt := t);
      log := log + [LimitOff(t, es.session, limit.wh, room)];
      if !room {
        limit := limit.(fired := false);
      }
    }

    method ReleaseLimit(reason: Reason)
      modifies this`limit
      ensures Value() == PortSession.ReleaseLimit(old(Value()), reason)
    {
      limit := limit.(fired := false);
      if limit.wh <= 0.0 {
        return;
      }
      if limit.mode != Once {
        return;
      }
      if PreservesLimit(reason) {
        return;
      }
      limit := limit.(wh := 0.0);
    }

    method SettleAfterClose(t: real, reason: Reason)
      modifies this`idle, es, det, gate
      ensures Value() == Settle(old(Value()), t, reason)
    {
      if reason == Unplug {
        gate.NoteNoLoad();
      } else {
        gate.NoteSessionEnd(es.maxPower);
      }
      det.Reset();
      if reason != NoLoad {
        idle := NOT_IDLE;
      } else {
        idle := idle.(fromSession := true);
      }
      es.lastEnd := t;
    }

    method CloseSession(t: real, reason: Reason)
      modifies this, es, det, gate
      ensures Value() == Close(old(Value()), t, reason)
    {
      hide PortSession.ReleaseLimit, ArmAfterSession, Settle;
      if !es.charging {
        return;
      }
      es.charging := false;
      log := log + [Closed(reason, es.session, es.start, es.lastTime, t)];
      ReleaseLimit(reason);
      ArmFullOff(reason, t);
      SettleAfterClose(t, reason);
    }

    /** The bulk close, for this port. */
    method CloseActiveSession(t: real, reason: Reason)
      modifies this, es, det
      ensures Value() == CloseActive(old(Value()), t, reason)
    {
      if !es.charging {
        return;
      }
      det.Reset();
      es.charging := false;
      log := log + [Closed(reason, es.session, es.start, es.lastTime, t)];
      ReleaseLimit(reason);
      es.lastEnd := t;
    }

    /** The loop over the buffered readings that warms the detector up. */
    method WarmDetector(xs: seq<Sample>, x: Sample)
      modifies det
      ensures det.Value() == FeedAll(RESET, xs + [x])
    {
      det.Reset();
      for k := 0 to |xs|
        invariant det.Value() == FeedAll(RESET, xs[..k])
      {
        assert xs[..k + 1][..k] == xs[..k];
        det.Feed(xs[k].t, xs[k].v, xs[k].i);
      }
      assert xs[..|xs|] == xs == (xs + [x])[..|xs|];
      det.Feed(x.t, x.v, x.i);
    }

    /** The loop that integrates the buffered readings into the new session. */
    method BackfillEnergy(xs: seq<Sample>, x: Sample)
      modifies es
      ensures es.Value() == IntegrateAll(old(es.Value()), xs + [x])
    {
      ghost var before := es.Value();
      for k := 0 to |xs|
        invariant es.Value() == IntegrateAll(before, xs[..k])
      {
        assert xs[..k + 1][..k] == xs[..k];
        var _ := integrator.Update(es, xs[k].v, xs[k].i, xs[k].t);
      }
      assert xs[..|xs|] == xs == (xs + [x])[..|xs|];
      var _ := integrator.Update(es, x.v, x.i, x.t);
    }

    method OpenEnergyRecord(before: seq<Sample>, x: Sample)
      modifies es
      ensures es.Value() == OpenEnergy(old(es.Value()), before, x)
    {
      hide Integrate, IntegrateAll, MaxPowerOf, MaxCurrentOf;
      es.charging := true;
      es.session := 0.0;
      es.start := Some(if before == [] then x.t else before[0].t);
      es.maxPower := MaxPowerOf(before, x.Power());
      es.maxCurrent := MaxCurrentOf(before, x.i);
      if before != [] {
        es.lastTime := Some(before[0].t);
        es.lastPower := before[0].Power();
        var totalBefore, dailyBefore := es.total, es.daily;
        BackfillEnergy(before[1..], x);
        es.total, es.daily := totalBefore, dailyBefore;
      }
    }

    method StartSession(x: Sample)
      modifies this, es, det, gate
      ensures Value() == Open(old(Value()), x)
    {
      hide TakePre, OpenEnergy, FeedAll;
      var runStart := OrElse(gate.lastRunStart, x.t);
      var before := TakePreSessionSamples(runStart, x.t);
      OpenEnergyRecord(before, x);
      idle := NOT_IDLE;
      WarmDetector(before, x);
      limit := limit.(fired := false);
      full := full.(pending := 0.0, attempts := 0, fired := false);
      log := log + [Opened(if before == [] then x.t else before[0].t, x.t)];
    }

    /** Branches A to C of the session management: a session is open. */
    method ManageOpenSession(x: Sample, active: bool, enabled: bool)
      requires es.charging
      modifies this, es, det, gate
      ensures Value() == ManageCharging(old(Value()), x, active, enabled)
    {
      hide Close, Detection.ShouldEnd;
      if !enabled {
        CloseSession(x.t, UserOff);
        return;
      }
      if !active || x.i <= 0.0 {
        gate.NoteNoLoad();
        if idle.since.None? {
          idle := idle.(since := Some(x.t));
          return;
        }
        if x.t - idle.since.value < NO_LOAD_DEBOUNCE_SEC {
          return;
        }
        CloseSession(x.t, if x.v < VOLTAGE_FLOOR_V then Unplug else NoLoad);
        return;
      }
      idle := idle.(since := None, armed := false);
      var end := det.ShouldEnd(x.t, es.session, es.start);
      if end {
        CloseSession(x.t, LowPower);
      }
    }

    /** Branch D: nothing is charging; has the port been quiet long enough to switch off? */
    method WatchIdlePort(x: Sample)
      modifies this`idle, this`full, this`log
      ensures Value() == WatchIdle(old(Value()), x)
    {
      hide MaybeArm;
      var power := x.Power();
      if power > NO_LOAD_BUSY_W {
        idle := NOT_IDLE;
      } else if full.mode.Some? && full.pending == 0.0 && !idle.armed && x.v >= VOLTAGE_FLOOR_V {
        if idle.since.None? {
          idle := idle.(since := Some(x.t));
        }
        var window := if idle.fromSession then NO_LOAD_ARM_SESSION_SEC else NO_LOAD_ARM_SEC;
        if x.t - idle.since.value >= window {
          idle := idle.(armed := true);
          MaybeArmFullOff(x.t);
        }
      }
    }

    method ManageSession(x: Sample, active: bool, enabled: bool)
      modifies this, es, det, gate
      ensures Value() == Manage(old(Value()), x, active, enabled)
    {
      hide ManageCharging, WatchIdle, Open, Detection.Feed, StartGate.ShouldStart, PFast, BufferPre;
      det.Feed(x.t, x.v, x.i);
      if es.charging {
        ManageOpenSession(x, active, enabled);
        return;
      }
      BufferPreSession(x);
      WatchIdlePort(x);
      if active && enabled {
        var start := gate.ShouldStart(x.t, PFast(det.Value()), x.v);
        if start {
          StartSession(x);
        }
      }
    }

    /** The push sequence for one decoded reading. */
    method OnPush(x: Sample, active: bool, enabled: bool, room: bool)
      modifies this, es, det, gate
      ensures Value() == PushReading(old(Value()), x, active, enabled, room)
    {
      hide Integrate, Manage, EnforceLimit, PortSession.EnforceFullOff;
      var _ := integrator.Update(es, x.v, x.i, x.t);
      ManageSession(x, active, enabled);
      EnforceChargeLimit(x.t, room);
      EnforceFullOff(x.t, active);
    }

    /** The timer's sampling of one port, when the last reading is stale. */
    method OnTimer(x: Sample, active: bool, enabled: bool, room: bool)
      modifies this, es, det, gate
      ensures Value() == TimerSample(old(Value()), x, active, enabled, room)
    {
      hide Integrate, Manage, EnforceLimit;
      ManageSession(x, active, enabled);
      if es.charging && x.i > 0.0 {
        var _ := integrator.Update(es, x.v, x.i, x.t);
        EnforceChargeLimit(x.t, room);
      }
    }

    method SetChargeLimit(wh: real, mode: Mode)
      modifies this`limit, this`log
      ensures Value() == SetLimit(old(Value()), wh, mode)
    {
      limit := limit.(wh := if wh < 0.0 then 0.0 else wh, mode := mode);
      log := log + [Configured(permanent, false)];
    }

    method SetPermanentPort(on: bool)
      modifies this`permanent, this`limit, this`full, this`log
      ensures Value() == SetPermanent(old(Value()), on)
    {
      permanent := on;
      log := log + [Configured(on, true)];
      if permanent {
        full := full.(mode := None, pending := 0.0, attempts := 0, fired := false);
        limit := limit.(wh := 0.0, fired := false);
      }
    }

    method SetFullOffMode(mode: Option<Mode>)
      modifies this`full, this`log
      ensures Value() == SetFullOff(old(Value()), mode)
    {
      log := log + [Configured(permanent, false)];
      if mode.None? || permanent {
        full := full.(fired := false, pending := 0.0, attempts := 0);
        full := full.(mode := None);
      } else {
        full := full.(mode := mode);
      }
    }
  }
}
