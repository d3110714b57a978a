/**
 * The commands that switch a port off by themselves: the charge limit and the automatic
 * power-off after a full charge.  All statements are about the port's log over whole runs.
 */
module PowerOff {
  import opened Common
  import opened Energy
  import opened PortSession
  import opened EnergyAccounting
  import opened Hysteresis

  /** Whether a session is open after the entries of the log. */
  function ChargingAt(log: seq<Entry>): bool {
    if log == [] then false
    else
      var e := log[|log| - 1];
      if e.Opened? then true else if e.Closed? then false else ChargingAt(log[..|log| - 1])
  }

  /** Whether the port is declared permanent after the entries of the log. */
  function PermanentAt(log: seq<Entry>): bool {
    if log == [] then false
    else
      var e := log[|log| - 1];
      if e.Configured? then e.permanent else PermanentAt(log[..|log| - 1])
  }

  /** When the automatic power-off last queued its command. */
  function LastPowerOff(log: seq<Entry>): Option<real> {
    if log == [] then None
    else
      var e := log[|log| - 1];
      if e.FullArmed? || e.FullRetry? then Some(e.at) else LastPowerOff(log[..|log| - 1])
  }

  /** How often the command was repeated since it was last armed. */
  function Retries(log: seq<Entry>): int {
    if log == [] then 0
    else
      var e := log[|log| - 1];
      if e.FullArmed? then 0
      else Retries(log[..|log| - 1]) + if e.FullRetry? then 1 else 0
  }

  /** What has to be true of the log before e when e is a queued "switch off". */
  ghost predicate Allowed(before: seq<Entry>, e: Entry) {
    match e
    case LimitOff(_, wh, limit, _) =>
      ChargingAt(before) && !PermanentAt(before) && wh >= limit > 0.0
    case FullArmed(_) =>
      !ChargingAt(before) && !PermanentAt(before)
    case FullRetry(at) =>
      && !ChargingAt(before) && !PermanentAt(before)
      && LastPowerOff(before).Some? && at - LastPowerOff(before).value >= 15.0
      && Retries(before) < 4
    case _ => true
  }

  ghost predicate AllAllowed(log: seq<Entry>) {
    forall k {:trigger log[k]} :: 0 <= k < |log| ==> Allowed(log[..k], log[k])
  }

  /** What the port's flags and the log say about each other. */
  ghost predicate Consistent(s: Port) {
    && AllAllowed(s.log)
    && s.es.charging == ChargingAt(s.log) && s.permanent == PermanentAt(s.log)
    && (s.full.mode.Some? ==> !s.permanent)
    && (s.full.pending != 0.0 ==>
          && s.full.mode.Some? && !s.es.charging
          && LastPowerOff(s.log) == Some(s.full.lastTry) && Retries(s.log) == s.full.attempts)
  }

  lemma {:induction false} AppendAllowed(log: seq<Entry>, e: Entry)
    requires AllAllowed(log) && Allowed(log, e)
    ensures AllAllowed(log + [e])
    ensures ChargingAt(log + [e]) == if e.Opened? then true else if e.Closed? then false else ChargingAt(log)
    ensures PermanentAt(log + [e]) == if e.Configured? then e.permanent else PermanentAt(log)
    ensures LastPowerOff(log + [e]) == if e.FullArmed? || e.FullRetry? then Some(e.at) else LastPowerOff(log)
    ensures Retries(log + [e])
         == if e.FullArmed? then 0 else Retries(log) + if e.FullRetry? then 1 else 0
  {
    hide Allowed;
    var l := log + [e];
    assert l[..|log|] == log;
    forall k | 0 <= k < |l| ensures Allowed(l[..k], l[k]) {
      if k < |log| { assert l[..k] == log[..k] && l[k] == log[k]; }
    }
  }

  lemma StopConsistent(s: Port, t: real, r: Reason)
    requires Consistent(s) && s.es.charging
    ensures Consistent(Stop(s, t, r))
  {
    hide AllAllowed, ChargingAt, PermanentAt, LastPowerOff, Retries;
    AppendAllowed(s.log, Closed(r, s.es.session, s.es.start, s.es.lastTime, t));
  }

  lemma ArmConsistent(s: Port, t: real)
    requires Consistent(s) && !s.es.charging && s.full.mode.Some?
    ensures Consistent(Arm(s, t))
  {
    hide AllAllowed, ChargingAt, PermanentAt, LastPowerOff, Retries;
    AppendAllowed(s.log, FullArmed(t));
  }

  lemma CloseConsistent(s: Port, t: real, r: Reason)
    requires Consistent(s)
    ensures Consistent(Close(s, t, r))
  {
    hide AllAllowed, ChargingAt, PermanentAt, LastPowerOff, Retries, Arm;
    if s.es.charging {
      StopConsistent(s, t, r);
      var l := ReleaseLimit(Stop(s, t, r), r);
      assert Consistent(l);
      if l.full.mode.Some? { ArmConsistent(l, t); }
      var a := ArmAfterSession(l, r, t);
      assert Consistent(a);
    }
  }

  lemma OpenConsistent(s: Port, x: Sample)
    requires Consistent(s)
    ensures Consistent(Open(s, x))
  {
    hide AllAllowed, ChargingAt, PermanentAt, LastPowerOff, Retries, TakePre, OpenEnergy;
    var p := TakePre(s.pre, OrElse(s.gate.lastRunStart, x.t), x.t);
    OpenEnergyCharges(s.es, p, x);
    AppendAllowed(s.log, Opened(if p == [] then x.t else p[0].t, x.t));
  }

  lemma EnforceLimitConsistent(s: Port, t: real, room: bool)
    requires Consistent(s)
    ensures Consistent(EnforceLimit(s, t, room))
  {
    hide AllAllowed, ChargingAt, PermanentAt, LastPowerOff, Retries;
    if EnforceLimit(s, t, room) != s {
      AppendAllowed(s.log, LimitOff(t, s.es.session, s.limit.wh, room));
    }
  }

  lemma EnforceFullOffConsistent(s: Port, t: real, portActive: bool)
    requires Consistent(s)
    ensures Consistent(EnforceFullOff(s, t, portActive))
  {
    hide AllAllowed, ChargingAt, PermanentAt, LastPowerOff, Retries;
    var f := EnforceFullOff(s, t, portActive);
    if f.log != s.log {
      AppendAllowed(s.log, FullRetry(t));
    }
  }

  lemma WatchConsistent(s: Port, x: Sample)
    requires Consistent(s) && !s.es.charging
    ensures Consistent(WatchIdle(s, x))
  {
    hide AllAllowed, ChargingAt, PermanentAt, LastPowerOff, Retries, Arm;
    var since := if s.idle.since.None? then x.t else s.idle.since.value;
    var w := s.(idle := s.idle.(since := Some(since), armed := true));
    assert Consistent(w);
    if w.full.mode.Some? { ArmConsistent(w, x.t); }
  }

  lemma ManageConsistent(s: Port, x: Sample, active: bool, enabled: bool)
    requires Consistent(s)
    ensures Consistent(Manage(s, x, active, enabled))
  {
    hide AllAllowed, ChargingAt, PermanentAt, LastPowerOff, Retries, Detection.Feed, BufferPre,
      ManageCharging, ManageIdle;
    var f := s.(det := Detection.Feed(s.det, x.t, x.v, x.i));
    if s.es.charging {
      ManageChargingConsistent(f, x, active, enabled);
    } else {
      ManageIdleConsistent(f.(pre := BufferPre(s.pre, x)), x, active, enabled);
    }
  }

  lemma ManageChargingConsistent(s: Port, x: Sample, active: bool, enabled: bool)
    requires Consistent(s) && s.es.charging
    ensures Consistent(ManageCharging(s, x, active, enabled))
  {
    hide AllAllowed, ChargingAt, PermanentAt, LastPowerOff, Retries, Close, Detection.ShouldEnd;
    forall p: Port, r | Consistent(p) ensures Consistent(Close(p, x.t, r)) {
      CloseConsistent(p, x.t, r);
    }
  }

  lemma ManageIdleConsistent(s: Port, x: Sample, active: bool, enabled: bool)
    requires Consistent(s) && !s.es.charging
    ensures Consistent(ManageIdle(s, x, active, enabled))
  {
    hide AllAllowed, ChargingAt, PermanentAt, LastPowerOff, Retries, WatchIdle, Open, Detection.PFast,
      StartGate.ShouldStart;
    WatchConsistent(s, x);
    var w := WatchIdle(s, x);
    OpenConsistent(w.(gate := StartGate.ShouldStart(w.gate, x.t, Detection.PFast(w.det), x.v).0), x);
  }

  lemma StepConsistent(s: Port, e: Event)
    requires Consistent(s)
    ensures Consistent(Step(s, e))
  {
    hide AllAllowed, ChargingAt, PermanentAt, LastPowerOff, Retries, Close, EnforceFullOff, EnforceLimit,
      Manage, Integrate;
    match e {
      case Push(x, active, enabled, room) =>
        IntegrateKeepsCharging(s.es, x);
        var m := Manage(s.(es := Integrate(s.es, x)), x, active, enabled);
        ManageConsistent(s.(es := Integrate(s.es, x)), x, active, enabled);
        EnforceLimitConsistent(m, x.t, room);
        EnforceFullOffConsistent(EnforceLimit(m, x.t, room), x.t, active);
      case CommandClose(at, reason) => CloseConsistent(s, at, reason);
      case BulkClose(at, reason) => if s.es.charging { StopConsistent(s, at, reason); }
      case Confirm(at, portActive) => EnforceFullOffConsistent(s, at, portActive);
      case ReadsEmpty =>
      case ChangeLimit(_, _) => AppendAllowed(s.log, Configured(s.permanent, false));
      case ChangePermanent(on) => AppendAllowed(s.log, Configured(on, true));
      case ChangeFullOff(_) => AppendAllowed(s.log, Configured(s.permanent, false));
    }
  }

  lemma TimerConsistent(s: Port, x: Sample, active: bool, enabled: bool, room: bool)
    requires Consistent(s)
    ensures Consistent(TimerSample(s, x, active, enabled, room))
  {
    hide AllAllowed, ChargingAt, PermanentAt, LastPowerOff, Retries, EnforceLimit, Manage, Integrate;
    var m := Manage(s, x, active, enabled);
    ManageConsistent(s, x, active, enabled);
    IntegrateKeepsCharging(m.es, x);
    EnforceLimitConsistent(m.(es := Integrate(m.es, x)), x.t, room);
  }

  lemma {:induction false} RunIsConsistent(es: seq<Event>)
    ensures Consistent(Run(INITIAL, es))
  {
    hide Step;
    if es != [] {
      RunIsConsistent(es[..|es| - 1]);
      StepConsistent(Run(INITIAL, es[..|es| - 1]), es[|es| - 1]);
    }
  }

  /**
   * Every command that switches a port off by itself was allowed, whatever happens and however the
   * port is sampled: the limit's only while a session was open and had reached a positive limit; the
   * power-off's only with no session open, repeated at least 15 s apart and at most four times per
   * arming; and neither ever on a port declared permanent.
   */
  lemma {:induction false} EveryPowerOffIsAllowed(hs: seq<Happening>)
    ensures AllAllowed(History(INITIAL, hs).log)
    ensures Consistent(History(INITIAL, hs))
  {
    hide Step, TimerSample;
    if hs != [] {
      var s, h := History(INITIAL, hs[..|hs| - 1]), hs[|hs| - 1];
      EveryPowerOffIsAllowed(hs[..|hs| - 1]);
      match h {
        case On(e) => StepConsistent(s, e);
        case TimerReading(x, active, enabled, room) => TimerConsistent(s, x, active, enabled, room);
      }
    }
  }

  // ----- how far a limit can be overshot, and how often its command is queued -----

  /** The entries since the current session opened. */
  function SinceOpen(log: seq<Entry>): seq<Entry> {
    if log == [] || log[|log| - 1].Opened? then []
    else SinceOpen(log[..|log| - 1]) + [log[|log| - 1]]
  }

  /** The settings have not been touched since the session opened. */
  ghost predicate Unconfigured(log: seq<Entry>) {
    forall k :: 0 <= k < |SinceOpen(log)| ==> !SinceOpen(log)[k].Configured?
  }

  ghost predicate NotFired(log: seq<Entry>) {
    forall k :: 0 <= k < |SinceOpen(log)| ==> !SinceOpen(log)[k].LimitOff?
  }

  /** While charging under unchanged settings: no command yet means the limit is not reached yet. */
  ghost predicate LimitWatched(s: Port) {
    s.es.charging && Unconfigured(s.log) ==>
      && (NotFired(s.log) ==> !s.limit.fired)
      && (NotFired(s.log) && !s.permanent && s.limit.wh > 0.0 ==> s.es.session < s.limit.wh)
  }

  lemma {:induction false} SinceOpenGrows(log: seq<Entry>, e: Entry)
    ensures SinceOpen(log + [e]) == if e.Opened? then [] else SinceOpen(log) + [e]
  {
    assert (log + [e])[..|log|] == log;
  }

  /** Before the limit is enforced: nothing has been commanded without a trace. */
  ghost predicate LimitPending(s: Port) {
    s.es.charging && Unconfigured(s.log) && NotFired(s.log) ==> !s.limit.fired
  }

  lemma EnforceLimitWatches(s: Port, t: real, room: bool)
    requires LimitPending(s)
    ensures LimitWatched(EnforceLimit(s, t, room))
  {
    hide SinceOpen;
    var l := EnforceLimit(s, t, room);
    if s.es.charging && l.log != s.log {
      var e := LimitOff(t, s.es.session, s.limit.wh, room);
      SinceOpenGrows(s.log, e);
      assert SinceOpen(l.log)[|SinceOpen(s.log)|] == e;
    }
  }

  lemma EnforceFullOffWatches(s: Port, t: real, portActive: bool)
    requires LimitWatched(s)
    ensures LimitWatched(EnforceFullOff(s, t, portActive))
  {
    hide SinceOpen;
    var f := EnforceFullOff(s, t, portActive);
    if f.log != s.log {
      AppendWatched(s, f, FullRetry(t));
    }
  }

  /** Appending an entry that is no limit command and no settings change keeps the watch. */
  lemma AppendWatched(s: Port, f: Port, e: Entry)
    requires LimitWatched(s) && !e.Opened? && !e.LimitOff? && !e.Configured?
    requires f.log == s.log + [e] && f.es == s.es && f.permanent == s.permanent
    requires f.limit == s.limit
    ensures LimitWatched(f)
  {
    hide SinceOpen;
    SinceOpenGrows(s.log, e);
    var a, b := SinceOpen(s.log), SinceOpen(f.log);
    assert forall k :: 0 <= k < |a| ==> b[k] == a[k];
    assert b[|a|] == e;
  }

  lemma ManageChargingLimit(s: Port, x: Sample, active: bool, enabled: bool)
    requires s.es.charging
    ensures var m := ManageCharging(s, x, active, enabled);
            m.es.charging ==>
              && m.es == s.es && m.log == s.log && m.permanent == s.permanent
              && m.limit == s.limit
  {
    hide Close, Detection.ShouldEnd;
    forall p: Port, r ensures !Close(p, x.t, r).es.charging {
      CloseStops(p, x.t, r);
    }
  }

  lemma ManageIdleLimit(s: Port, x: Sample, active: bool, enabled: bool)
    requires !s.es.charging && s.es.lastTime == Some(x.t) && s.es.lastPower == x.Power()
    ensures var m := ManageIdle(s, x, active, enabled);
            m.es.charging ==> SinceOpen(m.log) == [] && !m.limit.fired && m.es.lastTime == Some(x.t)
  {
    hide WatchIdle, Detection.PFast, StartGate.ShouldStart, TakePre, OpenEnergy, Detection.FeedAll;
    WatchKeepsAccounts(s, x);
    var w := WatchIdle(s, x);
    var g := w.(gate := StartGate.ShouldStart(w.gate, x.t, Detection.PFast(w.det), x.v).0);
    var p := TakePre(g.pre, OrElse(g.gate.lastRunStart, x.t), x.t);
    OpenEnergyIsBackfill(g.es, p, x);
    SinceOpenGrows(g.log, Opened(if p == [] then x.t else p[0].t, x.t));
  }

  lemma ManageLeavesLimitPending(s: Port, e: Event)
    requires e.Push? && LimitWatched(s)
    requires s.es.lastTime.Some? ==> s.es.lastTime.value <= e.x.t
    ensures LimitPending(Managed(s, e))
  {
    hide ManageCharging, ManageIdle, Integrate, Detection.Feed, BufferPre, SinceOpen;
    var x := e.x;
    IntegrateKeepsCharging(s.es, x);
    IntegrateMoves(s.es, x);
    var f := s.(es := Integrate(s.es, x), det := Detection.Feed(s.det, x.t, x.v, x.i));
    if s.es.charging {
      ManageChargingLimit(f, x, e.active, e.enabled);
    } else {
      ManageIdleLimit(f.(pre := BufferPre(s.pre, x)), x, e.active, e.enabled);
    }
  }

  lemma IntegrateMoves(es: EState, x: Sample)
    ensures Integrate(es, x).lastTime == Some(x.t) && Integrate(es, x).lastPower == x.Power()
  {}

  lemma StepWatches(s: Port, e: Event)
    requires LimitWatched(s)
    requires e.Push? && s.es.lastTime.Some? ==> s.es.lastTime.value <= e.x.t
    ensures LimitWatched(Step(s, e))
  {
    hide SinceOpen, EnforceFullOff, EnforceLimit, Close, LimitPending, Manage, Integrate;
    match e {
      case Push(x, active, enabled, room) =>
        ManageLeavesLimitPending(s, e);
        EnforceLimitWatches(Managed(s, e), x.t, room);
        EnforceFullOffWatches(EnforceLimit(Managed(s, e), x.t, room), x.t, active);
      case CommandClose(at, reason) => CloseStops(s, at, reason);
      case BulkClose(at, reason) =>
      case Confirm(at, portActive) => EnforceFullOffWatches(s, at, portActive);
      case ReadsEmpty =>
      case ChangeLimit(_, _) => ConfiguredEndsWatch(s.log, s.permanent, false);
      case ChangePermanent(on) => ConfiguredEndsWatch(s.log, on, true);
      case ChangeFullOff(_) => ConfiguredEndsWatch(s.log, s.permanent, false);
    }
  }

  lemma ConfiguredEndsWatch(log: seq<Entry>, on: bool, declared: bool)
    ensures !Unconfigured(log + [Configured(on, declared)])
  {
    SinceOpenGrows(log, Configured(on, declared));
    assert SinceOpen(log + [Configured(on, declared)])[|SinceOpen(log)|] == Configured(on, declared);
  }

  lemma {:induction false} RunIsWatched(es: seq<Event>)
    requires Increasing(Readings(es))
    ensures LimitWatched(Run(INITIAL, es))
  {
    hide Step, Increasing, Readings, LimitWatched;
    if es == [] {
      InitialWatched();
    } else {
      var init, e := es[..|es| - 1], es[|es| - 1];
      assert es == init + [e];
      ReadingsStep(init, e);
      var xs := Readings(init);
      if e.Push? {
        assert (xs + [e.x])[..|xs|] == xs;
        BeforeLast(xs + [e.x]);
      }
      RunIsWatched(init);
      RunIsAccounted(init);
      TimeMovesOn(Run(INITIAL, init), xs, e);
      StepWatches(Run(INITIAL, init), e);
    }
  }

  lemma InitialWatched()
    ensures LimitWatched(INITIAL)
  {}

  lemma TimeMovesOn(s: Port, xs: seq<Sample>, e: Event)
    requires PortAccounted(s, xs) && (e.Push? ==> Increasing(xs + [e.x]))
    ensures e.Push? && s.es.lastTime.Some? ==> s.es.lastTime.value <= e.x.t
  {
    if e.Push? && xs != [] {
      BeforeLast(xs + [e.x]);
      assert (xs + [e.x])[|xs| - 1] == xs[|xs| - 1];
    }
  }

  lemma ScaleBound(mean: real, pmax: real, h: real)
    requires mean <= pmax && pmax >= 0.0 && 0.0 < h <= 1.0 / 120.0
    ensures mean * h <= pmax * (1.0 / 120.0)
  {
    assert mean * h <= pmax * h;
    assert pmax * h <= pmax * (1.0 / 120.0);
  }

  lemma TrapezoidBound(p0: real, p1: real, dt: real, pmax: real)
    requires p0 <= pmax && p1 <= pmax && pmax >= 0.0 && RegularGap(dt)
    ensures Trapezoid(p0, p1, dt) <= pmax / 120.0
  {
    ScaleBound((p0 + p1) / 2.0, pmax, dt / 3600.0);
  }

  lemma EnforceAddsOwnLimitOff(m: Port, t: real, room: bool, portActive: bool)
    ensures var l := EnforceFullOff(EnforceLimit(m, t, room), t, portActive).log;
            forall k :: |m.log| <= k < |l| && l[k].LimitOff? ==> l[k].wh == m.es.session && l[k].limit == m.limit.wh
    ensures m.permanent || m.limit.wh <= 0.0 || !m.es.charging ==>
            var l := EnforceFullOff(EnforceLimit(m, t, room), t, portActive).log;
            forall k :: |m.log| <= k < |l| ==> !l[k].LimitOff?
  {}

  lemma CloseAddsNoLimitOff(s: Port, t: real, r: Reason)
    ensures |Close(s, t, r).log| >= |s.log| && Close(s, t, r).log[..|s.log|] == s.log
    ensures forall k :: |s.log| <= k < |Close(s, t, r).log| ==> !Close(s, t, r).log[k].LimitOff?
  {}

  lemma ChargingAddsNoLimitOff(s: Port, x: Sample, active: bool, enabled: bool)
    requires s.es.charging
    ensures var m := ManageCharging(s, x, active, enabled);
            |m.log| >= |s.log| && forall k :: |s.log| <= k < |m.log| ==> !m.log[k].LimitOff?
  {
    hide Close, Detection.ShouldEnd;
    forall p: Port, r | p.log == s.log
      ensures var c := Close(p, x.t, r);
              |c.log| >= |s.log| && forall k :: |s.log| <= k < |c.log| ==> !c.log[k].LimitOff?
    {
      CloseAddsNoLimitOff(p, x.t, r);
    }
  }

  /**
   * Overshoot.  Let a session be open under unchanged settings and no limit command issued for it
   * yet.  If the next reading issues one, the session's energy is at that moment at least the
   * limit, and below the limit plus Pmax/120 Wh, where Pmax bounds the power of all readings.
   */
  lemma {:induction false} LimitOvershootBound(es: seq<Event>, e: Event, k: nat, pmax: real)
    requires e.Push? && Increasing(Readings(es) + [e.x]) && pmax >= 0.0
    requires forall i :: 0 <= i < |Readings(es) + [e.x]| ==> (Readings(es) + [e.x])[i].Power() <= pmax
    requires var s := Run(INITIAL, es); s.es.charging && Unconfigured(s.log) && NotFired(s.log)
    requires var r := Step(Run(INITIAL, es), e);
             |Run(INITIAL, es).log| <= k < |r.log| && r.log[k].LimitOff?
    ensures var c := Step(Run(INITIAL, es), e).log[k];
            c.limit <= c.wh < c.limit + pmax / 120.0
  {
    hide Run, Increasing, Unconfigured, NotFired, Readings, Integrate, ManageCharging, Detection.Feed,
      EnforceLimit, EnforceFullOff, PortAccounted, AllAllowed;
    var s, xs, x := Run(INITIAL, es), Readings(es), e.x;
    var ys := xs + [x];
    assert ys[..|xs|] == xs;
    BeforeLast(ys);
    RunIsWatched(es);
    RunIsAccounted(es);
    ChargingReadingBound(s, xs, x, pmax);
    IntegrateKeepsCharging(s.es, x);
    var f := s.(es := Integrate(s.es, x), det := Detection.Feed(s.det, x.t, x.v, x.i));
    var m := ManageCharging(f, x, e.active, e.enabled);
    ChargingAddsNoLimitOff(f, x, e.active, e.enabled);
    ManageChargingLimit(f, x, e.active, e.enabled);
    EnforceAddsOwnLimitOff(m, x.t, e.room, e.active);
    var r := Step(s, e);
    assert r == EnforceFullOff(EnforceLimit(m, x.t, e.room), x.t, e.active);
    EnforceKeepsPrefix(m, x.t, e.room, e.active);
    RunIsConsistent(es);
    StepConsistent(s, e);
    AllowedAt(r.log, k);
  }

  lemma EnforceKeepsPrefix(m: Port, t: real, room: bool, portActive: bool)
    ensures var l := EnforceFullOff(EnforceLimit(m, t, room), t, portActive).log;
            |l| >= |m.log| && l[..|m.log|] == m.log
  {}

  lemma AllowedAt(log: seq<Entry>, k: nat)
    requires AllAllowed(log) && k < |log| && log[k].LimitOff?
    ensures log[k].wh >= log[k].limit
  {}

  lemma ChargingReadingBound(s: Port, xs: seq<Sample>, x: Sample, pmax: real)
    requires PortAccounted(s, xs) && s.es.charging && pmax >= 0.0
    requires forall i :: 0 <= i < |xs + [x]| ==> (xs + [x])[i].Power() <= pmax
    ensures Integrate(s.es, x).session <= s.es.session + pmax / 120.0
  {
    hide Trapezoid;
    assert (xs + [x])[|xs|] == x;
    if xs != [] {
      assert (xs + [x])[|xs| - 1] == xs[|xs| - 1];
      var dt := x.t - s.es.lastTime.value;
      if RegularGap(dt) {
        TrapezoidBound(s.es.lastPower, x.Power(), dt, pmax);
      }
    }
  }
}
