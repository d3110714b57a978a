/**
 * The charge-session state machine of one port, as a value and its transitions:
 * what one pushed reading does, what the command loop and the settings calls do.
 * Ports do not influence each other, so one port's slots are the whole state.
 */
module PortSession {
  import opened Common
  import opened Detection
  import opened Energy
  import opened StartGate

  const NO_LOAD_DEBOUNCE_SEC := 15.0
  const PRE_SESSION_SEC := 120.0
  const NO_LOAD_ARM_SEC := 600.0
  const NO_LOAD_ARM_SESSION_SEC := 120.0
  const NO_LOAD_BUSY_W := 2.0
  const LIMIT_RETRY_SEC := 15.0
  const FULL_OFF_MIN_WH := 1.0
  const FULL_OFF_RETRY_SEC := 15.0
  const FULL_OFF_MAX_ATTEMPTS := 4

  datatype Mode = Once | Always

  datatype Reason = UserOff | Unplug | LowPower | NoLoad | LinkLoss | Shutdown | Unknown

  /** What the port did, in order: sessions, queued "switch off" commands, settings changes. */
  datatype Entry =
    | Opened(since: real, at: real)
    | Closed(reason: Reason, wh: real, start: Option<real>, last: Option<real>, at: real)
    | LimitOff(at: real, wh: real, limit: real, ok: bool)
    | FullArmed(at: real)
    | FullRetry(at: real)
    /** `declared`: the change itself declared the port permanent, or no longer so. */
    | Configured(permanent: bool, declared: bool)

  /** No-load bookkeeping: since when, already used to arm, left over from a session's end. */
  datatype Idle = Idle(since: Option<real>, armed: bool, fromSession: bool)

  /** The charge limit (0 = none) and the command in flight for it. */
  datatype Limit = Limit(wh: real, mode: Mode, fired: bool, firedAt: real)

  /** Automatic power-off: its mode (None = off) and the command being confirmed (0.0 = none). */
  datatype FullOff = FullOff(mode: Option<Mode>, pending: real, attempts: int, lastTry: real, fired: bool)

  datatype Port = Port(
    es: EState, det: Det, gate: Gate,
    idle: Idle, pre: seq<Sample>, limit: Limit, permanent: bool, full: FullOff,
    log: seq<Entry>)

  const NOT_IDLE := Idle(None, false, false)

  const INITIAL := Port(FRESH, RESET, CLOSED_GATE, NOT_IDLE, [],
                        Limit(0.0, Once, false, 0.0), false, FullOff(None, 0.0, 0, 0.0, false), [])

  // ----- the ring of readings taken before a session opens -----

  function TrimPre(s: seq<Sample>, cutoff: real): seq<Sample> {
    if s != [] && s[0].t < cutoff then TrimPre(s[1..], cutoff) else s
  }

  function BufferPre(s: seq<Sample>, x: Sample): seq<Sample> {
    TrimPre(s + [x], x.t - PRE_SESSION_SEC)
  }

  /** The buffered readings with runStart <= t < now. */
  function TakePre(s: seq<Sample>, runStart: real, now: real): seq<Sample> {
    if s == [] then []
    else
      var x := s[|s| - 1];
      TakePre(s[..|s| - 1], runStart, now) + if runStart <= x.t < now then [x] else []
  }

  function MaxPowerOf(xs: seq<Sample>, floor: real): real {
    if xs == [] then floor else Max(MaxPowerOf(xs[..|xs| - 1], floor), xs[|xs| - 1].Power())
  }

  function MaxCurrentOf(xs: seq<Sample>, floor: real): real {
    if xs == [] then floor else Max(MaxCurrentOf(xs[..|xs| - 1], floor), xs[|xs| - 1].i)
  }

  // ----- automatic power-off -----

  function Arm(s: Port, t: real): Port {
    s.(full := s.full.(pending := t, attempts := 0, lastTry := t), log := s.log + [FullArmed(t)])
  }

  /** After a session: only a low-power end of a session worth at least 1 Wh arms. */
  function ArmAfterSession(s: Port, reason: Reason, t: real): Port {
    if s.full.mode.None? || reason != LowPower || s.es.session < FULL_OFF_MIN_WH then s else Arm(s, t)
  }

  function MaybeArm(s: Port, t: real): Port {
    if s.full.mode.None? || s.full.pending != 0.0 then s else Arm(s, t)
  }

  /** Confirms a pending power-off, or repeats it every 15 s up to four times. */
  function EnforceFullOff(s: Port, t: real, portActive: bool): Port {
    var f := s.full;
    if f.pending == 0.0 then s
    else if !portActive then
      s.(full := if f.mode == Some(Once) then f.(pending := 0.0, mode := None, fired := false)
                 else f.(pending := 0.0, fired := true))
    else if t - f.lastTry < FULL_OFF_RETRY_SEC then s.(full := f.(fired := false))
    else if f.attempts >= FULL_OFF_MAX_ATTEMPTS then s.(full := f.(fired := false, pending := 0.0))
    else s.(full := f.(fired := false, attempts := f.attempts + 1, lastTry := t),
            log := s.log + [FullRetry(t)])
  }

  // ----- charge limit -----

  function LimitReached(wh: real, limit: real): bool {
    limit > 0.0 && wh >= limit
  }

  function EnforceLimit(s: Port, t: real, room: bool): Port {
    if s.permanent || !s.es.charging || !LimitReached(s.es.session, s.limit.wh) then s
    else if s.limit.fired && t - s.limit.firedAt < LIMIT_RETRY_SEC then s
    else s.(limit := s.limit.(fired := room, firedAt := t),
            log := s.log + [LimitOff(t, s.es.session, s.limit.wh, room)])
  }

  predicate PreservesLimit(r: Reason) {
    r == LinkLoss || r == Shutdown
  }

  function ReleaseLimit(s: Port, reason: Reason): Port {
    var l := s.limit.(fired := false);
    s.(limit := if l.wh > 0.0 && l.mode == Once && !PreservesLimit(reason) then l.(wh := 0.0) else l)
  }

  // ----- closing and opening a session -----

  /** The part of a close that resets detector, gate and no-load bookkeeping. */
  function Settle(s: Port, t: real, reason: Reason): Port {
    s.(es := s.es.(lastEnd := t),
       gate := if reason == Unplug then NoteNoLoad(s.gate) else NoteSessionEnd(s.gate, s.es.maxPower),
       det := RESET,
       idle := if reason == NoLoad then s.idle.(fromSession := true) else NOT_IDLE)
  }

  /** The session stops being one; everything else a close does follows from that. */
  function Stop(s: Port, t: real, reason: Reason): Port {
    s.(es := s.es.(charging := false),
       log := s.log + [Closed(reason, s.es.session, s.es.start, s.es.lastTime, t)])
  }

  function Close(s: Port, t: real, reason: Reason): Port {
    if !s.es.charging then s
    else Settle(ArmAfterSession(ReleaseLimit(Stop(s, t, reason), reason), reason, t), t, reason)
  }

  /** The bulk close on a lost link or a shutdown: gate, no-load bookkeeping and power-off stay as they are. */
  function CloseActive(s: Port, t: real, reason: Reason): Port {
    if !s.es.charging then s
    else
      var c := ReleaseLimit(Stop(s, t, reason), reason);
      c.(es := c.es.(lastEnd := t), det := RESET)
  }

  /** The energy record of a session that opens at x with the backfilled readings `pre`:
      the session's energy is re-integrated over pre and x, the lifetime totals are kept. */
  function OpenEnergy(es: EState, pre: seq<Sample>, x: Sample): EState {
    var e0 := es.(charging := true, session := 0.0,
                  start := Some(if pre == [] then x.t else pre[0].t),
                  maxPower := MaxPowerOf(pre, x.Power()), maxCurrent := MaxCurrentOf(pre, x.i));
    if pre == [] then e0
    else
      IntegrateAll(e0.(lastTime := Some(pre[0].t), lastPower := pre[0].Power()), pre[1..] + [x])
        .(total := es.total, daily := es.daily)
  }

  function Open(s: Port, x: Sample): Port {
    var pre := TakePre(s.pre, OrElse(s.gate.lastRunStart, x.t), x.t);
    s.(es := OpenEnergy(s.es, pre, x), det := FeedAll(RESET, pre + [x]), pre := [],
       idle := NOT_IDLE,
       limit := s.limit.(fired := false),
       full := s.full.(pending := 0.0, attempts := 0, fired := false),
       log := s.log + [Opened(if pre == [] then x.t else pre[0].t, x.t)])
  }

  // ----- one reading -----

  function ManageCharging(s: Port, x: Sample, active: bool, enabled: bool): Port {
    if !enabled then Close(s, x.t, UserOff)
    else if !active || x.i <= 0.0 then
      var n := s.(gate := NoteNoLoad(s.gate));
      if n.idle.since.None? then n.(idle := n.idle.(since := Some(x.t)))
      else if x.t - n.idle.since.value < NO_LOAD_DEBOUNCE_SEC then n
      else Close(n, x.t, if x.v < VOLTAGE_FLOOR_V then Unplug else NoLoad)
    else
      var n := s.(idle := s.idle.(since := None, armed := false));
      var r := ShouldEnd(n.det, x.t, n.es.session, n.es.start);
      if r.1 then Close(n.(det := r.0), x.t, LowPower) else n.(det := r.0)
  }

  /** While idle: how long the port has carried (almost) no power decides whether to arm. */
  function WatchIdle(s: Port, x: Sample): Port {
    if x.Power() > NO_LOAD_BUSY_W then s.(idle := NOT_IDLE)
    else if s.full.mode.Some? && s.full.pending == 0.0 && !s.idle.armed && x.v >= VOLTAGE_FLOOR_V then
      var since := if s.idle.since.None? then x.t else s.idle.since.value;
      var window := if s.idle.fromSession then NO_LOAD_ARM_SESSION_SEC else NO_LOAD_ARM_SEC;
      if x.t - since >= window then
        MaybeArm(s.(idle := s.idle.(since := Some(since), armed := true)), x.t)
      else s.(idle := s.idle.(since := Some(since)))
    else s
  }

  function ManageIdle(s: Port, x: Sample, active: bool, enabled: bool): Port {
    var w := WatchIdle(s, x);
    if !active || !enabled then w
    else
      var r := ShouldStart(w.gate, x.t, PFast(w.det), x.v);
      if r.1 then Open(w.(gate := r.0), x) else w.(gate := r.0)
  }

  function Manage(s: Port, x: Sample, active: bool, enabled: bool): Port {
    var f := s.(det := Feed(s.det, x.t, x.v, x.i));
    if f.es.charging then ManageCharging(f, x, active, enabled)
    else ManageIdle(f.(pre := BufferPre(f.pre, x)), x, active, enabled)
  }

  /** The push path: integrate, manage the session, enforce the limit, enforce the power-off. */
  function PushReading(s: Port, x: Sample, active: bool, enabled: bool, room: bool): Port {
    EnforceFullOff(
      EnforceLimit(Manage(s.(es := Integrate(s.es, x)), x, active, enabled), x.t, room),
      x.t, active)
  }

  /** The timer's reading of a port that pushes nothing: it is managed in the same way, and integrated
      only while a session is open and current flows; only then the limit is looked at. */
  function TimerSample(s: Port, x: Sample, active: bool, enabled: bool, room: bool): Port {
    var m := Manage(s, x, active, enabled);
    if m.es.charging && x.i > 0.0 then EnforceLimit(m.(es := Integrate(m.es, x)), x.t, room) else m
  }

  // ----- settings -----

  function SetLimit(s: Port, wh: real, mode: Mode): Port {
    s.(limit := s.limit.(wh := Max(0.0, wh), mode := mode), log := s.log + [Configured(s.permanent, false)])
  }

  /** Declaring a port permanent withdraws every automatic power-off from it. */
  function SetPermanent(s: Port, on: bool): Port {
    var c := s.(permanent := on, log := s.log + [Configured(on, true)]);
    if !on then c
    else c.(full := s.full.(mode := None, pending := 0.0, attempts := 0, fired := false),
            limit := s.limit.(wh := 0.0, fired := false))
  }

  function SetFullOff(s: Port, mode: Option<Mode>): Port {
    s.(full := if mode.None? || s.permanent
               then s.full.(mode := None, fired := false, pending := 0.0, attempts := 0)
               else s.full.(mode := mode),
       log := s.log + [Configured(s.permanent, false)])
  }

  // ----- runs -----

  datatype Event =
    /** A pushed reading; `room` says whether the command queue can take the limit's command. */
    | Push(x: Sample, active: bool, enabled: bool, room: bool)
    /** A close ordered from outside the push path: port switched off, unplug verified. */
    | CommandClose(at: real, reason: Reason)
    /** The link is lost, or the service stops: every open session is closed in bulk. */
    | BulkClose(at: real, reason: Reason)
    /** The timer reads the port empty: below 4 V and no current. */
    | ReadsEmpty
    /** The timer's confirmation of a pending power-off. */
    | Confirm(at: real, portActive: bool)
    | ChangeLimit(wh: real, mode: Mode)
    | ChangePermanent(on: bool)
    | ChangeFullOff(mode_: Option<Mode>)

  function Step(s: Port, e: Event): Port {
    match e
    case Push(x, active, enabled, room) => PushReading(s, x, active, enabled, room)
    case CommandClose(at, reason) => Close(s, at, reason)
    case BulkClose(at, reason) => CloseActive(s, at, reason)
    case ReadsEmpty => s.(gate := NoteNoLoad(s.gate))
    case Confirm(at, portActive) => EnforceFullOff(s, at, portActive)
    case ChangeLimit(wh, mode) => SetLimit(s, wh, mode)
    case ChangePermanent(on) => SetPermanent(s, on)
    case ChangeFullOff(mode) => SetFullOff(s, mode)
  }

  function Run(s: Port, es: seq<Event>): Port {
    if es == [] then s else Step(Run(s, es[..|es| - 1]), es[|es| - 1])
  }

  /** Everything that can happen to a port: the events of the push path, and the timer's own readings. */
  datatype Happening =
    | On(e: Event)
    | TimerReading(x: Sample, active: bool, enabled: bool, room: bool)

  function Happen(s: Port, h: Happening): Port {
    match h
    case On(e) => Step(s, e)
    case TimerReading(x, active, enabled, room) => TimerSample(s, x, active, enabled, room)
  }

  function History(s: Port, hs: seq<Happening>): Port {
    if hs == [] then s else Happen(History(s, hs[..|hs| - 1]), hs[|hs| - 1])
  }

  /** The readings pushed during a run. */
  function Readings(es: seq<Event>): seq<Sample> {
    if es == [] then []
    else
      var e := es[|es| - 1];
      Readings(es[..|es| - 1]) + if e.Push? then [e.x] else []
  }
}
