/**
 * What the automatic power-off rests on: it is armed by a session that ended by low power and was
 * worth something, or by a port that has carried next to nothing for long enough.
 */
module Arming {
  import opened Common
  import opened Detection
  import opened Energy
  import opened StartGate
  import opened PortSession
  import opened EnergyAccounting
  import opened Hysteresis
  import opened SessionOpening

  /** A happening that is a reading, pushed or taken by the timer. */
  predicate Reads(h: Happening) {
    h.TimerReading? || h.e.Push?
  }

  function Taken(h: Happening): Sample
    requires Reads(h)
  {
    if h.TimerReading? then h.x else h.e.x
  }

  function ActiveIn(h: Happening): bool
    requires Reads(h)
  {
    if h.TimerReading? then h.active else h.e.active
  }

  /** Why the last session closed. */
  function LastReason(s: Port): Option<Reason> {
    var cs := Sessions(s.log);
    if cs == [] then None else Some(cs[|cs| - 1].reason)
  }

  /** The happening ends the open session. */
  predicate Ends(s: Port, h: Happening) {
    s.es.charging && !Happen(s, h).es.charging
  }

  /** The reading shows no load while a session is open, and at most 2 W while none is. */
  predicate NoDraw(s: Port, x: Sample, active: bool) {
    if s.es.charging then !active || x.i <= 0.0 else x.Power() <= 2.0
  }

  /** What happens, met in state s, is no sign of a device drawing power: a reading shows no draw, no
      session opens, and a session that ends does so for want of load or in bulk. */
  predicate Unloaded(s: Port, h: Happening) {
    && (Reads(h) ==> NoDraw(s, Taken(h), ActiveIn(h)))
    && (Happen(s, h).es.charging ==> s.es.charging)
    && (Ends(s, h) ==> LastReason(Happen(s, h)) == Some(NoLoad) || (h.On? && h.e.BulkClose?))
  }

  /** From reading j on, nothing was a sign of a device drawing power. */
  ghost predicate UnloadedFrom(hs: seq<Happening>, j: int) {
    && 0 <= j < |hs| && Reads(hs[j])
    && forall k {:trigger hs[k]} :: j <= k < |hs| ==> Unloaded(History(INITIAL, hs[..k]), hs[k])
  }

  /** Happening c ended a session for want of load; since then the port has been idle at 2 W or less. */
  ghost predicate IdleSinceNoLoad(hs: seq<Happening>, c: int) {
    && 0 <= c < |hs| && Ends(History(INITIAL, hs[..c]), hs[c])
    && LastReason(History(INITIAL, hs[..c + 1])) == Some(NoLoad)
    && forall k {:trigger hs[k]} :: c < k < |hs| ==>
         IdleThrough(History(INITIAL, hs[..k]), hs[k], History(INITIAL, hs[..k + 1]))
  }

  predicate Quiet(h: Happening) {
    Reads(h) ==> Taken(h).Power() <= 2.0
  }

  /** What happens leaves an idle port s idle as r, and is no reading above 2 W. */
  predicate IdleThrough(s: Port, h: Happening, r: Port) {
    !s.es.charging && !r.es.charging && Quiet(h)
  }

  /** How long the port must have been unloaded: 120 s after a session that ended for want of load,
      600 s otherwise. */
  ghost function RequiredSec(hs: seq<Happening>): real {
    if exists c :: IdleSinceNoLoad(hs, c) then 120.0 else 600.0
  }

  // ----- what one happening does to the no-load bookkeeping -----

  /** The bookkeeping after h, in terms of the one before. */
  ghost predicate Accounts(s: Port, h: Happening) {
    var r := Happen(s, h);
    && (r.idle.since.Some? ==>
          Unloaded(s, h) && (r.idle.since == s.idle.since || (Reads(h) && r.idle.since == Some(Taken(h).t))))
    && (r.idle.fromSession ==>
          && !r.es.charging
          && if s.es.charging then LastReason(r) == Some(NoLoad) else s.idle.fromSession && Quiet(h))
  }

  /** A session that is open was opened without any no-load history. */
  predicate Fresh(s: Port) {
    s.es.charging ==> !s.idle.fromSession
  }

  lemma CloseIdleBook(s: Port, t: real, r: Reason)
    requires s.es.charging
    ensures var c := Close(s, t, r);
            && !c.es.charging && LastReason(c) == Some(r)
            && c.idle == if r == NoLoad then s.idle.(fromSession := true) else NOT_IDLE
  {
    hide Sessions;
    CloseRecords(s, t, r);
  }

  lemma ManageChargingBook(s: Port, x: Sample, active: bool, enabled: bool)
    requires s.es.charging && !s.idle.fromSession
    ensures var m := ManageCharging(s, x, active, enabled);
            && (m.es.charging ==> !m.idle.fromSession)
            && (!m.es.charging && m.idle.fromSession ==> LastReason(m) == Some(NoLoad))
            && (m.idle.since.Some? ==>
                  && (!active || x.i <= 0.0)
                  && (m.idle.since == s.idle.since || m.idle.since == Some(x.t))
                  && (!m.es.charging ==> LastReason(m) == Some(NoLoad)))
  {
    hide Close, ShouldEnd, LastReason;
    forall p: Port, r | p.es.charging
      ensures var c := Close(p, x.t, r);
              && !c.es.charging && LastReason(c) == Some(r)
              && c.idle == if r == NoLoad then p.idle.(fromSession := true) else NOT_IDLE
    {
      CloseIdleBook(p, x.t, r);
    }
  }

  lemma WatchIdleBook(s: Port, x: Sample)
    ensures var w := WatchIdle(s, x);
            && (w.idle.since.Some? ==>
                  x.Power() <= 2.0 && (w.idle.since == s.idle.since || w.idle.since == Some(x.t)))
            && (w.idle.fromSession ==> s.idle.fromSession && x.Power() <= 2.0)
  {}

  lemma OpenBook(s: Port, x: Sample)
    ensures Open(s, x).idle == NOT_IDLE && Open(s, x).es.charging
  {
    OpenKeepsGate(s, x);
    hide TakePre, OpenEnergy, FeedAll;
  }

  lemma EnforcersKeepBook(s: Port, t: real, flag: bool)
    ensures EnforceLimit(s, t, flag).idle == s.idle && EnforceFullOff(s, t, flag).idle == s.idle
  {}

  /** The bookkeeping after the management of a reading, m, in terms of the one before, s. */
  ghost predicate BookAfter(s: Port, m: Port, x: Sample, active: bool) {
    && (m.idle.since.Some? ==>
          && NoDraw(s, x, active) && (m.es.charging ==> s.es.charging)
          && (s.es.charging && !m.es.charging ==> LastReason(m) == Some(NoLoad))
          && (m.idle.since == s.idle.since || m.idle.since == Some(x.t)))
    && (m.idle.fromSession ==>
          && !m.es.charging
          && if s.es.charging then LastReason(m) == Some(NoLoad)
             else s.idle.fromSession && x.Power() <= 2.0)
  }

  lemma ManageBook(s: Port, x: Sample, active: bool, enabled: bool)
    requires Fresh(s)
    ensures BookAfter(s, Manage(s, x, active, enabled), x, active) && Fresh(Manage(s, x, active, enabled))
  {
    hide LastReason, ManageCharging, WatchIdle, Open, ShouldStart, PFast, Feed, BufferPre;
    var f := s.(det := Feed(s.det, x.t, x.v, x.i));
    if s.es.charging {
      ManageChargingBook(f, x, active, enabled);
    } else {
      var g := f.(pre := BufferPre(f.pre, x));
      WatchIdleBook(g, x);
      WatchKeepsAccounts(g, x);
      var w := WatchIdle(g, x);
      OpenBook(w.(gate := ShouldStart(w.gate, x.t, PFast(w.det), x.v).0), x);
    }
  }

  /** The management s -> m of the reading of h, and what follows it, change the book no further. */
  lemma ReadingAccounts(s: Port, b: Port, m: Port, h: Happening)
    requires Reads(h) && b.es.charging == s.es.charging && b.idle == s.idle
    requires BookAfter(b, m, Taken(h), ActiveIn(h)) && Fresh(m)
    requires var r := Happen(s, h);
             r.idle == m.idle && r.es.charging == m.es.charging && LastReason(r) == LastReason(m)
    ensures Accounts(s, h) && Fresh(Happen(s, h))
  {
    hide Happen, LastReason;
  }

  lemma PushAccounts(s: Port, e: Event)
    requires e.Push? && Fresh(s)
    ensures Accounts(s, On(e)) && Fresh(Step(s, e))
  {
    hide Manage, Integrate, EnforceLimit, EnforceFullOff, Sessions;
    var b := s.(es := Integrate(s.es, e.x));
    IntegrateKeepsCharging(s.es, e.x);
    var m := Managed(s, e);
    ManageBook(b, e.x, e.active, e.enabled);
    PushIsManaged(s, e);
    EnforcersKeepBook(m, e.x.t, e.room);
    EnforcersKeepBook(EnforceLimit(m, e.x.t, e.room), e.x.t, e.active);
    ReadingAccounts(s, b, m, On(e));
  }

  lemma TimerAccounts(s: Port, x: Sample, active: bool, enabled: bool, room: bool)
    requires Fresh(s)
    ensures var h := TimerReading(x, active, enabled, room); Accounts(s, h) && Fresh(Happen(s, h))
  {
    hide Manage, Integrate, EnforceLimit, Sessions;
    var m := Manage(s, x, active, enabled);
    ManageBook(s, x, active, enabled);
    var i := m.(es := Integrate(m.es, x));
    IntegrateKeepsCharging(m.es, x);
    EnforcersKeepBook(i, x.t, room);
    EnforcersKeepAccounts(i, x.t, room);
    EnforcersKeepDetector(i, x.t, room);
    ReadingAccounts(s, s, m, TimerReading(x, active, enabled, room));
  }

  lemma OtherAccounts(s: Port, e: Event)
    requires !e.Push? && Fresh(s)
    ensures Accounts(s, On(e)) && Fresh(Step(s, e))
  {
    hide LastReason, Close, CloseActive, EnforceFullOff, Sessions;
    match e {
      case CommandClose(at, reason) =>
        if s.es.charging { CloseIdleBook(s, at, reason); } else { CloseIdle(s, at, reason); }
      case BulkClose(at, reason) => BulkCloseRecords(s, at, reason);
      case Confirm(at, portActive) =>
        EnforcersKeepDetector(s, at, portActive);
        EnforcersKeepBook(s, at, portActive);
      case _ =>
    }
  }

  lemma HappeningAccounts(s: Port, h: Happening)
    requires Fresh(s)
    ensures Accounts(s, h) && Fresh(Happen(s, h))
  {
    hide Accounts, Fresh, Step, TimerSample;
    match h {
      case On(e) => if e.Push? { PushAccounts(s, e); } else { OtherAccounts(s, e); }
      case TimerReading(x, active, enabled, room) => TimerAccounts(s, x, active, enabled, room);
    }
  }

  // ----- whole histories -----

  /** The bookkeeping tells the truth about the history. */
  ghost predicate Known(hs: seq<Happening>) {
    var s := History(INITIAL, hs);
    && Fresh(s)
    && (s.idle.since.Some? ==> exists j :: UnloadedFrom(hs, j) && Taken(hs[j]).t == s.idle.since.value)
    && (s.idle.fromSession ==> !s.es.charging && exists c :: IdleSinceNoLoad(hs, c))
  }

  lemma {:induction false} HistoryNext(hs: seq<Happening>, h: Happening)
    ensures History(INITIAL, hs + [h]) == Happen(History(INITIAL, hs), h)
  {
    hide Happen;
    assert (hs + [h])[..|hs|] == hs;
  }

  lemma {:induction false} UnloadedNext(hs: seq<Happening>, h: Happening, j: int)
    ensures UnloadedFrom(hs, j) && Unloaded(History(INITIAL, hs), h) ==> UnloadedFrom(hs + [h], j)
    ensures Reads(h) && Unloaded(History(INITIAL, hs), h) ==> UnloadedFrom(hs + [h], |hs|)
  {
    hide Unloaded, History;
    var all := hs + [h];
    assert all[..|hs|] == hs && all[|hs|] == h;
    assert forall k :: 0 <= k < |hs| ==> all[k] == hs[k] && all[..k] == hs[..k];
  }

  lemma {:induction false} SamePrefix(hs: seq<Happening>, h: Happening, k: int)
    requires 0 <= k < |hs|
    ensures (hs + [h])[k] == hs[k] && (hs + [h])[..k] == hs[..k] && (hs + [h])[..k + 1] == hs[..k + 1]
  {}

  lemma {:induction false} NoLoadNext(hs: seq<Happening>, h: Happening, c: int)
    requires !History(INITIAL, hs + [h]).es.charging
    ensures IdleSinceNoLoad(hs, c) && !History(INITIAL, hs).es.charging && Quiet(h) ==> IdleSinceNoLoad(hs + [h], c)
    ensures History(INITIAL, hs).es.charging && LastReason(History(INITIAL, hs + [h])) == Some(NoLoad) ==>
              IdleSinceNoLoad(hs + [h], |hs|)
  {
    HistoryNext(hs, h);
    hide History, Happen, LastReason, Quiet;
    var all := hs + [h];
    assert all[..|hs|] == hs && all[|hs|] == h && all[..|hs| + 1] == all;
    if IdleSinceNoLoad(hs, c) && !History(INITIAL, hs).es.charging && Quiet(h) {
      SamePrefix(hs, h, c);
      forall k {:trigger all[k]} | c < k < |all|
        ensures IdleThrough(History(INITIAL, all[..k]), all[k], History(INITIAL, all[..k + 1]))
      {
        if k < |hs| { SamePrefix(hs, h, k); }
      }
    }
  }

  /** On every history the no-load bookkeeping tells the truth. */
  lemma {:induction false} RunIsKnown(hs: seq<Happening>)
    ensures Known(hs)
  {
    if hs != [] {
      var init, h := hs[..|hs| - 1], hs[|hs| - 1];
      assert hs == init + [h];
      RunIsKnown(init);
      KnownNext(init, h);
    }
  }

  lemma {:induction false} KnownNext(hs: seq<Happening>, h: Happening)
    requires Known(hs)
    ensures Known(hs + [h])
  {
    hide History, Happen, IdleSinceNoLoad, Unloaded, LastReason, Quiet;
    var s, all := History(INITIAL, hs), hs + [h];
    HistoryNext(hs, h);
    HappeningAccounts(s, h);
    var r := History(INITIAL, all);
    if r.idle.since.Some? {
      if r.idle.since == s.idle.since {
        var j :| UnloadedFrom(hs, j) && Taken(hs[j]).t == s.idle.since.value;
        UnloadedNext(hs, h, j);
        assert all[j] == hs[j];
      } else {
        UnloadedNext(hs, h, |hs|);
        assert all[|hs|] == h;
      }
    }
    if r.idle.fromSession {
      if s.es.charging {
        NoLoadNext(hs, h, 0);
      } else {
        var c :| IdleSinceNoLoad(hs, c);
        NoLoadNext(hs, h, c);
      }
    }
  }

  // ----- what arms -----

  /** The entry before k is the end of a session by low power, worth at least 1 Wh. */
  predicate AfterLowPower(log: seq<Entry>, k: int) {
    && 0 < k <= |log| && log[k - 1].Closed?
    && log[k - 1].reason == LowPower && log[k - 1].wh >= 1.0
  }

  /** The reading x finds an idle port unloaded for long enough by its own bookkeeping. */
  predicate WindowOver(s: Port, x: Sample) {
    && !s.es.charging && s.idle.since.Some? && x.Power() <= 2.0 && x.v >= 4.0
    && x.t - s.idle.since.value >= if s.idle.fromSession then 120.0 else 600.0
  }

  lemma CloseLog(s: Port, t: real, r: Reason)
    requires s.es.charging
    ensures var e := Closed(r, s.es.session, s.es.start, s.es.lastTime, t);
            var l := Close(s, t, r).log;
            || l == s.log + [e]
            || (l == s.log + [e] + [FullArmed(t)] && r == LowPower && s.es.session >= 1.0)
  {}

  /** New FullArmed entries follow the end of a worthy session by low power. */
  ghost predicate ArmedByClose(before: seq<Entry>, after: seq<Entry>) {
    && |before| <= |after|
    && forall k {:trigger after[k]} :: |before| <= k < |after| && after[k].FullArmed? ==> AfterLowPower(after, k)
  }

  lemma CloseArms(s: Port, t: real, r: Reason)
    ensures ArmedByClose(s.log, Close(s, t, r).log)
  {
    if s.es.charging {
      CloseLog(s, t, r);
      hide Close;
      var e := Closed(r, s.es.session, s.es.start, s.es.lastTime, t);
      var l := Close(s, t, r).log;
      assert l[|s.log|] == e;
    }
  }

  lemma ManageChargingArms(s: Port, x: Sample, active: bool, enabled: bool)
    requires s.es.charging
    ensures ArmedByClose(s.log, ManageCharging(s, x, active, enabled).log)
  {
    hide Close, ShouldEnd, ArmedByClose;
    forall p: Port, r ensures ArmedByClose(p.log, Close(p, x.t, r).log) { CloseArms(p, x.t, r); }
    assert ArmedByClose(s.log, s.log) by { NothingArms(s.log); }
  }

  lemma NothingArms(log: seq<Entry>)
    ensures ArmedByClose(log, log)
  {}

  lemma WatchArms(s: Port, x: Sample)
    requires !s.es.charging
    ensures var l := WatchIdle(s, x).log; l == s.log || (l == s.log + [FullArmed(x.t)] && WindowOver(s, x))
  {}

  /** The entries the management of one reading adds. */
  lemma ManageArms(s: Port, x: Sample, active: bool, enabled: bool)
    ensures var l := Manage(s, x, active, enabled).log;
            ArmedByClose(s.log, l) || WindowOver(s, x)
  {
    hide ManageCharging, Feed, WatchIdle, BufferPre, Open, ShouldStart, PFast, ArmedByClose;
    var f := s.(det := Feed(s.det, x.t, x.v, x.i));
    if s.es.charging {
      ManageChargingArms(f, x, active, enabled);
    } else {
      var g := f.(pre := BufferPre(f.pre, x));
      WatchArms(g, x);
      var w := WatchIdle(g, x);
      var o := w.(gate := ShouldStart(w.gate, x.t, PFast(w.det), x.v).0);
      OpenLog(o, x);
      OpenedArms(s.log, Open(o, x).log);
      NothingArms(s.log);
    }
  }

  lemma OpenLog(s: Port, x: Sample)
    ensures exists e: Entry :: e.Opened? && Open(s, x).log == s.log + [e]
  {
    hide TakePre, OpenEnergy, FeedAll;
    var p := TakePre(s.pre, OrElse(s.gate.lastRunStart, x.t), x.t);
    assert Open(s, x).log == s.log + [Opened(if p == [] then x.t else p[0].t, x.t)];
  }

  lemma OpenedArms(before: seq<Entry>, after: seq<Entry>)
    ensures (exists e: Entry :: e.Opened? && after == before + [e]) ==> ArmedByClose(before, after)
  {}

  /** The enforcers after the management add commands, none of which arms. */
  lemma EnforcersArmNothing(s: Port, t: real, flag: bool)
    ensures var l := EnforceLimit(s, t, flag).log; l == s.log || exists e: Entry :: e.LimitOff? && l == s.log + [e]
    ensures var f := EnforceFullOff(s, t, flag).log; f == s.log || f == s.log + [FullRetry(t)]
  {
    assert LimitOff(t, s.es.session, s.limit.wh, flag).LimitOff?;
  }

  lemma GrownArms(a: seq<Entry>, b: seq<Entry>, c: seq<Entry>)
    requires ArmedByClose(a, b) && (c == b || exists e: Entry :: !e.FullArmed? && c == b + [e])
    ensures ArmedByClose(a, c)
  {
    if c != b {
      var e: Entry :| !e.FullArmed? && c == b + [e];
      forall k {:trigger c[k]} | |a| <= k < |c| && c[k].FullArmed? ensures AfterLowPower(c, k) {
        assert b[k] == c[k] && AfterLowPower(b, k) && b[k - 1] == c[k - 1];
      }
    }
  }

  lemma StepArms(s: Port, e: Event)
    ensures ArmedByClose(s.log, Step(s, e).log) || (e.Push? && WindowOver(s, e.x))
  {
    hide Manage, Integrate, EnforceLimit, EnforceFullOff, Close, ArmedByClose;
    NothingArms(s.log);
    match e {
      case Push(x, active, enabled, room) =>
        var m := Managed(s, e);
        IntegrateKeepsCharging(s.es, x);
        ManageArms(s.(es := Integrate(s.es, x)), x, active, enabled);
        EnforcersArmNothing(m, x.t, room);
        var l := EnforceLimit(m, x.t, room);
        EnforcersArmNothing(l, x.t, active);
        if ArmedByClose(s.log, m.log) {
          GrownArms(s.log, m.log, l.log);
          assert !FullRetry(x.t).FullArmed?;
          GrownArms(s.log, l.log, EnforceFullOff(l, x.t, active).log);
        }
      case CommandClose(at, reason) => CloseArms(s, at, reason);
      case BulkClose(at, reason) =>
        if s.es.charging {
          GrownArms(s.log, s.log, s.log + [Closed(reason, s.es.session, s.es.start, s.es.lastTime, at)]);
        }
      case Confirm(at, portActive) =>
        EnforcersArmNothing(s, at, portActive);
        GrownArms(s.log, s.log, Step(s, e).log);
      case ReadsEmpty =>
      case ChangeLimit(_, _) => GrownArms(s.log, s.log, s.log + [Configured(s.permanent, false)]);
      case ChangePermanent(on) => GrownArms(s.log, s.log, s.log + [Configured(on, true)]);
      case ChangeFullOff(_) => GrownArms(s.log, s.log, s.log + [Configured(s.permanent, false)]);
    }
  }

  lemma TimerArms(s: Port, x: Sample, active: bool, enabled: bool, room: bool)
    ensures ArmedByClose(s.log, TimerSample(s, x, active, enabled, room).log) || WindowOver(s, x)
  {
    hide Manage, Integrate, EnforceLimit, ArmedByClose;
    var m := Manage(s, x, active, enabled);
    ManageArms(s, x, active, enabled);
    var i := m.(es := Integrate(m.es, x));
    EnforcersArmNothing(i, x.t, room);
    if ArmedByClose(s.log, m.log) {
      GrownArms(s.log, m.log, m.log);
      GrownArms(s.log, m.log, EnforceLimit(i, x.t, room).log);
    }
  }

  /**
   * The automatic power-off is armed on evidence only.  Whatever happens and however the port is
   * sampled, an arming follows the end of a session by low power that was worth at least 1 Wh, or it
   * comes with a reading of live voltage on an idle port before which nothing was a sign of a device
   * drawing power: not for 600 s, or not for 120 s if the last session ended for want of load.
   */
  lemma {:induction false} ArmingNeedsEvidence(hs: seq<Happening>, h: Happening, k: int)
    requires var log := Happen(History(INITIAL, hs), h).log;
             |History(INITIAL, hs).log| <= k < |log| && log[k].FullArmed?
    ensures
      || AfterLowPower(Happen(History(INITIAL, hs), h).log, k)
      || (&& Reads(h) && !History(INITIAL, hs).es.charging
          && Taken(h).v >= 4.0 && Taken(h).Power() <= 2.0
          && exists j :: UnloadedFrom(hs, j) && Taken(h).t - Taken(hs[j]).t >= RequiredSec(hs))
  {
    hide History, Step, TimerSample, IdleSinceNoLoad, Unloaded, LastReason, AfterLowPower;
    RunIsKnown(hs);
    match h {
      case On(e) => StepArms(History(INITIAL, hs), e);
      case TimerReading(x, active, enabled, room) => TimerArms(History(INITIAL, hs), x, active, enabled, room);
    }
  }
}
