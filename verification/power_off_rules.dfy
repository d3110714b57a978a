/** What the charge limit and the automatic power-off do, besides what they must not: when their commands
    come, how often they are repeated, and what uses up a one-shot setting. */
module PowerOffRules {
  import opened Common
  import opened Detection
  import opened Energy
  import opened StartGate
  import opened PortSession
  import opened EnergyAccounting
  import opened Hysteresis
  import opened PowerOff
  import opened SessionOpening
  import opened Arming

  // ----- what becomes of the settings -----

  /** The charge limit after a happening: used up by the end of a session if it was for one session only,
      unless the link was lost or the service stopped; otherwise as set. */
  function LimitAfter(s: Port, h: Happening): real {
    if h.On? && h.e.ChangeLimit? then (if h.e.wh < 0.0 then 0.0 else h.e.wh)
    else if h == On(ChangePermanent(true)) then 0.0
    else if Ends(s, h) && s.limit.mode == Once && s.limit.wh > 0.0
            && LastReason(Happen(s, h)) != Some(LinkLoss) && LastReason(Happen(s, h)) != Some(Shutdown) then 0.0
    else s.limit.wh
  }

  lemma CloseLimit(s: Port, t: real, r: Reason)
    requires s.es.charging
    ensures var l := Close(s, t, r).limit;
            l.mode == s.limit.mode && !l.fired
            && l.wh == if s.limit.mode == Once && s.limit.wh > 0.0 && r != LinkLoss && r != Shutdown then 0.0
                       else s.limit.wh
  {}

  /** The management of a reading: the limit, and the reason if it ended the session. */
  lemma ManageLimit(s: Port, x: Sample, active: bool, enabled: bool)
    ensures var m := Manage(s, x, active, enabled);
            && (s.es.charging && !m.es.charging ==>
                  LastReason(m).Some?
                  && m.limit.wh == if s.limit.mode == Once && s.limit.wh > 0.0 && LastReason(m) != Some(LinkLoss)
                                      && LastReason(m) != Some(Shutdown) then 0.0 else s.limit.wh)
            && (!s.es.charging || m.es.charging ==> m.limit.wh == s.limit.wh)
            && m.limit.mode == s.limit.mode
  {
    hide WatchIdle, Open, Feed, PFast, BufferPre, Close, ShouldEnd, ShouldStart, LastReason;
    var f := s.(det := Feed(s.det, x.t, x.v, x.i));
    if s.es.charging {
      forall p: Port, r | p.es == s.es && p.limit == s.limit
        ensures var c := Close(p, x.t, r);
                && !c.es.charging && LastReason(c) == Some(r) && c.limit.mode == s.limit.mode
                && c.limit.wh == if s.limit.mode == Once && s.limit.wh > 0.0 && r != LinkLoss && r != Shutdown then 0.0
                                 else s.limit.wh
      {
        CloseIdleBook(p, x.t, r);
        CloseLimit(p, x.t, r);
      }
    } else {
      var g := f.(pre := BufferPre(f.pre, x));
      WatchKeepsLimit(g, x);
      var w := WatchIdle(g, x);
      var o := w.(gate := ShouldStart(w.gate, x.t, PFast(w.det), x.v).0);
      OpenKeepsLimit(o, x);
    }
  }

  lemma WatchKeepsLimit(s: Port, x: Sample)
    ensures WatchIdle(s, x).limit == s.limit && WatchIdle(s, x).permanent == s.permanent
  {}

  lemma OpenKeepsLimit(s: Port, x: Sample)
    ensures var o := Open(s, x); o.limit == s.limit.(fired := false) && o.permanent == s.permanent
  {
    hide TakePre, OpenEnergy, FeedAll;
  }

  lemma EnforcersKeepLimit(s: Port, t: real, flag: bool)
    ensures var l := EnforceLimit(s, t, flag);
            l.limit.wh == s.limit.wh && l.limit.mode == s.limit.mode && l.permanent == s.permanent
    ensures var f := EnforceFullOff(s, t, flag); f.limit == s.limit && f.permanent == s.permanent
  {}

  /** In every state and whatever happens, the limit changes exactly as said, and whether it is for one
      session or always only as set. */
  lemma LimitChangesOnlySo(s: Port, h: Happening)
    ensures Happen(s, h).limit.wh == LimitAfter(s, h)
    ensures Happen(s, h).limit.mode == if h.On? && h.e.ChangeLimit? then h.e.mode else s.limit.mode
  {
    match h {
      case On(e) => if e.Push? { PushLimit(s, e); } else { OtherLimit(s, e); }
      case TimerReading(x, active, enabled, room) => TimerLimit(s, x, active, enabled, room);
    }
  }

  lemma PushLimit(s: Port, e: Event)
    requires e.Push?
    ensures Step(s, e).limit.wh == LimitAfter(s, On(e))
    ensures Step(s, e).limit.mode == if e.ChangeLimit? then e.mode else s.limit.mode
  {
    hide Manage, Integrate, EnforceLimit, EnforceFullOff, Sessions;
    IntegrateKeepsCharging(s.es, e.x);
    ManageLimit(s.(es := Integrate(s.es, e.x)), e.x, e.active, e.enabled);
    PushIsManaged(s, e);
    var m := Managed(s, e);
    EnforcersKeepLimit(m, e.x.t, e.room);
    EnforcersKeepLimit(EnforceLimit(m, e.x.t, e.room), e.x.t, e.active);
  }

  lemma TimerLimit(s: Port, x: Sample, active: bool, enabled: bool, room: bool)
    ensures var h := TimerReading(x, active, enabled, room);
            Happen(s, h).limit.wh == LimitAfter(s, h) && Happen(s, h).limit.mode == s.limit.mode
  {
    hide Manage, Integrate, EnforceLimit, Sessions;
    var m := Manage(s, x, active, enabled);
    ManageLimit(s, x, active, enabled);
    IntegrateKeepsCharging(m.es, x);
    var i := m.(es := Integrate(m.es, x));
    EnforcersKeepLimit(i, x.t, room);
    EnforcersKeepDetector(i, x.t, room);
  }

  lemma OtherLimit(s: Port, e: Event)
    requires !e.Push?
    ensures Step(s, e).limit.wh == LimitAfter(s, On(e))
    ensures Step(s, e).limit.mode == if e.ChangeLimit? then e.mode else s.limit.mode
  {
    hide Close, EnforceFullOff, Sessions, LastReason;
    match e {
      case CommandClose(at, reason) =>
        if s.es.charging { CloseIdleBook(s, at, reason); CloseLimit(s, at, reason); } else { CloseIdle(s, at, reason); }
      case BulkClose(at, reason) => if s.es.charging { BulkReason(s, at, reason); }
      case Confirm(at, portActive) =>
        EnforcersKeepLimit(s, at, portActive);
        EnforcersKeepDetector(s, at, portActive);
      case _ =>
    }
  }

  lemma BulkReason(s: Port, t: real, r: Reason)
    requires s.es.charging
    ensures LastReason(CloseActive(s, t, r)) == Some(r) && !CloseActive(s, t, r).es.charging
  {
    hide Sessions;
    BulkCloseRecords(s, t, r);
  }

  /** The happening shows the port switched off to the automatic power-off. */
  predicate ShowsOff(h: Happening) {
    h.On? && ((h.e.Push? && !h.e.active) || (h.e.Confirm? && !h.e.portActive))
  }

  /** The power-off has been armed on the way from s to r (the time 0.0 counts as not armed). */
  ghost predicate NewlyArmed(s: Port, r: Port) {
    exists k :: |s.log| <= k < |r.log| && r.log[k].FullArmed? && r.log[k].at != 0.0
  }

  /** The mode of the automatic power-off after a happening: used up, if it was for once only, when a power-off
      that is waited for is confirmed; otherwise as set, and never on a permanent port. */
  ghost function ModeAfter(s: Port, h: Happening): Option<Mode> {
    if h == On(ChangePermanent(true)) then None
    else if h.On? && h.e.ChangeFullOff? then (if s.permanent then None else h.e.mode_)
    else if ShowsOff(h) && s.full.mode == Some(Once) && (s.full.pending != 0.0 || NewlyArmed(s, Happen(s, h))) then None
    else s.full.mode
  }

  lemma CloseMode(s: Port, t: real, r: Reason)
    ensures var c := Close(s, t, r);
            c.full.mode == s.full.mode
            && (r != LowPower ==> c.full == s.full && forall k :: |s.log| <= k < |c.log| ==> !c.log[k].FullArmed?)
  {}

  lemma WatchMode(s: Port, x: Sample)
    requires !s.es.charging
    ensures var w := WatchIdle(s, x);
            w.full.mode == s.full.mode
            && ((w.log == s.log && w.full.pending == s.full.pending)
                || (w.log == s.log + [FullArmed(x.t)] && s.full.pending == 0.0 && w.full.pending == x.t))
  {}

  lemma OpenMode(s: Port, x: Sample)
    ensures Open(s, x).full.mode == s.full.mode
  {
    hide TakePre, OpenEnergy, FeedAll;
  }

  lemma ManageMode(s: Port, x: Sample, active: bool, enabled: bool)
    ensures Manage(s, x, active, enabled).full.mode == s.full.mode
  {
    hide WatchIdle, Open, Feed, PFast, BufferPre, Close, ShouldEnd, ShouldStart;
    var f := s.(det := Feed(s.det, x.t, x.v, x.i));
    if s.es.charging {
      forall p: Port, r ensures Close(p, x.t, r).full.mode == p.full.mode { CloseMode(p, x.t, r); }
    } else {
      var g := f.(pre := BufferPre(f.pre, x));
      WatchMode(g, x);
      var w := WatchIdle(g, x);
      OpenMode(w.(gate := ShouldStart(w.gate, x.t, PFast(w.det), x.v).0), x);
    }
  }

  /** With the port off, the management opens nothing and arms only by the idle watch. */
  lemma ManageOff(s: Port, x: Sample, enabled: bool)
    ensures var m := Manage(s, x, false, enabled);
            && |s.log| <= |m.log|
            && (m.full.pending != 0.0 <==> s.full.pending != 0.0 || NewlyArmed(s, m))
  {
    hide WatchIdle, Feed, PFast, BufferPre, Close, ShouldEnd, ShouldStart;
    var f := s.(det := Feed(s.det, x.t, x.v, x.i));
    var m := Manage(s, x, false, enabled);
    if s.es.charging {
      forall p: Port, r | r != LowPower && p.log == s.log && p.full == s.full
        ensures var c := Close(p, x.t, r);
                c.full == s.full && |s.log| <= |c.log| && forall k :: |s.log| <= k < |c.log| ==> !c.log[k].FullArmed?
      {
        CloseMode(p, x.t, r);
        CloseAddsNoLimitOff(p, x.t, r);
      }
    } else {
      var g := f.(pre := BufferPre(f.pre, x));
      WatchMode(g, x);
      if m.log != s.log { assert m.log[|s.log|] == FullArmed(x.t); }
    }
  }

  lemma EnforcersMode(m: Port, t: real, room: bool)
    ensures var l := EnforceLimit(m, t, room);
            l.full == m.full && |m.log| <= |l.log| && l.log[..|m.log|] == m.log
            && forall k :: |m.log| <= k < |l.log| ==> !l.log[k].FullArmed?
    ensures var f := EnforceFullOff(m, t, true); f.full.mode == m.full.mode
    ensures var f := EnforceFullOff(m, t, false);
            f.log == m.log
            && f.full.mode == if m.full.mode == Some(Once) && m.full.pending != 0.0 then None else m.full.mode
  {}

  lemma SameArmed(s: Port, m: Port, r: Port)
    requires |s.log| <= |m.log| <= |r.log| && r.log[..|m.log|] == m.log
    requires forall k :: |m.log| <= k < |r.log| ==> !r.log[k].FullArmed?
    ensures NewlyArmed(s, r) <==> NewlyArmed(s, m)
  {
    if NewlyArmed(s, m) {
      var k :| |s.log| <= k < |m.log| && m.log[k].FullArmed? && m.log[k].at != 0.0;
      assert r.log[k] == m.log[k];
    }
    if NewlyArmed(s, r) {
      var k :| |s.log| <= k < |r.log| && r.log[k].FullArmed? && r.log[k].at != 0.0;
      assert m.log[k] == r.log[k];
    }
  }

  lemma PushMode(s: Port, e: Event)
    requires e.Push?
    ensures Step(s, e).full.mode == ModeAfter(s, On(e))
  {
    hide Manage, Integrate, EnforceLimit, EnforceFullOff, NewlyArmed;
    var b := s.(es := Integrate(s.es, e.x));
    ManageMode(b, e.x, e.active, e.enabled);
    var m := Managed(s, e);
    var l := EnforceLimit(m, e.x.t, e.room);
    EnforcersMode(m, e.x.t, e.room);
    EnforcersMode(l, e.x.t, e.room);
    if !e.active {
      ManageOff(b, e.x, e.enabled);
      SameLogArmed(b, s, m);
      SameArmed(s, m, l);
      assert Step(s, e) == EnforceFullOff(l, e.x.t, false);
      SameLogArmed(s, s, l);
      ArmedByLog(s, l, Step(s, e));
    }
  }

  lemma SameLogArmed(b: Port, s: Port, m: Port)
    requires b.log == s.log
    ensures NewlyArmed(b, m) == NewlyArmed(s, m)
  {}

  lemma ArmedByLog(s: Port, l: Port, r: Port)
    requires l.log == r.log
    ensures NewlyArmed(s, l) == NewlyArmed(s, r)
  {}

  lemma OtherMode(s: Port, e: Event)
    requires !e.Push?
    ensures Step(s, e).full.mode == ModeAfter(s, On(e))
  {
    hide Close, EnforceFullOff;
    match e {
      case CommandClose(at, reason) => CloseMode(s, at, reason);
      case Confirm(at, portActive) =>
        EnforcersMode(s, at, true);
        ArmedByLog(s, s, EnforceFullOff(s, at, false));
      case _ =>
    }
  }

  /** In every state and whatever happens, the mode of the automatic power-off changes exactly as said. */
  lemma ModeChangesOnlySo(s: Port, h: Happening)
    ensures Happen(s, h).full.mode == ModeAfter(s, h)
  {
    match h {
      case On(e) => if e.Push? { PushMode(s, e); } else { OtherMode(s, e); }
      case TimerReading(x, active, enabled, room) =>
        hide Manage, Integrate, EnforceLimit, NewlyArmed;
        ManageMode(s, x, active, enabled);
        var m := Manage(s, x, active, enabled);
        EnforcersMode(m.(es := Integrate(m.es, x)), x.t, room);
    }
  }

  /** The happening looks at whether the port is still on. */
  predicate LooksAtPort(h: Happening) {
    h.On? && (h.e.Push? || h.e.Confirm?)
  }

  /** Whether the port is shown as switched off by its power-off, after the happening that led from s to r. */
  ghost predicate ShownOff(s: Port, h: Happening, r: Port) {
    if h == On(ChangePermanent(true)) then false
    else if h.On? && h.e.ChangeFullOff? then s.full.fired && h.e.mode_.Some? && !s.permanent
    else if r.es.charging && !s.es.charging then false
    else if LooksAtPort(h) && (s.full.pending != 0.0 || NewlyArmed(s, r)) then
      ShowsOff(h) && s.full.mode != Some(Once)
    else s.full.fired
  }

  /** A power-off under way finds the port idle. */
  predicate PendingIdle(s: Port) {
    s.full.pending != 0.0 ==> !s.es.charging
  }

  lemma CloseFired(s: Port, t: real, r: Reason)
    requires s.full.pending == 0.0
    ensures var c := Close(s, t, r);
            && c.full.fired == s.full.fired && |s.log| <= |c.log|
            && (c.full.pending != 0.0 <==> NewlyArmed(s, c)) && (NewlyArmed(s, c) ==> c.full.lastTry == t)
  {
    var c := Close(s, t, r);
    var e := Closed(r, s.es.session, s.es.start, s.es.lastTime, t);
    if c.full != s.full { assert c.log == s.log + [e] + [FullArmed(t)] && c.log[|s.log| + 1] == FullArmed(t); }
  }

  lemma WatchFired(s: Port, x: Sample)
    requires !s.es.charging
    ensures var w := WatchIdle(s, x);
            && w.full.fired == s.full.fired && |s.log| <= |w.log| && w.es == s.es
            && (w.full.pending != 0.0 <==> s.full.pending != 0.0 || NewlyArmed(s, w))
            && (NewlyArmed(s, w) ==> w.full.lastTry == x.t)
  {
    WatchMode(s, x);
    var w := WatchIdle(s, x);
    if w.log != s.log { assert w.log[|s.log|] == FullArmed(x.t); }
  }

  /** What the management of a reading does to a power-off under way and to what is shown. */
  lemma ManageFired(s: Port, x: Sample, active: bool, enabled: bool)
    requires PendingIdle(s)
    ensures var m := Manage(s, x, active, enabled);
            && |s.log| <= |m.log|
            && if m.es.charging && !s.es.charging then !m.full.fired && m.full.pending == 0.0
               else m.full.fired == s.full.fired
                    && (m.full.pending != 0.0 <==> s.full.pending != 0.0 || NewlyArmed(s, m))
                    && (NewlyArmed(s, m) ==> m.full.lastTry == x.t)
  {
    hide WatchIdle, Open, Feed, PFast, BufferPre, Close, ShouldEnd, ShouldStart, NewlyArmed;
    var f := s.(det := Feed(s.det, x.t, x.v, x.i));
    if s.es.charging {
      NothingArmed(s, s);
      forall p: Port, r | p.log == s.log && p.full == s.full
        ensures var c := Close(p, x.t, r);
                && c.full.fired == s.full.fired && |s.log| <= |c.log|
                && (c.full.pending != 0.0 <==> NewlyArmed(s, c)) && (NewlyArmed(s, c) ==> c.full.lastTry == x.t)
      {
        CloseFired(p, x.t, r);
        SameLogArmed(p, s, Close(p, x.t, r));
      }
      forall p: Port | p.log == s.log ensures !NewlyArmed(s, p) { NothingArmed(s, p); }
    } else {
      var g := f.(pre := BufferPre(f.pre, x));
      WatchFired(g, x);
      var w := WatchIdle(g, x);
      SameLogArmed(g, s, w);
      var o := w.(gate := ShouldStart(w.gate, x.t, PFast(w.det), x.v).0);
      ArmedByLog(s, w, o);
      OpenFired(o, x);
    }
  }

  lemma NothingArmed(s: Port, r: Port)
    requires r.log == s.log
    ensures !NewlyArmed(s, r)
  {}

  lemma OpenFired(s: Port, x: Sample)
    ensures var o := Open(s, x);
            o.es.charging && !o.full.fired && o.full.pending == 0.0 && |s.log| <= |o.log|
  {
    OpenKeepsGate(s, x);
    hide TakePre, OpenEnergy, FeedAll;
  }

  /** The look at the port after it. */
  lemma EnforceFired(m: Port, t: real, portActive: bool)
    ensures var f := EnforceFullOff(m, t, portActive);
            && f.full.fired ==
               (if m.full.pending != 0.0 then !portActive && m.full.mode != Some(Once) else m.full.fired)
            && (!portActive ==> f.full.pending == 0.0)
            && (portActive && t - m.full.lastTry < 15.0 ==> f.full.pending == m.full.pending)
            && |m.log| <= |f.log| && f.log[..|m.log|] == m.log
            && (forall k :: |m.log| <= k < |f.log| ==> !f.log[k].FullArmed?)
  {}

  lemma PushShows(s: Port, e: Event)
    requires e.Push? && PendingIdle(s)
    ensures var r := Step(s, e);
            && (r.full.fired <==> ShownOff(s, On(e), r)) && (!e.active ==> r.full.pending == 0.0)
            && (NewlyArmed(s, r) && !r.es.charging && e.active ==> r.full.pending != 0.0)
  {
    hide Manage, Integrate, EnforceLimit, EnforceFullOff, NewlyArmed, Sessions;
    IntegrateKeepsCharging(s.es, e.x);
    var b := s.(es := Integrate(s.es, e.x));
    ManageFired(b, e.x, e.active, e.enabled);
    ManageMode(b, e.x, e.active, e.enabled);
    var m := Managed(s, e);
    SameLogArmed(b, s, m);
    var l := EnforceLimit(m, e.x.t, e.room);
    EnforcersMode(m, e.x.t, e.room);
    EnforcersKeepDetector(m, e.x.t, e.room);
    SameArmed(s, m, l);
    EnforceFired(l, e.x.t, e.active);
    SameArmed(s, l, Step(s, e));
    EnforcersKeepDetector(l, e.x.t, e.active);
    if !e.active && m.es.charging && !s.es.charging { NoOpeningWhenOff(b, e.x, e.enabled); }
  }

  lemma NoOpeningWhenOff(s: Port, x: Sample, enabled: bool)
    requires !s.es.charging
    ensures !Manage(s, x, false, enabled).es.charging
  {
    hide WatchIdle, Feed, PFast, BufferPre, ShouldStart;
    var g := s.(det := Feed(s.det, x.t, x.v, x.i), pre := BufferPre(s.pre, x));
    WatchFired(g, x);
  }

  lemma TimerShows(s: Port, x: Sample, active: bool, enabled: bool, room: bool)
    requires PendingIdle(s)
    ensures var h := TimerReading(x, active, enabled, room);
            && (Happen(s, h).full.fired <==> ShownOff(s, h, Happen(s, h)))
            && (NewlyArmed(s, Happen(s, h)) && !Happen(s, h).es.charging ==> Happen(s, h).full.pending != 0.0)
  {
    hide Manage, Integrate, EnforceLimit, NewlyArmed;
    ManageFired(s, x, active, enabled);
    var m := Manage(s, x, active, enabled);
    IntegrateKeepsCharging(m.es, x);
    EnforcersMode(m.(es := Integrate(m.es, x)), x.t, room);
    EnforcersKeepDetector(m.(es := Integrate(m.es, x)), x.t, room);
  }

  lemma OtherShows(s: Port, e: Event)
    requires !e.Push? && PendingIdle(s)
    ensures var r := Step(s, e);
            && (r.full.fired <==> ShownOff(s, On(e), r)) && (ShowsOff(On(e)) ==> r.full.pending == 0.0)
            && (NewlyArmed(s, r) && !r.es.charging ==> r.full.pending != 0.0)
  {
    hide Close, CloseActive, EnforceFullOff, NewlyArmed, Sessions;
    match e {
      case CommandClose(at, reason) =>
        CloseStops(s, at, reason);
        NothingArmed(s, s);
        if s.es.charging { CloseFired(s, at, reason); } else { CloseIdle(s, at, reason); }
      case BulkClose(at, reason) =>
        BulkCloseRecords(s, at, reason);
        BulkKeepsFull(s, at, reason);
      case Confirm(at, portActive) =>
        EnforceFired(s, at, portActive);
        EnforcersKeepDetector(s, at, portActive);
        NothingArmed(s, s);
        SameArmed(s, s, Step(s, e));
      case ReadsEmpty => NothingArmed(s, Step(s, e));
      case ChangeLimit(_, _) => SettingArmsNothing(s, Step(s, e), Configured(s.permanent, false));
      case ChangePermanent(on) => SettingArmsNothing(s, Step(s, e), Configured(on, true));
      case ChangeFullOff(_) => SettingArmsNothing(s, Step(s, e), Configured(s.permanent, false));
    }
  }

  lemma SettingArmsNothing(s: Port, r: Port, e: Entry)
    requires !e.FullArmed? && r.log == s.log + [e]
    ensures !NewlyArmed(s, r)
  {}

  lemma BulkKeepsFull(s: Port, t: real, r: Reason)
    ensures CloseActive(s, t, r).full == s.full && !NewlyArmed(s, CloseActive(s, t, r))
  {}

  /**
   * A power-off that is armed is waited for until the port is seen off, on every history: then nothing is
   * waited for any more, and the port is shown as switched off if the power-off is for always; seen on, it is
   * not; and otherwise only a new session, a permanent port or a withdrawn power-off changes what is shown.
   */
  lemma {:induction false} SeenOffIsShown(hs: seq<Happening>, h: Happening)
    ensures var s, r := History(INITIAL, hs), History(INITIAL, hs + [h]);
            && (r.full.fired <==> ShownOff(s, h, r))
            && (ShowsOff(h) ==> r.full.pending == 0.0)
            && (NewlyArmed(s, r) && !r.es.charging && !ShowsOff(h) ==> r.full.pending != 0.0)
  {
    hide NewlyArmed;
    hide History, Step, TimerSample, ShownOff, AllAllowed;
    HistoryNext(hs, h);
    EveryPowerOffIsAllowed(hs);
    var s := History(INITIAL, hs);
    match h {
      case On(e) => if e.Push? { PushShows(s, e); } else { OtherShows(s, e); }
      case TimerReading(x, active, enabled, room) => TimerShows(s, x, active, enabled, room);
    }
  }

  // ----- repeating the power-off -----

  /** Confirmations of a port that stays on, the k-th at times[k], each at least 15 s after the one before. */
  ghost predicate Apart(last: real, times: seq<real>) {
    forall k {:trigger times[k]} :: 0 <= k < |times| ==> times[k] - (if k == 0 then last else times[k - 1]) >= 15.0
  }

  function StillOn(times: seq<real>): seq<Event> {
    seq(|times|, k requires 0 <= k < |times| => Confirm(times[k], true))
  }

  /** The repetitions among the entries. */
  function Repeats(times: seq<real>, n: nat): seq<Entry>
    requires n <= |times|
  {
    seq(n, k requires 0 <= k < n => FullRetry(times[k]))
  }

  lemma {:induction false} StillOnNext(s: Port, times: seq<real>)
    requires times != []
    ensures var n := |times| - 1; Run(s, StillOn(times)) == EnforceFullOff(Run(s, StillOn(times[..n])), times[n], true)
  {
    hide EnforceFullOff;
    var n := |times| - 1;
    assert StillOn(times)[..n] == StillOn(times[..n]);
    assert StillOn(times)[n] == Confirm(times[n], true);
  }

  /** The power-off after it has met the port still on so often: what it has logged, and whether it has
      given up. */
  ghost predicate Repeated(s: Port, r: Port, times: seq<real>)
    requires 0 <= s.full.attempts <= 4
  {
    var left := 4 - s.full.attempts;
    && r.full.mode == s.full.mode
    && (if |times| <= left then
          && r.log == s.log + Repeats(times, |times|) && r.full.attempts == s.full.attempts + |times|
          && r.full.pending == s.full.pending
          && r.full.lastTry == (if times == [] then s.full.lastTry else times[|times| - 1])
        else r.log == s.log + Repeats(times, left) && r.full.pending == 0.0)
  }

  /**
   * A power-off that is not obeyed is repeated and then given up.  If a port that was to be switched off is
   * met still on at times 15 s apart, the command is repeated each time until it has been repeated four
   * times in all; the next time the power-off is given up; and its mode stays as it was.
   */
  lemma {:induction false} RepeatedFourTimesThenGivenUp(s: Port, times: seq<real>)
    requires s.full.pending != 0.0 && 0 <= s.full.attempts <= 4 && Apart(s.full.lastTry, times)
    ensures Repeated(s, Run(s, StillOn(times)), times)
  {
    if times == [] {
      assert s.log + Repeats(times, 0) == s.log;
    } else {
      var n := |times| - 1;
      var init := times[..n];
      forall k {:trigger init[k]} | 0 <= k < n
        ensures init[k] - (if k == 0 then s.full.lastTry else init[k - 1]) >= 15.0
      {
        assert init[k] == times[k];
      }
      RepeatedFourTimesThenGivenUp(s, init);
      StillOnNext(s, times);
      hide Run;
      RepeatOnce(s, Run(s, StillOn(init)), times);
    }
  }

  lemma RepeatOnce(s: Port, r: Port, times: seq<real>)
    requires s.full.pending != 0.0 && 0 <= s.full.attempts <= 4 && times != [] && Apart(s.full.lastTry, times)
    requires Repeated(s, r, times[..|times| - 1])
    ensures Repeated(s, EnforceFullOff(r, times[|times| - 1], true), times)
  {
    var n, left := |times| - 1, 4 - s.full.attempts;
    assert times[n] - (if n == 0 then s.full.lastTry else times[n - 1]) >= 15.0;
    if n < left {
      assert Repeats(times, n + 1) == Repeats(times[..n], n) + [FullRetry(times[n])];
      assert s.log + Repeats(times[..n], n) + [FullRetry(times[n])] == s.log + Repeats(times, n + 1);
    } else {
      assert Repeats(times, left) == Repeats(times[..n], left);
    }
  }

  /**
   * Stated for whole histories, in terms of the log: a power-off that is waited for, and was commanded last
   * at time t and repeated n times since it was armed, is repeated 4 - n times more at most.
   */
  lemma {:induction false} CommandedFiveTimesAtMost(hs: seq<Happening>, times: seq<real>)
    requires var s := History(INITIAL, hs);
             s.full.pending != 0.0 && (LastPowerOff(s.log).Some? ==> Apart(LastPowerOff(s.log).value, times))
    ensures var s := History(INITIAL, hs);
            var r, n := Run(s, StillOn(times)), Retries(s.log);
            && LastPowerOff(s.log).Some? && 0 <= n <= 4
            && (if |times| <= 4 - n then r.log == s.log + Repeats(times, |times|) && r.full.pending == s.full.pending
                else r.log == s.log + Repeats(times, 4 - n) && r.full.pending == 0.0)
  {
    hide History, Run, AllAllowed, Apart;
    EveryPowerOffIsAllowed(hs);
    RetriesBounded(History(INITIAL, hs).log);
    RepeatedFourTimesThenGivenUp(History(INITIAL, hs), times);
  }

  /** An allowed log never repeats a command more than four times. */
  lemma {:induction false} RetriesBounded(log: seq<Entry>)
    requires AllAllowed(log)
    ensures 0 <= Retries(log) <= 4
  {
    if log != [] {
      var n := |log| - 1;
      assert Allowed(log[..n], log[n]);
      forall k {:trigger log[..n][k]} | 0 <= k < n ensures Allowed(log[..n][..k], log[..n][k]) {
        assert log[..n][..k] == log[..k] && log[..n][k] == log[k];
      }
      RetriesBounded(log[..n]);
    }
  }

  /** Within 15 s of its last command nothing is repeated. */
  lemma NotRepeatedTooSoon(s: Port, t: real)
    requires t - s.full.lastTry < 15.0
    ensures var r := Step(s, Confirm(t, true)); r.log == s.log && r.full.pending == s.full.pending
  {}

  // ----- the limit's command comes -----

  /** Since the session opened a command was queued for the limit at time t. */
  ghost predicate QueuedAt(log: seq<Entry>, t: real) {
    exists i :: 0 <= i < |SinceOpen(log)| && SinceOpen(log)[i].LimitOff? && SinceOpen(log)[i].ok
                && SinceOpen(log)[i].at == t
  }

  /** Since the session opened a command was sent to the queue at time t, even if that was full. */
  ghost predicate TriedAt(log: seq<Entry>, t: real) {
    exists i :: 0 <= i < |SinceOpen(log)| && SinceOpen(log)[i].LimitOff? && SinceOpen(log)[i].at == t
  }

  /** While a session is open, "fired" stands for a command that was queued in it. */
  ghost predicate FiredIsQueued(s: Port) {
    s.es.charging && s.limit.fired ==> QueuedAt(s.log, s.limit.firedAt)
  }

  lemma QueuedStays(log: seq<Entry>, e: Entry, t: real)
    requires !e.Opened?
    ensures QueuedAt(log, t) ==> QueuedAt(log + [e], t)
    ensures e.LimitOff? && e.ok && e.at == t ==> QueuedAt(log + [e], t)
    ensures TriedAt(log, t) ==> TriedAt(log + [e], t)
    ensures e.LimitOff? && e.at == t ==> TriedAt(log + [e], t)
  {
    hide SinceOpen;
    SinceOpenGrows(log, e);
    var a, b := SinceOpen(log), SinceOpen(log + [e]);
    assert forall i :: 0 <= i < |a| ==> b[i] == a[i];
    assert b[|a|] == e;
  }

  /** The limit's enforcement: what is reached has been tried now or queued less than 15 s ago. */
  ghost predicate Enforced(r: Port, t: real) {
    r.es.charging && !r.permanent && r.limit.wh > 0.0 && r.es.session >= r.limit.wh ==>
      TriedAt(r.log, t) || exists u :: QueuedAt(r.log, u) && t - u < 15.0
  }

  lemma EnforceLimitFires(s: Port, t: real, room: bool)
    requires FiredIsQueued(s)
    ensures var r := EnforceLimit(s, t, room); FiredIsQueued(r) && Enforced(r, t)
  {
    hide QueuedAt, TriedAt;
    QueuedStays(s.log, LimitOff(t, s.es.session, s.limit.wh, room), t);
  }

  lemma EnforceFullOffFires(s: Port, t: real, u: real, portActive: bool)
    requires FiredIsQueued(s)
    ensures var r := EnforceFullOff(s, t, portActive); FiredIsQueued(r) && (Enforced(s, u) ==> Enforced(r, u))
  {
    hide QueuedAt, TriedAt;
    var r := EnforceFullOff(s, t, portActive);
    if r.log != s.log {
      forall v ensures (QueuedAt(s.log, v) ==> QueuedAt(r.log, v)) && (TriedAt(s.log, v) ==> TriedAt(r.log, v)) {
        QueuedStays(s.log, FullRetry(t), v);
      }
    }
  }

  lemma ManageFires(s: Port, x: Sample, active: bool, enabled: bool)
    requires FiredIsQueued(s)
    ensures FiredIsQueued(Manage(s, x, active, enabled))
  {
    hide ManageCharging, WatchIdle, Open, Feed, PFast, BufferPre, ShouldStart, QueuedAt;
    var f := s.(det := Feed(s.det, x.t, x.v, x.i));
    if s.es.charging {
      ManageChargingLimit(f, x, active, enabled);
    } else {
      var g := f.(pre := BufferPre(f.pre, x));
      WatchKeepsAccounts(g, x);
      var w := WatchIdle(g, x);
      OpenKeepsLimit(w.(gate := ShouldStart(w.gate, x.t, PFast(w.det), x.v).0), x);
    }
  }

  lemma PushFires(s: Port, e: Event)
    requires e.Push? && FiredIsQueued(s)
    ensures FiredIsQueued(Step(s, e)) && Enforced(Step(s, e), e.x.t)
  {
    hide Manage, Integrate, EnforceLimit, EnforceFullOff, QueuedAt, TriedAt, Enforced;
    IntegrateKeepsCharging(s.es, e.x);
    var b := s.(es := Integrate(s.es, e.x));
    ManageFires(b, e.x, e.active, e.enabled);
    var m := Managed(s, e);
    EnforceLimitFires(m, e.x.t, e.room);
    EnforceFullOffFires(EnforceLimit(m, e.x.t, e.room), e.x.t, e.x.t, e.active);
  }

  lemma TimerFires(s: Port, x: Sample, active: bool, enabled: bool, room: bool)
    requires FiredIsQueued(s)
    ensures var r := TimerSample(s, x, active, enabled, room); FiredIsQueued(r) && (x.i > 0.0 ==> Enforced(r, x.t))
  {
    hide Manage, Integrate, EnforceLimit, QueuedAt, TriedAt;
    var m := Manage(s, x, active, enabled);
    ManageFires(s, x, active, enabled);
    IntegrateKeepsCharging(m.es, x);
    EnforceLimitFires(m.(es := Integrate(m.es, x)), x.t, room);
  }

  lemma OtherFires(s: Port, e: Event)
    requires !e.Push? && FiredIsQueued(s)
    ensures FiredIsQueued(Step(s, e))
  {
    hide Close, CloseActive, EnforceFullOff, QueuedAt, Sessions;
    match e {
      case CommandClose(at, reason) => CloseStops(s, at, reason);
      case BulkClose(at, reason) => BulkCloseRecords(s, at, reason);
      case Confirm(at, portActive) => EnforceFullOffFires(s, at, at, portActive);
      case ReadsEmpty =>
      case ChangeLimit(_, _) => QueuedStays(s.log, Configured(s.permanent, false), s.limit.firedAt);
      case ChangePermanent(on) => QueuedStays(s.log, Configured(on, true), s.limit.firedAt);
      case ChangeFullOff(_) => QueuedStays(s.log, Configured(s.permanent, false), s.limit.firedAt);
    }
  }

  lemma HappeningFires(s: Port, h: Happening)
    requires FiredIsQueued(s)
    ensures FiredIsQueued(Happen(s, h))
    ensures Reads(h) && (h.On? || Taken(h).i > 0.0) ==> Enforced(Happen(s, h), Taken(h).t)
  {
    hide FiredIsQueued, Enforced, Step, TimerSample;
    match h {
      case On(e) => if e.Push? { PushFires(s, e); } else { OtherFires(s, e); }
      case TimerReading(x, active, enabled, room) => TimerFires(s, x, active, enabled, room);
    }
  }

  lemma {:induction false} HistoryFires(hs: seq<Happening>)
    ensures FiredIsQueued(History(INITIAL, hs))
  {
    hide Happen;
    if hs != [] {
      hide FiredIsQueued;
      HistoryFires(hs[..|hs| - 1]);
      HappeningFires(History(INITIAL, hs[..|hs| - 1]), hs[|hs| - 1]);
    }
  }

  /**
   * A limit that is reached is enforced.  On every history, after a reading that is integrated (any pushed
   * one, or one of the timer that shows current), if a session is open on a port that is not permanent and
   * has reached a positive limit, the command was sent to the queue with this reading, or one has been
   * queued in this session less than 15 s ago.
   */
  lemma {:induction false} ReachedLimitIsEnforced(hs: seq<Happening>, h: Happening)
    requires Reads(h) && (h.On? || Taken(h).i > 0.0)
    requires var r := History(INITIAL, hs + [h]);
             r.es.charging && !r.permanent && r.limit.wh > 0.0 && r.es.session >= r.limit.wh
    ensures var r, t := History(INITIAL, hs + [h]), Taken(h).t;
            TriedAt(r.log, t) || exists u :: QueuedAt(r.log, u) && t - u < 15.0
  {
    hide History, Happen, TriedAt, QueuedAt, FiredIsQueued;
    HistoryNext(hs, h);
    HistoryFires(hs);
    HappeningFires(History(INITIAL, hs), h);
  }
}
