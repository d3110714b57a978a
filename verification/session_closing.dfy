/** When and why a reading closes a session, and what the start gate remembers of it. */
module SessionClosing {
  import opened Common
  import opened Detection
  import opened Energy
  import opened StartGate
  import opened PortSession
  import opened EnergyAccounting
  import opened Hysteresis
  import opened SessionOpening
  import opened Arming

  predicate EnabledIn(h: Happening)
    requires Reads(h)
  {
    if h.TimerReading? then h.enabled else h.e.enabled
  }

  /** The reading shows no load: the port is off or draws no current. */
  predicate ShowsNoLoad(h: Happening) {
    Reads(h) && (!ActiveIn(h) || Taken(h).i <= 0.0)
  }

  /** One session has been open since before reading j, and no reading from j on has shown a load. */
  ghost predicate NoLoadFrom(hs: seq<Happening>, j: int) {
    && 0 <= j < |hs| && ShowsNoLoad(hs[j])
    && forall k {:trigger hs[k]} :: j <= k < |hs| ==>
         History(INITIAL, hs[..k]).es.charging && (Reads(hs[k]) ==> ShowsNoLoad(hs[k]))
  }

  ghost predicate TimesOrdered(hs: seq<Happening>) {
    forall i, j :: 0 <= i <= j < |hs| && Reads(hs[i]) && Reads(hs[j]) ==> Taken(hs[i]).t <= Taken(hs[j]).t
  }

  /** From s to r the open session was closed and recorded with this reason. */
  ghost predicate ClosedBy(s: Port, r: Port, reason: Reason) {
    var a, b := Sessions(s.log), Sessions(r.log);
    s.es.charging && !r.es.charging && |b| == |a| + 1 && b[..|a|] == a && b[|a|].reason == reason
  }

  /** The restart level in watts after a session whose largest power was `peak`. */
  function RestartLevel(peak: real): real {
    if peak <= 1.0 then 0.4 else if peak <= 3.0 then 0.4 * peak else 1.2
  }

  /** After a close: the gate is lifted for an unplugged device, and raised for any other reason. */
  ghost predicate GateAfter(r: Port, reason: Reason) {
    && r.det == RESET && r.gate.aboveSince.None?
    && (if reason == Unplug then !r.gate.postSession
        else r.gate.postSession && r.gate.restartW == RestartLevel(r.es.maxPower))
  }

  // ----- what a reading does to an open session -----

  /** What a close leaves behind. */
  lemma CloseLeaves(s: Port, t: real, reason: Reason)
    requires s.es.charging
    ensures var c := Close(s, t, reason);
            ClosedBy(s, c, reason) && GateAfter(c, reason) && c.es.maxPower == s.es.maxPower
  {
    hide Sessions;
    CloseRecords(s, t, reason);
  }

  lemma SameSessions(p: Port, s: Port, r: Port, reason: Reason)
    requires ClosedBy(p, r, reason) && p.log == s.log && p.es == s.es
    ensures ClosedBy(s, r, reason)
  {}

  /** What the management of a reading does to an open session, by what the reading shows. */
  ghost predicate Managing(s: Port, m: Port, x: Sample, active: bool, enabled: bool) {
    && (!enabled ==> ClosedBy(s, m, UserOff) && GateAfter(m, UserOff))
    && (enabled && (!active || x.i <= 0.0) ==>
          if s.idle.since.Some? && x.t - s.idle.since.value >= 15.0
          then
            var reason := if x.v < 4.0 then Unplug else NoLoad;
            ClosedBy(s, m, reason) && GateAfter(m, reason)
          else m.es.charging && m.idle.since == if s.idle.since.None? then Some(x.t) else s.idle.since)
    && (enabled && active && x.i > 0.0 ==>
          if m.es.charging then m.idle.since.None? else ClosedBy(s, m, LowPower) && GateAfter(m, LowPower))
  }

  lemma ManageChargingManages(s: Port, x: Sample, active: bool, enabled: bool)
    requires s.es.charging
    ensures Managing(s, ManageCharging(s, x, active, enabled), x, active, enabled)
  {
    hide Close, ShouldEnd, ClosedBy, GateAfter;
    forall p: Port, r | p.es == s.es && p.log == s.log
      ensures ClosedBy(s, Close(p, x.t, r), r) && GateAfter(Close(p, x.t, r), r) && !Close(p, x.t, r).es.charging
    {
      CloseLeaves(p, x.t, r);
      SameSessions(p, s, Close(p, x.t, r), r);
      CloseStops(p, x.t, r);
    }
  }

  /** What follows the management changes none of this. */
  lemma ManagingStays(s: Port, b: Port, m: Port, r: Port, x: Sample, active: bool, enabled: bool)
    requires Managing(b, m, x, active, enabled)
    requires b.es.charging == s.es.charging && b.idle == s.idle && Sessions(b.log) == Sessions(s.log)
    requires r.es.charging == m.es.charging && r.idle == m.idle && Sessions(r.log) == Sessions(m.log)
    requires !m.es.charging ==> r.es == m.es && r.det == m.det && r.gate == m.gate
    ensures Managing(s, r, x, active, enabled)
  {
    hide Sessions;
  }

  lemma ReadingManages(s: Port, h: Happening)
    requires Reads(h) && s.es.charging
    ensures Managing(s, Happen(s, h), Taken(h), ActiveIn(h), EnabledIn(h))
  {
    match h {
      case On(e) => PushManages(s, e);
      case TimerReading(x, active, enabled, room) => TimerManages(s, x, active, enabled, room);
    }
  }

  lemma PushManages(s: Port, e: Event)
    requires e.Push? && s.es.charging
    ensures Managing(s, Step(s, e), e.x, e.active, e.enabled)
  {
    hide Managing, ManageCharging, Feed, Integrate, EnforceLimit, EnforceFullOff, Sessions;
    IntegrateKeepsCharging(s.es, e.x);
    var f := s.(es := Integrate(s.es, e.x), det := Feed(s.det, e.x.t, e.x.v, e.x.i));
    var m := Managed(s, e);
    assert m == ManageCharging(f, e.x, e.active, e.enabled);
    ManageChargingManages(f, e.x, e.active, e.enabled);
    PushIsManaged(s, e);
    EnforcersKeepBook(m, e.x.t, e.room);
    EnforcersKeepBook(EnforceLimit(m, e.x.t, e.room), e.x.t, e.active);
    ManagingStays(s, f, m, Step(s, e), e.x, e.active, e.enabled);
  }

  lemma TimerManages(s: Port, x: Sample, active: bool, enabled: bool, room: bool)
    requires s.es.charging
    ensures Managing(s, TimerSample(s, x, active, enabled, room), x, active, enabled)
  {
    hide Managing, ManageCharging, Feed, Integrate, EnforceLimit, Sessions;
    var f := s.(det := Feed(s.det, x.t, x.v, x.i));
    var m := Manage(s, x, active, enabled);
    assert m == ManageCharging(f, x, active, enabled);
    ManageChargingManages(f, x, active, enabled);
    var i := m.(es := Integrate(m.es, x));
    IntegrateKeepsCharging(m.es, x);
    EnforcersKeepBook(i, x.t, room);
    EnforcersKeepAccounts(i, x.t, room);
    EnforcersKeepDetector(i, x.t, room);
    ManagingStays(s, f, m, TimerSample(s, x, active, enabled, room), x, active, enabled);
  }

  /** What is no reading leaves the no-load clock of an open session alone. */
  lemma BystanderKeepsClock(s: Port, h: Happening)
    requires !Reads(h) && s.es.charging && Happen(s, h).es.charging
    ensures Happen(s, h).idle == s.idle
  {
    hide Close, CloseActive, EnforceFullOff, Sessions;
    match h.e {
      case CommandClose(at, reason) => CloseStops(s, at, reason);
      case BulkClose(at, reason) => BulkCloseRecords(s, at, reason);
      case Confirm(at, portActive) => EnforcersKeepBook(s, at, portActive);
      case _ =>
    }
  }

  /** A session opens with its no-load clock stopped. */
  lemma OpensWithoutClock(s: Port, h: Happening)
    requires !s.es.charging && Happen(s, h).es.charging
    ensures Happen(s, h).idle.since.None?
  {
    hide Accounts, Fresh, Step, TimerSample;
    if !Fresh(s) { assert false by { NotFresh(s); } }
    HappeningAccounts(s, h);
    assert Happen(s, h).idle.since.None? by { UnloadedOpensNothing(s, h); }
  }

  lemma NotFresh(s: Port)
    requires !s.es.charging
    ensures Fresh(s)
  {}

  lemma UnloadedOpensNothing(s: Port, h: Happening)
    requires Accounts(s, h) && !s.es.charging && Happen(s, h).es.charging
    ensures Happen(s, h).idle.since.None?
  {
    hide Happen, LastReason;
  }

  // ----- the no-load clock on whole histories -----

  /** While a session is open its clock, if it runs, shows a reading from which on there was no load;
      and with readings in time order it shows the first such reading. */
  ghost predicate ClockRight(hs: seq<Happening>) {
    var s := History(INITIAL, hs);
    s.es.charging ==>
      && (s.idle.since.Some? ==> exists j :: NoLoadFrom(hs, j) && Taken(hs[j]).t == s.idle.since.value)
      && (TimesOrdered(hs) ==> forall j :: NoLoadFrom(hs, j) ==>
            s.idle.since.Some? && s.idle.since.value <= Taken(hs[j]).t)
  }

  lemma {:induction false} NoLoadFromNext(hs: seq<Happening>, h: Happening, j: int)
    ensures j < |hs| ==> (NoLoadFrom(hs + [h], j) <==>
              NoLoadFrom(hs, j) && History(INITIAL, hs).es.charging && (Reads(h) ==> ShowsNoLoad(h)))
    ensures NoLoadFrom(hs + [h], |hs|) <==> ShowsNoLoad(h) && History(INITIAL, hs).es.charging
  {
    hide ShowsNoLoad, History;
    var all := hs + [h];
    assert all[..|hs|] == hs && all[|hs|] == h;
    assert forall k :: 0 <= k < |hs| ==> all[k] == hs[k] && all[..k] == hs[..k];
    if 0 <= j < |hs| && NoLoadFrom(all, j) {
      assert History(INITIAL, all[..|hs|]).es.charging && (Reads(all[|hs|]) ==> ShowsNoLoad(all[|hs|]));
      forall k {:trigger hs[k]} | j <= k < |hs|
        ensures History(INITIAL, hs[..k]).es.charging && (Reads(hs[k]) ==> ShowsNoLoad(hs[k]))
      {
        assert all[k] == hs[k];
      }
    }
  }

  lemma {:induction false} TimesOrderedInit(hs: seq<Happening>, h: Happening)
    requires TimesOrdered(hs + [h])
    ensures TimesOrdered(hs)
    ensures Reads(h) ==> forall j :: 0 <= j < |hs| && Reads(hs[j]) ==> Taken(hs[j]).t <= Taken(h).t
  {
    var all := hs + [h];
    assert all[|hs|] == h;
    assert forall k :: 0 <= k < |hs| ==> all[k] == hs[k];
  }

  /** What one happening does to the clock of a session that stays open. */
  lemma ClockStep(s: Port, h: Happening)
    requires s.es.charging && Happen(s, h).es.charging
    ensures var a, b := s.idle.since, Happen(s, h).idle.since;
            b == if !Reads(h) then a
                 else if !ShowsNoLoad(h) then None
                 else if a.Some? then a else Some(Taken(h).t)
  {
    hide Happen, Sessions, GateAfter;
    if Reads(h) { ReadingManages(s, h); } else { BystanderKeepsClock(s, h); }
  }

  lemma NoLoadInside(hs: seq<Happening>, j: int)
    requires NoLoadFrom(hs, j)
    ensures 0 <= j < |hs| && Reads(hs[j]) && ShowsNoLoad(hs[j])
  {}

  lemma {:induction false} ClockGoesOn(hs: seq<Happening>, h: Happening)
    requires ClockRight(hs) && History(INITIAL, hs).es.charging && History(INITIAL, hs + [h]).es.charging
    ensures ClockRight(hs + [h])
  {
    hide History, Happen, TimesOrdered;
    var s, all := History(INITIAL, hs), hs + [h];
    HistoryNext(hs, h);
    ClockStep(s, h);
    var b := History(INITIAL, all).idle.since;
    assert forall k :: 0 <= k < |hs| ==> all[k] == hs[k];
    if b.Some? {
      if s.idle.since.Some? {
        var j :| NoLoadFrom(hs, j) && Taken(hs[j]).t == s.idle.since.value;
        NoLoadInside(hs, j);
        NoLoadFromNext(hs, h, j);
        assert Taken(all[j]).t == b.value;
      } else {
        NoLoadFromNext(hs, h, |hs|);
        assert Taken(all[|hs|]).t == b.value;
      }
    }
    if TimesOrdered(all) {
      TimesOrderedInit(hs, h);
      forall j | NoLoadFrom(all, j) ensures b.Some? && b.value <= Taken(all[j]).t {
        NoLoadInside(all, j);
        NoLoadFromNext(hs, h, j);
        if j == |hs| && s.idle.since.Some? {
          var q :| NoLoadFrom(hs, q) && Taken(hs[q]).t == s.idle.since.value;
          NoLoadInside(hs, q);
        }
      }
    }
  }

  lemma {:induction false} ClockStarts(hs: seq<Happening>, h: Happening)
    requires !History(INITIAL, hs).es.charging
    ensures ClockRight(hs + [h])
  {
    hide History, Happen, NoLoadFrom;
    HistoryNext(hs, h);
    if History(INITIAL, hs + [h]).es.charging {
      OpensWithoutClock(History(INITIAL, hs), h);
      forall j ensures !NoLoadFrom(hs + [h], j) {
        if NoLoadFrom(hs + [h], j) { NoLoadInside(hs + [h], j); }
        NoLoadFromNext(hs, h, j);
      }
    }
  }

  lemma {:induction false} ClockIsRight(hs: seq<Happening>)
    ensures ClockRight(hs)
  {
    hide Happen, NoLoadFrom, TimesOrdered;
    if hs != [] {
      var init, h := hs[..|hs| - 1], hs[|hs| - 1];
      assert hs == init + [h];
      ClockIsRight(init);
      if !History(INITIAL, init).es.charging {
        ClockStarts(init, h);
      } else if History(INITIAL, hs).es.charging {
        ClockGoesOn(init, h);
      }
    }
  }

  // ----- the main results -----

  /**
   * When and why a reading closes a session, on every history with readings in time order: at once if
   * the port is switched off by its user; if it shows no load, exactly when nothing else has been read
   * for 15 s of this session, as unplugged below 4 V and as left without load from 4 V on; and with a
   * load, only for low power.
   */
  lemma {:induction false} ReadingClosesExactly(hs: seq<Happening>, h: Happening)
    requires Reads(h) && TimesOrdered(hs + [h]) && History(INITIAL, hs).es.charging
    ensures var s, r, x := History(INITIAL, hs), History(INITIAL, hs + [h]), Taken(h);
            && (!EnabledIn(h) ==> ClosedBy(s, r, UserOff))
            && (EnabledIn(h) && ShowsNoLoad(h) ==>
                  if exists j :: NoLoadFrom(hs, j) && x.t - Taken(hs[j]).t >= 15.0
                  then ClosedBy(s, r, if x.v < 4.0 then Unplug else NoLoad) else r.es.charging)
            && (EnabledIn(h) && !ShowsNoLoad(h) ==> r.es.charging || ClosedBy(s, r, LowPower))
  {
    hide History, Happen, NoLoadFrom, TimesOrdered, ClosedBy, GateAfter;
    HistoryNext(hs, h);
    TimesOrderedInit(hs, h);
    ClockIsRight(hs);
    ReadingManages(History(INITIAL, hs), h);
  }

  predicate IsBulkClose(h: Happening) {
    h.On? && h.e.BulkClose?
  }

  /**
   * What the gate holds after a close, whoever ordered it, unless it was a bulk close: nothing if the
   * device was unplugged; otherwise the level of 0.4 W, or 0.4 times the largest power of the session,
   * but no more than 1.2 W.
   */
  lemma {:induction false} CloseSetsGate(hs: seq<Happening>, h: Happening)
    requires !IsBulkClose(h) && Ends(History(INITIAL, hs), h)
    ensures var s, r := History(INITIAL, hs), History(INITIAL, hs + [h]);
            exists reason :: ClosedBy(s, r, reason) && GateAfter(r, reason)
  {
    hide History, Happen, ClosedBy, GateAfter;
    HistoryNext(hs, h);
    EndingSetsGate(History(INITIAL, hs), h);
  }

  lemma EndingSetsGate(s: Port, h: Happening)
    requires !IsBulkClose(h) && Ends(s, h)
    ensures exists reason :: ClosedBy(s, Happen(s, h), reason) && GateAfter(Happen(s, h), reason)
  {
    if Reads(h) {
      hide Happen, ClosedBy, GateAfter;
      ReadingManages(s, h);
    } else {
      hide Close, EnforceFullOff, ClosedBy, GateAfter;
      match h.e {
        case CommandClose(at, reason) => CloseLeaves(s, at, reason);
        case Confirm(at, portActive) => EnforcersKeepDetector(s, at, portActive);
        case _ =>
      }
    }
  }

  /** A happening after which an idle port cannot have got going: no reading reaches the level, and the
      port is not read empty. */
  predicate StaysBelow(h: Happening, level: real) {
    h != On(ReadsEmpty) && (Reads(h) ==> Taken(h).Power() < level)
  }

  lemma StaysResidual(s: Port, h: Happening, level: real)
    requires Residual(s, level) && StaysBelow(h, level) && level > 0.0
    ensures Residual(Happen(s, h), level)
  {
    match h {
      case On(e) => hide Residual, Step; QuietStepStaysResidual(s, e, level);
      case TimerReading(x, active, enabled, room) =>
        hide Manage, Integrate, EnforceLimit;
        QuietManageStaysResidual(s, x, active, enabled, level);
    }
  }

  lemma {:induction false} TailStaysResidual(hs: seq<Happening>, tail: seq<Happening>, level: real)
    requires Residual(History(INITIAL, hs), level) && level > 0.0
    requires forall k :: 0 <= k < |tail| ==> StaysBelow(tail[k], level)
    ensures Residual(History(INITIAL, hs + tail), level)
  {
    hide Happen, History, Residual, StaysBelow;
    if tail == [] {
      assert hs + tail == hs;
    } else {
      var init, h := tail[..|tail| - 1], tail[|tail| - 1];
      TailStaysResidual(hs, init, level);
      assert hs + tail == hs + init + [h];
      HistoryNext(hs + init, h);
      StaysResidual(History(INITIAL, hs + init), h, level);
    }
  }

  /**
   * A full device left on the charger does not open a session.  After a close for any reason but an
   * unplugged device or a bulk close, no session opens as long as every reading stays below the restart
   * level of the closed session and the port is never read empty, whatever else happens.
   */
  lemma {:induction false} NoReopeningBelowLevel(hs: seq<Happening>, h: Happening, tail: seq<Happening>)
    requires !IsBulkClose(h) && Ends(History(INITIAL, hs), h)
    requires var r := History(INITIAL, hs + [h]);
             && LastReason(r) != Some(Unplug)
             && forall k :: 0 <= k < |tail| ==> StaysBelow(tail[k], RestartLevel(r.es.maxPower))
    ensures !History(INITIAL, hs + [h] + tail).es.charging
  {
    hide History, Happen, RestartLevel, StaysBelow;
    var s, r := History(INITIAL, hs), History(INITIAL, hs + [h]);
    CloseSetsGate(hs, h);
    var reason :| ClosedBy(s, r, reason) && GateAfter(r, reason);
    RestartLevelPositive(r.es.maxPower);
    TailStaysResidual(hs + [h], tail, RestartLevel(r.es.maxPower));
  }

  lemma RestartLevelPositive(peak: real)
    ensures RestartLevel(peak) >= 0.4
  {}

  // ----- when the gate is raised -----

  /** Happening k ended a session, not in bulk and not for an unplugged device; since then no session has
      been open and the port has not been read empty. */
  ghost predicate RaisedAt(hs: seq<Happening>, k: int) {
    && 0 <= k < |hs| && Ends(History(INITIAL, hs[..k]), hs[k]) && !IsBulkClose(hs[k])
    && LastReason(History(INITIAL, hs[..k + 1])) != Some(Unplug)
    && forall j {:trigger hs[j]} :: k < j < |hs| ==>
         hs[j] != On(ReadsEmpty) && !History(INITIAL, hs[..j + 1]).es.charging
  }

  /** The gate is raised exactly if the history says so, to the level of the session that raised it; and
      never while a session is open. */
  ghost predicate GateRight(hs: seq<Happening>) {
    var s := History(INITIAL, hs);
    && (s.es.charging ==> !s.gate.postSession)
    && (s.gate.postSession <==> exists k :: RaisedAt(hs, k))
    && forall k :: RaisedAt(hs, k) ==> s.gate.restartW == RestartLevel(History(INITIAL, hs[..k + 1]).es.maxPower)
  }

  /** What a happening does to a gate, other than by ending a session. */
  lemma GateStep(s: Port, h: Happening)
    requires (s.es.charging ==> !s.gate.postSession) && (!Ends(s, h) || IsBulkClose(h))
    ensures var a, b := s.gate, Happen(s, h).gate;
            && b.postSession == (a.postSession && h != On(ReadsEmpty) && !Happen(s, h).es.charging)
            && b.restartW == a.restartW
  {
    match h {
      case On(e) =>
        if e.Push? { PushGate(s, e); } else { OtherGate(s, e); }
      case TimerReading(x, active, enabled, room) =>
        hide Manage, Integrate, EnforceLimit;
        ManageGate(s, x, active, enabled);
        var i := Manage(s, x, active, enabled);
        IntegrateKeepsCharging(i.es, x);
        EnforcersKeepDetector(i.(es := Integrate(i.es, x)), x.t, room);
    }
  }

  lemma OtherGate(s: Port, e: Event)
    requires !e.Push? && (s.es.charging ==> !s.gate.postSession) && (!Ends(s, On(e)) || e.BulkClose?)
    ensures var a, r := s.gate, Step(s, e);
            r.gate.postSession == (a.postSession && e != ReadsEmpty && !r.es.charging) && r.gate.restartW == a.restartW
  {
    hide Close, CloseActive, EnforceFullOff, Sessions;
    match e {
      case CommandClose(at, reason) =>
        if s.es.charging { CloseStops(s, at, reason); } else { CloseIdle(s, at, reason); }
      case BulkClose(at, reason) => BulkCloseRecords(s, at, reason);
      case Confirm(at, portActive) => EnforcersKeepDetector(s, at, portActive);
      case _ =>
    }
  }

  lemma PushGate(s: Port, e: Event)
    requires e.Push? && (s.es.charging ==> !s.gate.postSession) && !Ends(s, On(e))
    ensures var a, r := s.gate, Step(s, e);
            r.gate.postSession == (a.postSession && !r.es.charging) && r.gate.restartW == a.restartW
  {
    hide Manage, Integrate, Step, Sessions;
    IntegrateKeepsCharging(s.es, e.x);
    PushIsManaged(s, e);
    ManageGate(s.(es := Integrate(s.es, e.x)), e.x, e.active, e.enabled);
  }

  lemma ManageGate(s: Port, x: Sample, active: bool, enabled: bool)
    requires s.es.charging ==> !s.gate.postSession && Manage(s, x, active, enabled).es.charging
    ensures var a, m := s.gate, Manage(s, x, active, enabled);
            m.gate.postSession == (a.postSession && !m.es.charging) && m.gate.restartW == a.restartW
  {
    hide WatchIdle, Open, Feed, PFast, BufferPre, Close, ShouldEnd, ThresholdNow;
    var f := s.(det := Feed(s.det, x.t, x.v, x.i));
    if s.es.charging {
      forall p: Port, r ensures !Close(p, x.t, r).es.charging { CloseStops(p, x.t, r); }
    } else {
      var g := f.(pre := BufferPre(f.pre, x));
      WatchKeepsDetector(g, x);
      WatchKeepsAccounts(g, x);
      var w := WatchIdle(g, x);
      var q := ShouldStart(w.gate, x.t, PFast(w.det), x.v);
      OpenKeepsGate(w.(gate := q.0), x);
    }
  }

  lemma {:induction false} RaisedNow(hs: seq<Happening>, h: Happening)
    ensures RaisedAt(hs + [h], |hs|) <==>
              Ends(History(INITIAL, hs), h) && !IsBulkClose(h) && LastReason(History(INITIAL, hs + [h])) != Some(Unplug)
  {
    hide History, Ends, LastReason, IsBulkClose;
    var all := hs + [h];
    assert all[..|hs|] == hs && all[|hs|] == h && all[..|hs| + 1] == all;
  }

  /** What held of an earlier happening holds on exactly if the last one changed nothing. */
  lemma {:induction false} RaisedBefore(hs: seq<Happening>, h: Happening, k: int)
    requires 0 <= k < |hs| && RaisedAt(hs + [h], k)
    ensures RaisedAt(hs, k) && h != On(ReadsEmpty) && !History(INITIAL, hs + [h]).es.charging
  {
    hide History, Ends, LastReason, IsBulkClose;
    var all := hs + [h];
    SamePrefix(hs, h, k);
    assert all[|hs|] == h && all[..|hs| + 1] == all;
    assert all[|hs|] != On(ReadsEmpty) && !History(INITIAL, all[..|hs| + 1]).es.charging;
    assert Ends(History(INITIAL, hs[..k]), hs[k]);
    assert !IsBulkClose(hs[k]);
    assert LastReason(History(INITIAL, hs[..k + 1])) != Some(Unplug);
    forall j {:trigger hs[j]} | k < j < |hs|
      ensures hs[j] != On(ReadsEmpty) && !History(INITIAL, hs[..j + 1]).es.charging
    {
      SamePrefix(hs, h, j);
      assert all[j] != On(ReadsEmpty) && !History(INITIAL, all[..j + 1]).es.charging;
    }
      assert forall j {:trigger hs[j]} :: k < j < |hs| ==>
         hs[j] != On(ReadsEmpty) && !History(INITIAL, hs[..j + 1]).es.charging;
  }

  lemma {:induction false} RaisedStays(hs: seq<Happening>, h: Happening, k: int)
    requires RaisedAt(hs, k) && h != On(ReadsEmpty) && !History(INITIAL, hs + [h]).es.charging
    ensures RaisedAt(hs + [h], k)
  {
    hide History, Ends, LastReason, IsBulkClose;
    var all := hs + [h];
    SamePrefix(hs, h, k);
    assert all[|hs|] == h && all[..|hs| + 1] == all;
    assert Ends(History(INITIAL, all[..k]), all[k]);
    assert !IsBulkClose(all[k]);
    assert LastReason(History(INITIAL, all[..k + 1])) != Some(Unplug);
    forall j {:trigger all[j]} | k < j < |all|
      ensures all[j] != On(ReadsEmpty) && !History(INITIAL, all[..j + 1]).es.charging
    {
      if j < |hs| {
        SamePrefix(hs, h, j);
        assert hs[j] != On(ReadsEmpty) && !History(INITIAL, hs[..j + 1]).es.charging;
      }
    }
      assert forall j {:trigger all[j]} :: k < j < |all| ==>
         all[j] != On(ReadsEmpty) && !History(INITIAL, all[..j + 1]).es.charging;
  }

  lemma {:induction false} RaisedNext(hs: seq<Happening>, h: Happening, k: int)
    ensures k < |hs| ==> (RaisedAt(hs + [h], k) <==>
              RaisedAt(hs, k) && h != On(ReadsEmpty) && !History(INITIAL, hs + [h]).es.charging)
  {
    hide RaisedAt, History;
    if k < |hs| && RaisedAt(hs + [h], k) {
      RaisedInside(hs + [h], k);
      RaisedBefore(hs, h, k);
    }
    if RaisedAt(hs, k) && h != On(ReadsEmpty) && !History(INITIAL, hs + [h]).es.charging { RaisedStays(hs, h, k); }
  }

  lemma RaisedInside(hs: seq<Happening>, k: int)
    requires RaisedAt(hs, k)
    ensures 0 <= k < |hs|
  {}

  lemma EndsIdle(s: Port, h: Happening)
    requires Ends(s, h)
    ensures s.es.charging && !Happen(s, h).es.charging
  {}

  lemma ClosedReason(s: Port, r: Port, reason: Reason)
    requires ClosedBy(s, r, reason)
    ensures LastReason(r) == Some(reason)
  {}

  lemma {:induction false} GateRightNext(hs: seq<Happening>, h: Happening)
    requires GateRight(hs)
    ensures GateRight(hs + [h])
  {
    hide History, Happen, Ends, LastReason, RaisedAt, ClosedBy;
    var s, r, all := History(INITIAL, hs), History(INITIAL, hs + [h]), hs + [h];
    HistoryNext(hs, h);
    RaisedNow(hs, h);
    assert all[..|hs| + 1] == all;
    forall k ensures RaisedAt(all, k) ==>
        || k == |hs|
        || (0 <= k < |hs| && RaisedAt(hs, k) && h != On(ReadsEmpty) && !r.es.charging && all[..k + 1] == hs[..k + 1])
    {
      if RaisedAt(all, k) { RaisedInside(all, k); }
      RaisedNext(hs, h, k);
      if 0 <= k < |hs| { SamePrefix(hs, h, k); }
    }
    if Ends(s, h) && !IsBulkClose(h) {
      EndsIdle(s, h);
      EndingSetsGate(s, h);
      var reason :| ClosedBy(s, r, reason) && GateAfter(r, reason);
      ClosedReason(s, r, reason);
      forall k ensures !RaisedAt(hs, k) {}
      if r.gate.postSession { assert RaisedAt(all, |hs|); }
    } else {
      GateStep(s, h);
      if r.gate.postSession {
        var k :| RaisedAt(hs, k);
        RaisedInside(hs, k);
        RaisedNext(hs, h, k);
      }
    }
  }

  lemma InitialGate()
    ensures GateRight([])
  {}

  /**
   * When the gate is raised, on every history: exactly if a session has ended, not in bulk and not for
   * an unplugged device, and since then neither a session was opened nor the port read empty; then to
   * the restart level of that session.
   */
  lemma {:induction false} GateIsRaisedExactly(hs: seq<Happening>)
    ensures GateRight(hs)
  {
    hide GateRight;
    if hs == [] {
      InitialGate();
    } else {
      var init, h := hs[..|hs| - 1], hs[|hs| - 1];
      assert hs == init + [h];
      GateIsRaisedExactly(init);
      GateRightNext(init, h);
    }
  }
}
