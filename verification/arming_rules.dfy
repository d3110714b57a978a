/** When the automatic power-off is armed: not only on evidence, but whenever there is evidence, and once. */
module ArmingRules {
  import opened Common
  import opened Detection
  import opened Energy
  import opened StartGate
  import opened PortSession
  import opened EnergyAccounting
  import opened Hysteresis
  import opened SessionOpening
  import opened Arming
  import opened SessionClosing

  // ----- a worthy end by low power arms -----

  /** The log of r goes on behind that of s with the close of a session by low power and, exactly if it was
      worth at least 1 Wh and the power-off is on, with an arming. */
  ghost predicate ClosedAndArmed(s: Port, r: Port) {
    var n := |s.log|;
    && n < |r.log| && r.log[..n] == s.log && r.log[n].Closed? && r.log[n].reason == LowPower
    && (s.full.mode.Some? && r.log[n].wh >= 1.0 <==> n + 1 < |r.log| && r.log[n + 1].FullArmed?)
  }

  lemma LowPowerCloseArms(s: Port, t: real)
    requires s.es.charging
    ensures var c := Close(s, t, LowPower);
            && ClosedAndArmed(s, c) && !c.es.charging && |c.log| <= |s.log| + 2
            && (|c.log| == |s.log| + 2 ==> c.log[|s.log| + 1].FullArmed?)
  {}

  /** The management of a reading that ends a session for low power. */
  lemma ManagedLowPowerArms(s: Port, x: Sample, active: bool, enabled: bool)
    requires s.es.charging
    ensures var m := ManageCharging(s, x, active, enabled);
            !m.es.charging && LastReason(m) == Some(LowPower) ==>
              ClosedAndArmed(s, m) && |m.log| <= |s.log| + 2
              && (|m.log| == |s.log| + 2 ==> m.log[|s.log| + 1].FullArmed?)
  {
    hide Close, ShouldEnd, LastReason, ClosedAndArmed;
    forall p: Port, r | p.es.charging && p.log == s.log && p.full == s.full
      ensures var c := Close(p, x.t, r);
              && !c.es.charging && LastReason(c) == Some(r)
              && (r == LowPower ==> ClosedAndArmed(s, c) && |c.log| <= |s.log| + 2
                                    && (|c.log| == |s.log| + 2 ==> c.log[|s.log| + 1].FullArmed?))
    {
      CloseIdleBook(p, x.t, r);
      LowPowerCloseArms(p, x.t);
      SameClosedAndArmed(p, s, Close(p, x.t, LowPower));
    }
  }

  lemma SameClosedAndArmed(p: Port, s: Port, c: Port)
    requires p.log == s.log && p.full == s.full
    ensures ClosedAndArmed(p, c) == ClosedAndArmed(s, c)
  {}

  /** Commands queued behind it change nothing about it. */
  lemma ClosedAndArmedStays(s: Port, m: Port, r: Port)
    requires ClosedAndArmed(s, m) && |m.log| <= |s.log| + 2
    requires |m.log| == |s.log| + 2 ==> m.log[|s.log| + 1].FullArmed?
    requires |r.log| >= |m.log| && r.log[..|m.log|] == m.log
    requires forall k :: |m.log| <= k < |r.log| ==> !r.log[k].FullArmed?
    ensures ClosedAndArmed(s, r)
  {
    assert r.log[..|s.log|] == m.log[..|s.log|];
    assert r.log[|s.log|] == m.log[|s.log|];
  }

  lemma EnforcersAppend(m: Port, t: real, room: bool, portActive: bool)
    ensures var r := EnforceFullOff(EnforceLimit(m, t, room), t, portActive);
            && |r.log| >= |m.log| && r.log[..|m.log|] == m.log
            && forall k :: |m.log| <= k < |r.log| ==> !r.log[k].FullArmed?
  {}

  /**
   * A session that ends for low power arms the automatic power-off exactly if that is on and the session
   * was worth at least 1 Wh, in every state and however the end comes about, other than in bulk.
   */
  lemma LowPowerEndArms(s: Port, h: Happening)
    requires Ends(s, h) && !IsBulkClose(h) && LastReason(Happen(s, h)) == Some(LowPower)
    ensures ClosedAndArmed(s, Happen(s, h))
  {
    match h {
      case On(e) => if e.Push? { PushArms(s, e); } else { OtherArms(s, e); }
      case TimerReading(x, active, enabled, room) => TimerEndArms(s, x, active, enabled, room);
    }
  }

  lemma OtherArms(s: Port, e: Event)
    requires !e.Push? && Ends(s, On(e)) && !e.BulkClose? && LastReason(Step(s, e)) == Some(LowPower)
    ensures ClosedAndArmed(s, Step(s, e))
  {
    hide Close, EnforceFullOff, LastReason, ClosedAndArmed;
    match e {
      case CommandClose(at, reason) =>
        CloseIdleBook(s, at, reason);
        LowPowerCloseArms(s, at);
      case Confirm(at, portActive) => EnforcersKeepDetector(s, at, portActive);
      case _ =>
    }
  }

  lemma PushArms(s: Port, e: Event)
    requires e.Push? && Ends(s, On(e)) && LastReason(Step(s, e)) == Some(LowPower)
    ensures ClosedAndArmed(s, Step(s, e))
  {
    hide ManageCharging, Feed, Integrate, EnforceLimit, EnforceFullOff, Sessions, ClosedAndArmed;
    IntegrateKeepsCharging(s.es, e.x);
    var f := s.(es := Integrate(s.es, e.x), det := Feed(s.det, e.x.t, e.x.v, e.x.i));
    var m := Managed(s, e);
    assert m == ManageCharging(f, e.x, e.active, e.enabled);
    PushIsManaged(s, e);
    ManagedLowPowerArms(f, e.x, e.active, e.enabled);
    SameClosedAndArmed(f, s, m);
    EnforcersAppend(m, e.x.t, e.room, e.active);
    ClosedAndArmedStays(s, m, Step(s, e));
  }

  lemma TimerEndArms(s: Port, x: Sample, active: bool, enabled: bool, room: bool)
    requires var h := TimerReading(x, active, enabled, room); Ends(s, h) && LastReason(Happen(s, h)) == Some(LowPower)
    ensures ClosedAndArmed(s, TimerSample(s, x, active, enabled, room))
  {
    hide ManageCharging, Feed, Integrate, EnforceLimit, Sessions, ClosedAndArmed;
    var f := s.(det := Feed(s.det, x.t, x.v, x.i));
    var m := Manage(s, x, active, enabled);
    assert m == ManageCharging(f, x, active, enabled);
    IntegrateKeepsCharging(m.es, x);
    EnforcersKeepDetector(m.(es := Integrate(m.es, x)), x.t, room);
    ManagedLowPowerArms(f, x, active, enabled);
    SameClosedAndArmed(f, s, m);
  }

  // ----- a port that carries next to nothing for long enough is armed -----

  /** The watch is on: idle, the power-off on and not under way, not used up for this idle stretch. */
  predicate Watching(s: Port) {
    !s.es.charging && s.full.mode.Some? && s.full.pending == 0.0 && !s.idle.armed
  }

  /** A reading of at most 2 W at live voltage, or something that changes no setting of the power-off. */
  predicate Undisturbed(h: Happening) {
    if Reads(h) then Taken(h).Power() <= 2.0 && Taken(h).v >= 4.0
    else !h.e.ChangePermanent? && !h.e.ChangeFullOff?
  }

  /** How long the watched port has to be quiet. */
  function Window(s: Port): real {
    if s.idle.fromSession then 120.0 else 600.0
  }

  /** From s to r the power-off has been armed. */
  ghost predicate HasArmed(s: Port, r: Port) {
    exists k :: |s.log| <= k < |r.log| && r.log[k].FullArmed?
  }

  /** One happening on a watched port: it arms, or opens a session, or the watch goes on with its clock
      running since its first reading, unless the time is up. */
  ghost predicate WatchGoesOn(s: Port, h: Happening, r: Port) {
    || r.es.charging || HasArmed(s, r)
    || (&& Watching(r) && r.idle.fromSession == s.idle.fromSession
        && r.idle.since == (if s.idle.since.None? && Reads(h) then Some(Taken(h).t) else s.idle.since)
        && (Reads(h) ==> Taken(h).t - r.idle.since.value < Window(s)))
  }

  lemma WatchReads(s: Port, x: Sample)
    requires Watching(s) && x.Power() <= 2.0 && x.v >= 4.0
    ensures var w := WatchIdle(s, x);
            || w.log == s.log + [FullArmed(x.t)]
            || (&& Watching(w) && w.log == s.log && w.idle.fromSession == s.idle.fromSession
                && w.idle.since == (if s.idle.since.None? then Some(x.t) else s.idle.since)
                && x.t - w.idle.since.value < Window(s))
  {}

  lemma ManageWatches(s: Port, x: Sample, active: bool, enabled: bool)
    requires Watching(s) && x.Power() <= 2.0 && x.v >= 4.0
    ensures var m := Manage(s, x, active, enabled);
            && |m.log| >= |s.log| && (m.es.charging || HasArmed(s, m)
                                      || (&& Watching(m) && m.idle.fromSession == s.idle.fromSession
                                          && m.idle.since == (if s.idle.since.None? then Some(x.t) else s.idle.since)
                                          && x.t - m.idle.since.value < Window(s)))
  {
    hide WatchIdle, Open, Feed, PFast, BufferPre, ShouldStart;
    var g := s.(det := Feed(s.det, x.t, x.v, x.i), pre := BufferPre(s.pre, x));
    WatchReads(g, x);
    var w := WatchIdle(g, x);
    WatchKeepsAccounts(g, x);
    var o := w.(gate := ShouldStart(w.gate, x.t, PFast(w.det), x.v).0);
    OpenKeepsGate(o, x);
    OpenLog(o, x);
    var m := Manage(s, x, active, enabled);
    if w.log != s.log && !m.es.charging { assert m.log[|s.log|] == FullArmed(x.t); }
  }

  lemma ArmedThrough(s: Port, m: Port, r: Port)
    requires HasArmed(s, m) && |r.log| >= |m.log| && r.log[..|m.log|] == m.log
    ensures HasArmed(s, r)
  {
    var k :| |s.log| <= k < |m.log| && m.log[k].FullArmed?;
    assert r.log[k] == m.log[k];
  }

  lemma EnforcersKeepWatch(m: Port, t: real, room: bool, portActive: bool)
    requires Watching(m)
    ensures EnforceFullOff(EnforceLimit(m, t, room), t, portActive) == m
  {}

  lemma PushWatches(s: Port, e: Event)
    requires e.Push? && Watching(s) && Undisturbed(On(e))
    ensures WatchGoesOn(s, On(e), Step(s, e)) && |Step(s, e).log| >= |s.log|
  {
    hide Manage, Integrate, EnforceLimit, EnforceFullOff, HasArmed;
    IntegrateKeepsCharging(s.es, e.x);
    var b := s.(es := Integrate(s.es, e.x));
    ManageWatches(b, e.x, e.active, e.enabled);
    var m := Managed(s, e);
    EnforcersAppend(m, e.x.t, e.room, e.active);
    PushIsManaged(s, e);
    SameArmedFrom(b, s, m);
    if HasArmed(s, m) { ArmedThrough(s, m, Step(s, e)); }
    if Watching(m) { EnforcersKeepWatch(m, e.x.t, e.room, e.active); }
  }

  lemma SameArmedFrom(b: Port, s: Port, m: Port)
    requires b.log == s.log
    ensures HasArmed(b, m) == HasArmed(s, m)
  {}

  lemma TimerWatches(s: Port, x: Sample, active: bool, enabled: bool, room: bool)
    requires var h := TimerReading(x, active, enabled, room); Watching(s) && Undisturbed(h)
    ensures var h := TimerReading(x, active, enabled, room);
            WatchGoesOn(s, h, Happen(s, h)) && |Happen(s, h).log| >= |s.log|
  {
    hide Manage, Integrate, EnforceLimit, HasArmed;
    var m := Manage(s, x, active, enabled);
    ManageWatches(s, x, active, enabled);
    IntegrateKeepsCharging(m.es, x);
    EnforcersKeepDetector(m.(es := Integrate(m.es, x)), x.t, room);
    EnforcersArmNothing(m.(es := Integrate(m.es, x)), x.t, room);
  }

  lemma OtherWatches(s: Port, e: Event)
    requires !e.Push? && Watching(s) && Undisturbed(On(e))
    ensures WatchGoesOn(s, On(e), Step(s, e)) && |Step(s, e).log| >= |s.log|
  {
    hide Close, CloseActive, HasArmed;
    match e {
      case CommandClose(at, reason) => CloseIdle(s, at, reason);
      case BulkClose(at, reason) => BulkCloseRecords(s, at, reason);
      case _ =>
    }
  }

  lemma HappeningWatches(s: Port, h: Happening)
    requires Watching(s) && Undisturbed(h)
    ensures WatchGoesOn(s, h, Happen(s, h)) && |Happen(s, h).log| >= |s.log|
  {
    match h {
      case On(e) => if e.Push? { PushWatches(s, e); } else { OtherWatches(s, e); }
      case TimerReading(x, active, enabled, room) => TimerWatches(s, x, active, enabled, room);
    }
  }

  /** Happening m of the tail opens a session or arms the power-off. */
  ghost predicate EndsWatch(hs: seq<Happening>, tail: seq<Happening>, m: int) {
    && 0 <= m < |tail|
    && var s, r := History(INITIAL, hs + tail[..m]), History(INITIAL, hs + tail[..m + 1]);
       r.es.charging || HasArmed(s, r)
  }

  /** Among the first n happenings of the tail one has opened a session or armed the power-off. */
  ghost predicate WatchEnded(hs: seq<Happening>, tail: seq<Happening>, n: int) {
    exists m :: 0 <= m < n && EndsWatch(hs, tail, m)
  }

  /** The watch after n happenings of the tail, the first of which is a reading. */
  ghost predicate StillWatching(hs: seq<Happening>, tail: seq<Happening>, n: nat)
    requires n <= |tail| && tail != [] && Reads(tail[0])
  {
    var r := History(INITIAL, hs + tail[..n]);
    && Watching(r) && r.idle.fromSession == History(INITIAL, hs).idle.fromSession
    && (n > 0 ==> r.idle.since.Some? && r.idle.since.value <= Taken(tail[0]).t)
    && (n > 0 && Reads(tail[n - 1]) ==> Taken(tail[n - 1]).t - r.idle.since.value < Window(r))
  }

  lemma {:induction false} SinceIsPast(hs: seq<Happening>, h: Happening)
    requires Reads(h) && TimesOrdered(hs + [h])
    ensures var a := History(INITIAL, hs).idle.since; a.Some? ==> a.value <= Taken(h).t
  {
    hide History, IdleSinceNoLoad, Unloaded, TimesOrdered;
    RunIsKnown(hs);
    TimesOrderedInit(hs, h);
    var a := History(INITIAL, hs).idle.since;
    if a.Some? {
      var j :| UnloadedFrom(hs, j) && Taken(hs[j]).t == a.value;
    }
  }

  lemma {:induction false} TimesPrefix(hs: seq<Happening>, n: nat)
    requires TimesOrdered(hs) && n <= |hs|
    ensures TimesOrdered(hs[..n])
  {
    assert forall k :: 0 <= k < n ==> hs[..n][k] == hs[k];
  }

  lemma {:induction false} WatchRun(hs: seq<Happening>, tail: seq<Happening>, n: nat)
    requires n <= |tail| && tail != [] && Reads(tail[0]) && TimesOrdered(hs + tail)
    requires Watching(History(INITIAL, hs)) && forall k :: 0 <= k < |tail| ==> Undisturbed(tail[k])
    ensures WatchEnded(hs, tail, n) || StillWatching(hs, tail, n)
  {
    hide History, Happen, Watching, Undisturbed, TimesOrdered, HasArmed;
    if n == 0 {
      assert hs + tail[..0] == hs;
    } else {
      WatchRun(hs, tail, n - 1);
      if WatchEnded(hs, tail, n - 1) {
        var m :| 0 <= m < n - 1 && EndsWatch(hs, tail, m);
        assert m < n;
      } else {
        WatchStep(hs, tail, n);
      }
    }
  }

  lemma {:induction false} WatchStep(hs: seq<Happening>, tail: seq<Happening>, n: nat)
    requires 0 < n <= |tail| && Reads(tail[0]) && TimesOrdered(hs + tail) && StillWatching(hs, tail, n - 1)
    requires forall k :: 0 <= k < |tail| ==> Undisturbed(tail[k])
    ensures EndsWatch(hs, tail, n - 1) || StillWatching(hs, tail, n)
  {
    hide History, Happen, Watching, Undisturbed, TimesOrdered, HasArmed;
    var before, h := hs + tail[..n - 1], tail[n - 1];
    assert hs + tail[..n] == before + [h];
    HistoryNext(before, h);
    HappeningWatches(History(INITIAL, before), h);
    if n == 1 {
      assert before == hs;
      assert (hs + tail)[..|hs| + 1] == hs + [h];
      TimesPrefix(hs + tail, |hs| + 1);
      SinceIsPast(hs, h);
    }
  }

  lemma ManageNoLoadEnd(s: Port, x: Sample, active: bool, enabled: bool)
    requires s.es.charging
    ensures var m := ManageCharging(s, x, active, enabled);
            !m.es.charging && LastReason(m) == Some(NoLoad) ==> m.idle.fromSession
  {
    hide Close, ShouldEnd, LastReason;
    forall p: Port, r | p.es.charging
      ensures var c := Close(p, x.t, r); LastReason(c) == Some(r) && (r == NoLoad ==> c.idle.fromSession)
    {
      CloseIdleBook(p, x.t, r);
    }
  }

  /** A session that ends for want of load, other than in bulk, leaves its mark. */
  lemma NoLoadEndMarks(s: Port, h: Happening)
    requires Ends(s, h) && !IsBulkClose(h) && LastReason(Happen(s, h)) == Some(NoLoad)
    ensures Happen(s, h).idle.fromSession
  {
    match h {
      case On(e) => if e.Push? { PushMarks(s, e); } else { OtherMarks(s, e); }
      case TimerReading(x, active, enabled, room) =>
        hide ManageCharging, Feed, Integrate, EnforceLimit, Sessions;
        ManageNoLoadEnd(s.(det := Feed(s.det, x.t, x.v, x.i)), x, active, enabled);
        var m := Manage(s, x, active, enabled);
        IntegrateKeepsCharging(m.es, x);
        EnforcersKeepDetector(m.(es := Integrate(m.es, x)), x.t, room);
    }
  }

  lemma PushMarks(s: Port, e: Event)
    requires e.Push? && Ends(s, On(e)) && LastReason(Step(s, e)) == Some(NoLoad)
    ensures Step(s, e).idle.fromSession
  {
    hide ManageCharging, Feed, Integrate, EnforceLimit, EnforceFullOff, Sessions;
    IntegrateKeepsCharging(s.es, e.x);
    var f := s.(es := Integrate(s.es, e.x), det := Feed(s.det, e.x.t, e.x.v, e.x.i));
    var m := Managed(s, e);
    assert m == ManageCharging(f, e.x, e.active, e.enabled);
    PushIsManaged(s, e);
    ManageNoLoadEnd(f, e.x, e.active, e.enabled);
    EnforcersKeepBook(m, e.x.t, e.room);
    EnforcersKeepBook(EnforceLimit(m, e.x.t, e.room), e.x.t, e.active);
  }

  lemma OtherMarks(s: Port, e: Event)
    requires !e.Push? && Ends(s, On(e)) && !e.BulkClose? && LastReason(Step(s, e)) == Some(NoLoad)
    ensures Step(s, e).idle.fromSession
  {
    hide Close, EnforceFullOff, LastReason;
    match e {
      case CommandClose(at, reason) => CloseIdleBook(s, at, reason);
      case Confirm(at, portActive) => EnforcersKeepDetector(s, at, portActive);
      case _ =>
    }
  }

  /** The mark stays as long as the port is idle and carries at most 2 W. */
  lemma MarkStays(s: Port, h: Happening)
    requires s.idle.fromSession && IdleThrough(s, h, Happen(s, h))
    ensures Happen(s, h).idle.fromSession
  {
    match h {
      case On(e) => if e.Push? { PushKeepsMark(s, e); } else { OtherKeepsMark(s, e); }
      case TimerReading(x, active, enabled, room) =>
        hide Manage, Integrate, EnforceLimit;
        ManageKeepsMark(s, x, active, enabled);
        var m := Manage(s, x, active, enabled);
        IntegrateKeepsCharging(m.es, x);
        EnforcersKeepDetector(m.(es := Integrate(m.es, x)), x.t, room);
    }
  }

  lemma ManageKeepsMark(s: Port, x: Sample, active: bool, enabled: bool)
    requires !s.es.charging && s.idle.fromSession && x.Power() <= 2.0
    ensures var m := Manage(s, x, active, enabled); m.es.charging || m.idle.fromSession
  {
    hide WatchIdle, Open, Feed, PFast, BufferPre, ShouldStart;
    var g := s.(det := Feed(s.det, x.t, x.v, x.i), pre := BufferPre(s.pre, x));
    WatchKeepsMark(g, x);
    var w := WatchIdle(g, x);
    OpenKeepsGate(w.(gate := ShouldStart(w.gate, x.t, PFast(w.det), x.v).0), x);
  }

  lemma WatchKeepsMark(s: Port, x: Sample)
    requires s.idle.fromSession && x.Power() <= 2.0
    ensures WatchIdle(s, x).idle.fromSession && WatchIdle(s, x).es == s.es
  {}

  lemma PushKeepsMark(s: Port, e: Event)
    requires e.Push? && s.idle.fromSession && IdleThrough(s, On(e), Step(s, e))
    ensures Step(s, e).idle.fromSession
  {
    hide Manage, Integrate, EnforceLimit, EnforceFullOff, Sessions;
    IntegrateKeepsCharging(s.es, e.x);
    ManageKeepsMark(s.(es := Integrate(s.es, e.x)), e.x, e.active, e.enabled);
    PushIsManaged(s, e);
    var m := Managed(s, e);
    EnforcersKeepBook(m, e.x.t, e.room);
    EnforcersKeepBook(EnforceLimit(m, e.x.t, e.room), e.x.t, e.active);
  }

  lemma OtherKeepsMark(s: Port, e: Event)
    requires !e.Push? && !s.es.charging && s.idle.fromSession
    ensures Step(s, e).idle.fromSession
  {
    hide Close, CloseActive, EnforceFullOff, Sessions;
    match e {
      case CommandClose(at, reason) => CloseIdle(s, at, reason);
      case BulkClose(at, reason) => BulkCloseRecords(s, at, reason);
      case Confirm(at, portActive) => EnforcersKeepBook(s, at, portActive);
      case _ =>
    }
  }

  lemma {:induction false} MarkedSince(hs: seq<Happening>, c: nat, n: nat)
    requires IdleSinceNoLoad(hs, c) && !IsBulkClose(hs[c]) && c < n <= |hs|
    ensures History(INITIAL, hs[..n]).idle.fromSession
  {
    hide History, Happen, LastReason, IsBulkClose;
    HistoryTo(hs, n - 1);
    if n == c + 1 {
      NoLoadEndMarks(History(INITIAL, hs[..c]), hs[c]);
    } else {
      MarkedSince(hs, c, n - 1);
      assert IdleThrough(History(INITIAL, hs[..n - 1]), hs[n - 1], History(INITIAL, hs[..n]));
      MarkStays(History(INITIAL, hs[..n - 1]), hs[n - 1]);
    }
  }

  /** A session of the port has ended for want of load, other than in bulk, and since then the port has
      been idle at 2 W or less. */
  ghost predicate LeftWithoutLoad(hs: seq<Happening>) {
    exists c :: IdleSinceNoLoad(hs, c) && !IsBulkClose(hs[c])
  }

  lemma {:induction false} LeftIsMarked(hs: seq<Happening>)
    requires LeftWithoutLoad(hs)
    ensures Window(History(INITIAL, hs)) == 120.0
  {
    hide History, LastReason;
    var c :| IdleSinceNoLoad(hs, c) && !IsBulkClose(hs[c]);
    MarkedSince(hs, c, |hs|);
    assert hs[..|hs|] == hs;
  }

  /**
   * A port that carries next to nothing is armed.  Let the automatic power-off be on and not under way on
   * an idle port that has not been armed since it last carried anything, and let every reading from the
   * next one on show at most 2 W at live voltage, with the power-off's settings untouched.  Then at the
   * latest with the first reading 600 s after that one, or 120 s if the port was left idle by a session
   * that ended for want of load, the power-off has been armed, or a session opened.
   */
  lemma {:induction false} QuietPortIsArmed(hs: seq<Happening>, tail: seq<Happening>, n: nat)
    requires n < |tail| && Reads(tail[0]) && Reads(tail[n]) && TimesOrdered(hs + tail)
    requires Watching(History(INITIAL, hs)) && forall k :: 0 <= k < |tail| ==> Undisturbed(tail[k])
    requires Taken(tail[n]).t - Taken(tail[0]).t >= if LeftWithoutLoad(hs) then 120.0 else 600.0
    ensures WatchEnded(hs, tail, n + 1)
  {
    hide History, Watching, Undisturbed, TimesOrdered, WatchEnded, LeftWithoutLoad;
    if LeftWithoutLoad(hs) { LeftIsMarked(hs); }
    WatchRun(hs, tail, n + 1);
  }

  // ----- and once -----

  /** Idle and already armed in this idle stretch. */
  predicate UsedUp(s: Port) {
    !s.es.charging && s.idle.armed
  }

  lemma WatchUsedUp(s: Port, x: Sample)
    requires UsedUp(s) && x.Power() <= 2.0
    ensures WatchIdle(s, x) == s
  {}

  lemma ManageUsedUp(s: Port, x: Sample, active: bool, enabled: bool)
    requires UsedUp(s) && x.Power() <= 2.0
    ensures var m := Manage(s, x, active, enabled);
            !m.es.charging ==> UsedUp(m) && m.log == s.log
  {
    hide WatchIdle, Open, Feed, PFast, BufferPre, ShouldStart;
    var g := s.(det := Feed(s.det, x.t, x.v, x.i), pre := BufferPre(s.pre, x));
    WatchUsedUp(g, x);
    OpenKeepsGate(g.(gate := ShouldStart(g.gate, x.t, PFast(g.det), x.v).0), x);
  }

  lemma NothingNew(s: Port, r: Port)
    requires |r.log| >= |s.log| && forall k :: |s.log| <= k < |r.log| ==> !r.log[k].FullArmed?
    ensures !HasArmed(s, r)
  {}

  /** A port armed in this idle stretch stays so, and is not armed again, until it carries something. */
  lemma StaysUsedUp(s: Port, h: Happening)
    requires UsedUp(s) && IdleThrough(s, h, Happen(s, h))
    ensures UsedUp(Happen(s, h)) && !HasArmed(s, Happen(s, h))
  {
    match h {
      case On(e) => if e.Push? { PushUsedUp(s, e); } else { OtherUsedUp(s, e); }
      case TimerReading(x, active, enabled, room) =>
        hide Manage, Integrate, EnforceLimit;
        ManageUsedUp(s, x, active, enabled);
        var m := Manage(s, x, active, enabled);
        IntegrateKeepsCharging(m.es, x);
        EnforcersKeepDetector(m.(es := Integrate(m.es, x)), x.t, room);
    }
  }

  lemma PushUsedUp(s: Port, e: Event)
    requires e.Push? && UsedUp(s) && IdleThrough(s, On(e), Step(s, e))
    ensures UsedUp(Step(s, e)) && !HasArmed(s, Step(s, e))
  {
    hide Manage, Integrate, EnforceLimit, EnforceFullOff, Sessions;
    IntegrateKeepsCharging(s.es, e.x);
    ManageUsedUp(s.(es := Integrate(s.es, e.x)), e.x, e.active, e.enabled);
    PushIsManaged(s, e);
    var m := Managed(s, e);
    EnforcersAppend(m, e.x.t, e.room, e.active);
    EnforcersKeepBook(m, e.x.t, e.room);
    EnforcersKeepBook(EnforceLimit(m, e.x.t, e.room), e.x.t, e.active);
    NothingNew(s, Step(s, e));
  }

  lemma OtherUsedUp(s: Port, e: Event)
    requires !e.Push? && UsedUp(s)
    ensures UsedUp(Step(s, e)) && !HasArmed(s, Step(s, e))
  {
    hide Close, CloseActive, EnforceFullOff;
    match e {
      case CommandClose(at, reason) => CloseIdle(s, at, reason);
      case BulkClose(at, reason) => BulkCloseRecords(s, at, reason);
      case Confirm(at, portActive) =>
        EnforcersKeepBook(s, at, portActive);
        EnforcersKeepDetector(s, at, portActive);
        EnforcersArmNothing(s, at, portActive);
      case _ =>
    }
  }

  /** Arming an idle port that stays idle uses this idle stretch up. */
  lemma ArmingUsesUp(s: Port, h: Happening)
    requires !s.es.charging && !Happen(s, h).es.charging && HasArmed(s, Happen(s, h))
    ensures UsedUp(Happen(s, h))
  {
    match h {
      case On(e) => if e.Push? { PushUsesUp(s, e); } else { OtherArmsNothing(s, e); }
      case TimerReading(x, active, enabled, room) =>
        hide Manage, Integrate, EnforceLimit;
        ManageUsesUp(s, x, active, enabled);
        var m := Manage(s, x, active, enabled);
        IntegrateKeepsCharging(m.es, x);
        EnforcersKeepDetector(m.(es := Integrate(m.es, x)), x.t, room);
    }
  }

  lemma ManageUsesUp(s: Port, x: Sample, active: bool, enabled: bool)
    requires !s.es.charging
    ensures var m := Manage(s, x, active, enabled);
            !m.es.charging ==> m.log == s.log || (UsedUp(m) && |m.log| >= |s.log|)
  {
    hide WatchIdle, Open, Feed, PFast, BufferPre, ShouldStart;
    var g := s.(det := Feed(s.det, x.t, x.v, x.i), pre := BufferPre(s.pre, x));
    WatchUsesUp(g, x);
    var w := WatchIdle(g, x);
    OpenKeepsGate(w.(gate := ShouldStart(w.gate, x.t, PFast(w.det), x.v).0), x);
  }

  lemma WatchUsesUp(s: Port, x: Sample)
    requires !s.es.charging
    ensures var w := WatchIdle(s, x); w.log == s.log || (UsedUp(w) && |w.log| >= |s.log|)
    ensures !WatchIdle(s, x).es.charging
  {}

  lemma PushUsesUp(s: Port, e: Event)
    requires e.Push? && !s.es.charging && !Step(s, e).es.charging && HasArmed(s, Step(s, e))
    ensures UsedUp(Step(s, e))
  {
    hide Manage, Integrate, EnforceLimit, EnforceFullOff, Sessions, HasArmed;
    IntegrateKeepsCharging(s.es, e.x);
    ManageUsesUp(s.(es := Integrate(s.es, e.x)), e.x, e.active, e.enabled);
    PushIsManaged(s, e);
    var m := Managed(s, e);
    EnforcersAppend(m, e.x.t, e.room, e.active);
    EnforcersKeepBook(m, e.x.t, e.room);
    EnforcersKeepBook(EnforceLimit(m, e.x.t, e.room), e.x.t, e.active);
    if m.log == s.log { NothingNew(s, Step(s, e)); }
  }

  lemma OtherArmsNothing(s: Port, e: Event)
    requires !e.Push? && !s.es.charging
    ensures !HasArmed(s, Step(s, e))
  {
    hide Close, CloseActive, EnforceFullOff;
    match e {
      case CommandClose(at, reason) => CloseIdle(s, at, reason);
      case BulkClose(at, reason) => BulkCloseRecords(s, at, reason);
      case Confirm(at, portActive) => EnforcersArmNothing(s, at, portActive);
      case _ =>
    }
  }

  /** Happening k arms the power-off of a port that is idle before it. */
  ghost predicate ArmsIdle(hs: seq<Happening>, k: int) {
    && 0 <= k < |hs| && !History(INITIAL, hs[..k]).es.charging
    && HasArmed(History(INITIAL, hs[..k]), History(INITIAL, hs[..k + 1]))
  }

  ghost predicate IdleFrom(hs: seq<Happening>, c: int, d: int) {
    && 0 <= c < d <= |hs|
    && forall k {:trigger hs[k]} :: c < k < d ==>
         IdleThrough(History(INITIAL, hs[..k]), hs[k], History(INITIAL, hs[..k + 1]))
  }

  lemma {:induction false} HistoryTo(hs: seq<Happening>, k: nat)
    requires k < |hs|
    ensures History(INITIAL, hs[..k + 1]) == Happen(History(INITIAL, hs[..k]), hs[k])
  {
    hide Happen;
    assert hs[..k + 1] == hs[..k] + [hs[k]];
    HistoryNext(hs[..k], hs[k]);
  }

  lemma {:induction false} UsedUpSince(hs: seq<Happening>, c: nat, d: nat)
    requires ArmsIdle(hs, c) && IdleFrom(hs, c, d) && !History(INITIAL, hs[..c + 1]).es.charging
    ensures UsedUp(History(INITIAL, hs[..d]))
    decreases d
  {
    hide History, Happen, HasArmed, UsedUp;
    HistoryTo(hs, d - 1);
    if d == c + 1 {
      ArmingUsesUp(History(INITIAL, hs[..c]), hs[c]);
    } else {
      UsedUpSince(hs, c, d - 1);
      assert IdleThrough(History(INITIAL, hs[..d - 1]), hs[d - 1], History(INITIAL, hs[..d]));
      StaysUsedUp(History(INITIAL, hs[..d - 1]), hs[d - 1]);
    }
  }

  /** An idle port is armed once: between two armings it carries more than 2 W or has a session open. */
  lemma {:induction false} ArmedOncePerIdleStretch(hs: seq<Happening>, c: nat, d: nat)
    requires c < d < |hs| && ArmsIdle(hs, c) && ArmsIdle(hs, d)
    ensures exists k :: c < k <= d && !IdleThrough(History(INITIAL, hs[..k]), hs[k], History(INITIAL, hs[..k + 1]))
  {
    hide History, Happen, HasArmed, UsedUp;
    if forall k :: c < k <= d ==> IdleThrough(History(INITIAL, hs[..k]), hs[k], History(INITIAL, hs[..k + 1])) {
      assert IdleThrough(History(INITIAL, hs[..c + 1]), hs[c + 1], History(INITIAL, hs[..c + 2]));
      UsedUpSince(hs, c, d);
      HistoryTo(hs, d);
      StaysUsedUp(History(INITIAL, hs[..d]), hs[d]);
      assert false;
    }
  }
}
