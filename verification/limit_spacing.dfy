/** How often a charge limit may queue its command within one session. */
module LimitSpacing {
  import opened Common
  import Medians
  import Detection
  import StartGate
  import opened Energy
  import opened PortSession
  import opened EnergyAccounting
  import opened Hysteresis
  import opened PowerOff

  predicate Queued(e: Entry) {
    e.LimitOff? && e.ok
  }

  predicate DeclaresPermanent(e: Entry) {
    e.Configured? && e.permanent && e.declared
  }

  /** Between entries i and j the port was declared permanent. */
  ghost predicate DeclaredBetween(l: seq<Entry>, i: int, j: int) {
    exists k :: 0 <= i < k < j <= |l| && DeclaresPermanent(l[k])
  }

  /** Two queued commands of a session are 15 s apart, unless the port was declared permanent between. */
  ghost predicate Spaced(l: seq<Entry>) {
    forall i, j :: 0 <= i < j < |l| && Queued(l[i]) && Queued(l[j]) && !DeclaredBetween(l, i, j) ==>
      l[j].at - l[i].at >= 15.0
  }

  /** Every queued command not followed by such a declaration is still waited for, or 15 s before t. */
  ghost predicate Waited(l: seq<Entry>, limit: Limit, t: Option<real>) {
    forall i :: 0 <= i < |l| && Queued(l[i]) && !DeclaredBetween(l, i, |l|) ==>
      || (limit.fired && limit.firedAt >= l[i].at)
      || (t.Some? && t.value >= l[i].at + 15.0)
  }

  ghost predicate Watched(s: Port) {
    && Spaced(SinceOpen(s.log))
    && (s.es.charging ==> Waited(SinceOpen(s.log), s.limit, s.es.lastTime))
  }

  lemma DeclaredBefore(l: seq<Entry>, e: Entry, i: int, j: int)
    requires j <= |l|
    ensures DeclaredBetween(l + [e], i, j) <==> DeclaredBetween(l, i, j)
  {
    var m := l + [e];
    if DeclaredBetween(m, i, j) {
      var k :| 0 <= i < k < j <= |m| && DeclaresPermanent(m[k]);
      assert DeclaresPermanent(l[k]);
    }
    if DeclaredBetween(l, i, j) {
      var k :| 0 <= i < k < j <= |l| && DeclaresPermanent(l[k]);
      assert DeclaresPermanent(m[k]);
    }
  }

  lemma DeclaredSince(l: seq<Entry>, e: Entry, i: int)
    requires 0 <= i < |l|
    ensures DeclaredBetween(l + [e], i, |l| + 1) <==> DeclaredBetween(l, i, |l|) || DeclaresPermanent(e)
  {
    var m := l + [e];
    assert m[|l|] == e;
    if DeclaredBetween(m, i, |l| + 1) {
      var k :| 0 <= i < k < |l| + 1 <= |m| && DeclaresPermanent(m[k]);
      assert k < |l| ==> DeclaresPermanent(l[k]);
    }
    if DeclaredBetween(l, i, |l|) {
      var k :| 0 <= i < k < |l| <= |l| && DeclaresPermanent(l[k]);
      assert DeclaresPermanent(m[k]);
    }
  }

  lemma DeclaredGrows(l: seq<Entry>, e: Entry)
    ensures forall i, j :: j <= |l| ==> (DeclaredBetween(l + [e], i, j) <==> DeclaredBetween(l, i, j))
    ensures forall i :: 0 <= i < |l| ==>
              (DeclaredBetween(l + [e], i, |l + [e]|) <==> DeclaredBetween(l, i, |l|) || DeclaresPermanent(e))
  {
    hide DeclaredBetween, DeclaresPermanent;
    forall i, j | j <= |l| ensures DeclaredBetween(l + [e], i, j) <==> DeclaredBetween(l, i, j) {
      DeclaredBefore(l, e, i, j);
    }
    forall i | 0 <= i < |l|
      ensures DeclaredBetween(l + [e], i, |l + [e]|) <==> DeclaredBetween(l, i, |l|) || DeclaresPermanent(e)
    {
      DeclaredSince(l, e, i);
    }
  }

  /** An entry that is no queued command changes nothing, for the limit as it was. */
  lemma OtherEntry(l: seq<Entry>, e: Entry, limit: Limit, t: Option<real>)
    requires !Queued(e)
    ensures Spaced(l) ==> Spaced(l + [e])
    ensures Waited(l, limit, t) ==> Waited(l + [e], limit, t)
  {
    hide DeclaredBetween, Queued, DeclaresPermanent;
    DeclaredGrows(l, e);
    var m := l + [e];
    assert forall i :: 0 <= i < |l| ==> m[i] == l[i];
    assert m[|l|] == e;
  }

  /** After a declaration nothing counts any more. */
  lemma DeclarationForgets(l: seq<Entry>, e: Entry, limit: Limit, t: Option<real>)
    requires DeclaresPermanent(e)
    ensures Waited(l + [e], limit, t)
  {
    var m := l + [e];
    assert m[|l|] == e;
    forall i | 0 <= i < |m| && Queued(m[i]) ensures DeclaredBetween(m, i, |m|) {
      assert DeclaresPermanent(m[|l|]);
    }
  }

  /** A queued command comes at least 15 s after those still counting. */
  lemma QueuedEntry(l: seq<Entry>, e: Entry, limit: Limit, t: real)
    requires Queued(e) && e.at == t && Spaced(l) && Waited(l, limit, Some(t))
    requires limit.fired ==> t - limit.firedAt >= 15.0
    ensures Spaced(l + [e])
  {
    hide DeclaredBetween, Queued;
    DeclaredGrows(l, e);
    var m := l + [e];
    assert forall i :: 0 <= i < |l| ==> m[i] == l[i];
  }

  /** Firing at t, queued or not, keeps every command accounted for. */
  lemma FiredEntry(l: seq<Entry>, e: Entry, limit: Limit, t: real)
    requires e.LimitOff? && e.at == t && Spaced(l) && Waited(l, limit, Some(t))
    requires limit.fired ==> t - limit.firedAt >= 15.0
    ensures Spaced(l + [e]) && Waited(l + [e], limit.(fired := e.ok, firedAt := t), Some(t))
  {
    if e.ok { QueuedEntry(l, e, limit, t); } else { OtherEntry(l, e, limit, Some(t)); }
    hide DeclaredBetween;
    DeclaredGrows(l, e);
    var m := l + [e];
    assert forall i :: 0 <= i < |l| ==> m[i] == l[i];
    assert m[|l|] == e;
  }

  /** Later on, what was waited for is still accounted for. */
  lemma WaitedLater(l: seq<Entry>, limit: Limit, t: Option<real>, u: real)
    requires Waited(l, limit, t) && (t.Some? ==> t.value <= u)
    ensures Waited(l, limit, Some(u))
  {
    hide DeclaredBetween, Queued;
  }

  lemma EnforceLimitSpaced(s: Port, t: real, room: bool)
    requires Watched(s) && (s.es.charging ==> s.es.lastTime == Some(t))
    ensures Watched(EnforceLimit(s, t, room))
  {
    hide SinceOpen, Spaced, Waited;
    if EnforceLimit(s, t, room) != s {
      var e := LimitOff(t, s.es.session, s.limit.wh, room);
      SinceOpenGrows(s.log, e);
      FiredEntry(SinceOpen(s.log), e, s.limit, t);
    }
  }

  lemma EnforceFullOffSpaced(s: Port, t: real, portActive: bool)
    requires Watched(s)
    ensures Watched(EnforceFullOff(s, t, portActive))
  {
    hide SinceOpen, Spaced, Waited;
    var f := EnforceFullOff(s, t, portActive);
    if f.log != s.log {
      SinceOpenGrows(s.log, FullRetry(t));
      OtherEntry(SinceOpen(s.log), FullRetry(t), s.limit, s.es.lastTime);
    }
  }

  /** Entries that are neither an opening nor a queued command keep the spacing. */
  ghost predicate Harmless(before: seq<Entry>, after: seq<Entry>) {
    Spaced(SinceOpen(before)) ==> Spaced(SinceOpen(after))
  }

  lemma HarmlessEntry(log: seq<Entry>, e: Entry)
    requires !Queued(e)
    ensures Harmless(log, log + [e])
  {
    hide SinceOpen, Spaced;
    SinceOpenGrows(log, e);
    OtherEntry(SinceOpen(log), e, Limit(0.0, Once, false, 0.0), None);
    NothingSpaced();
  }

  lemma NothingSpaced()
    ensures Spaced([])
  {}

  lemma CloseSpaced(s: Port, t: real, r: Reason)
    ensures Harmless(s.log, Close(s, t, r).log) && !Close(s, t, r).es.charging
  {
    hide Harmless;
    var e := Closed(r, s.es.session, s.es.start, s.es.lastTime, t);
    HarmlessEntry(s.log, e);
    HarmlessEntry(s.log + [e], FullArmed(t));
    HarmlessTwice(s.log, s.log + [e], s.log + [e] + [FullArmed(t)]);
    NothingChanged(s.log);
  }

  lemma NothingChanged(log: seq<Entry>)
    ensures Harmless(log, log)
  {}

  lemma HarmlessTwice(a: seq<Entry>, b: seq<Entry>, c: seq<Entry>)
    requires Harmless(a, b) && Harmless(b, c)
    ensures Harmless(a, c)
  {
    hide Spaced, SinceOpen;
  }

  lemma ManageChargingSpaced(s: Port, x: Sample, active: bool, enabled: bool)
    requires s.es.charging
    ensures Harmless(s.log, ManageCharging(s, x, active, enabled).log)
  {
    hide Close, Detection.ShouldEnd, Harmless;
    NothingChanged(s.log);
    forall p: Port, r ensures Harmless(p.log, Close(p, x.t, r).log) { CloseSpaced(p, x.t, r); }
  }

  lemma ManageIdleSpaced(s: Port, x: Sample, active: bool, enabled: bool)
    requires !s.es.charging
    ensures Harmless(s.log, ManageIdle(s, x, active, enabled).log)
  {
    hide WatchIdle, Open, Detection.PFast, StartGate.ShouldStart, Harmless;
    WatchSpaced(s, x);
    var w := WatchIdle(s, x);
    var g := w.(gate := StartGate.ShouldStart(w.gate, x.t, Detection.PFast(w.det), x.v).0);
    OpenSpaced(g, x);
    HarmlessTwice(s.log, w.log, Open(g, x).log);
  }

  lemma WatchSpaced(s: Port, x: Sample)
    ensures Harmless(s.log, WatchIdle(s, x).log)
  {
    hide Harmless;
    NothingChanged(s.log);
    HarmlessEntry(s.log, FullArmed(x.t));
  }

  lemma OpenSpaced(s: Port, x: Sample)
    ensures Harmless(s.log, Open(s, x).log)
  {
    hide Harmless, TakePre, OpenEnergy, Detection.FeedAll;
    var p := TakePre(s.pre, OrElse(s.gate.lastRunStart, x.t), x.t);
    HarmlessEntry(s.log, Opened(if p == [] then x.t else p[0].t, x.t));
  }

  lemma NothingWaited(limit: Limit, t: Option<real>)
    ensures Waited([], limit, t)
  {}

  /** The management of a reading leaves the port ready for the limit's enforcement. */
  lemma ManagedSpaced(s: Port, e: Event)
    requires e.Push? && Watched(s)
    requires s.es.lastTime.Some? ==> s.es.lastTime.value <= e.x.t
    ensures var m := Managed(s, e); Watched(m) && (m.es.charging ==> m.es.lastTime == Some(e.x.t))
  {
    hide ManageCharging, ManageIdle, Integrate, Detection.Feed, BufferPre, SinceOpen, Spaced, Waited;
    var x := e.x;
    IntegrateKeepsCharging(s.es, x);
    IntegrateMoves(s.es, x);
    var f := s.(es := Integrate(s.es, x), det := Detection.Feed(s.det, x.t, x.v, x.i));
    if s.es.charging {
      ManageChargingLimit(f, x, e.active, e.enabled);
      ManageChargingSpaced(f, x, e.active, e.enabled);
      WaitedLater(SinceOpen(s.log), s.limit, s.es.lastTime, x.t);
    } else {
      var g := f.(pre := BufferPre(s.pre, x));
      ManageIdleLimit(g, x, e.active, e.enabled);
      ManageIdleSpaced(g, x, e.active, e.enabled);
      NothingWaited(ManageIdle(g, x, e.active, e.enabled).limit, Some(x.t));
    }
  }

  lemma SettingsSpaced(s: Port, r: Port, e: Entry)
    requires Watched(s) && e.Configured? && r.log == s.log + [e] && r.es == s.es
    requires !DeclaresPermanent(e) ==> r.limit.fired == s.limit.fired && r.limit.firedAt == s.limit.firedAt
    ensures Watched(r)
  {
    hide SinceOpen, Spaced;
    SinceOpenGrows(s.log, e);
    OtherEntry(SinceOpen(s.log), e, s.limit, s.es.lastTime);
    if DeclaresPermanent(e) { DeclarationForgets(SinceOpen(s.log), e, r.limit, s.es.lastTime); }
  }

  lemma StepSpaced(s: Port, e: Event)
    requires Watched(s)
    requires e.Push? && s.es.lastTime.Some? ==> s.es.lastTime.value <= e.x.t
    ensures Watched(Step(s, e))
  {
    hide SinceOpen, EnforceFullOff, EnforceLimit, Close, Manage, Integrate, Spaced, Waited;
    match e {
      case Push(x, active, enabled, room) =>
        ManagedSpaced(s, e);
        EnforceLimitSpaced(Managed(s, e), x.t, room);
        EnforceFullOffSpaced(EnforceLimit(Managed(s, e), x.t, room), x.t, active);
      case CommandClose(at, reason) => CloseSpaced(s, at, reason);
      case BulkClose(at, reason) =>
        if s.es.charging {
          HarmlessEntry(s.log, Closed(reason, s.es.session, s.es.start, s.es.lastTime, at));
        }
      case Confirm(at, portActive) => EnforceFullOffSpaced(s, at, portActive);
      case ReadsEmpty =>
      case ChangeLimit(_, _) => SettingsSpaced(s, Step(s, e), Configured(s.permanent, false));
      case ChangePermanent(on) => SettingsSpaced(s, Step(s, e), Configured(on, true));
      case ChangeFullOff(_) => SettingsSpaced(s, Step(s, e), Configured(s.permanent, false));
    }
  }

  lemma InitialSpaced()
    ensures Watched(INITIAL)
  {}

  lemma {:induction false} RunIsSpaced(es: seq<Event>)
    requires Increasing(Readings(es))
    ensures Watched(Run(INITIAL, es))
  {
    hide Step, Increasing, Readings, Watched;
    if es == [] {
      InitialSpaced();
    } else {
      var init, e := es[..|es| - 1], es[|es| - 1];
      assert es == init + [e];
      ReadingsStep(init, e);
      var xs := Readings(init);
      if e.Push? {
        assert (xs + [e.x])[..|xs|] == xs;
        BeforeLast(xs + [e.x]);
      }
      RunIsSpaced(init);
      RunIsAccounted(init);
      TimeMovesOn(Run(INITIAL, init), xs, e);
      StepSpaced(Run(INITIAL, init), e);
    }
  }

  /**
   * On every run, two commands really queued for the limit within one session are at least 15 s
   * apart, whatever settings change meanwhile, unless the port was declared permanent in between.
   */
  lemma {:induction false} LimitCommandsAreSpaced(es: seq<Event>)
    requires Increasing(Readings(es))
    ensures Spaced(SinceOpen(Run(INITIAL, es).log))
  {
    hide Spaced, SinceOpen, Run;
    RunIsSpaced(es);
  }

  /** The exception is real: declaring a port permanent and back forgets the command in flight, and a
      limit set again that is reached already fires at once, however recent that command is. */
  lemma PermanentAndBackRearms(s: Port, wh: real, mode: Mode, t: real)
    requires s.es.charging && wh > 0.0 && s.es.session >= wh
    ensures var r := SetLimit(SetPermanent(SetPermanent(s, true), false), wh, mode);
            EnforceLimit(r, t, true).log == r.log + [LimitOff(t, s.es.session, wh, true)]
  {
    var p := SetPermanent(SetPermanent(s, true), false);
    assert !p.limit.fired && p.es == s.es && !p.permanent;
    assert Max(0.0, wh) == wh;
  }

  // ----- a run in which it fires twice -----

  /** 5 W from time 1 on, a limit of 0.01 Wh; the port is declared permanent and back right after the
      session has opened and fired, and the limit set again. */
  function TwiceRun(): seq<Event> {
    [ChangeLimit(0.01, Always), Reading(1.0), Reading(31.0),
     ChangePermanent(true), ChangePermanent(false), ChangeLimit(0.01, Always), Reading(32.0)]
  }

  function Reading(t: real): Event {
    Push(Sample(t, 5.0, 1.0), true, true, true)
  }

  lemma MedianOfOne(p: real)
    ensures Medians.Median([p]) == p
  {
    assert Medians.Sort([p]) == [p];
  }

  /** After the first reading: idle, the gate's clock running since time 1. */
  ghost predicate Waiting(s: Port) {
    && !s.es.charging && s.es.lastTime == Some(1.0) && s.es.lastPower == 5.0
    && s.det.samples == [Detection.Pt(1.0, 5.0)] && s.pre == [Sample(1.0, 5.0, 1.0)]
    && s.gate == StartGate.CLOSED_GATE.(aboveSince := Some(1.0))
    && s.limit.wh == 0.01 && !s.limit.fired && !s.permanent && s.full.pending == 0.0 && s.full.mode.None?
  }

  lemma FirstReading()
    ensures Waiting(Step(Step(INITIAL, ChangeLimit(0.01, Always)), Reading(1.0)))
  {
    var s := Step(INITIAL, ChangeLimit(0.01, Always));
    var x := Sample(1.0, 5.0, 1.0);
    assert Max(0.0, 0.01) == 0.01;
    var f := Detection.Feed(s.det, x.t, x.v, x.i);
    assert [] + [Detection.Pt(1.0, 5.0)] == [Detection.Pt(1.0, 5.0)];
    assert f.samples == [Detection.Pt(1.0, 5.0)];
    assert Detection.Since(f.samples, 1.0 - 20.0) == [5.0] by { assert f.samples[1..] == []; }
    MedianOfOne(5.0);
    assert Detection.PFast(f) == 5.0;
    assert BufferPre([], x) == [x];
  }

  /** After the second: a session is open, worth 1/24 Wh, and its command has been queued. */
  ghost predicate Fired(s: Port) {
    && s.es.charging && s.es.session == 1.0 / 24.0 && s.es.lastTime == Some(31.0) && s.es.lastPower == 5.0
    && SinceOpen(s.log) == [LimitOff(31.0, 1.0 / 24.0, 0.01, true)]
    && s.full.pending == 0.0
  }

  lemma SecondReading(s: Port)
    requires Waiting(s)
    ensures Fired(Step(s, Reading(31.0)))
  {
    var x, first := Sample(31.0, 5.0, 1.0), Sample(1.0, 5.0, 1.0);
    var e := Integrate(s.es, x);
    var f := Detection.Feed(s.det, x.t, x.v, x.i);
    SecondMedian(s);
    var b := BufferPre(s.pre, x);
    assert b == [first, x] by { assert s.pre + [x] == [first, x]; }
    var pre := TakePre(b, 1.0, 31.0);
    TakenFirst(b);
    OpenEnergyIsBackfill(e, pre, x);
    assert TrapezoidSum(pre + [x]) == 1.0 / 24.0 by { TwoReadings(first, x); }
    hide Detection.Feed, BufferPre, TakePre, OpenEnergy, Detection.FeedAll, SinceOpen, TrapezoidSum;
    var m := Managed(s, Reading(31.0));
    var g := s.(es := e, det := f, pre := b);
    assert WatchIdle(g, x) == g.(idle := NOT_IDLE);
    var o := g.(idle := NOT_IDLE, gate := StartGate.ShouldStart(g.gate, 31.0, 5.0, 5.0).0);
    assert o.gate.lastRunStart == Some(1.0);
    assert m == Open(o, x);
    SinceOpenGrows(o.log, m.log[|o.log|]);
    SinceOpenGrows(m.log, LimitOff(31.0, 1.0 / 24.0, 0.01, true));
    assert m.es.session == 1.0 / 24.0 && m.limit.wh == 0.01 && !m.permanent && !m.limit.fired;
  }

  lemma SecondMedian(s: Port)
    requires Waiting(s)
    ensures Detection.PFast(Detection.Feed(s.det, 31.0, 5.0, 1.0)) == 5.0
  {
    var a, b := Detection.Pt(1.0, 5.0), Detection.Pt(31.0, 5.0);
    var f := Detection.Feed(s.det, 31.0, 5.0, 1.0);
    assert s.det.samples + [b] == [a, b];
    assert f.samples == [a, b] && [a, b][1..] == [b] && [b][1..] == [];
    assert Detection.Since([b], 11.0) == [5.0] + Detection.Since([], 11.0);
    assert Detection.Since([a, b], 11.0) == [] + Detection.Since([b], 11.0);
    MedianOfOne(5.0);
  }

  lemma {:induction false} TakenFirst(b: seq<Sample>)
    requires b == [Sample(1.0, 5.0, 1.0), Sample(31.0, 5.0, 1.0)]
    ensures TakePre(b, 1.0, 31.0) == [Sample(1.0, 5.0, 1.0)]
  {
    assert b[..1] == [Sample(1.0, 5.0, 1.0)] && b[..1][..0] == [];
    assert TakePre(b[..1], 1.0, 31.0) == TakePre([], 1.0, 31.0) + [Sample(1.0, 5.0, 1.0)];
  }

  lemma TwoReadings(a: Sample, b: Sample)
    requires a == Sample(1.0, 5.0, 1.0) && b == Sample(31.0, 5.0, 1.0)
    ensures TrapezoidSum([a] + [b]) == 1.0 / 24.0
  {
    assert [a] + [b] == [a, b] && [a, b][..1] == [a];
    assert TrapezoidSum([a]) == 0.0;
  }

  /** Permanent and back, and the limit set again: the command in flight is forgotten. */
  ghost predicate Rearmed(s: Port) {
    && s.es.charging && s.es.session == 1.0 / 24.0 && s.es.lastTime == Some(31.0) && s.es.lastPower == 5.0
    && |SinceOpen(s.log)| == 4 && SinceOpen(s.log)[0] == LimitOff(31.0, 1.0 / 24.0, 0.01, true)
    && s.limit.wh == 0.01 && !s.limit.fired && !s.permanent && s.full.pending == 0.0
  }

  lemma SettingsRearm(s: Port)
    requires Fired(s)
    ensures Rearmed(Step(Step(Step(s, ChangePermanent(true)), ChangePermanent(false)), ChangeLimit(0.01, Always)))
  {
    hide SinceOpen;
    var a := Step(s, ChangePermanent(true));
    var b := Step(a, ChangePermanent(false));
    SinceOpenGrows(s.log, Configured(true, true));
    SinceOpenGrows(a.log, Configured(false, true));
    SinceOpenGrows(b.log, Configured(false, false));
    assert Max(0.0, 0.01) == 0.01;
  }

  /** One second of 5 W more leaves the session below the worth at which it could end. */
  lemma ThirdEnergy(es: EState)
    requires es.charging && es.session == 1.0 / 24.0 && es.lastTime == Some(31.0) && es.lastPower == 5.0
    ensures var e := Integrate(es, Sample(32.0, 5.0, 1.0)); e.charging && 0.01 <= e.session < 0.05
  {}

  lemma ThirdReading(r: Port)
    requires Rearmed(r)
    ensures var l := SinceOpen(Step(r, Reading(32.0)).log);
            && |l| == 5 && l[0] == LimitOff(31.0, 1.0 / 24.0, 0.01, true)
            && l[4].LimitOff? && l[4].ok && l[4].at == 32.0
  {
    var x := Sample(32.0, 5.0, 1.0);
    var e := Integrate(r.es, x);
    ThirdEnergy(r.es);
    hide SinceOpen, Detection.Feed, Integrate;
    var m := Managed(r, Reading(32.0));
    assert m.es == e && m.limit == r.limit && m.log == r.log && !m.permanent && m.full == r.full;
    SinceOpenGrows(r.log, LimitOff(32.0, e.session, 0.01, true));
  }

  /** The exception is reached: a run from the start in which two commands of one session are queued
      one second apart. */
  lemma {:induction false} LimitMayFireTwice()
    ensures var l := SinceOpen(Run(INITIAL, TwiceRun()).log);
            exists i, j :: 0 <= i < j < |l| && Queued(l[i]) && Queued(l[j]) && l[j].at - l[i].at == 1.0
  {
    hide Step, SinceOpen, Run, Fired, Waiting, Rearmed, TwiceRun, Reading, Queued;
    TwiceEvents();
    FirstReading();
    Twofold(TwiceRun());
    SecondReading(Run(INITIAL, TwiceRun()[..2]));
    RunTo(TwiceRun(), 2);
    SettingsRearm(Run(INITIAL, TwiceRun()[..3]));
    Threefold(TwiceRun());
    ThirdReading(Run(INITIAL, TwiceRun()[..6]));
    RunTo(TwiceRun(), 6);
    assert TwiceRun()[..7] == TwiceRun();
    BothQueued(SinceOpen(Run(INITIAL, TwiceRun()).log));
  }

  lemma BothQueued(l: seq<Entry>)
    requires |l| == 5 && l[0] == LimitOff(31.0, 1.0 / 24.0, 0.01, true)
    requires l[4].LimitOff? && l[4].ok && l[4].at == 32.0
    ensures exists i, j :: 0 <= i < j < |l| && Queued(l[i]) && Queued(l[j]) && l[j].at - l[i].at == 1.0
  {
    assert Queued(l[0]) && Queued(l[4]) && l[4].at - l[0].at == 1.0;
  }

  lemma TwiceEvents()
    ensures var run := TwiceRun();
            && |run| == 7 && run[0] == ChangeLimit(0.01, Always) && run[1] == Reading(1.0) && run[2] == Reading(31.0)
            && run[3] == ChangePermanent(true) && run[4] == ChangePermanent(false)
            && run[5] == ChangeLimit(0.01, Always) && run[6] == Reading(32.0)
  {}

  lemma {:induction false} RunTo(run: seq<Event>, k: nat)
    requires k < |run|
    ensures Run(INITIAL, run[..k + 1]) == Step(Run(INITIAL, run[..k]), run[k])
  {
    hide Step;
    assert run[..k + 1][..k] == run[..k];
  }

  lemma {:induction false} Twofold(run: seq<Event>)
    requires |run| >= 2
    ensures Run(INITIAL, run[..2]) == Step(Step(INITIAL, run[0]), run[1])
  {
    hide Step;
    assert Run(INITIAL, run[..0]) == INITIAL;
    hide Run;
    RunTo(run, 0);
    RunTo(run, 1);
  }

  lemma {:induction false} Threefold(run: seq<Event>)
    requires |run| >= 6
    ensures Run(INITIAL, run[..6]) == Step(Step(Step(Run(INITIAL, run[..3]), run[3]), run[4]), run[5])
  {
    hide Step, Run;
    RunTo(run, 3);
    RunTo(run, 4);
    RunTo(run, 5);
  }
}
