/** When a session of the port ends by itself: it must, and it may only when justified. */
module SessionEndings {
  import opened Common
  import opened Detection
  import opened DetectorTheorems
  import opened DetectorLevels
  import opened Energy
  import opened StartGate
  import opened PortSession
  import opened EnergyAccounting
  import opened Hysteresis

  ghost predicate EvaluatedFor(ks: seq<Tick>, start: Option<real>) {
    forall k :: 0 <= k < |ks| && ks[k].ev.Some? ==> ks[k].ev.value.start == start
  }

  /** The detector's state is the run ks from its reset, and ks are exactly the session's readings. */
  ghost predicate Traces(s: Port, ks: seq<Tick>, xs: seq<Sample>) {
    && s.es.start.Some?
    && TickRun(RESET, ks) == s.det
    && Samples(ks) == From(xs, s.es.start.value)
    && EvaluatedFor(ks, s.es.start)
  }

  ghost predicate Traced(s: Port, ks: seq<Tick>, xs: seq<Sample>) {
    s.es.charging ==> Traces(s, ks, xs)
  }

  /** Feeding without evaluating is a run of unevaluated ticks. */
  function Unevaluated(xs: seq<Sample>): seq<Tick> {
    seq(|xs|, k requires 0 <= k < |xs| => Tick(xs[k], None))
  }

  /** The tick a charging reading amounts to. */
  function TickOf(es: EState, x: Sample, active: bool): Tick {
    Tick(x, if active && x.i > 0.0 then Some(Eval(es.session, es.start)) else None)
  }

  /**
   * What the detector is fed and asked during the session of a run's end, reading by reading.  The
   * readings up to the one that opens the session only warm it up.  Every later reading is
   * evaluated with the session's energy and start of that moment exactly if the port is active and
   * draws current.
   */
  function SessionTicks(es: seq<Event>): seq<Tick> {
    if es == [] then []
    else
      var init, e := es[..|es| - 1], es[|es| - 1];
      var s, r := Run(INITIAL, init), Run(INITIAL, es);
      if !e.Push? then SessionTicks(init)
      else if s.es.charging then SessionTicks(init) + [TickOf(Integrate(s.es, e.x), e.x, e.active)]
      else if r.es.start.Some? then Unevaluated(From(Readings(es), r.es.start.value))
      else []
  }

  lemma {:induction false} FeedAllIsRun(xs: seq<Sample>)
    ensures TickRun(RESET, Unevaluated(xs)) == FeedAll(RESET, xs)
    ensures Samples(Unevaluated(xs)) == xs
  {
    hide Feed;
    if xs != [] {
      FeedAllIsRun(xs[..|xs| - 1]);
      assert Unevaluated(xs)[..|xs| - 1] == Unevaluated(xs[..|xs| - 1]);
    }
  }

  lemma SamplesGrow(ks: seq<Tick>, k: Tick)
    ensures Samples(ks + [k]) == Samples(ks) + [k.x]
  {}

  lemma {:induction false} RunGrows(d: Det, ks: seq<Tick>, k: Tick)
    ensures TickRun(d, ks + [k]) == TickStep(TickRun(d, ks), k).0
    ensures Verdict(d, ks + [k], |ks|) == TickStep(TickRun(d, ks), k).1
  {
    hide TickStep;
    assert (ks + [k])[..|ks|] == ks;
  }

  lemma ChargingTick(s: Port, x: Sample, active: bool, enabled: bool, d: Det)
    requires s.es.charging && s.det == Feed(d, x.t, x.v, x.i)
    ensures var m := ManageCharging(s, x, active, enabled);
            m.es.charging ==>
              m.es == s.es && m.det == TickStep(d, TickOf(s.es, x, active)).0
    ensures var m := ManageCharging(s, x, active, enabled);
            var cs := Sessions(m.log);
            !m.es.charging && |cs| > 0 && cs[|cs| - 1].reason == LowPower ==>
              TickStep(d, TickOf(s.es, x, active)).1
    ensures enabled && active && x.i > 0.0 && TickStep(d, TickOf(s.es, x, active)).1 ==>
              var m := ManageCharging(s, x, active, enabled);
              var cs := Sessions(m.log);
              !m.es.charging && |cs| > 0 && cs[|cs| - 1].reason == LowPower
  {
    hide Close, ShouldEnd, Feed, Sessions, NoteNoLoad;
    forall p: Port, r | p.es == s.es
      ensures var c := Close(p, x.t, r);
              !c.es.charging && var cs := Sessions(c.log); |cs| > 0 && cs[|cs| - 1].reason == r
    {
      CloseRecords(p, x.t, r);
    }
  }

  lemma {:induction false} OpenIsTraced(s: Port, x: Sample, xs: seq<Sample>)
    requires RingAccounted(s.pre, Sessions(s.log), xs + [x]) && Increasing(xs + [x])
    requires s.es.lastTime == Some(x.t) && s.es.lastPower == x.Power()
    ensures Open(s, x).es.start.Some?
    ensures Traces(Open(s, x), Unevaluated(From(xs + [x], Open(s, x).es.start.value)), xs + [x])
  {
    hide TakePre, OpenEnergy, FeedAll, Increasing, TickRun, Sessions, From, AllEndedBefore, Unevaluated;
    var ys := xs + [x];
    var runStart := OrElse(s.gate.lastRunStart, x.t);
    var p := TakePre(s.pre, runStart, x.t);
    OpeningTakesSuffix(s.pre, xs, x, runStart);
    OpenEnergyIsBackfill(s.es, p, x);
    var k := |xs| - |p|;
    assert p + [x] == ys[k..];
    FromIsSuffix(ys, k);
    FeedAllIsRun(p + [x]);
    UnevaluatedForAny(p + [x], Open(s, x).es.start);
    assert From(ys, Open(s, x).es.start.value) == p + [x];
  }

  lemma UnevaluatedForAny(xs: seq<Sample>, start: Option<real>)
    ensures EvaluatedFor(Unevaluated(xs), start)
  {}

  /** The trace of the session, one reading on. */
  ghost predicate NextTrace(s: Port, e: Event, xs: seq<Sample>, ks: seq<Tick>)
    requires e.Push? && s.es.start.Some?
  {
    && ks != []
    && TickRun(RESET, ks) == TickStep(s.det, TickOf(Integrate(s.es, e.x), e.x, e.active)).0
    && Verdict(RESET, ks, |ks| - 1) == TickStep(s.det, TickOf(Integrate(s.es, e.x), e.x, e.active)).1
    && Samples(ks) == From(xs + [e.x], s.es.start.value)
    && EvaluatedFor(ks, s.es.start)
  }

  lemma TraceExtends(s: Port, e: Event, xs: seq<Sample>, ks: seq<Tick>)
    requires e.Push? && s.es.charging && Traces(s, ks, xs)
    requires xs != [] && s.es.start.value <= xs[|xs| - 1].t && Increasing(xs + [e.x])
    ensures NextTrace(s, e, xs, ks + [TickOf(Integrate(s.es, e.x), e.x, e.active)])
  {
    hide Integrate, TickStep, TickRun, Verdict, Increasing, Samples, From;
    var k := TickOf(Integrate(s.es, e.x), e.x, e.active);
    IntegrateKeepsCharging(s.es, e.x);
    RunGrows(RESET, ks, k);
    SamplesGrow(ks, k);
    FromGrows(xs, e.x, s.es.start.value);
  }

  /** What a charging reading does to the session, in terms of the detector's tick. */
  lemma ChargingPush(s: Port, e: Event)
    requires e.Push? && s.es.charging
    ensures var m, k := Managed(s, e), TickOf(Integrate(s.es, e.x), e.x, e.active);
            && (m.es.charging ==> m.es == Integrate(s.es, e.x) && m.es.start == s.es.start
                                  && m.det == TickStep(s.det, k).0)
            && (EndsByLowPower(s, e) ==> TickStep(s.det, k).1)
            && (e.enabled && e.active && e.x.i > 0.0 && TickStep(s.det, k).1 ==> EndsByLowPower(s, e))
  {
    hide ManageCharging, Feed, Integrate, TickStep, Sessions, Step, TickOf;
    IntegrateKeepsCharging(s.es, e.x);
    var f := s.(es := Integrate(s.es, e.x), det := Feed(s.det, e.x.t, e.x.v, e.x.i));
    assert Managed(s, e) == ManageCharging(f, e.x, e.active, e.enabled);
    ChargingTick(f, e.x, e.active, e.enabled, s.det);
    PushIsManaged(s, e);
  }

  lemma ChargingIsTraced(s: Port, e: Event, xs: seq<Sample>, ks: seq<Tick>)
    requires e.Push? && s.es.charging && Traced(s, ks, xs) && PortAccounted(s, xs)
    requires Increasing(xs + [e.x])
    ensures s.es.start.Some? && NextTrace(s, e, xs, ks + [TickOf(Integrate(s.es, e.x), e.x, e.active)])
    ensures Traced(Managed(s, e), ks + [TickOf(Integrate(s.es, e.x), e.x, e.active)], xs + [e.x])
    ensures var all := ks + [TickOf(Integrate(s.es, e.x), e.x, e.active)];
            EndsByLowPower(s, e) ==> Verdict(RESET, all, |all| - 1)
  {
    hide Managed, Integrate, TickStep, TickRun, Verdict, Step, PortAccounted, Increasing, From, Samples,
      TickOf, EndsByLowPower, EvaluatedFor;
    ChargingHasStart(s, xs);
    TraceExtends(s, e, xs, ks);
    ChargingPush(s, e);
  }

  lemma {:induction false} FromGrows(xs: seq<Sample>, x: Sample, a: real)
    requires xs != [] && a <= xs[|xs| - 1].t && Increasing(xs + [x])
    ensures From(xs + [x], a) == From(xs, a) + [x]
  {
    BeforeLast(xs + [x]);
    assert (xs + [x])[|xs| - 1] == xs[|xs| - 1];
    assert (xs + [x])[..|xs|] == xs;
  }

  /** A reading that opens the session of an idle port starts its ticks. */
  ghost predicate OpenedTraced(m: Port, xs: seq<Sample>) {
    m.es.charging ==> m.es.start.Some? && Traces(m, Unevaluated(From(xs, m.es.start.value)), xs)
  }

  lemma IdleIsTraced(s: Port, e: Event, xs: seq<Sample>)
    requires e.Push? && !s.es.charging && PortAccounted(s, xs) && Increasing(xs + [e.x])
    ensures OpenedTraced(Managed(s, e), xs + [e.x])
  {
    hide WatchIdle, Open, Feed, Integrate, BufferPre, PFast, ShouldStart, Traces, Accounted, Sessions, From;
    var x := e.x;
    IntegrateKeepsCharging(s.es, x);
    IdleReading(s.es, s.pre, Sessions(s.log), xs, x);
    var f := s.(es := Integrate(s.es, x), det := Feed(s.det, x.t, x.v, x.i), pre := BufferPre(s.pre, x));
    WatchKeepsAccounts(f, x);
    var w := WatchIdle(f, x);
    AccountedRing(w.es, w.pre, Sessions(w.log), xs + [x]);
    var g := w.(gate := ShouldStart(w.gate, x.t, PFast(w.det), x.v).0);
    OpenIsTraced(g, x, xs);
  }

  lemma AccountedRing(es: EState, pre: seq<Sample>, cs: seq<Entry>, xs: seq<Sample>)
    requires Accounted(es, pre, cs, xs) && xs != []
    ensures RingAccounted(pre, cs, xs)
    ensures es.lastTime == Some(xs[|xs| - 1].t) && es.lastPower == xs[|xs| - 1].Power()
  {}

  lemma OtherIsTraced(s: Port, e: Event, xs: seq<Sample>, ks: seq<Tick>)
    requires !e.Push? && Traced(s, ks, xs)
    ensures Traced(Step(s, e), ks, xs)
  {
    hide Close, CloseActive, EnforceFullOff, TickRun, From, EvaluatedFor, Samples, Sessions;
    match e {
      case CommandClose(at, reason) => CloseStops(s, at, reason);
      case BulkClose(at, reason) => BulkCloseRecords(s, at, reason);
      case Confirm(at, portActive) => EnforcersKeepDetector(s, at, portActive);
      case _ =>
    }
  }

  lemma {:induction false} TicksStep(init: seq<Event>, e: Event)
    ensures var s, r := Run(INITIAL, init), Run(INITIAL, init + [e]);
            r == Step(s, e)
            && SessionTicks(init + [e]) ==
                 if !e.Push? then SessionTicks(init)
                 else if s.es.charging then SessionTicks(init) + [TickOf(Integrate(s.es, e.x), e.x, e.active)]
                 else if r.es.start.Some? then Unevaluated(From(Readings(init + [e]), r.es.start.value))
                 else []
  {
    hide Step, Integrate, TickOf, From, Readings;
    assert (init + [e])[..|init|] == init;
  }

  /** On every run the detector's state is what the session's ticks make of a reset detector. */
  lemma {:induction false} RunIsTraced(es: seq<Event>)
    requires Increasing(Readings(es))
    ensures Traced(Run(INITIAL, es), SessionTicks(es), Readings(es))
  {
    hide Step, Traces, Readings, Increasing, PortAccounted, Managed, SessionTicks, TickOf;
    if es != [] {
      var init, e := es[..|es| - 1], es[|es| - 1];
      var s, xs := Run(INITIAL, init), Readings(init);
      assert es == init + [e];
      ReadingsStep(init, e);
      TicksStep(init, e);
      if e.Push? {
        assert (xs + [e.x])[..|xs|] == xs;
        BeforeLast(xs + [e.x]);
        RunIsTraced(init);
        RunIsAccounted(init);
        PushIsManaged(s, e);
        if s.es.charging {
          ChargingIsTraced(s, e, xs, SessionTicks(init));
        } else {
          IdleIsTraced(s, e, xs);
        }
        SameTrace(Managed(s, e), Step(s, e), SessionTicks(es), xs + [e.x]);
      } else {
        RunIsTraced(init);
        OtherIsTraced(s, e, xs, SessionTicks(init));
      }
    }
  }

  lemma SameTrace(m: Port, r: Port, ks: seq<Tick>, xs: seq<Sample>)
    requires m.es == r.es && m.det == r.det && Traced(m, ks, xs)
    ensures Traced(r, ks, xs)
  {
    hide TickRun, From;
  }

  /**
   * A low-power end is justified, on every run.  Take every evaluation the session's readings have
   * caused, the last one included: they cover exactly the readings of the session, and among them
   * some evaluation j opened a hold of at least 600 s with at most 120 s of non-converged time, no
   * reading below 4 V and no evaluation that saw a recovery of 45 s.  The end comes at least 780 s
   * after the session's start.
   */
  lemma {:induction false} LowPowerEndIsJustified(es: seq<Event>, e: Event)
    requires e.Push? && Increasing(Readings(es) + [e.x])
    requires EndsByLowPower(Run(INITIAL, es), e)
    ensures var start, ks := Run(INITIAL, es).es.start, SessionTicks(es + [e]);
            && start.Some?
            && Samples(ks) == From(Readings(es) + [e.x], start.value) && EvaluatedFor(ks, start)
            && (exists j: nat :: Justifies(ks, j))
            && (start.value != 0.0 ==> e.x.t >= start.value + 780.0)
  {
    hide Step, Traces, Readings, Increasing, PortAccounted, Managed, Verdict, Justifies, EvaluatedFor, Run,
      Samples, From, EndsByLowPower, SessionTicks, TickOf, Integrate, TickStep, TickRun;
    var s, xs := Run(INITIAL, es), Readings(es);
    assert (xs + [e.x])[..|xs|] == xs;
    BeforeLast(xs + [e.x]);
    RunIsTraced(es);
    RunIsAccounted(es);
    EndsWhileCharging(s, e);
    ChargingIsTraced(s, e, xs, SessionTicks(es));
    ChargingHasStart(s, xs);
    TicksStep(es, e);
    var ks := SessionTicks(es + [e]);
    SessionEndsOnlyWhenJustified(ks);
    var j: nat :| Justifies(ks, j);
    JustifiedIsLate(ks, j, s.es.start, xs, e.x);
  }

  lemma ChargingHasStart(s: Port, xs: seq<Sample>)
    requires s.es.charging && PortAccounted(s, xs)
    ensures s.es.start.Some? && xs != [] && s.es.start.value <= xs[|xs| - 1].t
  {}

  lemma {:induction false} JustifiedIsLate(ks: seq<Tick>, j: nat, start: Option<real>, xs: seq<Sample>, x: Sample)
    requires Justifies(ks, j) && EvaluatedFor(ks, start) && start.Some?
    requires Samples(ks) == From(xs + [x], start.value) && start.value <= x.t
    ensures start.value != 0.0 ==> x.t >= start.value + 780.0
  {
    hide EvaluatedSec, FedAt, Converged, RecoverySec;
    FromEndsAtLast(xs + [x], start.value);
    assert Samples(ks)[|ks| - 1] == ks[|ks| - 1].x;
  }

  // ----- a session must end -----

  /** From time t0 on every reading carries a live but low load; anything else may happen in between. */
  ghost predicate LowTail(tail: seq<Event>, t0: real, low: real) {
    && (forall k {:trigger tail[k]} :: 0 <= k < |tail| && tail[k].Push? ==>
          && tail[k].active && tail[k].enabled
          && tail[k].x.i > 0.0 && tail[k].x.v >= 4.0
          && tail[k].x.Power() <= low && t0 <= tail[k].x.t)
    && (forall i, j :: 0 <= i <= j < |tail| && tail[i].Push? && tail[j].Push? ==> tail[i].x.t <= tail[j].x.t)
  }

  /** The ticks the detector sees while the session of s stays open over the tail: one per reading. */
  function TailTicks(s: Port, tail: seq<Event>): seq<Tick> {
    if tail == [] then []
    else
      var n := |tail| - 1;
      var e := tail[n];
      TailTicks(s, tail[..n]) + if e.Push? then [TickOf(Integrate(Run(s, tail[..n]).es, e.x), e.x, e.active)] else []
  }

  /** s is mid-session with enough energy and a non-negative last power. */
  ghost predicate Worthy(s: Port, start: Option<real>) {
    s.es.charging && s.es.start == start && s.es.session >= 0.05 && s.es.lastPower >= 0.0
  }

  lemma PositivePower(x: Sample)
    requires x.i > 0.0 && x.v >= 4.0
    ensures x.Power() >= 0.0
  {}

  lemma IntegrateKeepsWorthy(s: Port, x: Sample, start: Option<real>)
    requires Worthy(s, start) && x.Power() >= 0.0
    ensures Worthy(s.(es := Integrate(s.es, x)), start)
  {
    if s.es.lastTime.Some? && RegularGap(x.t - s.es.lastTime.value) {
      assert Trapezoid(s.es.lastPower, x.Power(), x.t - s.es.lastTime.value) >= 0.0;
    }
  }

  /** One low reading either ends the session by low power or leaves it open, one tick on. */
  lemma LowPush(s: Port, e: Event, start: Option<real>)
    requires e.Push? && e.active && e.enabled && e.x.i > 0.0 && e.x.v >= 4.0
    requires Worthy(s, start)
    ensures var k := TickOf(Integrate(s.es, e.x), e.x, e.active);
            && k.x == e.x && k.ev.Some? && k.ev.value.start == start && k.ev.value.wh >= 0.05
            && (TickStep(s.det, k).1 ==> EndsByLowPower(s, e))
            && (EndsByLowPower(s, e) || (Worthy(Step(s, e), start) && Step(s, e).det == TickStep(s.det, k).0))
  {
    hide ManageCharging, Feed, Integrate, TickStep, Sessions, Step;
    IntegrateKeepsCharging(s.es, e.x);
    PositivePower(e.x);
    IntegrateKeepsWorthy(s, e.x, start);
    ChargingPush(s, e);
    PushIsManaged(s, e);
    LoadedCloseIsLowPower(s.(es := Integrate(s.es, e.x), det := Feed(s.det, e.x.t, e.x.v, e.x.i)), e.x);
  }

  lemma LoadedCloseIsLowPower(s: Port, x: Sample)
    requires s.es.charging && x.i > 0.0
    ensures var m := ManageCharging(s, x, true, true);
            var cs := Sessions(m.log);
            m.es.charging || (|cs| > 0 && cs[|cs| - 1].reason == LowPower)
  {
    hide Close, ShouldEnd, Sessions;
    var r := ShouldEnd(s.det, x.t, s.es.session, s.es.start);
    CloseRecords(s.(idle := s.idle.(since := None, armed := false), det := r.0), x.t, LowPower);
  }

  ghost predicate ReadIn(tail: seq<Event>, x: Sample) {
    exists i :: 0 <= i < |tail| && tail[i].Push? && tail[i].x == x
  }

  /** The ticks are evaluated, low, in time order, and each that of some reading of the tail. */
  ghost predicate LowTickRun(tail: seq<Event>, ks: seq<Tick>, start: Option<real>, t0: real, low: real) {
    && EvaluatedWith(ks, start) && LowTicks(ks, t0, low) && TicksOrdered(ks)
    && forall q :: 0 <= q < |ks| ==> ks[q].ev.Some? && ReadIn(tail, ks[q].x)
  }

  /** After the tail the session is still open and the detector has seen exactly its ticks. */
  ghost predicate InStep(s: Port, tail: seq<Event>, t0: real, low: real) {
    && Worthy(Run(s, tail), s.es.start)
    && Run(s, tail).det == TickRun(s.det, TailTicks(s, tail))
    && LowTickRun(tail, TailTicks(s, tail), s.es.start, t0, low)
  }

  lemma {:induction false} TailTicksNext(s: Port, init: seq<Event>, e: Event)
    ensures TailTicks(s, init + [e])
         == TailTicks(s, init)
            + if e.Push? then [TickOf(Integrate(Run(s, init).es, e.x), e.x, e.active)] else []
  {
    hide Run, Integrate, TickOf;
    assert (init + [e])[..|init|] == init;
  }

  /** One more reading of a low tail. */
  lemma {:induction false} LowTickRunGrows(
    init: seq<Event>, e: Event, ks: seq<Tick>, k: Tick, start: Option<real>, t0: real, low: real)
    requires LowTickRun(init, ks, start, t0, low) && LowTail(init + [e], t0, low)
    requires e.Push? && k.ev.Some? && k.x == e.x && k.ev.value.wh >= 0.05 && k.ev.value.start == start
    ensures LowTickRun(init + [e], ks + [k], start, t0, low)
  {
    var tail, all := init + [e], ks + [k];
    assert tail[|init|] == e;
    forall q | 0 <= q < |all|
      ensures all[q].ev.Some? && ReadIn(tail, all[q].x)
      ensures all[q].x.t <= e.x.t
    {
      if q < |ks| {
        assert all[q] == ks[q] && ReadIn(init, ks[q].x);
        var i :| 0 <= i < |init| && init[i].Push? && init[i].x == ks[q].x;
        assert tail[i] == init[i];
        assert tail[i].x.t <= tail[|init|].x.t;
      } else {
        assert tail[|init|].x == all[q].x;
      }
    }
    assert e.x.Power() <= low by { assert tail[|init|].x.Power() <= low; }
  }

  lemma {:induction false} LowTickRunStays(
    init: seq<Event>, e: Event, ks: seq<Tick>, start: Option<real>, t0: real, low: real)
    requires LowTickRun(init, ks, start, t0, low)
    ensures LowTickRun(init + [e], ks, start, t0, low)
  {
    var tail := init + [e];
    forall q | 0 <= q < |ks| ensures ks[q].ev.Some? && ReadIn(tail, ks[q].x) {
      assert ReadIn(init, ks[q].x);
      var i :| 0 <= i < |init| && init[i].Push? && init[i].x == ks[q].x;
      assert tail[i] == init[i];
    }
  }

  predicate IsClose(e: Event) {
    e.CommandClose? || e.BulkClose?
  }

  /** The session's end comes with event e: by low power, or closed from outside. */
  ghost predicate EndsWith(s: Port, e: Event) {
    EndsByLowPower(s, e) || IsClose(e)
  }

  /** Confirmations, empty readings and changes of the settings touch neither energy nor detector. */
  lemma BystanderKeeps(s: Port, e: Event)
    requires !e.Push? && !IsClose(e)
    ensures Step(s, e).es == s.es && Step(s, e).det == s.det
  {
    hide EnforceFullOff;
    if e.Confirm? { EnforcersKeepDetector(s, e.at, e.portActive); }
  }

  lemma {:induction false} InStepGrows(s: Port, init: seq<Event>, e: Event, t0: real, low: real)
    requires InStep(s, init, t0, low) && LowTail(init + [e], t0, low)
    requires !EndsWith(Run(s, init), e)
    ensures InStep(s, init + [e], t0, low)
  {
    hide EndsByLowPower, Worthy, TickStep, Step, Integrate, TickRun, TickOf, Run, TailTicks, LowTickRun;
    var ks := TailTicks(s, init);
    ReadingsStep(init, e);
    TailTicksNext(s, init, e);
    if e.Push? {
      var k := TickOf(Integrate(Run(s, init).es, e.x), e.x, e.active);
      assert (init + [e])[|init|] == e;
      LowPush(Run(s, init), e, s.es.start);
      RunGrows(s.det, ks, k);
      LowTickRunGrows(init, e, ks, k, s.es.start, t0, low);
    } else {
      BystanderKeeps(Run(s, init), e);
      SameWorth(Run(s, init), Run(s, init + [e]), s.es.start);
      LowTickRunStays(init, e, ks, s.es.start, t0, low);
      assert ks + [] == ks;
    }
  }

  lemma SameWorth(s: Port, r: Port, start: Option<real>)
    requires Worthy(s, start) && r.es == s.es
    ensures Worthy(r, start)
  {}

  /** Among the first n events of the tail is one that ends the session. */
  ghost predicate EndedWithin(s: Port, tail: seq<Event>, n: int) {
    exists m :: 0 <= m < n <= |tail| && EndsWith(Run(s, tail[..m]), tail[m])
  }

  lemma {:induction false} LowPrefix(tail: seq<Event>, n: nat, t0: real, low: real)
    requires LowTail(tail, t0, low) && n <= |tail|
    ensures LowTail(tail[..n], t0, low)
  {
    assert forall k :: 0 <= k < n ==> tail[..n][k] == tail[k];
  }

  /** Up to any point of a low tail, the session has ended or is open with the detector in step. */
  lemma {:induction false} OpenOrEnded(s: Port, tail: seq<Event>, t0: real, low: real, n: nat)
    requires Worthy(s, s.es.start) && LowTail(tail, t0, low) && n <= |tail|
    ensures EndedWithin(s, tail, n) || InStep(s, tail[..n], t0, low)
  {
    hide EndsWith, Worthy, InStep, Run, LowTail;
    if n == 0 {
      StartsInStep(s, t0, low);
      assert tail[..0] == [];
    } else {
      OpenOrEnded(s, tail, t0, low, n - 1);
      if EndedWithin(s, tail, n - 1) {
        var m :| 0 <= m < n - 1 && EndsWith(Run(s, tail[..m]), tail[m]);
      } else if !EndsWith(Run(s, tail[..n - 1]), tail[n - 1]) {
        assert tail[..n] == tail[..n - 1] + [tail[n - 1]];
        LowPrefix(tail, n, t0, low);
        InStepGrows(s, tail[..n - 1], tail[n - 1], t0, low);
      }
    }
  }

  lemma StartsInStep(s: Port, t0: real, low: real)
    requires Worthy(s, s.es.start)
    ensures InStep(s, [], t0, low)
  {
    hide Worthy;
  }

  /** The tick of reading k0 keeps its place as the tail goes on. */
  lemma {:induction false} TickKeepsPlace(s: Port, tail: seq<Event>, k0: nat, n: nat)
    requires k0 < n <= |tail| && tail[k0].Push?
    ensures var q := |TailTicks(s, tail[..k0])|;
            var ks := TailTicks(s, tail[..n]);
            q < |ks| && ks[q].x == tail[k0].x
  {
    hide TickOf, Integrate, Run;
    assert tail[..n] == tail[..n - 1] + [tail[n - 1]];
    TailTicksNext(s, tail[..n - 1], tail[n - 1]);
    if k0 == n - 1 {
      TickOfIsReading(Integrate(Run(s, tail[..k0]).es, tail[k0].x), tail[k0].x, tail[k0].active);
    } else {
      TickKeepsPlace(s, tail, k0, n - 1);
    }
  }

  lemma TickOfIsReading(es: EState, x: Sample, active: bool)
    ensures TickOf(es, x, active).x == x
  {}

  /**
   * A session must end.  Let the port be charging at time t0 with at least 0.05 Wh, and let every
   * further reading carry load at or below the tail threshold of that moment with live voltage;
   * confirmations, empty readings, settings changes and closes may come in between as they like.  If
   * reading k0 comes at least 180 s after both t0 and the session's start, then at the latest with
   * the first reading 600 s after that the session has ended, by low power if it was not closed from
   * outside before.
   */
  lemma {:induction false} SessionEndsOnLowPower(
    s: Port, tail: seq<Event>, t0: real, k0: nat, n: nat)
    requires Worthy(s, s.es.start) && LowTail(tail, t0, Threshold(s.det))
    requires forall k :: 0 <= k < |s.det.samples| ==> s.det.samples[k].t < t0
    requires s.det.holdSince.Some? ==> s.det.holdSince.value <= t0
    requires k0 < n < |tail| && tail[k0].Push? && tail[n].Push?
    requires tail[k0].x.t >= t0 + 180.0
    requires s.es.start.Some? ==> tail[k0].x.t >= s.es.start.value + 180.0
    requires tail[n].x.t >= tail[k0].x.t + 600.0
    ensures EndedWithin(s, tail, n + 1)
  {
    hide EndsByLowPower, Worthy, Step, Integrate, Threshold, TickStep, Run, TickRun, TailTicks, TickOf, LowTicks,
      TicksOrdered, LowTail;
    OpenOrEnded(s, tail, t0, Threshold(s.det), n);
    if EndedWithin(s, tail, n) {
      var m :| 0 <= m < n && EndsWith(Run(s, tail[..m]), tail[m]);
    } else {
      LastReadingEnds(s, tail, t0, k0, n);
      assert EndsWith(Run(s, tail[..n]), tail[n]);
    }
  }

  lemma {:induction false} LastReadingEnds(s: Port, tail: seq<Event>, t0: real, k0: nat, n: nat)
    requires LowTail(tail, t0, Threshold(s.det))
    requires forall k :: 0 <= k < |s.det.samples| ==> s.det.samples[k].t < t0
    requires s.det.holdSince.Some? ==> s.det.holdSince.value <= t0
    requires k0 < n < |tail| && tail[k0].Push? && tail[n].Push?
    requires tail[k0].x.t >= t0 + 180.0
    requires s.es.start.Some? ==> tail[k0].x.t >= s.es.start.value + 180.0
    requires tail[n].x.t >= tail[k0].x.t + 600.0
    requires InStep(s, tail[..n], t0, Threshold(s.det))
    ensures EndsByLowPower(Run(s, tail[..n]), tail[n])
  {
    hide EndsByLowPower, Worthy, Step, Integrate, Threshold, TickStep, Run, TickRun, TailTicks, TickOf, LowTicks,
      TicksOrdered;
    var r, e := Run(s, tail[..n]), tail[n];
    LowPush(r, e, s.es.start);
    var k := TickOf(Integrate(r.es, e.x), e.x, e.active);
    var ks := TailTicks(s, tail[..n]);
    assert tail[..n + 1] == tail[..n] + [e];
    LowPrefix(tail, n + 1, t0, Threshold(s.det));
    LowTickRunGrows(tail[..n], e, ks, k, s.es.start, t0, Threshold(s.det));
    TickKeepsPlace(s, tail, k0, n);
    var q := |TailTicks(s, tail[..k0])|;
    assert (ks + [k])[q] == ks[q] && ks[q].ev.Some?;
    SessionMustEnd(s.det, ks + [k], t0, s.es.start, q, |ks|);
    RunGrows(s.det, ks, k);
  }

  // ----- the same in watts -----

  /**
   * A session that draws enough is not ended for low power, on every run: as long as every power read
   * since the session's start is above 0.05 W, and above 0.6 W or above a fifth of the largest of them.
   */
  lemma {:induction false} DrawingEnoughIsNotEnded(es: seq<Event>, e: Event)
    requires e.Push? && Increasing(Readings(es) + [e.x])
    requires var start := Run(INITIAL, es).es.start;
             start.Some? ==> DrawsEnough(From(Readings(es) + [e.x], start.value))
    ensures !EndsByLowPower(Run(INITIAL, es), e)
  {
    hide Step, Traces, Readings, Increasing, PortAccounted, Managed, Verdict, Run, Samples, From, EndsByLowPower,
      SessionTicks, TickOf, Integrate, TickStep, TickRun, DrawsEnough;
    var s, xs := Run(INITIAL, es), Readings(es);
    if EndsByLowPower(s, e) {
      assert (xs + [e.x])[..|xs|] == xs;
      BeforeLast(xs + [e.x]);
      RunIsTraced(es);
      RunIsAccounted(es);
      EndsWhileCharging(s, e);
      ChargingIsTraced(s, e, xs, SessionTicks(es));
      var all := SessionTicks(es) + [TickOf(Integrate(s.es, e.x), e.x, e.active)];
      assert all[..|all|] == all;
      DrawingEnoughNeverEnds(all, |all| - 1);
      assert false;
    }
  }

  lemma {:induction false} FromMembers(xs: seq<Sample>, a: real)
    ensures forall x :: x in From(xs, a) ==> x in xs
  {
    if xs != [] {
      FromMembers(xs[..|xs| - 1], a);
      assert xs == xs[..|xs| - 1] + [xs[|xs| - 1]];
    }
  }

  lemma LowerTail(tail: seq<Event>, t0: real, low: real, above: real)
    requires LowTail(tail, t0, low) && low <= above
    ensures LowTail(tail, t0, above)
  {}

  /** In the session of s the device has once drawn at least `high` for 20 s, and the last reading was
      before t0. */
  ghost predicate HasDrawn(s: Port, xs: seq<Sample>, a: nat, high: real, t0: real) {
    && s.es.start.Some? && DrewFor20s(From(xs, s.es.start.value), a, high)
    && forall k :: 0 <= k < |xs| ==> xs[k].t < t0
  }

  /** The detector knows: its threshold covers `low`, and all it remembers is from before t0. */
  lemma {:induction false} TracedHasDrawn(
    s: Port, ks: seq<Tick>, xs: seq<Sample>, a: nat, high: real, low: real, t0: real)
    requires s.es.charging && Traced(s, ks, xs) && HasDrawn(s, xs, a, high, t0)
    requires low <= 0.05 || (low <= 0.6 && 5.0 * low <= high)
    ensures low <= Threshold(s.det)
    ensures forall k :: 0 <= k < |s.det.samples| ==> s.det.samples[k].t < t0
    ensures s.det.holdSince.Some? ==> s.det.holdSince.value <= t0
  {
    hide TickRun, From, DrewFor20s, Threshold;
    PeakRemembers(ks, a, high);
    ThresholdCovers(s.det, high, low);
    FromMembers(xs, s.es.start.value);
    forall k | 0 <= k < |ks| ensures ks[k].x.t < t0 {
      assert Samples(ks)[k] in From(xs, s.es.start.value);
    }
    BeforeLowStretch(ks, |ks|, t0);
    assert ks[..|ks|] == ks;
  }

  /**
   * A session that draws too little ends, on every run.  Let the port be charging with at least
   * 0.05 Wh, and let the device have drawn at least `high` for 20 s in this session.  If from t0 on
   * every reading shows live voltage and a load of at most `low`, where `low` is at most 0.05 W, or
   * at most 0.6 W and at most a fifth of `high`, the session ends as said for SessionEndsOnLowPower.
   */
  lemma {:induction false} DrawingLittleIsEnded(
    es: seq<Event>, tail: seq<Event>, t0: real, a: nat, high: real, low: real, k0: nat, n: nat)
    requires Increasing(Readings(es)) && HasDrawn(Run(INITIAL, es), Readings(es), a, high, t0)
    requires Worthy(Run(INITIAL, es), Run(INITIAL, es).es.start)
    requires LowTail(tail, t0, low) && (low <= 0.05 || (low <= 0.6 && 5.0 * low <= high))
    requires k0 < n < |tail| && tail[k0].Push? && tail[n].Push?
    requires var start := Run(INITIAL, es).es.start;
             tail[k0].x.t >= t0 + 180.0 && (start.Some? ==> tail[k0].x.t >= start.value + 180.0)
    requires tail[n].x.t >= tail[k0].x.t + 600.0
    ensures EndedWithin(Run(INITIAL, es), tail, n + 1)
  {
    hide Run, Readings, Increasing, Traces, HasDrawn, Worthy, Threshold, LowTail, EndedWithin, SessionTicks;
    var s := Run(INITIAL, es);
    RunIsTraced(es);
    WorthyIsCharging(s, s.es.start);
    TracedHasDrawn(s, SessionTicks(es), Readings(es), a, high, low, t0);
    LowerTail(tail, t0, low, Threshold(s.det));
    SessionEndsOnLowPower(s, tail, t0, k0, n);
  }

  lemma WorthyIsCharging(s: Port, start: Option<real>)
    requires Worthy(s, start)
    ensures s.es.charging
  {}
}
