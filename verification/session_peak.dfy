/** The largest power and current recorded for a session are those of its readings. */
module SessionPeak {
  import opened Common
  import opened Detection
  import opened Energy
  import opened StartGate
  import opened PortSession
  import opened EnergyAccounting
  import opened Hysteresis
  import opened SessionEndings

  /** m and c are the largest power and the largest current of the readings. */
  ghost predicate LargestIn(xs: seq<Sample>, m: real, c: real) {
    && (forall k :: 0 <= k < |xs| ==> xs[k].Power() <= m && xs[k].i <= c)
    && (exists k :: 0 <= k < |xs| && xs[k].Power() == m)
    && (exists k :: 0 <= k < |xs| && xs[k].i == c)
  }

  /** What is recorded for the open session is what its readings show. */
  ghost predicate PeakExact(s: Port, xs: seq<Sample>) {
    s.es.charging ==> s.es.start.Some? && LargestIn(From(xs, s.es.start.value), s.es.maxPower, s.es.maxCurrent)
  }

  lemma LargestGrows(xs: seq<Sample>, x: Sample, m: real, c: real)
    requires LargestIn(xs, m, c)
    ensures LargestIn(xs + [x], Max(m, x.Power()), Max(c, x.i))
  {
    var ys := xs + [x];
    var p :| 0 <= p < |xs| && xs[p].Power() == m;
    var q :| 0 <= q < |xs| && xs[q].i == c;
    assert ys[p] == xs[p] && ys[q] == xs[q] && ys[|xs|] == x;
  }

  lemma {:induction false} FoldIsLargest(pre: seq<Sample>, x: Sample)
    ensures LargestIn([x] + pre, MaxPowerOf(pre, x.Power()), MaxCurrentOf(pre, x.i))
  {
    if pre == [] {
      assert ([x] + pre)[0] == x;
    } else {
      var init, last := pre[..|pre| - 1], pre[|pre| - 1];
      FoldIsLargest(init, x);
      LargestGrows([x] + init, last, MaxPowerOf(init, x.Power()), MaxCurrentOf(init, x.i));
      assert [x] + pre == [x] + init + [last];
    }
  }

  lemma LargestAnyOrder(pre: seq<Sample>, x: Sample, m: real, c: real)
    requires LargestIn([x] + pre, m, c)
    ensures LargestIn(pre + [x], m, c)
  {
    var a, b := [x] + pre, pre + [x];
    forall k | 0 <= k < |b| ensures b[k].Power() <= m && b[k].i <= c {
      assert b[k] == if k < |pre| then a[k + 1] else a[0];
    }
    var p :| 0 <= p < |a| && a[p].Power() == m;
    var q :| 0 <= q < |a| && a[q].i == c;
    assert b[if p == 0 then |pre| else p - 1] == a[p];
    assert b[if q == 0 then |pre| else q - 1] == a[q];
  }

  /** Integrating readings at or below the recorded maxima leaves these alone. */
  lemma {:induction false} IntegrateAllKeepsLargest(es: EState, xs: seq<Sample>)
    requires forall k :: 0 <= k < |xs| ==> xs[k].Power() <= es.maxPower && xs[k].i <= es.maxCurrent
    ensures IntegrateAll(es, xs).maxPower == es.maxPower && IntegrateAll(es, xs).maxCurrent == es.maxCurrent
  {
    if xs != [] {
      IntegrateAllKeepsLargest(es, xs[..|xs| - 1]);
    }
  }

  lemma {:induction false} OpeningPeak(es: EState, pre: seq<Sample>, x: Sample)
    ensures var r := OpenEnergy(es, pre, x); LargestIn(pre + [x], r.maxPower, r.maxCurrent)
  {
    var m, c := MaxPowerOf(pre, x.Power()), MaxCurrentOf(pre, x.i);
    FoldIsLargest(pre, x);
    LargestAnyOrder(pre, x, m, c);
    if pre != [] {
      var all, rest := pre + [x], pre[1..] + [x];
      assert forall k :: 0 <= k < |rest| ==> rest[k] == all[k + 1];
      var e0 := es.(charging := true, session := 0.0, start := Some(pre[0].t), maxPower := m, maxCurrent := c,
                    lastTime := Some(pre[0].t), lastPower := pre[0].Power());
      IntegrateAllKeepsLargest(e0, rest);
      hide IntegrateAll, MaxPowerOf, MaxCurrentOf, LargestIn;
      assert OpenEnergy(es, pre, x).maxPower == m && OpenEnergy(es, pre, x).maxCurrent == c;
    }
  }

  lemma IntegrateRaises(es: EState, x: Sample)
    requires es.lastTime.Some? && RegularGap(x.t - es.lastTime.value)
    ensures var r := Integrate(es, x);
            r.maxPower == Max(es.maxPower, x.Power()) && r.maxCurrent == Max(es.maxCurrent, x.i)
  {}

  lemma {:induction false} ChargingKeepsPeak(s: Port, e: Event, xs: seq<Sample>)
    requires e.Push? && s.es.charging && PeakExact(s, xs) && PortAccounted(s, xs) && Increasing(xs + [e.x])
    requires s.es.lastTime.Some? && RegularGap(e.x.t - s.es.lastTime.value)
    ensures PeakExact(Step(s, e), xs + [e.x])
  {
    hide Step, Managed, Integrate, TickOf, PortAccounted, Increasing, From, LargestIn, EndsByLowPower, RegularGap;
    ChargingHasStart(s, xs);
    PushIsManaged(s, e);
    ChargingPush(s, e);
    FromGrows(xs, e.x, s.es.start.value);
    LargestGrows(From(xs, s.es.start.value), e.x, s.es.maxPower, s.es.maxCurrent);
    IntegrateRaises(s.es, e.x);
  }

  lemma {:induction false} OpenHasPeak(s: Port, x: Sample, xs: seq<Sample>)
    requires RingAccounted(s.pre, Sessions(s.log), xs + [x]) && Increasing(xs + [x])
    requires s.es.lastTime == Some(x.t) && s.es.lastPower == x.Power()
    ensures PeakExact(Open(s, x), xs + [x])
  {
    hide TakePre, OpenEnergy, FeedAll, Increasing, Sessions, From, AllEndedBefore, LargestIn;
    var ys := xs + [x];
    var runStart := OrElse(s.gate.lastRunStart, x.t);
    var p := TakePre(s.pre, runStart, x.t);
    OpeningTakesSuffix(s.pre, xs, x, runStart);
    OpenEnergyIsBackfill(s.es, p, x);
    OpeningPeak(s.es, p, x);
    var k := |xs| - |p|;
    assert p + [x] == ys[k..];
    FromIsSuffix(ys, k);
    assert From(ys, Open(s, x).es.start.value) == p + [x];
  }

  lemma IdleKeepsPeak(s: Port, e: Event, xs: seq<Sample>)
    requires e.Push? && !s.es.charging && PortAccounted(s, xs) && Increasing(xs + [e.x])
    ensures PeakExact(Managed(s, e), xs + [e.x])
  {
    hide WatchIdle, Open, Feed, Integrate, BufferPre, PFast, ShouldStart, Accounted, Sessions, From, LargestIn;
    var x := e.x;
    IntegrateKeepsCharging(s.es, x);
    IdleReading(s.es, s.pre, Sessions(s.log), xs, x);
    var f := s.(es := Integrate(s.es, x), det := Feed(s.det, x.t, x.v, x.i), pre := BufferPre(s.pre, x));
    WatchKeepsAccounts(f, x);
    var w := WatchIdle(f, x);
    AccountedRing(w.es, w.pre, Sessions(w.log), xs + [x]);
    OpenHasPeak(w.(gate := ShouldStart(w.gate, x.t, PFast(w.det), x.v).0), x, xs);
  }

  lemma OtherKeepsPeak(s: Port, e: Event, xs: seq<Sample>)
    requires !e.Push? && PeakExact(s, xs)
    ensures PeakExact(Step(s, e), xs)
  {
    hide Close, CloseActive, EnforceFullOff, From, LargestIn, Sessions;
    match e {
      case CommandClose(at, reason) => CloseStops(s, at, reason);
      case BulkClose(at, reason) => BulkCloseRecords(s, at, reason);
      case Confirm(at, portActive) => EnforcersKeepDetector(s, at, portActive);
      case _ =>
    }
  }

  /**
   * On every run with regular readings, the largest power and the largest current recorded for the open
   * session are the largest of exactly the readings from the session's start to now.
   */
  lemma {:induction false} PeakIsLargestOfSession(es: seq<Event>)
    requires RegularReadings(Readings(es))
    ensures PeakExact(Run(INITIAL, es), Readings(es))
  {
    hide Step, PeakExact, Readings, Increasing, PortAccounted, Managed, RegularReadings;
    if es == [] {
      InitialPeak();
    } else {
      var init, e := es[..|es| - 1], es[|es| - 1];
      var s, xs := Run(INITIAL, init), Readings(init);
      assert es == init + [e];
      RegularPrefix(es);
      RegularIsIncreasing(Readings(es));
      PeakIsLargestOfSession(init);
      RegularIsIncreasing(xs);
      RunIsAccounted(init);
      NextGapRegular(init, e);
      if !e.Push? {
        OtherKeepsPeak(s, e, xs);
      } else if s.es.charging {
        ChargingKeepsPeak(s, e, xs);
      } else {
        IdleKeepsPeak(s, e, xs);
        PushIsManaged(s, e);
        SamePeak(Managed(s, e), Step(s, e), xs + [e.x]);
      }
    }
  }

  lemma InitialPeak()
    ensures PeakExact(INITIAL, Readings([]))
  {}

  lemma SamePeak(m: Port, r: Port, xs: seq<Sample>)
    requires PeakExact(m, xs) && r.es == m.es
    ensures PeakExact(r, xs)
  {}

  /** A close leaves the energy record as the closing reading made it. */
  lemma ClosingKeepsRecord(s: Port, e: Event)
    requires e.Push? && s.es.charging && !Step(s, e).es.charging
    ensures var r, i := Step(s, e).es, Integrate(s.es, e.x);
            r.maxPower == i.maxPower && r.maxCurrent == i.maxCurrent && r.start == s.es.start
  {
    hide ManageCharging, Feed, Integrate, Step, Sessions;
    IntegrateKeepsCharging(s.es, e.x);
    PushIsManaged(s, e);
    var f := s.(es := Integrate(s.es, e.x), det := Feed(s.det, e.x.t, e.x.v, e.x.i));
    assert Managed(s, e) == ManageCharging(f, e.x, e.active, e.enabled);
    var p, reason := ChargingClosesAsIs(f, e.x, e.active, e.enabled);
    CloseRecords(p, e.x.t, reason);
  }

  /** So it is when a reading closes the session: the record it leaves, on which the gate is raised, is
      that of all readings of the session, the last one included. */
  lemma {:induction false} PeakAtClose(es: seq<Event>, e: Event)
    requires e.Push? && RegularReadings(Readings(es) + [e.x])
    requires Run(INITIAL, es).es.charging && !Step(Run(INITIAL, es), e).es.charging
    ensures var s, r := Run(INITIAL, es), Step(Run(INITIAL, es), e);
            s.es.start.Some?
            && LargestIn(From(Readings(es) + [e.x], s.es.start.value), r.es.maxPower, r.es.maxCurrent)
  {
    hide Step, Readings, Increasing, PortAccounted, RegularReadings, From, LargestIn, Integrate, RegularGap, Run;
    var s, xs := Run(INITIAL, es), Readings(es);
    RegularInit(xs, e.x);
    RegularIsIncreasing(xs);
    RegularIsIncreasing(xs + [e.x]);
    RunIsAccounted(es);
    PeakIsLargestOfSession(es);
    NextGapRegular(es, e);
    ChargingHasStart(s, xs);
    FromGrows(xs, e.x, s.es.start.value);
    LargestGrows(From(xs, s.es.start.value), e.x, s.es.maxPower, s.es.maxCurrent);
    IntegrateRaises(s.es, e.x);
    ClosingKeepsRecord(s, e);
  }
}
