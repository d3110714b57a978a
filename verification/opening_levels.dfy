/** The start gate's levels in watts: which loads open a session on an idle port, and which never do. */
module OpeningLevels {
  import opened Common
  import opened Medians
  import opened Detection
  import opened DetectorTheorems
  import opened DetectorLevels
  import opened Energy
  import opened StartGate
  import opened PortSession
  import opened EnergyAccounting
  import opened Hysteresis
  import opened SessionOpening

  // ----- what the gate is asked about -----

  /** The readings since a session was last closed. */
  function SinceClose(es: seq<Event>): seq<Sample> {
    if es == [] then []
    else
      var init, e := es[..|es| - 1], es[|es| - 1];
      if Run(INITIAL, init).es.charging && !Run(INITIAL, es).es.charging then []
      else SinceClose(init) + if e.Push? then [e.x] else []
  }

  lemma {:induction false} SinceCloseNext(es: seq<Event>, e: Event)
    ensures SinceClose(es + [e])
         == if Run(INITIAL, es).es.charging && !Step(Run(INITIAL, es), e).es.charging then []
            else SinceClose(es) + if e.Push? then [e.x] else []
  {
    hide Step;
    assert (es + [e])[..|es|] == es;
    RunNext(es, e);
  }

  lemma {:induction false} SinceCloseIsSuffix(es: seq<Event>) returns (k: nat)
    ensures k <= |Readings(es)| && SinceClose(es) == Readings(es)[k..]
  {
    hide Run;
    if es == [] {
      k := 0;
    } else {
      var init, e := es[..|es| - 1], es[|es| - 1];
      assert es == init + [e];
      k := SinceCloseIsSuffix(init);
      ReadingsStep(init, e);
      if Run(INITIAL, init).es.charging && !Run(INITIAL, es).es.charging { k := |Readings(es)|; }
    }
  }

  /** One event leaves the detector of an idle port with its reading, and that of a closed one reset. */
  lemma DetectorStep(s: Port, e: Event)
    ensures var r := Step(s, e);
            !r.es.charging ==>
              r.det == if s.es.charging then RESET else if e.Push? then Feed(s.det, e.x.t, e.x.v, e.x.i) else s.det
  {
    match e {
      case Push(x, active, enabled, room) => PushDetector(s, e);
      case _ => OtherDetector(s, e);
    }
  }

  lemma OtherDetector(s: Port, e: Event)
    requires !e.Push?
    ensures var r := Step(s, e); !r.es.charging ==> r.det == if s.es.charging then RESET else s.det
  {
    hide EnforceFullOff, Sessions;
    match e {
      case Confirm(at, portActive) => EnforcersKeepDetector(s, at, portActive);
      case _ =>
    }
  }

  lemma PushDetector(s: Port, e: Event)
    requires e.Push?
    ensures var r := Step(s, e);
            !r.es.charging ==> r.det == if s.es.charging then RESET else Feed(s.det, e.x.t, e.x.v, e.x.i)
  {
    hide Step, Sessions, WatchIdle, Open, Feed, PFast, BufferPre, ShouldStart, Integrate;
    var x := e.x;
    IntegrateKeepsCharging(s.es, x);
    PushIsManaged(s, e);
    if s.es.charging {
      var f := s.(es := Integrate(s.es, x), det := Feed(s.det, x.t, x.v, x.i));
      hide ManageCharging, Close;
      assert Managed(s, e) == ManageCharging(f, x, e.active, e.enabled);
      var p, reason := ChargingClosesAsIs(f, x, e.active, e.enabled);
      ClosedIsReset(p, x.t, reason);
    } else {
      IdleManaged(s, e);
      var f := s.(es := Integrate(s.es, x), det := Feed(s.det, x.t, x.v, x.i), pre := BufferPre(s.pre, x));
      WatchKeepsDetector(f, x);
      var w := Watched(s, x);
      OpenKeepsGate(w.(gate := ShouldStart(w.gate, x.t, PFast(w.det), x.v).0), x);
    }
  }

  lemma ClosedIsReset(s: Port, t: real, r: Reason)
    ensures s.es.charging ==> Close(s, t, r).det == RESET
  {}

  lemma {:induction false} FeedAllNext(xs: seq<Sample>, x: Sample)
    ensures FeedAll(RESET, xs + [x]) == Feed(FeedAll(RESET, xs), x.t, x.v, x.i)
  {
    hide Feed;
    assert (xs + [x])[..|xs|] == xs;
  }

  /** While no session is open the detector has seen exactly the readings since the last one was closed. */
  lemma {:induction false} IdleDetectorSees(es: seq<Event>)
    ensures !Run(INITIAL, es).es.charging ==> Run(INITIAL, es).det == FeedAll(RESET, SinceClose(es))
  {
    hide Step, Feed;
    if es != [] {
      var init, e := es[..|es| - 1], es[|es| - 1];
      assert es == init + [e];
      IdleDetectorSees(init);
      SinceCloseNext(init, e);
      DetectorStep(Run(INITIAL, init), e);
      if e.Push? { FeedAllNext(SinceClose(init), e.x); }
      assert SinceClose(init) + [] == SinceClose(init);
    }
  }

  lemma SuffixOrdered(xs: seq<Sample>, k: nat, x: Sample)
    requires k <= |xs| && Increasing(xs + [x])
    ensures TimeOrdered(xs[k..] + [x])
  {
    var ys, zs := xs + [x], xs[k..] + [x];
    assert zs == ys[k..];
  }

  /** The gate is asked about the median power of the last 20 s since the last session was closed. */
  lemma {:induction false} AskedAboutRecentMedian(es: seq<Event>, x: Sample)
    requires !Run(INITIAL, es).es.charging && Increasing(Readings(es) + [x])
    ensures FastAt(Run(INITIAL, es), x) == HistoryMedian(SinceClose(es) + [x], 20.0)
  {
    hide Run, PFast, PSlow, HistoryMedian, Feed, FeedAll, SinceClose, Readings, Increasing, TimeOrdered;
    IdleDetectorSees(es);
    var k := SinceCloseIsSuffix(es);
    SuffixOrdered(Readings(es), k, x);
    FeedAllNext(SinceClose(es), x);
    WindowAgreesWithHistory(SinceClose(es) + [x]);
  }

  // ----- a weak load never opens a session -----

  /** Idle, with nothing in the window from 0.5 W on. */
  ghost predicate Weak(s: Port) {
    !s.es.charging && forall k :: 0 <= k < |s.det.samples| ==> s.det.samples[k].p < 0.5
  }

  lemma WeakStep(s: Port, e: Event)
    requires Weak(s) && (e.Push? ==> e.x.Power() < 0.5)
    ensures Weak(Step(s, e))
  {
    hide Step, Feed, PFast;
    if e.Push? { FeedStaysBelow(s.det, e.x, 0.5); }
    IdleStep(s, e);
    DetectorStep(s, e);
  }

  /** As long as every power stays below 0.5 W, no session opens, whatever else happens. */
  lemma {:induction false} WeakLoadNeverOpens(es: seq<Event>)
    requires forall k :: 0 <= k < |es| && es[k].Push? ==> es[k].x.Power() < 0.5
    ensures !Run(INITIAL, es).es.charging && Weak(Run(INITIAL, es))
  {
    hide Step;
    if es != [] {
      WeakLoadNeverOpens(es[..|es| - 1]);
      WeakStep(Run(INITIAL, es[..|es| - 1]), es[|es| - 1]);
    }
  }

  // ----- a strong load opens one -----

  /** The event does not interrupt a load of w watts: the port is not read empty, and a reading comes from
      an active, enabled port and shows at least w, which is at least 0.1 A. */
  predicate Loads(e: Event, w: real) {
    e != ReadsEmpty && (e.Push? ==> Asked(e) && e.x.Power() >= w && w >= 0.1 * e.x.v)
  }

  /** w is enough for the gate as it stands. */
  predicate Suffices(g: Gate, w: real) {
    w >= 0.5 && (g.postSession ==> w >= g.restartW)
  }

  /** An event that opens no session leaves the level of an idle port's gate alone. */
  lemma IdleKeepsLevel(s: Port, e: Event, w: real)
    requires !s.es.charging && !Step(s, e).es.charging && Loads(e, w) && Suffices(s.gate, w)
    ensures Suffices(Step(s, e).gate, w)
  {
    hide Manage, Integrate, WatchIdle, Open, Feed, PFast, BufferPre, ThresholdNow, EnforceFullOff, Sessions;
    match e {
      case Push(x, active, enabled, room) =>
        PushIsManaged(s, e);
        IdleManaged(s, e);
        var f := s.(es := Integrate(s.es, x), det := Feed(s.det, x.t, x.v, x.i), pre := BufferPre(s.pre, x));
        WatchKeepsDetector(f, x);
        var v := Watched(s, x);
        var r := ShouldStart(v.gate, x.t, PFast(v.det), x.v);
        OpenKeepsGate(v.(gate := r.0), x);
        hide Step, Watched;
      case CommandClose(at, reason) => CloseIdle(s, at, reason);
      case BulkClose(at, reason) => BulkCloseRecords(s, at, reason);
      case Confirm(at, portActive) => EnforcersKeepDetector(s, at, portActive);
      case _ =>
    }
  }

  /** The port has stayed idle through the first n events of the tail. */
  ghost predicate StayedIdle(es: seq<Event>, tail: seq<Event>, n: nat)
    requires n <= |tail|
  {
    forall m :: 0 <= m <= n ==> !Run(INITIAL, es + tail[..m]).es.charging
  }

  lemma {:induction false} LevelStays(es: seq<Event>, tail: seq<Event>, w: real, n: nat)
    requires n <= |tail| && StayedIdle(es, tail, n) && Suffices(Run(INITIAL, es).gate, w)
    requires forall k :: 0 <= k < |tail| ==> Loads(tail[k], w)
    ensures Suffices(Run(INITIAL, es + tail[..n]).gate, w)
  {
    hide Run, Step, Suffices, Loads;
    if n == 0 {
      assert es + tail[..0] == es;
    } else {
      LevelStays(es, tail, w, n - 1);
      assert es + tail[..n] == es + tail[..n - 1] + [tail[n - 1]];
      RunNext(es + tail[..n - 1], tail[n - 1]);
      IdleKeepsLevel(Run(INITIAL, es + tail[..n - 1]), tail[n - 1], w);
    }
  }

  /** While the port stays idle, what its detector sees of the tail comes behind what it saw before. */
  lemma {:induction false} SinceCloseGrows(es: seq<Event>, tail: seq<Event>, n: nat)
    requires n <= |tail| && StayedIdle(es, tail, n)
    ensures SinceClose(es + tail[..n]) == SinceClose(es) + Readings(tail[..n])
  {
    hide Run, Step, SinceClose, Readings;
    if n == 0 {
      NoReadings();
      assert es + tail[..0] == es && tail[..0] == [];
      assert SinceClose(es) + [] == SinceClose(es);
    } else {
      SinceCloseGrows(es, tail, n - 1);
      var init, e := es + tail[..n - 1], tail[n - 1];
      assert es + tail[..n] == init + [e] && tail[..n] == tail[..n - 1] + [e];
      assert !Run(INITIAL, init).es.charging;
      SinceCloseNext(init, e);
      ReadingsStep(tail[..n - 1], e);
      var a, b := SinceClose(es), Readings(tail[..n - 1]);
      assert e.Push? ==> a + (b + [e.x]) == a + b + [e.x];
      assert a + b + [] == a + b;
    }
  }

  lemma NoReadings()
    ensures Readings([]) == []
  {}

  lemma {:induction false} ReadingsConcat(a: seq<Event>, b: seq<Event>)
    ensures Readings(a + b) == Readings(a) + Readings(b)
  {
    if b == [] {
      assert a + b == a;
    } else {
      ReadingsConcat(a, b[..|b| - 1]);
      assert (a + b)[..|a + b| - 1] == a + b[..|b| - 1];
    }
  }

  lemma {:induction false} ReadingsOfTail(tail: seq<Event>, w: real)
    requires forall k :: 0 <= k < |tail| ==> Loads(tail[k], w)
    ensures forall k :: 0 <= k < |Readings(tail)| ==> Readings(tail)[k].Power() >= w
    ensures tail != [] && tail[0].Push? ==> Readings(tail) != [] && Readings(tail)[0] == tail[0].x
  {
    if tail != [] {
      ReadingsOfTail(tail[..|tail| - 1], w);
    }
  }

  /** Every power shown since a time after xs is one of ys. */
  lemma {:induction false} ShownIsLoad(xs: seq<Sample>, ys: seq<Sample>, w: real, since: real, p: real)
    requires w >= 0.0 && forall k :: 0 <= k < |ys| ==> ys[k].Power() >= w
    requires forall k :: 0 <= k < |xs| ==> xs[k].t < since
    requires Shows(Points(xs + ys), since, p)
    ensures p >= w
  {
    var zs := xs + ys;
    var m :| 0 <= m < |Points(zs)| && Points(zs)[m].t >= since && Points(zs)[m].p == p;
    assert zs[m] == ys[m - |xs|];
  }

  /** A median over a stretch that lies in a load is as large as the load. */
  lemma {:induction false} MedianOfLoad(xs: seq<Sample>, ys: seq<Sample>, w: real)
    requires w >= 0.0 && ys != [] && TimeOrdered(xs + ys)
    requires forall k :: 0 <= k < |ys| ==> ys[k].Power() >= w
    requires forall k :: 0 <= k < |xs| ==> xs[k].t < ys[|ys| - 1].t - 20.0
    ensures HistoryMedian(xs + ys, 20.0) >= w
  {
    hide Median, Shows, TimeOrdered, Since;
    var zs := xs + ys;
    var since := zs[|zs| - 1].t - 20.0;
    var ps := Since(Points(zs), since);
    SinceMembers(Points(zs), since);
    forall q | 0 <= q < |ps| ensures ps[q] >= w { ShownIsLoad(xs, ys, w, since, ps[q]); }
    assert ps != [];
    MedianAtLeast(ps, w);
  }

  /** Everything in the tail from its first reading on; everything before it earlier than that. */
  ghost predicate LoadedTail(es: seq<Event>, tail: seq<Event>, w: real) {
    && Increasing(Readings(es + tail)) && tail != [] && tail[0].Push?
    && (forall k :: 0 <= k < |tail| ==> Loads(tail[k], w))
    && !Run(INITIAL, es).es.charging && Suffices(Run(INITIAL, es).gate, w)
  }

  /** The readings up to event k of the tail. */
  lemma {:induction false} ReadingsTo(es: seq<Event>, tail: seq<Event>, k: nat)
    requires k < |tail| && tail[k].Push?
    ensures Readings(es + tail[..k]) == Readings(es) + Readings(tail[..k])
    ensures Readings(es + tail) == Readings(es + tail[..k]) + [tail[k].x] + Readings(tail[k + 1..])
  {
    hide Readings;
    var a := es + tail[..k];
    ReadingsConcat(es, tail[..k]);
    ReadingsStep(a, tail[k]);
    assert es + tail == a + [tail[k]] + tail[k + 1..];
    ReadingsConcat(a + [tail[k]], tail[k + 1..]);
  }

  lemma {:induction false} TailTimes(es: seq<Event>, tail: seq<Event>, k: nat)
    requires k < |tail| && tail[0].Push? && tail[k].Push? && Increasing(Readings(es + tail))
    ensures Increasing(Readings(es + tail[..k]) + [tail[k].x])
    ensures Readings(es + tail[..k]) == Readings(es) + Readings(tail[..k])
    ensures forall q :: 0 <= q < |Readings(es)| ==> Readings(es)[q].t < tail[0].x.t
  {
    hide Increasing, Readings;
    ReadingsTo(es, tail, k);
    IncreasingPrefix(Readings(es + tail[..k]) + [tail[k].x], Readings(tail[k + 1..]));
    TailBegins(es, tail);
  }

  lemma IncreasingPrefix(xs: seq<Sample>, ys: seq<Sample>)
    requires Increasing(xs + ys)
    ensures Increasing(xs)
  {
    assert forall k :: 0 <= k < |xs| ==> (xs + ys)[k] == xs[k];
  }

  lemma {:induction false} TailBegins(es: seq<Event>, tail: seq<Event>)
    requires tail != [] && tail[0].Push? && Increasing(Readings(es + tail))
    ensures forall q :: 0 <= q < |Readings(es)| ==> Readings(es)[q].t < tail[0].x.t
  {
    assert es + tail == es + [tail[0]] + tail[1..];
    ReadingsStep(es, tail[0]);
    ReadingsConcat(es + [tail[0]], tail[1..]);
    var xs, all := Readings(es), Readings(es + tail);
    assert all[|xs|] == tail[0].x;
    forall q | 0 <= q < |xs| ensures xs[q].t < tail[0].x.t {
      assert all[q] == xs[q];
    }
  }

  /** 20 s into the load the gate is asked with enough power. */
  lemma {:induction false} LoadCarries(es: seq<Event>, tail: seq<Event>, w: real, k: nat)
    requires LoadedTail(es, tail, w) && k < |tail| && StayedIdle(es, tail, k)
    requires tail[k].Push? ==> tail[k].x.t >= tail[0].x.t + 20.0
    ensures Carries(Run(INITIAL, es + tail[..k]), tail[k])
  {
    hide Run, HistoryMedian, FastAt, Increasing, SinceClose, Readings;
    var s, e := Run(INITIAL, es + tail[..k]), tail[k];
    LevelStays(es, tail, w, k);
    assert StayedIdle(es, tail, k) && !s.es.charging;
    assert Loads(e, w);
    if e.Push? {
      TailTimes(es, tail, k);
      AskedAboutRecentMedian(es + tail[..k], e.x);
      SinceCloseGrows(es, tail, k);
      var m := SinceCloseIsSuffix(es);
      LoadedMedian(Readings(es), m, Readings(tail[..k]), e.x, tail, w, k);
    }
  }

  lemma {:induction false} LoadedMedian(
    xs: seq<Sample>, m: nat, ys: seq<Sample>, x: Sample, tail: seq<Event>, w: real, k: nat)
    requires m <= |xs| && k < |tail| && tail[0].Push? && tail[k].Push? && tail[k].x == x
    requires ys == Readings(tail[..k]) && w >= 0.5 && forall q :: 0 <= q < |tail| ==> Loads(tail[q], w)
    requires Increasing(xs + ys + [x])
    requires forall q :: 0 <= q < |xs| ==> xs[q].t < tail[0].x.t
    requires x.t >= tail[0].x.t + 20.0
    ensures HistoryMedian(xs[m..] + ys + [x], 20.0) >= w
  {
    hide HistoryMedian, Readings;
    ReadingsOfTail(tail[..k], w);
    assert Loads(tail[k], w);
    SuffixOrdered(xs + ys, m, x);
    assert (xs + ys)[m..] == xs[m..] + ys;
    assert xs[m..] + (ys + [x]) == xs[m..] + ys + [x];
    MedianOfLoad(xs[m..], ys + [x], w);
  }

  lemma {:induction false} LoadReaches(es: seq<Event>, tail: seq<Event>, w: real, a: nat, n: nat)
    requires LoadedTail(es, tail, w) && a < n <= |tail| && StayedIdle(es, tail, n)
    requires tail[a].Push? && tail[a].x.t >= tail[0].x.t + 20.0
    requires forall k :: a <= k < |tail| && tail[k].Push? ==> tail[a].x.t <= tail[k].x.t
    ensures LoadFrom(es + tail[..n], |es| + a)
  {
    hide Run, Carries, Readings;
    var all := es + tail[..n];
    assert all[|es| + a] == tail[a];
    assert Asked(tail[a]) by { assert Loads(tail[a], w); }
    forall k {:trigger all[k]} | |es| + a <= k < |all| ensures Carries(Run(INITIAL, all[..k]), all[k]) {
      var q := k - |es|;
      assert all[k] == tail[q] && all[..k] == es + tail[..q];
      LoadCarries(es, tail, w, q);
    }
  }

  lemma {:induction false} TailOrdered(es: seq<Event>, tail: seq<Event>, a: nat, k: nat)
    requires a <= k < |tail| && tail[a].Push? && tail[k].Push? && Increasing(Readings(es + tail))
    ensures tail[a].x.t <= tail[k].x.t
  {
    if a < k {
      var p := es + tail[..a];
      assert es + tail == p + [tail[a]] + tail[a + 1..k] + [tail[k]] + tail[k + 1..];
      ReadingsStep(p, tail[a]);
      ReadingsConcat(p + [tail[a]], tail[a + 1..k]);
      ReadingsStep(p + [tail[a]] + tail[a + 1..k], tail[k]);
      ReadingsConcat(p + [tail[a]] + tail[a + 1..k] + [tail[k]], tail[k + 1..]);
      var i, j := |Readings(p)|, |Readings(p + [tail[a]] + tail[a + 1..k])|;
      var all := Readings(es + tail);
      assert all[i] == tail[a].x && all[j] == tail[k].x && i < j;
    }
  }

  /**
   * A strong load opens a session, on every run.  Let an idle port from its next reading on be loaded
   * with at least w watts, where w is at least 0.5 W, at least 0.1 A at the port's voltage, and no less
   * than the restart level if the gate is raised.  Then a session has opened at the latest with the first
   * reading 30 s after one that came at least 20 s after the load began.
   */
  lemma {:induction false} StrongLoadOpens(es: seq<Event>, tail: seq<Event>, w: real, a: nat, n: nat)
    requires LoadedTail(es, tail, w) && a < n < |tail| && tail[a].Push? && tail[n].Push?
    requires tail[a].x.t >= tail[0].x.t + 20.0 && tail[n].x.t >= tail[a].x.t + 30.0
    ensures exists m :: 0 <= m <= n + 1 && Run(INITIAL, es + tail[..m]).es.charging
  {
    hide Run, Step, Increasing, Readings, LoadFrom;
    if StayedIdle(es, tail, n) {
      forall k | a <= k < |tail| && tail[k].Push? ensures tail[a].x.t <= tail[k].x.t { TailOrdered(es, tail, a, k); }
      LoadReaches(es, tail, w, a, n);
      LoadCarries(es, tail, w, n);
      var before, e := es + tail[..n], tail[n];
      assert es + tail[..n + 1] == before + [e];
      LoadFromStep(before, e, |es| + a);
      assert (before + [e])[|es| + a] == tail[a];
      TailTimes(es, tail, n);
      ReadingsStep(before, e);
      assert Asked(e) by { assert Loads(e, w); }
      OpensExactlyUnderLoad(before, e);
      RunNext(before, e);
      assert Run(INITIAL, es + tail[..n + 1]).es.charging;
    }
  }
}
