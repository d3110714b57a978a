/** When a session opens, and which readings it takes in from before that moment. */
module SessionOpening {
  import opened Common
  import opened Detection
  import opened Energy
  import opened StartGate
  import opened PortSession
  import opened EnergyAccounting
  import opened Hysteresis

  // ----- the gate opens exactly after 30 s of unbroken load -----

  /** One question put to the gate. */
  datatype Ask = Ask(t: real, fast: real, v: real)

  function AskRun(g: Gate, asks: seq<Ask>): Gate {
    if asks == [] then g
    else
      var a := asks[|asks| - 1];
      ShouldStart(AskRun(g, asks[..|asks| - 1]), a.t, a.fast, a.v).0
  }

  /** The gate's answer to question n. */
  function Answer(g: Gate, asks: seq<Ask>, n: nat): bool
    requires n < |asks|
  {
    ShouldStart(AskRun(g, asks[..n]), asks[n].t, asks[n].fast, asks[n].v).1
  }

  ghost predicate Refused(g: Gate, asks: seq<Ask>, n: int) {
    forall k: nat :: k < n && k < |asks| ==> !Answer(g, asks, k)
  }

  /** The question comes with at least 0.5 W and 0.1 A, and with no less than the raised level if the
      gate is raised. */
  predicate Enough(g: Gate, a: Ask) {
    a.fast >= 0.5 && a.fast >= 0.1 * a.v && (g.postSession ==> a.fast >= g.restartW)
  }

  /** Questions j..n all came with enough power, and j is as early as that can be. */
  ghost predicate LoadSince(g: Gate, asks: seq<Ask>, j: int, n: int) {
    && 0 <= j <= n < |asks|
    && (forall k :: j <= k <= n ==> Enough(g, asks[k]))
    && (j > 0 ==> !Enough(g, asks[j - 1]))
  }

  /** As long as it refuses, the gate remembers the start of the current unbroken load. */
  lemma {:induction false} GateRemembersLoad(g: Gate, asks: seq<Ask>)
    requires g.aboveSince.None? && Refused(g, asks, |asks|)
    ensures var r := AskRun(g, asks);
            && r.postSession == g.postSession && r.restartW == g.restartW
            && (r.aboveSince.None? <==> asks == [] || !Enough(g, asks[|asks| - 1]))
            && (r.aboveSince.Some? ==> exists j ::
                  LoadSince(g, asks, j, |asks| - 1) && r.aboveSince.value == asks[j].t)
  {
    if asks != [] {
      var n := |asks| - 1;
      var init := asks[..n];
      hide ThresholdNow, Enough;
      RefusedInit(g, asks, n);
      GateRemembersLoad(g, init);
      assert !Answer(g, asks, n);
      var before := AskRun(g, init);
      SameThreshold(g, before, asks[n]);
      if Enough(g, asks[n]) {
        if before.aboveSince.Some? {
          var j :| LoadSince(g, init, j, n - 1) && before.aboveSince.value == init[j].t;
          LoadGoesOn(g, asks, j, true);
        } else {
          LoadGoesOn(g, asks, n, false);
        }
      }
    }
  }

  lemma RefusedInit(g: Gate, asks: seq<Ask>, n: nat)
    requires n <= |asks| && Refused(g, asks, n)
    ensures Refused(g, asks[..n], n)
  {
    hide ShouldStart, AskRun;
    forall k: nat | k < n ensures !Answer(g, asks[..n], k) {
      assert asks[..n][..k] == asks[..k];
      assert !Answer(g, asks, k);
    }
  }

  lemma SameThreshold(g: Gate, h: Gate, a: Ask)
    requires g.postSession == h.postSession && g.restartW == h.restartW
    ensures Enough(g, a) <==> a.fast >= ThresholdNow(h, a.v)
  {}

  /** The last question extends the load that was running, or starts a new one. */
  lemma LoadGoesOn(g: Gate, asks: seq<Ask>, j: int, running: bool)
    requires asks != [] && Enough(g, asks[|asks| - 1])
    requires var n := |asks| - 1;
             if running then LoadSince(g, asks[..n], j, n - 1)
             else j == n && (n > 0 ==> !Enough(g, asks[n - 1]))
    ensures LoadSince(g, asks, j, |asks| - 1)
  {
    hide Enough;
  }

  lemma LoadSinceUnique(g: Gate, asks: seq<Ask>, i: int, j: int, n: int)
    requires LoadSince(g, asks, i, n) && LoadSince(g, asks, j, n)
    ensures i == j
  {}

  /** A question with enough power is answered by how long the load has lasted. */
  lemma AnswerUnderLoad(g: Gate, asks: seq<Ask>) returns (j: int)
    requires g.aboveSince.None? && asks != [] && Refused(g, asks, |asks| - 1)
    requires Enough(g, asks[|asks| - 1])
    ensures LoadSince(g, asks, j, |asks| - 1)
    ensures Answer(g, asks, |asks| - 1) <==> asks[|asks| - 1].t - asks[j].t >= 30.0
    ensures Answer(g, asks, |asks| - 1) ==> AskRun(g, asks).lastRunStart == Some(asks[j].t)
  {
    hide ThresholdNow, Enough, Refused;
    var n := |asks| - 1;
    var init := asks[..n];
    RefusedInit(g, asks, n);
    GateRemembersLoad(g, init);
    var before := AskRun(g, init);
    SameThreshold(g, before, asks[n]);
    j := n;
    if before.aboveSince.Some? {
      j :| LoadSince(g, init, j, n - 1) && before.aboveSince.value == init[j].t;
    }
    LoadGoesOn(g, asks, j, before.aboveSince.Some?);
  }

  /** A question with too little power is refused, and no load reaches up to it. */
  lemma NoLoadNoAnswer(g: Gate, asks: seq<Ask>)
    requires g.aboveSince.None? && asks != [] && Refused(g, asks, |asks| - 1)
    requires !Enough(g, asks[|asks| - 1])
    ensures !Answer(g, asks, |asks| - 1)
    ensures var n := |asks| - 1; forall i :: !LoadSince(g, asks, i, n)
  {
    hide ThresholdNow, Enough, Refused;
    var n := |asks| - 1;
    RefusedInit(g, asks, n);
    GateRemembersLoad(g, asks[..n]);
    SameThreshold(g, AskRun(g, asks[..n]), asks[n]);
  }

  /**
   * The gate says yes to the first question that closes an unbroken stretch of at least 30 s
   * with enough power, and to no other; the start of that stretch is what it hands on.
   */
  lemma {:induction false} GateOpensExactlyAfterHold(g: Gate, asks: seq<Ask>)
    requires g.aboveSince.None? && asks != [] && Refused(g, asks, |asks| - 1)
    ensures Answer(g, asks, |asks| - 1) <==>
              exists j :: LoadSince(g, asks, j, |asks| - 1)
                          && asks[|asks| - 1].t - asks[j].t >= 30.0
    ensures Answer(g, asks, |asks| - 1) ==>
              exists j :: LoadSince(g, asks, j, |asks| - 1)
                          && AskRun(g, asks).lastRunStart == Some(asks[j].t)
  {
    hide ThresholdNow, Enough, Answer, AskRun, LoadSince;
    var n := |asks| - 1;
    if Enough(g, asks[n]) {
      var j := AnswerUnderLoad(g, asks);
      forall i | LoadSince(g, asks, i, n) ensures i == j {
        LoadSinceUnique(g, asks, i, j, n);
      }
    } else {
      NoLoadNoAnswer(g, asks);
    }
  }

  // ----- the session starts where its load started -----

  ghost predicate ReadingAt(xs: seq<Sample>, t: real) {
    exists k :: 0 <= k < |xs| && xs[k].t == t
  }

  /** The gate's memory is the time of a reading taken since the last session. */
  ghost predicate GateTracks(s: Port, xs: seq<Sample>) {
    s.gate.aboveSince.Some? ==>
      && !s.es.charging
      && ReadingAt(xs, s.gate.aboveSince.value)
      && AllEndedBefore(Sessions(s.log), s.gate.aboveSince.value)
  }

  /** While idle the ring misses no reading of the last 120 s taken since the last session. */
  ghost predicate RingComplete(s: Port, xs: seq<Sample>) {
    !s.es.charging && xs != [] ==>
      && |s.pre| <= |xs|
      && (forall j :: 0 <= j < |s.pre| ==> s.pre[j].t >= xs[|xs| - 1].t - 120.0)
      && (forall k {:trigger xs[k]} ::
            0 <= k < |xs| && xs[k].t >= xs[|xs| - 1].t - 120.0 && AllEndedBefore(Sessions(s.log), xs[k].t)
            ==> k >= |xs| - |s.pre|)
  }

  ghost predicate Ready(s: Port, xs: seq<Sample>) {
    GateTracks(s, xs) && RingComplete(s, xs)
  }

  lemma {:induction false} TrimPreDropsOld(s: seq<Sample>, cutoff: real)
    ensures |TrimPre(s, cutoff)| <= |s|
    ensures forall j :: 0 <= j < |s| - |TrimPre(s, cutoff)| ==> s[j].t < cutoff
    ensures TrimPre(s, cutoff) != [] ==> TrimPre(s, cutoff)[0].t >= cutoff
  {
    if s != [] && s[0].t < cutoff {
      TrimPreDropsOld(s[1..], cutoff);
    }
  }

  lemma BufferIsRecent(pre: seq<Sample>, xs: seq<Sample>, x: Sample)
    requires |pre| <= |xs| && pre == xs[|xs| - |pre|..] && Increasing(xs + [x])
    ensures forall j :: 0 <= j < |BufferPre(pre, x)| ==> BufferPre(pre, x)[j].t >= x.t - 120.0
  {
    hide TrimPre;
    var ys, grown, b := xs + [x], pre + [x], BufferPre(pre, x);
    TrimPreDropsOld(grown, x.t - 120.0);
    TrimPreIsSuffix(grown, x.t - 120.0);
    assert grown == ys[|ys| - |grown|..];
    assert b == ys[|ys| - |b|..];
  }

  /** The ring after an idle reading is still complete. */
  lemma BufferKeepsComplete(s: Port, f: Port, xs: seq<Sample>, x: Sample)
    requires PortAccounted(s, xs) && RingComplete(s, xs) && !s.es.charging && Increasing(xs + [x])
    requires f.pre == BufferPre(s.pre, x) && Sessions(f.log) == Sessions(s.log) && !f.es.charging
    ensures RingComplete(f, xs + [x])
  {
    hide Sessions, AllEndedBefore, AllAccounted, TotalsAccounted, OpenAccounted, Disjoint, Increasing, TrimPre;
    var ys, grown := xs + [x], s.pre + [x];
    TrimPreDropsOld(grown, x.t - 120.0);
    assert ys[..|xs|] == xs;
    BeforeLast(ys);
    BufferIsRecent(s.pre, xs, x);
    forall k | 0 <= k < |ys| && ys[k].t >= x.t - 120.0 && AllEndedBefore(Sessions(s.log), ys[k].t)
      ensures k >= |ys| - |f.pre|
    {
      var j := k - (|xs| - |s.pre|);
      if k < |xs| {
        assert ys[k] == xs[k];
        assert xs[|xs| - 1].t < x.t by { assert ys[|xs| - 1] == xs[|xs| - 1]; }
        assert k >= |xs| - |s.pre|;
        assert s.pre[j] == xs[k];
      }
      assert grown[j] == ys[k];
    }
  }

  /** What an opening does, in terms of the gate's run start. */
  ghost predicate StartsAt(es: EState, xs: seq<Sample>, from: real, x: Sample) {
    && es.start.Some?
    && ReadingAt(xs + [x], es.start.value) && es.start.value >= from
    && forall k :: 0 <= k < |xs| && xs[k].t >= from ==> es.start.value <= xs[k].t
  }

  /** Every reading from the later of runStart and the ring's horizon on is taken. */
  lemma {:induction false} TakesAllFrom(s: Port, xs: seq<Sample>, x: Sample, runStart: real, k: nat)
    requires RingAccounted(s.pre, Sessions(s.log), xs + [x]) && RingComplete(s, xs + [x])
    requires !s.es.charging && Increasing(xs + [x])
    requires AllEndedBefore(Sessions(s.log), runStart)
    requires k < |xs| && xs[k].t >= Max(runStart, x.t - 120.0)
    ensures xs[k] in TakePre(s.pre, runStart, x.t)
  {
    hide Sessions, TakePre, AllEndedBefore, Increasing;
    var ys := xs + [x];
    assert ys[k] == xs[k] && ys[..|xs|] == xs;
    BeforeLast(ys);
    EndedBeforeLater(Sessions(s.log), runStart, xs[k].t);
    TakenExactly(s.pre, runStart, x.t);
    var j := k - (|ys| - |s.pre|);
    assert s.pre[j] == ys[k];
  }

  /** Taking the readings from runStart on finds the first reading at or after the later of
      runStart and the ring's horizon. */
  lemma {:induction false} TakesFromRunStart(s: Port, xs: seq<Sample>, x: Sample, runStart: real)
    requires RingAccounted(s.pre, Sessions(s.log), xs + [x]) && RingComplete(s, xs + [x])
    requires !s.es.charging && Increasing(xs + [x])
    requires s.es.lastTime == Some(x.t) && s.es.lastPower == x.Power()
    requires AllEndedBefore(Sessions(s.log), runStart) && runStart <= x.t
    ensures var e := OpenEnergy(s.es, TakePre(s.pre, runStart, x.t), x);
            StartsAt(e, xs, Max(runStart, x.t - 120.0), x)
  {
    hide Sessions, OpenEnergy, TakePre, AllEndedBefore, Increasing, RingComplete;
    var ys := xs + [x];
    var p := TakePre(s.pre, runStart, x.t);
    var from := Max(runStart, x.t - 120.0);
    OpeningTakesSuffix(s.pre, xs, x, runStart);
    OpenEnergyIsBackfill(s.es, p, x);
    var st := OpenEnergy(s.es, p, x).start.value;
    var first := |xs| - |p|;
    assert ys[first].t == st;
    FirstTakenIsRecent(s, xs, x, runStart);
    assert p != [] ==> ys[first..][0] == p[0];
    forall k | 0 <= k < |xs| && xs[k].t >= from ensures st <= xs[k].t {
      TakesAllFrom(s, xs, x, runStart, k);
      var m :| 0 <= m < |p| && p[m] == xs[k];
      FirstIsEarliest(ys, first, first + m);
      assert ys[first..][m] == p[m];
    }
  }

  lemma {:induction false} FirstTakenIsRecent(s: Port, xs: seq<Sample>, x: Sample, runStart: real)
    requires RingComplete(s, xs + [x]) && !s.es.charging
    ensures var p := TakePre(s.pre, runStart, x.t);
            p != [] ==> p[0].t >= Max(runStart, x.t - 120.0)
  {
    hide Sessions, TakePre, AllEndedBefore;
    var p := TakePre(s.pre, runStart, x.t);
    TakenExactly(s.pre, runStart, x.t);
    if p != [] {
      assert p[0] in p && p[0] in s.pre;
    }
  }

  lemma FirstIsEarliest(xs: seq<Sample>, i: nat, j: nat)
    requires Increasing(xs) && i <= j < |xs|
    ensures xs[i].t <= xs[j].t
  {}

  lemma EndedBeforeLater(cs: seq<Entry>, t: real, u: real)
    requires AllEndedBefore(cs, t) && t <= u
    ensures AllEndedBefore(cs, u)
  {}

  lemma {:induction false} TakenExactly(s: seq<Sample>, runStart: real, now: real)
    ensures forall y :: y in TakePre(s, runStart, now) <==> y in s && runStart <= y.t < now
  {
    if s != [] {
      TakenExactly(s[..|s| - 1], runStart, now);
      assert s == s[..|s| - 1] + [s[|s| - 1]];
    }
  }

  // ----- every step keeps gate and ring in this condition -----

  lemma GateAnswers(g: Gate, t: real, fast: real, v: real)
    ensures var r := ShouldStart(g, t, fast, v);
            && (r.0.aboveSince.None? || r.0.aboveSince == g.aboveSince || r.0.aboveSince == Some(t))
            && (r.1 ==> r.0.aboveSince.None? && r.0.lastRunStart.Some?
                        && (r.0.lastRunStart == g.aboveSince || r.0.lastRunStart == Some(t))
                        && t - r.0.lastRunStart.value >= 30.0)
  {}

  /** The gate after a reading x, and the load start it knows about. */
  lemma IdleReadingKnown(s: Port, xs: seq<Sample>, x: Sample, t: Option<real>)
    requires GateTracks(s, xs) && PortAccounted(s, xs) && Increasing(xs + [x])
    requires t.None? || t == s.gate.aboveSince || t == Some(x.t)
    ensures t.Some? ==> ReadingAt(xs + [x], t.value) && AllEndedBefore(Sessions(s.log), t.value)
  {
    hide Sessions, Increasing, AllEndedBefore, PortAccounted;
    EndedBeforeNext(s, xs, x);
    var ys := xs + [x];
    assert ys[|xs|] == x;
    if t.Some? && t == s.gate.aboveSince {
      var k :| 0 <= k < |xs| && xs[k].t == t.value;
      assert ys[k] == xs[k];
    }
  }

  /** The port just before the gate is asked. */
  function Watched(s: Port, x: Sample): Port {
    WatchIdle(s.(es := Integrate(s.es, x), det := Feed(s.det, x.t, x.v, x.i), pre := BufferPre(s.pre, x)), x)
  }

  lemma WatchedFacts(s: Port, xs: seq<Sample>, x: Sample)
    requires PortAccounted(s, xs) && RingComplete(s, xs) && !s.es.charging && Increasing(xs + [x])
    ensures var w := Watched(s, x);
            && w.gate == s.gate && !w.es.charging && Sessions(w.log) == Sessions(s.log)
            && w.es.lastTime == Some(x.t) && w.es.lastPower == x.Power()
            && RingAccounted(w.pre, Sessions(w.log), xs + [x]) && RingComplete(w, xs + [x])
  {
    hide Sessions, Increasing, AllEndedBefore, RingComplete, RingAccounted, OpenAccounted, AllAccounted, Disjoint,
      Feed, BufferPre, WatchIdle;
    IdleReading(s.es, s.pre, Sessions(s.log), xs, x);
    var f := s.(es := Integrate(s.es, x), det := Feed(s.det, x.t, x.v, x.i), pre := BufferPre(s.pre, x));
    IntegrateKeepsCharging(s.es, x);
    WatchKeepsAccounts(f, x);
    WatchKeepsDetector(f, x);
    BufferKeepsComplete(s, Watched(s, x), xs, x);
  }

  lemma IdleKeepsReady(s: Port, e: Event, xs: seq<Sample>)
    requires e.Push? && !s.es.charging && Ready(s, xs) && PortAccounted(s, xs) && Increasing(xs + [e.x])
    ensures Ready(Managed(s, e), xs + [e.x])
  {
    hide Sessions, Increasing, PortAccounted, AllEndedBefore, ReadingAt, WatchIdle, Feed, Integrate, BufferPre,
      Open, ShouldStart, PFast, Watched, RingAccounted;
    var x := e.x;
    WatchedFacts(s, xs, x);
    var w := Watched(s, x);
    IdleManaged(s, e);
    var r := ShouldStart(w.gate, x.t, PFast(w.det), x.v);
    GateAnswers(w.gate, x.t, PFast(w.det), x.v);
    IdleReadingKnown(s, xs, x, r.0.aboveSince);
    IdleReadingKnown(s, xs, x, w.gate.aboveSince);
    OpenKeepsGate(w.(gate := r.0), x);
  }

  lemma OpenKeepsGate(s: Port, x: Sample)
    ensures Open(s, x).gate == s.gate && Open(s, x).es.charging
  {
    hide TakePre;
    OpenEnergyCharges(s.es, TakePre(s.pre, OrElse(s.gate.lastRunStart, x.t), x.t), x);
  }

  /** An idle reading in terms of the watched port. */
  lemma IdleManaged(s: Port, e: Event)
    requires e.Push? && !s.es.charging
    ensures var w := Watched(s, e.x);
            var r := ShouldStart(w.gate, e.x.t, PFast(w.det), e.x.v);
            Managed(s, e) == if !e.active || !e.enabled then w
                             else if r.1 then Open(w.(gate := r.0), e.x) else w.(gate := r.0)
  {
    hide WatchIdle, Feed, Integrate, BufferPre, Open, ShouldStart, PFast;
    IntegrateKeepsCharging(s.es, e.x);
  }

  /** A port whose last session took in every reading so far has nothing to remember. */
  lemma JustClosedIsReady(c: Port, xs: seq<Sample>)
    requires c.gate.aboveSince.None? && c.pre == []
    requires var cs := Sessions(c.log);
             && cs != [] && xs != [] && cs[|cs| - 1].last == Some(xs[|xs| - 1].t)
    requires forall k :: 0 <= k < |xs| ==> xs[k].t <= xs[|xs| - 1].t
    ensures Ready(c, xs)
  {
    hide Sessions;
  }

  lemma CloseForgets(s: Port, t: real, r: Reason)
    requires s.es.charging
    ensures Close(s, t, r).gate.aboveSince.None? && !Close(s, t, r).es.charging
  {}

  lemma ChargingGate(s: Port, x: Sample, active: bool, enabled: bool)
    requires s.es.charging && s.gate.aboveSince.None?
    ensures ManageCharging(s, x, active, enabled).gate.aboveSince.None?
  {
    hide Close, ShouldEnd;
    forall p: Port, r | p.es.charging ensures Close(p, x.t, r).gate.aboveSince.None? {
      CloseForgets(p, x.t, r);
    }
  }

  lemma ChargingKeepsReady(s: Port, e: Event, xs: seq<Sample>)
    requires e.Push? && s.es.charging && Ready(s, xs) && PortAccounted(s, xs) && Increasing(xs + [e.x])
    ensures Ready(Managed(s, e), xs + [e.x])
  {
    hide Sessions, Increasing, AllEndedBefore, ReadingAt, Feed, Integrate, ManageCharging, Close, AllAccounted,
      TotalsAccounted, OpenAccounted, RingAccounted, Disjoint;
    var x, ys := e.x, xs + [e.x];
    IntegrateKeepsCharging(s.es, x);
    IntegrateMovesOn(s.es, x);
    var f := s.(es := Integrate(s.es, x), det := Feed(s.det, x.t, x.v, x.i));
    assert Managed(s, e) == ManageCharging(f, x, e.active, e.enabled);
    ChargingGate(f, x, e.active, e.enabled);
    var p, r := ChargingClosesAsIs(f, x, e.active, e.enabled);
    var m := Managed(s, e);
    if !m.es.charging {
      ChargingClosesPre(f, x, e.active, e.enabled);
      CloseRecords(p, x.t, r);
      BeforeLast(ys);
      JustClosedIsReady(m, ys);
    }
  }

  lemma IntegrateMovesOn(es: EState, x: Sample)
    ensures Integrate(es, x).lastTime == Some(x.t)
  {}

  lemma ChargingClosesPre(s: Port, x: Sample, active: bool, enabled: bool)
    requires s.es.charging
    ensures ManageCharging(s, x, active, enabled).pre == s.pre
  {
    hide Close, ShouldEnd;
    forall p: Port, r | p.es.charging ensures Close(p, x.t, r).pre == p.pre {
      CloseRecords(p, x.t, r);
    }
  }

  lemma OtherKeepsReady(s: Port, e: Event, xs: seq<Sample>)
    requires !e.Push? && Ready(s, xs) && PortAccounted(s, xs) && Increasing(xs)
    ensures Ready(Step(s, e), xs)
  {
    hide Sessions, AllEndedBefore, ReadingAt, EnforceFullOff, Close, CloseActive, AllAccounted, RingAccounted,
      Disjoint;
    match e {
      case CommandClose(at, reason) =>
        if s.es.charging {
          CloseRecords(s, at, reason);
          CloseForgets(s, at, reason);
          JustClosedIsReady(Close(s, at, reason), xs);
        } else {
          CloseIdle(s, at, reason);
        }
      case BulkClose(at, reason) =>
        BulkCloseRecords(s, at, reason);
        if s.es.charging { JustClosedIsReady(CloseActive(s, at, reason), xs); }
      case Confirm(at, portActive) =>
        EnforcersKeepDetector(s, at, portActive);
        EnforcersKeepAccounts(s, at, portActive);
      case ReadsEmpty =>
      case ChangeLimit(_, _) => SessionsGrow(s.log, Step(s, e).log[|s.log|]);
      case ChangePermanent(_) => SessionsGrow(s.log, Step(s, e).log[|s.log|]);
      case ChangeFullOff(_) => SessionsGrow(s.log, Step(s, e).log[|s.log|]);
    }
  }

  lemma SameReady(m: Port, r: Port, xs: seq<Sample>)
    requires Ready(m, xs)
    requires r.es == m.es && r.gate == m.gate && r.pre == m.pre && Sessions(r.log) == Sessions(m.log)
    ensures Ready(r, xs)
  {
    hide Sessions, AllEndedBefore, ReadingAt;
  }

  lemma {:induction false} RunIsReady(es: seq<Event>)
    requires Increasing(Readings(es))
    ensures Ready(Run(INITIAL, es), Readings(es))
  {
    hide Step, Ready, Readings, Increasing, PortAccounted, Managed;
    if es == [] {
      InitialReady();
    } else {
      var init, e := es[..|es| - 1], es[|es| - 1];
      var s, xs := Run(INITIAL, init), Readings(init);
      assert es == init + [e];
      ReadingsStep(init, e);
      if e.Push? {
        assert (xs + [e.x])[..|xs|] == xs;
        BeforeLast(xs + [e.x]);
        RunIsReady(init);
        RunIsAccounted(init);
        PushIsManaged(s, e);
        if s.es.charging {
          ChargingKeepsReady(s, e, xs);
        } else {
          IdleKeepsReady(s, e, xs);
        }
        SameReady(Managed(s, e), Step(s, e), xs + [e.x]);
      } else {
        RunIsReady(init);
        RunIsAccounted(init);
        OtherKeepsReady(s, e, xs);
      }
    }
  }

  lemma InitialReady()
    ensures Ready(INITIAL, Readings([]))
  {}

  // ----- the load that opens a session, in terms of the port's events -----

  /** A reading that puts a question to the gate of an idle port. */
  predicate Asked(e: Event) {
    e.Push? && e.active && e.enabled
  }

  /** The 20 s median the gate is asked about. */
  function FastAt(s: Port, x: Sample): real {
    PFast(Feed(s.det, x.t, x.v, x.i))
  }

  /** Event e, met by a port in state s, does not interrupt a load: no session is open, the port is
      not read empty, and a question to the gate comes with enough power. */
  predicate Carries(s: Port, e: Event) {
    && !s.es.charging && e != ReadsEmpty
    && (Asked(e) ==> Enough(s.gate, Ask(e.x.t, FastAt(s, e.x), e.x.v)))
  }

  /** From event j on, a question to the gate, everything up to the run's end carried the load. */
  ghost predicate LoadFrom(es: seq<Event>, j: int) {
    && 0 <= j < |es| && Asked(es[j])
    && forall k {:trigger es[k]} :: j <= k < |es| ==> Carries(Run(INITIAL, es[..k]), es[k])
  }

  lemma {:induction false} LoadFromStep(es: seq<Event>, e: Event, j: int)
    ensures j < |es| ==> (LoadFrom(es + [e], j) <==> LoadFrom(es, j) && Carries(Run(INITIAL, es), e))
    ensures LoadFrom(es + [e], |es|) <==> Asked(e) && Carries(Run(INITIAL, es), e)
  {
    hide Carries, Run, Asked;
    var all := es + [e];
    assert all[..|es|] == es && all[|es|] == e;
    assert forall k :: 0 <= k < |es| ==> all[k] == es[k] && all[..k] == es[..k];
    if j < |es| && LoadFrom(all, j) {
      assert Carries(Run(INITIAL, all[..|es|]), all[|es|]);
      forall k | j <= k < |es| ensures Carries(Run(INITIAL, es[..k]), es[k]) {
        assert Carries(Run(INITIAL, all[..k]), all[k]);
      }
    }
    if LoadFrom(all, |es|) {
      assert Carries(Run(INITIAL, all[..|es|]), all[|es|]);
    }
  }

  /** When the load now running began, once event e has come; None if none is running. */
  function LoadStart(s: Port, e: Event): Option<real> {
    if !Carries(s, e) then None
    else if Asked(e) && s.gate.aboveSince.None? then Some(e.x.t)
    else s.gate.aboveSince
  }

  /** What one event does to an idle port: a question after 30 s of load opens a session, anything
      else leaves the port idle and the gate with the start of the load now running. */
  lemma IdleStep(s: Port, e: Event)
    requires !s.es.charging
    ensures var r, a := Step(s, e), LoadStart(s, e);
            if Asked(e) && a.Some? && e.x.t - a.value >= 30.0
            then r.es.charging && r.gate.aboveSince.None? && r.gate.lastRunStart == a
            else !r.es.charging && r.gate.aboveSince == a
  {
    hide Sessions, WatchIdle, Feed, Integrate, BufferPre, Open, PFast, Managed, EnforceFullOff, EnforceLimit,
      ThresholdNow, Enough;
    match e {
      case Push(x, active, enabled, room) =>
        PushIsManaged(s, e);
        IdleManaged(s, e);
        SameThreshold(s.gate, s.gate, Ask(x.t, FastAt(s, x), x.v));
        var f := s.(es := Integrate(s.es, x), det := Feed(s.det, x.t, x.v, x.i), pre := BufferPre(s.pre, x));
        IntegrateKeepsCharging(s.es, x);
        WatchKeepsDetector(f, x);
        WatchKeepsAccounts(f, x);
        var w := Watched(s, x);
        var r := ShouldStart(w.gate, x.t, PFast(w.det), x.v);
        OpenKeepsGate(w.(gate := r.0), x);
        hide Step, Watched;
        assert w.gate == s.gate && w.det == f.det && !w.es.charging;
      case CommandClose(at, reason) => CloseIdle(s, at, reason);
      case BulkClose(at, reason) => BulkCloseRecords(s, at, reason);
      case Confirm(at, portActive) => EnforcersKeepDetector(s, at, portActive);
      case _ =>
    }
  }

  /** What the gate remembers is exactly the start of the load the port carries. */
  ghost predicate LoadKnown(es: seq<Event>) {
    var s := Run(INITIAL, es);
    && (s.gate.aboveSince.Some? ==>
          !s.es.charging && exists j :: LoadFrom(es, j) && es[j].x.t == s.gate.aboveSince.value)
    && (!s.es.charging ==> forall j :: LoadFrom(es, j) ==>
          s.gate.aboveSince.Some? && s.gate.aboveSince.value <= es[j].x.t)
  }

  /** The load that runs after event e, for an idle port: it begins at LoadStart. */
  lemma {:induction false} LoadStartIsEarliest(es: seq<Event>, e: Event)
    requires LoadKnown(es) && !Run(INITIAL, es).es.charging && Increasing(Readings(es + [e]))
    ensures var a := LoadStart(Run(INITIAL, es), e);
            && (a.Some? ==> exists j :: LoadFrom(es + [e], j) && (es + [e])[j].x.t == a.value)
            && (forall j :: LoadFrom(es + [e], j) ==> a.Some? && a.value <= (es + [e])[j].x.t)
  {
    hide Readings, Increasing, Run, FastAt, ThresholdNow, Carries, ReadingAt, Ready;
    assert forall k :: 0 <= k < |es| ==> (es + [e])[k] == es[k];
    var s, all := Run(INITIAL, es), es + [e];
    var a := LoadStart(s, e);
    if a.Some? {
      if s.gate.aboveSince.Some? {
        var j :| LoadFrom(es, j) && es[j].x.t == s.gate.aboveSince.value;
        LoadInside(es, j);
        LoadFromStep(es, e, j);
        assert all[j] == es[j];
      } else {
        LoadFromStep(es, e, |es|);
      }
    }
    forall j | LoadFrom(all, j) ensures a.Some? && a.value <= all[j].x.t {
      LoadInside(all, j);
      LoadFromStep(es, e, j);
      if j == |es| {
        RememberedBefore(es, e);
      } else {
        assert all[j] == es[j];
      }
    }
  }

  lemma LoadInside(es: seq<Event>, j: int)
    requires LoadFrom(es, j)
    ensures 0 <= j < |es| && es[j].Push?
  {}

  /** What the gate remembers lies before the next reading. */
  lemma {:induction false} RememberedBefore(es: seq<Event>, e: Event)
    requires e.Push? && Increasing(Readings(es + [e]))
    ensures var a := Run(INITIAL, es).gate.aboveSince; a.Some? ==> a.value < e.x.t
  {
    hide Run, AllEndedBefore, RingComplete;
    var xs := Readings(es);
    ReadingsStep(es, e);
    BeforeLast(xs + [e.x]);
    assert (xs + [e.x])[..|xs|] == xs;
    RunIsReady(es);
    var a := Run(INITIAL, es).gate.aboveSince;
    if a.Some? {
      var k :| 0 <= k < |xs| && xs[k].t == a.value;
      assert (xs + [e.x])[k] == xs[k];
    }
  }

  /** No load reaches past an event met with a session open. */
  lemma {:induction false} ChargingBreaksLoad(es: seq<Event>, e: Event)
    requires LoadKnown(es) && Run(INITIAL, es).es.charging
    ensures LoadKnown(es + [e])
  {
    hide Run, Sessions, AllEndedBefore;
    var s, all := Run(INITIAL, es), es + [e];
    RunNext(es, e);
    ChargingStepForgets(s, e);
    forall j ensures !LoadFrom(all, j) {
      if LoadFrom(all, j) { LoadInside(all, j); }
      LoadFromStep(es, e, j);
    }
  }

  lemma {:induction false} RunNext(es: seq<Event>, e: Event)
    ensures Run(INITIAL, es + [e]) == Step(Run(INITIAL, es), e)
  {
    hide Step;
    assert (es + [e])[..|es|] == es;
  }

  lemma ChargingStepForgets(s: Port, e: Event)
    requires s.es.charging && s.gate.aboveSince.None?
    ensures Step(s, e).gate.aboveSince.None?
  {
    hide ManageCharging, Feed, Integrate, Close, EnforceFullOff, Sessions;
    match e {
      case Push(x, active, enabled, room) =>
        PushIsManaged(s, e);
        IntegrateKeepsCharging(s.es, x);
        var f := s.(es := Integrate(s.es, x), det := Feed(s.det, x.t, x.v, x.i));
        ChargingGate(f, x, active, enabled);
        assert Managed(s, e) == ManageCharging(f, x, active, enabled);
      case CommandClose(at, reason) => CloseForgets(s, at, reason);
      case BulkClose(at, reason) => BulkCloseRecords(s, at, reason);
      case Confirm(at, portActive) => EnforcersKeepDetector(s, at, portActive);
      case _ =>
    }
  }

  lemma {:induction false} RunKnowsLoad(es: seq<Event>)
    requires Increasing(Readings(es))
    ensures LoadKnown(es)
  {
    hide Step, LoadFrom, LoadStart, Increasing, Readings;
    if es == [] {
      NoLoadYet();
    } else {
      var init, e := es[..|es| - 1], es[|es| - 1];
      assert es == init + [e];
      ReadingsPrefix(init, e);
      RunKnowsLoad(init);
      if Run(INITIAL, init).es.charging {
        ChargingBreaksLoad(init, e);
      } else {
        RunNext(init, e);
        IdleStep(Run(INITIAL, init), e);
        LoadStartIsEarliest(init, e);
      }
    }
  }

  lemma NoLoadYet()
    ensures LoadKnown([])
  {}

  lemma {:induction false} ReadingsPrefix(es: seq<Event>, e: Event)
    requires Increasing(Readings(es + [e]))
    ensures Increasing(Readings(es))
  {
    hide Readings;
    ReadingsStep(es, e);
    if e.Push? {
      BeforeLast(Readings(es) + [e.x]);
      assert (Readings(es) + [e.x])[..|Readings(es)|] == Readings(es);
    }
  }

  /**
   * When a session opens, on every run: an idle port's reading opens one if and only if it asks the
   * gate and a load has been carried up to it, without interruption, from a reading at least 30 s
   * before.
   */
  lemma {:induction false} OpensExactlyUnderLoad(es: seq<Event>, e: Event)
    requires e.Push? && Increasing(Readings(es + [e])) && !Run(INITIAL, es).es.charging
    ensures Step(Run(INITIAL, es), e).es.charging <==>
              Asked(e) && exists j :: LoadFrom(es + [e], j) && e.x.t - (es + [e])[j].x.t >= 30.0
  {
    hide Step, LoadFrom, LoadStart, Increasing, Readings, Run;
    ReadingsPrefix(es, e);
    RunKnowsLoad(es);
    LoadStartIsEarliest(es, e);
    IdleStep(Run(INITIAL, es), e);
  }

  /** The load carried up to the end of the run began at time a, and not earlier. */
  ghost predicate LoadBeganAt(es: seq<Event>, a: real) {
    && (exists j :: LoadFrom(es, j) && es[j].x.t == a)
    && forall j :: LoadFrom(es, j) ==> a <= es[j].x.t
  }

  /** Reading e opened a session on the strength of a load that began at time a. */
  ghost predicate OpenedOnLoad(es: seq<Event>, e: Event, a: real)
    requires e.Push?
  {
    var s, r, xs, x := Run(INITIAL, es), Step(Run(INITIAL, es), e), Readings(es), e.x;
    && LoadBeganAt(es + [e], a) && Asked(e) && x.t - a >= 30.0
    && r.gate.lastRunStart == Some(a)
    && ReadingAt(xs + [x], a) && AllEndedBefore(Sessions(s.log), a)
    && (a != 0.0 ==> StartsAt(r.es, xs, Max(a, x.t - 120.0), x))
    && (a != 0.0 && x.t - a <= 120.0 ==> r.es.start == Some(a))
  }

  /**
   * A session starts where its load started.  Whenever a reading x opens a session, the port had
   * carried an unbroken load since a reading taken at some time a, at least 30 s earlier and after
   * every earlier session: no session was open since then, the port was not read empty, and every
   * question to the gate came with enough power.  The session starts with the first reading at or
   * after the later of a and 120 s before x, hence at a itself whenever a is at most 120 s ago.
   */
  lemma {:induction false} SessionStartsWithItsLoad(es: seq<Event>, e: Event)
    requires e.Push? && Increasing(Readings(es) + [e.x])
    requires !Run(INITIAL, es).es.charging && Step(Run(INITIAL, es), e).es.charging
    ensures exists a :: OpenedOnLoad(es, e, a)
  {
    hide Step, Readings, Increasing, PortAccounted, Managed, Run, Sessions, AllEndedBefore, ReadingAt, WatchIdle,
      Feed, BufferPre, ShouldStart, PFast, Watched, RingAccounted, RingComplete, OpenEnergy, TakePre, FeedAll,
      StartsAt, LoadFrom, LoadStart, FastAt, ThresholdNow;
    var s, xs, x := Run(INITIAL, es), Readings(es), e.x;
    var ys := xs + [x];
    assert ys[..|xs|] == xs;
    BeforeLast(ys);
    ReadingsStep(es, e);
    RunKnowsLoad(es);
    LoadStartIsEarliest(es, e);
    IdleStep(s, e);
    var a := LoadStart(s, e).value;
    assert LoadBeganAt(es + [e], a);
    RunIsReady(es);
    RunIsAccounted(es);
    StartsOnLoad(s, e, xs, a);
    assert OpenedOnLoad(es, e, a);
  }

  /** Where the session starts that reading e opens. */
  lemma StartsOnLoad(s: Port, e: Event, xs: seq<Sample>, a: real)
    requires e.Push? && Increasing(xs + [e.x]) && !s.es.charging && Step(s, e).es.charging
    requires Ready(s, xs) && PortAccounted(s, xs) && Step(s, e).gate.lastRunStart == Some(a)
    ensures var r, x := Step(s, e), e.x;
            && ReadingAt(xs + [x], a) && AllEndedBefore(Sessions(s.log), a)
            && (a != 0.0 ==> StartsAt(r.es, xs, Max(a, x.t - 120.0), x))
            && (a != 0.0 && x.t - a <= 120.0 ==> r.es.start == Some(a))
  {
    hide Step, Increasing, PortAccounted, Managed, Sessions, AllEndedBefore, ReadingAt, WatchIdle,
      Feed, BufferPre, ShouldStart, PFast, Watched, RingAccounted, RingComplete, OpenEnergy, TakePre, FeedAll,
      StartsAt;
    var x := e.x;
    PushIsManaged(s, e);
    WatchedFacts(s, xs, x);
    IdleManaged(s, e);
    var w := Watched(s, x);
    var q := ShouldStart(w.gate, x.t, PFast(w.det), x.v);
    GateAnswers(w.gate, x.t, PFast(w.det), x.v);
    IdleReadingKnown(s, xs, x, Some(a));
    if a != 0.0 {
      TakesFromRunStart(w, xs, x, a);
      StartsAtLoad(Step(s, e).es, xs, x, a);
    }
  }

  lemma StartsAtLoad(es: EState, xs: seq<Sample>, x: Sample, a: real)
    requires StartsAt(es, xs, Max(a, x.t - 120.0), x) && ReadingAt(xs + [x], a) && a < x.t
    ensures x.t - a <= 120.0 ==> es.start == Some(a)
  {
    var ys := xs + [x];
    var k :| 0 <= k < |ys| && ys[k].t == a;
    assert k < |xs| && ys[k] == xs[k];
  }
}
