/**
 * Energy accounting over whole runs of one port: what `total` and `session` mean at every
 * moment, and that successive sessions never count the same energy twice.
 */
module EnergyAccounting {
  import opened Common
  import opened Energy
  import opened PortSession

  ghost predicate Increasing(xs: seq<Sample>) {
    forall i, j :: 0 <= i < j < |xs| ==> xs[i].t < xs[j].t
  }

  /** The readings taken at times in [a, b]. */
  function Between(xs: seq<Sample>, a: real, b: real): seq<Sample> {
    if xs == [] then []
    else
      var x := xs[|xs| - 1];
      Between(xs[..|xs| - 1], a, b) + if a <= x.t <= b then [x] else []
  }

  /** The readings taken at or after a. */
  function From(xs: seq<Sample>, a: real): seq<Sample> {
    if xs == [] then []
    else
      var x := xs[|xs| - 1];
      From(xs[..|xs| - 1], a) + if a <= x.t then [x] else []
  }

  /** The sessions closed so far, oldest first. */
  function Sessions(log: seq<Entry>): (cs: seq<Entry>)
    ensures forall k :: 0 <= k < |cs| ==> cs[k].Closed?
  {
    if log == [] then []
    else
      var e := log[|log| - 1];
      Sessions(log[..|log| - 1]) + if e.Closed? then [e] else []
  }

  function SumWh(cs: seq<Entry>): real {
    if cs == [] then 0.0
    else SumWh(cs[..|cs| - 1]) + if cs[|cs| - 1].Closed? then cs[|cs| - 1].wh else 0.0
  }

  // ----- readings in an interval -----

  lemma BeforeLast(xs: seq<Sample>)
    requires Increasing(xs) && xs != []
    ensures Increasing(xs[..|xs| - 1])
    ensures forall k :: 0 <= k < |xs| - 1 ==> xs[k].t < xs[|xs| - 1].t
  {}

  lemma {:induction false} FromEndsAtLast(xs: seq<Sample>, a: real)
    requires xs != [] && a <= xs[|xs| - 1].t
    ensures From(xs, a) != [] && From(xs, a)[|From(xs, a)| - 1] == xs[|xs| - 1]
  {}

  lemma {:induction false} FromIsSuffix(xs: seq<Sample>, k: nat)
    requires Increasing(xs) && k < |xs|
    ensures From(xs, xs[k].t) == xs[k..]
  {
    var n := |xs| - 1;
    var init := xs[..n];
    if k < n {
      FromIsSuffix(init, k);
      assert xs[k..] == init[k..] + [xs[n]];
    } else {
      NothingFrom(init, xs[n].t);
    }
  }

  lemma {:induction false} NothingFrom(xs: seq<Sample>, a: real)
    requires forall k :: 0 <= k < |xs| ==> xs[k].t < a
    ensures From(xs, a) == []
  {
    if xs != [] { NothingFrom(xs[..|xs| - 1], a); }
  }

  lemma {:induction false} FromIsBetween(xs: seq<Sample>, a: real, b: real)
    requires forall k :: 0 <= k < |xs| ==> xs[k].t <= b
    ensures From(xs, a) == Between(xs, a, b)
  {
    if xs != [] { FromIsBetween(xs[..|xs| - 1], a, b); }
  }

  // ----- the invariant -----

  /** A closed session is worth exactly the trapezoid sum of the readings from its start to
      the last reading before it closed. */
  ghost predicate ClosedAccounted(c: Entry, xs: seq<Sample>) {
    && c.Closed? && c.start.Some? && c.last.Some? && xs != []
    && c.start.value <= c.last.value <= xs[|xs| - 1].t
    && c.wh == TrapezoidSum(Between(xs, c.start.value, c.last.value))
  }

  ghost predicate AllAccounted(cs: seq<Entry>, xs: seq<Sample>) {
    forall k {:trigger cs[k]} :: 0 <= k < |cs| ==> ClosedAccounted(cs[k], xs)
  }

  /** Every closed session ended before time t. */
  ghost predicate AllEndedBefore(cs: seq<Entry>, t: real) {
    forall k :: 0 <= k < |cs| ==> cs[k].Closed? && cs[k].last.Some? && cs[k].last.value < t
  }

  ghost predicate Disjoint(cs: seq<Entry>) {
    forall i, j :: 0 <= i < j < |cs| ==>
      && cs[i].Closed? && cs[i].last.Some? && cs[j].Closed? && cs[j].start.Some?
      && cs[i].last.value < cs[j].start.value
  }

  ghost predicate TotalsAccounted(es: EState, xs: seq<Sample>) {
    && es.total == es.daily == TrapezoidSum(xs)
    && (if xs == [] then es.lastTime == None
        else es.lastTime == Some(xs[|xs| - 1].t) && es.lastPower == xs[|xs| - 1].Power())
  }

  /** While charging, `session` is the trapezoid sum over exactly the readings from the session's
      start to now, and that start is later than every earlier session's last reading. */
  ghost predicate OpenAccounted(es: EState, cs: seq<Entry>, xs: seq<Sample>) {
    && es.start.Some? && xs != [] && es.start.value <= xs[|xs| - 1].t
    && es.session == TrapezoidSum(From(xs, es.start.value))
    && AllEndedBefore(cs, es.start.value)
  }

  /** The pre-session ring is a run of the latest readings, none used by an earlier session. */
  ghost predicate RingAccounted(pre: seq<Sample>, cs: seq<Entry>, xs: seq<Sample>) {
    && |pre| <= |xs| && pre == xs[|xs| - |pre|..]
    && forall k :: 0 <= k < |pre| ==> AllEndedBefore(cs, pre[k].t)
  }

  ghost predicate Accounted(es: EState, pre: seq<Sample>, cs: seq<Entry>, xs: seq<Sample>) {
    && TotalsAccounted(es, xs)
    && (es.charging ==> pre == [] && OpenAccounted(es, cs, xs))
    && RingAccounted(pre, cs, xs)
    && AllAccounted(cs, xs)
    && Disjoint(cs)
  }

  // ----- each kind of step keeps the invariant -----

  /** Closed sessions are unaffected by later readings. */
  lemma ClosedStays(cs: seq<Entry>, xs: seq<Sample>, x: Sample)
    requires Increasing(xs + [x])
    requires AllAccounted(cs, xs)
    ensures AllAccounted(cs, xs + [x])
    ensures AllEndedBefore(cs, x.t)
  {
    var ys := xs + [x];
    assert ys[..|ys| - 1] == xs;
    forall k | 0 <= k < |cs| ensures ClosedAccounted(cs[k], ys) && cs[k].last.value < x.t {
      assert ClosedAccounted(cs[k], xs);
      assert ys[|xs| - 1].t < ys[|xs|].t;
      assert Between(ys, cs[k].start.value, cs[k].last.value)
          == Between(xs, cs[k].start.value, cs[k].last.value);
    }
  }

  lemma IntegrateKeepsTotals(es: EState, xs: seq<Sample>, x: Sample)
    requires TotalsAccounted(es, xs)
    ensures TotalsAccounted(Integrate(es, x), xs + [x])
    ensures xs != [] ==> Integrate(es, x).session == es.session + Gap(xs[|xs| - 1], x)
  {
    assert (xs + [x])[..|xs|] == xs;
  }

  lemma ChargingReading(es: EState, pre: seq<Sample>, cs: seq<Entry>, xs: seq<Sample>, x: Sample)
    requires Accounted(es, pre, cs, xs) && es.charging && Increasing(xs + [x])
    ensures Accounted(Integrate(es, x), pre, cs, xs + [x])
  {
    hide ClosedAccounted, Trapezoid, Disjoint, AllEndedBefore;
    var ys := xs + [x];
    assert ys[..|xs|] == xs;
    ClosedStays(cs, xs, x);
    IntegrateKeepsTotals(es, xs, x);
    var a := es.start.value;
    assert xs[|xs| - 1] == ys[|xs| - 1] && ys[|xs| - 1].t < x.t;
    FromEndsAtLast(xs, a);
    var f := From(xs, a);
    assert From(ys, a) == f + [x];
    assert (f + [x])[..|f|] == f;
  }

  lemma ClosingKeeps(es: EState, pre: seq<Sample>, cs: seq<Entry>, xs: seq<Sample>, r: Reason, t: real)
    requires Accounted(es, pre, cs, xs) && es.charging && Increasing(xs)
    ensures Accounted(es.(charging := false, lastEnd := t), pre,
                      cs + [Closed(r, es.session, es.start, es.lastTime, t)], xs)
  {
    hide TrapezoidSum;
    FromIsBetween(xs, es.start.value, xs[|xs| - 1].t);
  }

  lemma {:induction false} TrimPreIsSuffix(s: seq<Sample>, cutoff: real)
    ensures |TrimPre(s, cutoff)| <= |s| && TrimPre(s, cutoff) == s[|s| - |TrimPre(s, cutoff)|..]
  {
    if s != [] && s[0].t < cutoff {
      TrimPreIsSuffix(s[1..], cutoff);
    }
  }

  lemma IdleReading(es: EState, pre: seq<Sample>, cs: seq<Entry>, xs: seq<Sample>, x: Sample)
    requires Accounted(es, pre, cs, xs) && !es.charging && Increasing(xs + [x])
    ensures Accounted(Integrate(es, x), BufferPre(pre, x), cs, xs + [x])
  {
    hide ClosedAccounted, Trapezoid, TrapezoidSum, Disjoint, AllEndedBefore;
    ClosedStays(cs, xs, x);
    IntegrateKeepsTotals(es, xs, x);
    var ys, grown := xs + [x], pre + [x];
    TrimPreIsSuffix(grown, x.t - 120.0);
    var b := BufferPre(pre, x);
    assert grown == ys[|ys| - |grown|..];
    assert b == ys[|ys| - |b|..];
    forall k | 0 <= k < |b| ensures AllEndedBefore(cs, b[k].t) {
      var m := |grown| - |b| + k;
      assert b[k] == grown[m];
      if m < |pre| { assert grown[m] == pre[m]; }
    }
  }

  lemma {:induction false} NothingTaken(s: seq<Sample>, runStart: real, now: real)
    requires forall k :: 0 <= k < |s| ==> s[k].t < runStart
    ensures TakePre(s, runStart, now) == []
  {
    if s != [] { NothingTaken(s[..|s| - 1], runStart, now); }
  }

  /** Of ordered readings all before `now`, the ones taken are a suffix. */
  lemma {:induction false} TakePreIsSuffix(s: seq<Sample>, runStart: real, now: real)
    requires Increasing(s) && forall k :: 0 <= k < |s| ==> s[k].t < now
    ensures var p := TakePre(s, runStart, now); |p| <= |s| && p == s[|s| - |p|..]
  {
    hide Increasing;
    if s != [] {
      var n := |s| - 1;
      var init := s[..n];
      BeforeLast(s);
      if s[n].t < runStart {
        NothingTaken(init, runStart, now);
      } else {
        TakePreIsSuffix(init, runStart, now);
        var q := TakePre(init, runStart, now);
        var k := n - |q|;
        assert s[k..] == init[k..] + [s[n]];
        assert TakePre(s, runStart, now) == q + [s[n]];
      }
    }
  }

  /** What opening a session does to the energy record: backfill counts the waiting period into
      the session and leaves the lifetime totals alone. */
  lemma {:induction false} OpenEnergyIsBackfill(es: EState, pre: seq<Sample>, x: Sample)
    requires es.lastTime == Some(x.t) && es.lastPower == x.Power()
    ensures var r := OpenEnergy(es, pre, x);
            && r.charging && r.start == Some((pre + [x])[0].t)
            && r.session == TrapezoidSum(pre + [x])
            && r.total == es.total && r.daily == es.daily
            && r.lastTime == es.lastTime && r.lastPower == es.lastPower
  {
    if pre != [] {
      var e0 := es.(charging := true, session := 0.0, start := Some(pre[0].t),
                    maxPower := MaxPowerOf(pre, x.Power()), maxCurrent := MaxCurrentOf(pre, x.i),
                    lastTime := Some(pre[0].t), lastPower := pre[0].Power());
      IntegrateAllIsTrapezoidSum(e0, pre[0], pre[1..] + [x]);
      assert [pre[0]] + (pre[1..] + [x]) == pre + [x];
    }
  }

  /** The reading at `now` itself is not taken. */
  lemma {:induction false} TakeIgnoresNow(pre: seq<Sample>, runStart: real, now: real)
    requires pre != [] && pre[|pre| - 1].t == now
    ensures TakePre(pre, runStart, now) == TakePre(pre[..|pre| - 1], runStart, now)
  {}

  /** An opened session is a charging one, whatever was buffered. */
  lemma OpenEnergyCharges(es: EState, pre: seq<Sample>, x: Sample)
    ensures OpenEnergy(es, pre, x).charging
  {
    if pre != [] {
      IntegrateAllIsTrapezoidSum(
        es.(charging := true, session := 0.0, start := Some(pre[0].t),
            maxPower := MaxPowerOf(pre, x.Power()), maxCurrent := MaxCurrentOf(pre, x.i),
            lastTime := Some(pre[0].t), lastPower := pre[0].Power()),
        pre[0], pre[1..] + [x]);
    }
  }

  /** The readings an opening session takes are a suffix of everything before x. */
  lemma {:induction false} OpeningTakesSuffix(pre: seq<Sample>, xs: seq<Sample>, x: Sample, runStart: real)
    requires Increasing(xs + [x])
    requires |pre| <= |xs| + 1 && pre == (xs + [x])[|xs| + 1 - |pre|..]
    ensures var p := TakePre(pre, runStart, x.t);
            && |p| <= |xs| && p == xs[|xs| - |p|..]
            && forall k :: 0 <= k < |p| ==> p[k] in pre
  {
    var ys := xs + [x];
    if pre != [] {
      var q := pre[..|pre| - 1];
      assert q == xs[|xs| - |q|..];
      TakeIgnoresNow(pre, runStart, x.t);
      hide TakePre;
      forall i | 0 <= i < |xs| ensures xs[i].t < x.t {
        assert ys[i].t < ys[|xs|].t;
      }
      forall i, j | 0 <= i < j < |xs| ensures xs[i].t < xs[j].t {
        assert ys[i].t < ys[j].t;
      }
      TakePreIsSuffix(q, runStart, x.t);
    }
  }

  lemma {:induction false} OpeningKeeps(
    es: EState, pre: seq<Sample>, cs: seq<Entry>, xs: seq<Sample>, x: Sample, runStart: real)
    requires Accounted(es, pre, cs, xs + [x]) && !es.charging && Increasing(xs + [x])
    requires AllEndedBefore(cs, x.t)
    ensures Accounted(OpenEnergy(es, TakePre(pre, runStart, x.t), x), [], cs, xs + [x])
  {
    hide AllAccounted, TrapezoidSum, Disjoint, AllEndedBefore, OpenEnergy, TakePre, Increasing;
    var ys := xs + [x];
    var p := TakePre(pre, runStart, x.t);
    OpeningTakesSuffix(pre, xs, x, runStart);
    OpenEnergyIsBackfill(es, p, x);
    var k := |xs| - |p|;
    assert p + [x] == ys[k..];
    FromIsSuffix(ys, k);
    assert ys[k] == (p + [x])[0];
    BeforeLast(ys);
    if p != [] {
      assert p[0] in pre;
    }
  }

  // ----- the steps of the port are of these kinds -----

  lemma {:induction false} SessionsGrow(log: seq<Entry>, e: Entry)
    ensures Sessions(log + [e]) == if e.Closed? then Sessions(log) + [e] else Sessions(log)
  {
    assert (log + [e])[..|log|] == log;
  }

  lemma EnforcersKeepAccounts(s: Port, t: real, flag: bool)
    ensures var l := EnforceLimit(s, t, flag);
            l.es == s.es && l.pre == s.pre && Sessions(l.log) == Sessions(s.log)
    ensures var f := EnforceFullOff(s, t, flag);
            f.es == s.es && f.pre == s.pre && Sessions(f.log) == Sessions(s.log)
  {
    hide Sessions;
    SessionsGrow(s.log, LimitOff(t, s.es.session, s.limit.wh, flag));
    SessionsGrow(s.log, FullRetry(t));
  }

  /** A close records exactly one session with the energy and interval it had. */
  lemma CloseRecords(s: Port, t: real, r: Reason)
    requires s.es.charging
    ensures var c := Close(s, t, r);
            && c.es == s.es.(charging := false, lastEnd := t) && c.pre == s.pre
            && Sessions(c.log)
               == Sessions(s.log) + [Closed(r, s.es.session, s.es.start, s.es.lastTime, t)]
  {
    hide Sessions;
    var e := Closed(r, s.es.session, s.es.start, s.es.lastTime, t);
    SessionsGrow(s.log, e);
    SessionsGrow(s.log + [e], FullArmed(t));
  }

  /** So does a bulk close. */
  lemma BulkCloseRecords(s: Port, t: real, r: Reason)
    ensures var c := CloseActive(s, t, r);
            && !c.es.charging && c.pre == s.pre && c.gate == s.gate && c.idle == s.idle
            && (!s.es.charging ==> c == s)
            && (s.es.charging ==>
                  && c.es == s.es.(charging := false, lastEnd := t)
                  && Sessions(c.log)
                     == Sessions(s.log) + [Closed(r, s.es.session, s.es.start, s.es.lastTime, t)])
  {
    hide Sessions;
    SessionsGrow(s.log, Closed(r, s.es.session, s.es.start, s.es.lastTime, t));
  }

  lemma WatchKeepsAccounts(s: Port, x: Sample)
    ensures var w := WatchIdle(s, x);
            w.es == s.es && w.pre == s.pre && Sessions(w.log) == Sessions(s.log)
  {
    hide Sessions;
    SessionsGrow(s.log, FullArmed(x.t));
  }

  ghost predicate PortAccounted(s: Port, xs: seq<Sample>) {
    Accounted(s.es, s.pre, Sessions(s.log), xs)
  }

  lemma ManageChargingKeeps(s: Port, x: Sample, active: bool, enabled: bool, xs: seq<Sample>)
    requires PortAccounted(s, xs) && s.es.charging && Increasing(xs)
    ensures PortAccounted(ManageCharging(s, x, active, enabled), xs)
  {
    hide Accounted, Sessions, Close, Detection.ShouldEnd;
    var g := s.(gate := StartGate.NoteNoLoad(s.gate));
    var r := Detection.ShouldEnd(s.det, x.t, s.es.session, s.es.start);
    var d := s.(idle := s.idle.(since := None, armed := false), det := r.0);
    forall p: Port, reason | p.es == s.es && p.pre == s.pre && p.log == s.log
      ensures PortAccounted(Close(p, x.t, reason), xs)
    {
      CloseRecords(p, x.t, reason);
      ClosingKeeps(p.es, p.pre, Sessions(p.log), xs, reason, x.t);
    }
  }

  lemma ManageIdleKeeps(s: Port, x: Sample, active: bool, enabled: bool, xs: seq<Sample>)
    requires PortAccounted(s, xs + [x]) && !s.es.charging && Increasing(xs + [x])
    requires AllEndedBefore(Sessions(s.log), x.t)
    ensures PortAccounted(ManageIdle(s, x, active, enabled), xs + [x])
  {
    hide Accounted, Sessions, WatchIdle, OpenEnergy, TakePre, Detection.FeedAll, Detection.PFast,
      AllEndedBefore, StartGate.ShouldStart;
    WatchKeepsAccounts(s, x);
    var w := WatchIdle(s, x);
    var r := StartGate.ShouldStart(w.gate, x.t, Detection.PFast(w.det), x.v);
    if active && enabled && r.1 {
      var o := Open(w.(gate := r.0), x);
      var runStart := OrElse(r.0.lastRunStart, x.t);
      OpeningKeeps(w.es, w.pre, Sessions(w.log), xs, x, runStart);
      var p := TakePre(w.pre, runStart, x.t);
      SessionsGrow(w.log, Opened(if p == [] then x.t else p[0].t, x.t));
      assert o.es == OpenEnergy(w.es, p, x) && o.pre == [] && Sessions(o.log) == Sessions(w.log);
      assert o == ManageIdle(s, x, active, enabled);
    }
  }

  lemma ManageKeeps(s: Port, x: Sample, active: bool, enabled: bool, xs: seq<Sample>)
    requires PortAccounted(s, xs) && Increasing(xs + [x])
    ensures PortAccounted(Manage(s.(es := Integrate(s.es, x)), x, active, enabled), xs + [x])
  {
    hide Accounted, Sessions, ManageCharging, ManageIdle, Detection.Feed, Integrate, BufferPre, AllEndedBefore;
    IntegrateKeepsCharging(s.es, x);
    var f := s.(es := Integrate(s.es, x), det := Detection.Feed(s.det, x.t, x.v, x.i));
    if s.es.charging {
      ChargingReading(s.es, s.pre, Sessions(s.log), xs, x);
      ManageChargingKeeps(f, x, active, enabled, xs + [x]);
    } else {
      IdleReading(s.es, s.pre, Sessions(s.log), xs, x);
      EndedBeforeNext(s, xs, x);
      ManageIdleKeeps(f.(pre := BufferPre(s.pre, x)), x, active, enabled, xs);
    }
  }

  lemma PushKeeps(s: Port, e: Event, xs: seq<Sample>)
    requires e.Push? && PortAccounted(s, xs) && Increasing(xs + [e.x])
    ensures PortAccounted(Step(s, e), xs + [e.x])
  {
    hide Accounted, Sessions, Manage, EnforceLimit, EnforceFullOff, Integrate;
    ManageKeeps(s, e.x, e.active, e.enabled, xs);
    var m := Manage(s.(es := Integrate(s.es, e.x)), e.x, e.active, e.enabled);
    EnforcersKeepAccounts(m, e.x.t, e.room);
    EnforcersKeepAccounts(EnforceLimit(m, e.x.t, e.room), e.x.t, e.active);
  }

  lemma IntegrateKeepsCharging(es: EState, x: Sample)
    ensures Integrate(es, x).charging == es.charging && Integrate(es, x).start == es.start
  {}

  lemma EndedBeforeNext(s: Port, xs: seq<Sample>, x: Sample)
    requires PortAccounted(s, xs) && Increasing(xs + [x])
    ensures AllEndedBefore(Sessions(s.log), x.t)
  {
    ClosedStays(Sessions(s.log), xs, x);
  }

  /** A close, a settings change or a timer call integrates nothing. */
  lemma OtherKeeps(s: Port, e: Event, xs: seq<Sample>)
    requires !e.Push? && PortAccounted(s, xs) && Increasing(xs)
    ensures PortAccounted(Step(s, e), xs)
  {
    hide Accounted, Sessions, EnforceFullOff, Close, CloseActive;
    match e {
      case CommandClose(at, reason) =>
        if s.es.charging {
          CloseRecords(s, at, reason);
          ClosingKeeps(s.es, s.pre, Sessions(s.log), xs, reason, at);
        } else {
          CloseIdle(s, at, reason);
        }
      case BulkClose(at, reason) =>
        BulkCloseRecords(s, at, reason);
        if s.es.charging { ClosingKeeps(s.es, s.pre, Sessions(s.log), xs, reason, at); }
      case Confirm(at, portActive) => EnforcersKeepAccounts(s, at, portActive);
      case ReadsEmpty =>
      case ChangeLimit(_, _) => SessionsGrow(s.log, Step(s, e).log[|s.log|]);
      case ChangePermanent(_) => SessionsGrow(s.log, Step(s, e).log[|s.log|]);
      case ChangeFullOff(_) => SessionsGrow(s.log, Step(s, e).log[|s.log|]);
    }
  }

  lemma CloseIdle(s: Port, at: real, reason: Reason)
    requires !s.es.charging
    ensures Close(s, at, reason) == s
  {}

  // ----- the main results -----

  lemma {:induction false} RunIsAccounted(es: seq<Event>)
    requires Increasing(Readings(es))
    ensures PortAccounted(Run(INITIAL, es), Readings(es))
  {
    hide PortAccounted, Step;
    if es == [] {
      InitialAccounted();
    } else {
      var init, e := es[..|es| - 1], es[|es| - 1];
      var xs := Readings(init);
      assert Increasing(xs) by {
        assert forall i :: 0 <= i < |xs| ==> xs[i] == Readings(es)[i];
      }
      RunIsAccounted(init);
      assert Readings(es) == if e.Push? then xs + [e.x] else xs;
      if e.Push? {
        PushKeeps(Run(INITIAL, init), e, xs);
      } else {
        OtherKeeps(Run(INITIAL, init), e, xs);
      }
    }
  }

  lemma InitialAccounted()
    ensures PortAccounted(INITIAL, [])
  {}

  /**
   * Energy accounting.  On every run with increasing reading times, the lifetime total is the
   * trapezoid sum over all readings; while the port charges, the session energy is the trapezoid
   * sum over exactly the readings from the session's start to now; and each closed session was
   * worth exactly the trapezoid sum over the readings of its own interval.
   */
  lemma {:induction false} EnergyIsAccounted(es: seq<Event>)
    requires Increasing(Readings(es))
    ensures var s, xs := Run(INITIAL, es), Readings(es);
            && s.es.total == TrapezoidSum(xs)
            && (s.es.charging ==>
                  s.es.start.Some? && s.es.session == TrapezoidSum(From(xs, s.es.start.value)))
            && AllAccounted(Sessions(s.log), xs)
  {
    RunIsAccounted(es);
  }

  // ----- the timer's readings -----

  lemma OpenKeepsTotals(es: EState, pre: seq<Sample>, x: Sample)
    ensures OpenEnergy(es, pre, x).total == es.total && OpenEnergy(es, pre, x).daily == es.daily
  {}

  lemma ManageCounts(s: Port, x: Sample, active: bool, enabled: bool)
    ensures var m := Manage(s, x, active, enabled);
            && m.es.total == s.es.total && m.es.daily == s.es.daily
            && (s.es.charging && m.es.charging ==> m.es == s.es)
  {
    hide WatchIdle, OpenEnergy, TakePre, Detection.Feed, Detection.FeedAll, Detection.PFast, Detection.ShouldEnd,
      StartGate.ShouldStart, BufferPre, Close, Sessions;
    var f := s.(det := Detection.Feed(s.det, x.t, x.v, x.i));
    if s.es.charging {
      forall p: Port, r | p.es == s.es
        ensures var c := Close(p, x.t, r); c.es == s.es.(charging := false, lastEnd := x.t)
      {
        CloseRecords(p, x.t, r);
      }
    } else {
      var g := f.(pre := BufferPre(f.pre, x));
      WatchKeepsAccounts(g, x);
      var w := WatchIdle(g, x);
      var o := w.(gate := StartGate.ShouldStart(w.gate, x.t, Detection.PFast(w.det), x.v).0);
      OpenKeepsTotals(o.es, TakePre(o.pre, OrElse(o.gate.lastRunStart, x.t), x.t), x);
    }
  }

  /** A reading of the timer counts only while a session is open and current flows: then the trapezoid from
      the last counted reading a; otherwise an open session's record is not touched at all. */
  lemma TimerCountsUnderLoad(s: Port, a: Sample, x: Sample, active: bool, enabled: bool, room: bool)
    requires s.es.lastTime == Some(a.t) && s.es.lastPower == a.Power()
    ensures var r := TimerSample(s, x, active, enabled, room);
            && (!(r.es.charging && x.i > 0.0) ==> r.es.total == s.es.total && r.es.daily == s.es.daily)
            && (s.es.charging && r.es.charging ==>
                  if x.i > 0.0
                  then r.es.total == s.es.total + Gap(a, x) && r.es.session == s.es.session + Gap(a, x)
                       && r.es.lastTime == Some(x.t) && r.es.lastPower == x.Power()
                  else r.es == s.es)
  {
    hide Manage, EnforceLimit, Integrate, Gap, Sessions;
    var m := Manage(s, x, active, enabled);
    ManageCounts(s, x, active, enabled);
    IntegrateKeepsCharging(m.es, x);
    EnforcersKeepAccounts(m.(es := Integrate(m.es, x)), x.t, room);
    if s.es.charging && m.es.charging { IntegrateAddsGap(m.es, a, x); }
  }

  // ----- no energy is counted twice -----

  ghost predicate NonNegative(xs: seq<Sample>) {
    forall k :: 0 <= k < |xs| ==> xs[k].Power() >= 0.0
  }

  lemma GapNonNegative(a: Sample, b: Sample)
    requires a.Power() >= 0.0 && b.Power() >= 0.0
    ensures Gap(a, b) >= 0.0
  {}

  lemma {:induction false} BetweenEndsAtLast(xs: seq<Sample>, a: real, b: real)
    requires Increasing(xs) && xs != [] && Between(xs, a, b) != [] && xs[|xs| - 1].t <= b
    ensures Between(xs, a, b)[|Between(xs, a, b)| - 1] == xs[|xs| - 1]
  {
    var n := |xs| - 1;
    if xs[n].t < a {
      assert Increasing(xs[..n]);
      NothingBetween(xs[..n], a, b);
    }
  }

  lemma {:induction false} NothingBetween(xs: seq<Sample>, a: real, b: real)
    requires forall k :: 0 <= k < |xs| ==> !(a <= xs[k].t <= b)
    ensures Between(xs, a, b) == []
  {
    if xs != [] { NothingBetween(xs[..|xs| - 1], a, b); }
  }

  lemma {:induction false} SumNonNegative(xs: seq<Sample>)
    requires NonNegative(xs)
    ensures TrapezoidSum(xs) >= 0.0
  {
    if |xs| >= 2 {
      SumNonNegative(xs[..|xs| - 1]);
      GapNonNegative(xs[|xs| - 2], xs[|xs| - 1]);
    }
  }

  /** One reading between e and b can only add to the right-hand side of the split. */
  lemma {:induction false} SplitStep(xs: seq<Sample>, a: real, b: real)
    requires Increasing(xs) && NonNegative(xs) && xs != [] && xs[|xs| - 1].t <= b
    ensures TrapezoidSum(Between(xs, a, b)) - TrapezoidSum(Between(xs[..|xs| - 1], a, b))
         <= TrapezoidSum(xs) - TrapezoidSum(xs[..|xs| - 1])
  {
    hide Gap, Increasing;
    var n := |xs| - 1;
    var init, x := xs[..n], xs[n];
    BeforeLast(xs);
    if n > 0 { GapNonNegative(xs[n - 1], x); }
    var m := Between(init, a, b);
    if x.t < a {
      assert Between(xs, a, b) == m;
    } else if m != [] {
      BetweenEndsAtLast(init, a, b);
      assert (m + [x])[..|m|] == m;
    }
  }

  /** Readings up to e and readings from a > e on are worth at most all readings up to b. */
  lemma {:induction false} SplitSum(xs: seq<Sample>, low: real, e: real, a: real, b: real)
    requires Increasing(xs) && NonNegative(xs) && e < a <= b
    requires forall k :: 0 <= k < |xs| ==> low <= xs[k].t
    ensures TrapezoidSum(Between(xs, low, e)) + TrapezoidSum(Between(xs, a, b))
         <= TrapezoidSum(Between(xs, low, b))
  {
    hide TrapezoidSum, Increasing;
    if xs == [] {
      EmptySum();
    } else {
      var n := |xs| - 1;
      var init, x := xs[..n], xs[n];
      BeforeLast(xs);
      SplitSum(init, low, e, a, b);
      if x.t > b {
        assert Between(xs, low, e) == Between(init, low, e);
        assert Between(xs, a, b) == Between(init, a, b);
        assert Between(xs, low, b) == Between(init, low, b);
      } else {
        BetweenAll(xs, low, b);
        BetweenAll(init, low, b);
        if x.t <= e {
          BetweenAll(xs, low, e);
          NothingBetween(xs, a, b);
          EmptySum();
        } else {
          assert Between(xs, low, e) == Between(init, low, e);
          SplitStep(xs, a, b);
        }
      }
    }
  }

  lemma {:induction false} BetweenAll(xs: seq<Sample>, a: real, b: real)
    requires forall k :: 0 <= k < |xs| ==> a <= xs[k].t
    requires xs != [] ==> xs[|xs| - 1].t <= b
    requires Increasing(xs)
    ensures Between(xs, a, b) == xs
  {
    if xs != [] {
      BetweenAll(xs[..|xs| - 1], a, b);
    }
  }

  /** Disjoint closed sessions together are worth at most the readings up to the last one's end. */
  lemma {:induction false} ClosedSumBounded(cs: seq<Entry>, xs: seq<Sample>, low: real)
    requires Increasing(xs) && NonNegative(xs) && Disjoint(cs) && cs != []
    requires forall k :: 0 <= k < |xs| ==> low <= xs[k].t
    requires AllAccounted(cs, xs)
    ensures SumWh(cs) <= TrapezoidSum(Between(xs, low, cs[|cs| - 1].last.value))
    decreases |cs|
  {
    hide TrapezoidSum, Between;
    var n := |cs| - 1;
    var c := cs[n];
    if n > 0 {
      ClosedSumBounded(cs[..n], xs, low);
      SplitSum(xs, low, cs[n - 1].last.value, c.start.value, c.last.value);
    } else {
      var e := Min(low, c.start.value) - 1.0;
      NothingBetween(xs, low, e);
      SplitSum(xs, low, e, c.start.value, c.last.value);
      EmptySum();
    }
  }

  lemma EmptySum()
    ensures TrapezoidSum([]) == 0.0
  {}

  lemma {:induction false} OpenSumBounded(es: EState, cs: seq<Entry>, xs: seq<Sample>)
    requires Increasing(xs) && NonNegative(xs) && Disjoint(cs)
    requires AllAccounted(cs, xs)
    requires OpenAccounted(es, cs, xs)
    ensures SumWh(cs) + es.session <= TrapezoidSum(xs)
  {
    hide TrapezoidSum, Between, From;
    var low, now, a := xs[0].t, xs[|xs| - 1].t, es.start.value;
    FromIsBetween(xs, a, now);
    BetweenAll(xs, low, now);
    if cs == [] {
      var e := Min(low, a) - 1.0;
      NothingBetween(xs, low, e);
      SplitSum(xs, low, e, a, now);
      EmptySum();
    } else {
      ClosedSumBounded(cs, xs, low);
      SplitSum(xs, low, cs[|cs| - 1].last.value, a, now);
    }
  }

  lemma {:induction false} ClosedSumWithinTotal(cs: seq<Entry>, xs: seq<Sample>)
    requires Increasing(xs) && NonNegative(xs) && Disjoint(cs)
    requires AllAccounted(cs, xs)
    ensures SumWh(cs) <= TrapezoidSum(xs)
  {
    hide TrapezoidSum, Between;
    if cs == [] {
      SumNonNegative(xs);
    } else {
      assert ClosedAccounted(cs[|cs| - 1], xs);
      var low, now := xs[0].t, xs[|xs| - 1].t;
      var e := cs[|cs| - 1].last.value;
      ClosedSumBounded(cs, xs, low);
      BetweenAll(xs, low, now);
      NothingBetween(xs, now + 1.0, now + 1.0);
      SplitSum(xs, low, e, now + 1.0, now + 1.0);
      BetweenAll(xs, low, now + 1.0);
      EmptySum();
    }
  }

  /**
   * No double counting.  On every run with increasing reading times the intervals of successive
   * sessions are disjoint, and with non-negative powers the energies of all closed sessions plus
   * that of the open one never exceed the lifetime total.
   */
  lemma {:induction false} NoEnergyIsCountedTwice(es: seq<Event>)
    requires Increasing(Readings(es))
    ensures var s := Run(INITIAL, es);
            var cs := Sessions(s.log);
            && Disjoint(cs)
            && (s.es.charging ==>
                  s.es.start.Some? && AllEndedBefore(cs, s.es.start.value))
            && (NonNegative(Readings(es)) ==>
                  SumWh(cs) + (if s.es.charging then s.es.session else 0.0) <= s.es.total)
  {
    hide TrapezoidSum, SumWh, Disjoint, ClosedAccounted;
    RunIsAccounted(es);
    var s, xs := Run(INITIAL, es), Readings(es);
    if NonNegative(xs) {
      if s.es.charging {
        OpenSumBounded(s.es, Sessions(s.log), xs);
      } else {
        ClosedSumWithinTotal(Sessions(s.log), xs);
      }
    }
  }
}
