/** The end detector's levels in watts: what a charge that draws enough, or too little, comes to. */
module DetectorLevels {
  import opened Common
  import opened Medians
  import opened Detection
  import opened DetectorTheorems

  // ----- a charge that draws enough never ends -----

  /** Every power is above 0.05 W, and above 0.6 W or above a fifth of each of them. */
  ghost predicate DrawsEnough(xs: seq<Sample>) {
    forall i, j :: 0 <= i < |xs| && 0 <= j < |xs| ==>
      xs[i].Power() > 0.05 && (xs[i].Power() > 0.6 || 5.0 * xs[i].Power() > xs[j].Power())
  }

  /** Nothing in the window is at or below c, which covers the threshold of every peak up to m. */
  ghost predicate Above(d: Det, c: real, m: real) {
    && 0.0 <= m && TailThreshold(m) <= c && Bounded(d, m)
    && forall k :: 0 <= k < |d.samples| ==> d.samples[k].p > c
  }

  lemma {:induction false} TrimKeepsLast(h: seq<Pt>, cutoff: real)
    requires h != [] && h[|h| - 1].t >= cutoff
    ensures var r := Trim(h, cutoff); r != [] && r[|r| - 1] == h[|h| - 1]
  {
    if h[0].t < cutoff {
      TrimKeepsLast(h[1..], cutoff);
    }
  }

  /** A point of the window no older than `since` has this power. */
  ghost predicate Shows(s: seq<Pt>, since: real, p: real) {
    exists q :: 0 <= q < |s| && s[q].t >= since && s[q].p == p
  }

  /** The powers since some time are powers of the window, and not none if its last point is recent. */
  lemma {:induction false} SinceMembers(s: seq<Pt>, since: real)
    ensures forall k :: 0 <= k < |Since(s, since)| ==> Shows(s, since, Since(s, since)[k])
    ensures s != [] && s[|s| - 1].t >= since ==> Since(s, since) != []
  {
    if s != [] {
      SinceMembers(s[1..], since);
      var r, rest := Since(s, since), Since(s[1..], since);
      forall k | 0 <= k < |r| ensures Shows(s, since, r[k]) {
        if s[0].t >= since && k == 0 {
          assert s[0].p == r[0];
        } else {
          var m := if s[0].t >= since then k - 1 else k;
          assert r[k] == rest[m] && Shows(s[1..], since, rest[m]);
          var q :| 0 <= q < |s[1..]| && s[1..][q].t >= since && s[1..][q].p == rest[m];
          assert s[q + 1] == s[1..][q];
        }
      }
    }
  }

  /** The newest point is in the window, and is one of those the medians look at. */
  lemma NewestCounts(d: Det, x: Sample, width: real)
    requires width >= 0.0
    ensures var f := Feed(d, x.t, x.v, x.i);
            && f.samples != [] && f.samples[|f.samples| - 1] == Pt(x.t, Power(x.v, x.i))
            && LastT(f) == x.t && Since(f.samples, LastT(f) - width) != []
  {
    hide PFast;
    var h := d.samples + [Pt(x.t, Power(x.v, x.i))];
    TrimKeepsLast(h, x.t - 300.0);
    var f := Feed(d, x.t, x.v, x.i);
    SinceMembers(f.samples, LastT(f) - width);
  }

  lemma FeedAbove(d: Det, x: Sample, c: real, m: real)
    requires Above(d, c, m) && c < x.Power() <= m
    ensures var f := Feed(d, x.t, x.v, x.i); Above(f, c, m) && !Converged(f)
  {
    hide Median, TailThreshold;
    assert 0.05 <= TailThreshold(m) by { TailThresholdMonotone(m, m); }
    var h := d.samples + [Pt(x.t, Power(x.v, x.i))];
    TrimKeepsMembers(h, x.t - 300.0);
    var f := Feed(d, x.t, x.v, x.i);
    FeedBounded(d, x, m);
    forall k | 0 <= k < |f.samples| ensures f.samples[k].p > c {
      assert f.samples[k] in h;
    }
    NewestCounts(d, x, 20.0);
    var fast := Since(f.samples, LastT(f) - 20.0);
    SinceMembers(f.samples, LastT(f) - 20.0);
    MedianAbove(fast, c);
    TailThresholdMonotone(f.peak, m);
  }

  /** No hold is ever opened, so no evaluation says "end". */
  lemma TickAbove(d: Det, k: Tick, c: real, m: real)
    requires Above(d, c, m) && d.holdSince.None? && c < k.x.Power() <= m
    ensures var r := TickStep(d, k); Above(r.0, c, m) && r.0.holdSince.None? && !r.1
  {
    FeedAbove(d, k.x, c, m);
    EvalTimeIrrelevant(Fed(d, k), k.x.t);
    hide Converged, RecoverySec, PFast, TailThreshold, Trim;
  }

  lemma {:induction false} RunAbove(ks: seq<Tick>, c: real, m: real)
    requires 0.0 <= m && TailThreshold(m) <= c
    requires forall k :: 0 <= k < |ks| ==> c < ks[k].x.Power() <= m
    ensures Above(TickRun(RESET, ks), c, m) && TickRun(RESET, ks).holdSince.None?
    ensures ks != [] ==> !Verdict(RESET, ks, |ks| - 1)
  {
    hide TickStep, TailThreshold;
    if ks != [] {
      RunAbove(ks[..|ks| - 1], c, m);
      TickAbove(TickRun(RESET, ks[..|ks| - 1]), ks[|ks| - 1], c, m);
    }
  }

  lemma {:induction false} LargestPower(xs: seq<Sample>) returns (j: nat)
    requires xs != []
    ensures j < |xs| && forall i :: 0 <= i < |xs| ==> xs[i].Power() <= xs[j].Power()
  {
    var n := |xs| - 1;
    j := n;
    if n > 0 {
      var m := LargestPower(xs[..n]);
      if xs[m].Power() > xs[n].Power() { j := m; }
      forall i | 0 <= i < |xs| ensures xs[i].Power() <= xs[j].Power() {
        if i < n { assert xs[..n][i] == xs[i]; }
      }
    }
  }

  /**
   * A charge that draws enough never ends.  On every run from the reset, in whatever order its times
   * are and however it is evaluated: if every power fed so far is above 0.05 W, and above 0.6 W or
   * above a fifth of the largest power fed so far, no verdict has been "end".
   */
  lemma {:induction false} DrawingEnoughNeverEnds(ks: seq<Tick>, n: nat)
    requires n < |ks| && DrawsEnough(Samples(ks[..n + 1]))
    ensures !Verdict(RESET, ks, n)
  {
    hide TickStep, TickRun;
    var run := ks[..n + 1];
    var xs := Samples(run);
    var j := LargestPower(xs);
    var m := xs[j].Power();
    forall k | 0 <= k < |run| ensures TailThreshold(m) < run[k].x.Power() <= m {
      assert xs[k] == run[k].x;
    }
    RunAbove(run, TailThreshold(m), m);
    assert run[..n] == ks[..n];
  }

  // ----- a charge that draws too little must end -----

  /** At reading a, nothing in the last 20 s drew less than `high`. */
  ghost predicate DrewFor20s(xs: seq<Sample>, a: int, high: real) {
    && 0 <= a < |xs|
    && forall k :: 0 <= k <= a && xs[k].t >= xs[a].t - 20.0 ==> xs[k].Power() >= high
  }

  lemma MedianAtLeast(s: seq<real>, c: real)
    requires s != [] && forall k :: 0 <= k < |s| ==> s[k] >= c
    ensures Median(s) >= c
  {
    if Median(s) < c {
      MedianAbove(s, (Median(s) + c) / 2.0);
    }
  }

  /** The point is one that was fed. */
  ghost predicate WasFed(ks: seq<Tick>, p: Pt) {
    exists k :: 0 <= k < |ks| && p == Pt(ks[k].x.t, Power(ks[k].x.v, ks[k].x.i))
  }

  /** Evaluating the detector changes its timers only. */
  lemma EvaluationKeepsWindow(d: Det, k: Tick)
    ensures var r, f := TickStep(d, k).0, Fed(d, k);
            r.samples == f.samples && r.peak == f.peak && r.lastT == f.lastT && r.lastV == f.lastV
  {
    hide RecoverySec, Converged, Feed;
  }

  lemma {:induction false} WindowWasFed(ks: seq<Tick>)
    ensures forall p :: p in TickRun(RESET, ks).samples ==> WasFed(ks, p)
  {
    if ks != [] {
      var init, k := ks[..|ks| - 1], ks[|ks| - 1];
      WindowWasFed(init);
      EvaluationKeepsWindow(TickRun(RESET, init), k);
      FedWasFed(TickRun(RESET, init), ks);
    }
  }

  lemma FedWasFed(d: Det, ks: seq<Tick>)
    requires ks != [] && forall p :: p in d.samples ==> WasFed(ks[..|ks| - 1], p)
    ensures forall p :: p in Fed(d, ks[|ks| - 1]).samples ==> WasFed(ks, p)
  {
    hide PFast;
    var n := |ks| - 1;
    var k := ks[n];
    TrimKeepsMembers(d.samples + [Pt(k.x.t, Power(k.x.v, k.x.i))], k.x.t - 300.0);
    forall p | p in Fed(d, k).samples ensures WasFed(ks, p) {
      if p in d.samples {
        assert WasFed(ks[..n], p);
        var q :| 0 <= q < n && p == Pt(ks[..n][q].x.t, Power(ks[..n][q].x.v, ks[..n][q].x.i));
        assert ks[..n][q] == ks[q];
      }
    }
  }

  lemma PeakGrows(d: Det, k: Tick)
    ensures TickStep(d, k).0.peak >= Fed(d, k).peak >= d.peak
    ensures Fed(d, k).peak >= PFast(Fed(d, k))
  {
    EvaluationKeepsWindow(d, k);
    FeedRaisesPeak(d, k.x);
    hide PFast, ShouldEnd;
  }

  /** What was drawn for 20 s is in the peak from then on. */
  lemma {:induction false} PeakRemembers(ks: seq<Tick>, a: nat, high: real)
    requires DrewFor20s(Samples(ks), a, high)
    ensures TickRun(RESET, ks).peak >= high
    decreases |ks|
  {
    hide TickStep, Fed, PFast;
    var n := |ks| - 1;
    var init := ks[..n];
    PeakGrows(TickRun(RESET, init), ks[n]);
    if a < n {
      assert forall k :: 0 <= k < n ==> Samples(init)[k] == Samples(ks)[k];
      PeakRemembers(init, a, high);
    } else {
      FastAtLeast(ks, high);
    }
  }

  lemma {:induction false} FastAtLeast(ks: seq<Tick>, high: real)
    requires DrewFor20s(Samples(ks), |ks| - 1, high)
    ensures PFast(Fed(TickRun(RESET, ks[..|ks| - 1]), ks[|ks| - 1])) >= high
  {
    hide TickStep, Feed, TickRun;
    var n := |ks| - 1;
    var d := TickRun(RESET, ks[..n]);
    var f := Fed(d, ks[n]);
    WindowWasFed(ks[..n]);
    FedWasFed(d, ks);
    NewestCounts(d, ks[n].x, 20.0);
    var fast := Since(f.samples, LastT(f) - 20.0);
    SinceMembers(f.samples, LastT(f) - 20.0);
    forall q | 0 <= q < |fast| ensures fast[q] >= high {
      assert Shows(f.samples, LastT(f) - 20.0, fast[q]);
      var m :| 0 <= m < |f.samples| && f.samples[m].t >= LastT(f) - 20.0 && f.samples[m].p == fast[q];
      assert f.samples[m] in f.samples;
      assert WasFed(ks, f.samples[m]);
      var k :| 0 <= k < |ks| && f.samples[m] == Pt(ks[k].x.t, Power(ks[k].x.v, ks[k].x.i));
      assert Samples(ks)[k].t >= Samples(ks)[n].t - 20.0;
    }
    MedianAtLeast(fast, high);
  }

  lemma {:induction false} RunSplits(d: Det, a: seq<Tick>, b: seq<Tick>)
    ensures TickRun(d, a + b) == TickRun(TickRun(d, a), b)
  {
    hide TickStep;
    if b == [] {
      assert a + b == a;
    } else {
      assert (a + b)[..|a + b| - 1] == a + b[..|b| - 1];
      RunSplits(d, a, b[..|b| - 1]);
    }
  }

  /** From tick b on, at or after time s: power at or below `low`, with live voltage; before it, earlier times. */
  ghost predicate LowFrom(ks: seq<Tick>, b: nat, s: real, low: real) {
    && (forall k :: 0 <= k < b && k < |ks| ==> ks[k].x.t < s)
    && (forall k :: b <= k < |ks| ==> ks[k].x.t >= s && ks[k].x.Power() <= low && ks[k].x.v >= 4.0)
  }

  /** From tick b on, every evaluation sees at least 0.05 Wh and the same session start. */
  ghost predicate WorthFrom(ks: seq<Tick>, b: nat, start: Option<real>) {
    forall k :: b <= k < |ks| && ks[k].ev.Some? ==> ks[k].ev.value.wh >= 0.05 && ks[k].ev.value.start == start
  }

  lemma {:induction false} BeforeLowStretch(ks: seq<Tick>, b: nat, s: real)
    requires b <= |ks| && forall k :: 0 <= k < b ==> ks[k].x.t < s
    ensures var d := TickRun(RESET, ks[..b]);
            && (forall q :: 0 <= q < |d.samples| ==> d.samples[q].t < s)
            && (d.holdSince.Some? ==> d.holdSince.value < s)
  {
    hide TickStep, TickRun, Held, PFast;
    WindowWasFed(ks[..b]);
    var d := TickRun(RESET, ks[..b]);
    forall q | 0 <= q < |d.samples| ensures d.samples[q].t < s {
      assert d.samples[q] in d.samples;
      assert WasFed(ks[..b], d.samples[q]);
    }
    if d.holdSince.Some? {
      var j := HoldIsWitnessed(ks[..b]);
      HeldBasics(ks[..b], j);
    }
  }

  /**
   * A charge that draws too little must end.  Let the device have drawn at least `high` for 20 s once,
   * and let it draw at most `low` from time s on, where `low` is at most 0.05 W, or at most 0.6 W and
   * at most a fifth of `high`.  If e is an evaluation at least 180 s after s and after the session's
   * start, every evaluation at least 600 s after e says "end".
   */
  lemma {:induction false} DrawingLittleEnds(
    ks: seq<Tick>, a: nat, high: real, b: nat, s: real, low: real, start: Option<real>, e: nat, n: nat)
    requires TicksOrdered(ks) && a < b <= e < n < |ks|
    requires DrewFor20s(Samples(ks), a, high)
    requires LowFrom(ks, b, s, low) && WorthFrom(ks, b, start)
    requires low <= 0.05 || (low <= 0.6 && 5.0 * low <= high)
    requires ks[e].ev.Some? && ks[e].x.t >= s + 180.0 && (start.Some? ==> ks[e].x.t >= start.value + 180.0)
    requires ks[n].ev.Some? && ks[n].x.t >= ks[e].x.t + 600.0
    ensures Verdict(RESET, ks, n)
  {
    hide TickStep, TickRun, Threshold;
    var d, rest := TickRun(RESET, ks[..b]), ks[b..];
    BeforeLowStretch(ks, b, s);
    assert forall k :: 0 <= k < b ==> Samples(ks[..b])[k] == Samples(ks)[k];
    PeakRemembers(ks[..b], a, high);
    assert low <= Threshold(d) by { ThresholdCovers(d, high, low); }
    assert forall k :: 0 <= k < |rest| ==> rest[k] == ks[b + k];
    SessionMustEnd(d, rest, s, start, e - b, n - b);
    RunSplits(RESET, ks[..b], rest[..n - b]);
    assert ks[..b] + rest[..n - b] == ks[..n];
  }

  lemma ThresholdCovers(d: Det, high: real, low: real)
    requires d.peak >= high && (low <= 0.05 || (low <= 0.6 && 5.0 * low <= high))
    ensures low <= Threshold(d)
  {}

  // ----- what an evaluation sees, in terms of the readings -----

  /** Window, peak and last reading are the same. */
  predicate SameStatistics(d: Det, e: Det) {
    d.samples == e.samples && d.peak == e.peak && d.lastT == e.lastT && d.lastV == e.lastV
  }

  lemma FeedKeepsSame(d: Det, e: Det, x: Sample)
    requires SameStatistics(d, e)
    ensures SameStatistics(Feed(d, x.t, x.v, x.i), Feed(e, x.t, x.v, x.i))
  {
    hide MedianSince;
  }

  lemma SameAnswers(d: Det, e: Det)
    requires SameStatistics(d, e)
    ensures Converged(d) == Converged(e) && RecoverySec(d) == RecoverySec(e)
  {}

  lemma {:induction false} RunIsFeed(ks: seq<Tick>)
    ensures SameStatistics(TickRun(RESET, ks), FeedAll(RESET, Samples(ks)))
  {
    if ks != [] {
      var init, k := ks[..|ks| - 1], ks[|ks| - 1];
      RunIsFeed(init);
      assert Samples(ks)[..|init|] == Samples(init);
      FeedKeepsSame(TickRun(RESET, init), FeedAll(RESET, Samples(init)), k.x);
      EvaluationKeepsWindow(TickRun(RESET, init), k);
      hide Feed, TickStep;
    }
  }

  lemma {:induction false} FedIsFeed(ks: seq<Tick>, k: nat)
    requires k < |ks|
    ensures SameStatistics(FedAt(ks, k), FeedAll(RESET, Samples(ks[..k + 1])))
  {
    var run := ks[..k + 1];
    RunIsFeed(ks[..k]);
    assert run[..k] == ks[..k] && Samples(run)[..k] == Samples(ks[..k]);
    FeedKeepsSame(TickRun(RESET, ks[..k]), FeedAll(RESET, Samples(ks[..k])), ks[k].x);
  }

  /** p is as low as the end of a charge: at most 0.05 W, or at most 0.6 W and at most a fifth of some
      20 s median so far. */
  ghost predicate Small(xs: seq<Sample>, p: real) {
    p <= 0.05 || (p <= 0.6 && exists k :: 1 <= k <= |xs| && 5.0 * p <= HistoryMedian(xs[..k], 20.0))
  }

  lemma {:induction false} SmallIsBelowThreshold(xs: seq<Sample>, p: real)
    requires TimeOrdered(xs) && xs != []
    ensures Small(xs, p) <==> p <= Threshold(FeedAll(RESET, xs))
  {
    hide HistoryMedian, FeedAll;
    PeakIsLargestFastMedian(xs);
    var peak := FeedAll(RESET, xs).peak;
    if 0.05 < p <= 0.6 && 5.0 * p <= peak {
      var k :| 1 <= k <= |xs| && HistoryMedian(xs[..k], 20.0) == peak;
      assert 5.0 * p <= HistoryMedian(xs[..k], 20.0);
    }
  }

  lemma {:induction false} LastVoltage(xs: seq<Sample>)
    requires xs != []
    ensures FeedAll(RESET, xs).lastV == Some(xs[|xs| - 1].v)
  {
    hide PFast, Trim;
  }

  /** An evaluation finds the charge converged exactly if the voltage is live and the medians of the
      last 20 s and the last 180 s are both as low as the end of a charge. */
  lemma {:induction false} EvaluationSeesHistory(ks: seq<Tick>, k: nat)
    requires TicksOrdered(ks) && k < |ks|
    ensures var xs := Samples(ks[..k + 1]);
            Converged(FedAt(ks, k)) <==>
              ks[k].x.v >= 4.0 && Small(xs, HistoryMedian(xs, 20.0)) && Small(xs, HistoryMedian(xs, 180.0))
  {
    hide FedAt, FeedAll, Small, PFast, PSlow, Threshold, HistoryMedian;
    var xs := Samples(ks[..k + 1]);
    FedIsFeed(ks, k);
    SameAnswers(FedAt(ks, k), FeedAll(RESET, xs));
    WindowAgreesWithHistory(xs);
    LastVoltage(xs);
    SmallIsBelowThreshold(xs, HistoryMedian(xs, 20.0));
    SmallIsBelowThreshold(xs, HistoryMedian(xs, 180.0));
  }

  /** Readings a..b were all taken in the last 90 s, are all above 5 W, and lasted `sec`, counted from
      the reading before them if that is at most 300 s old. */
  ghost predicate Recovery(xs: seq<Sample>, a: int, b: int, sec: real) {
    && 0 <= a <= b < |xs|
    && (forall k :: a <= k <= b ==> xs[k].t >= xs[|xs| - 1].t - 90.0 && xs[k].Power() > 5.0)
    && sec == xs[b].t - (if a > 0 && xs[a - 1].t >= xs[|xs| - 1].t - 300.0 then xs[a - 1].t else xs[a].t)
  }

  lemma RecoveryLimit(d: Det)
    ensures RecoverThreshold(d) == 5.0
  {
    TailThresholdMonotone(d.peak, d.peak);
  }

  /** A block of the window and how long it is. */
  ghost predicate BlockOf(window: seq<Pt>, a: int, b: int, since: real, sec: real) {
    Block(window, a, b, since, 5.0) && BlockSec(window, a, b) == sec
  }

  /** The window from point k on, as a sequence of readings sees it. */
  ghost predicate Shifted(xs: seq<Sample>, window: seq<Pt>, k: int) {
    && xs != [] && 0 <= k <= |xs| && |window| == |xs| - k
    && (forall i :: 0 <= i < |window| ==>
          window[i].t == xs[k + i].t && (window[i].p > 5.0 <==> xs[k + i].Power() > 5.0))
    && forall j :: 0 <= j < |xs| ==> (j < k <==> xs[j].t < xs[|xs| - 1].t - 300.0)
  }

  lemma {:induction false} WindowIsShifted(xs: seq<Sample>, window: seq<Pt>, k: int)
    requires xs != [] && RecentSuffix(xs, window, k)
    ensures Shifted(xs, window, k)
  {
    assert forall i :: 0 <= i < |window| ==> window[i] == Points(xs)[k + i];
  }

  /** A block of the window is a recovery of the history, moved by where the window begins. */
  lemma {:induction false} BlockIsRecovery(
    xs: seq<Sample>, window: seq<Pt>, k: int, a: int, b: int, sec: real)
    requires Shifted(xs, window, k) && BlockOf(window, a, b, xs[|xs| - 1].t - 90.0, sec)
    ensures Recovery(xs, a + k, b + k, sec)
  {
    forall q | a + k <= q <= b + k ensures xs[q].t >= xs[|xs| - 1].t - 90.0 && xs[q].Power() > 5.0 {
      assert window[q - k].t == xs[k + (q - k)].t && window[q - k].p > 5.0;
    }
    assert window[b].t == xs[k + b].t && window[a].t == xs[k + a].t;
    assert a > 0 ==> window[a - 1].t == xs[k + (a - 1)].t;
  }

  lemma {:induction false} RecoveryIsBlock(
    xs: seq<Sample>, window: seq<Pt>, k: int, a: int, b: int, sec: real)
    requires Shifted(xs, window, k) && Recovery(xs, a + k, b + k, sec)
    ensures BlockOf(window, a, b, xs[|xs| - 1].t - 90.0, sec)
  {
    assert xs[a + k].t >= xs[|xs| - 1].t - 90.0;
    assert a >= 0;
    forall q | a <= q <= b ensures window[q].t >= xs[|xs| - 1].t - 90.0 && window[q].p > 5.0 {
      assert xs[q + k].t >= xs[|xs| - 1].t - 90.0 && xs[q + k].Power() > 5.0;
    }
    assert window[b].t == xs[k + b].t && window[a].t == xs[k + a].t;
    assert a > 0 ==> window[a - 1].t == xs[k + (a - 1)].t;
  }

  lemma {:induction false} LongestBlock(xs: seq<Sample>)
    requires TimeOrdered(xs) && xs != []
    ensures var d := FeedAll(RESET, xs);
            var since, r := xs[|xs| - 1].t - 90.0, RecoverySec(d);
            && (forall a, b, sec :: BlockOf(d.samples, a, b, since, sec) ==> sec <= r)
            && (r == 0.0 || exists a, b :: BlockOf(d.samples, a, b, since, r))
  {
    hide FeedAll, RecoverySec, BlockSec;
    var d := FeedAll(RESET, xs);
    RecoveryLimit(d);
    RecoverySecIsLongestRecovery(xs);
    if RecoverySec(d) != 0.0 {
      var a, b :| Block(d.samples, a, b, xs[|xs| - 1].t - 90.0, 5.0) && BlockSec(d.samples, a, b) == RecoverySec(d);
      assert BlockOf(d.samples, a, b, xs[|xs| - 1].t - 90.0, RecoverySec(d));
    }
  }

  lemma {:induction false} LongestRecovery(xs: seq<Sample>)
    requires TimeOrdered(xs) && xs != []
    ensures var r := RecoverySec(FeedAll(RESET, xs));
            && (forall a, b, sec :: Recovery(xs, a, b, sec) ==> sec <= r)
            && (r == 0.0 || exists a, b :: Recovery(xs, a, b, r))
  {
    hide FeedAll, RecoverySec, BlockOf, PFast, PSlow, HistoryMedian, Recovery, RecentSuffix, TimeOrdered, Shifted;
    var d, r := FeedAll(RESET, xs), RecoverySec(FeedAll(RESET, xs));
    LongestBlock(xs);
    WindowAgreesWithHistory(xs);
    var w :| RecentSuffix(xs, d.samples, w);
    WindowIsShifted(xs, d.samples, w);
    forall a, b, sec | Recovery(xs, a, b, sec) ensures sec <= r {
      RecoveryIsBlock(xs, d.samples, w, a - w, b - w, sec);
    }
    if r != 0.0 {
      var a, b :| BlockOf(d.samples, a, b, xs[|xs| - 1].t - 90.0, r);
      BlockIsRecovery(xs, d.samples, w, a, b, r);
    }
  }

  /** An evaluation sees the longest recovery among the readings: 0 if there is none. */
  lemma {:induction false} EvaluationSeesRecovery(ks: seq<Tick>, k: nat)
    requires TicksOrdered(ks) && k < |ks|
    ensures var xs, r := Samples(ks[..k + 1]), RecoverySec(FedAt(ks, k));
            && (forall a, b, sec :: Recovery(xs, a, b, sec) ==> sec <= r)
            && (r == 0.0 || exists a, b :: Recovery(xs, a, b, r))
  {
    hide FedAt, FeedAll, RecoverySec, Recovery;
    var xs := Samples(ks[..k + 1]);
    FedIsFeed(ks, k);
    SameAnswers(FedAt(ks, k), FeedAll(RESET, xs));
    LongestRecovery(xs);
  }

  /** The median over the last `width` seconds is the median of the powers read in them. */
  lemma {:induction false} HistoryMedianIsOfReadings(xs: seq<Sample>, width: real, k: nat)
    requires TimeOrdered(xs) && xs != [] && k <= |xs|
    requires forall j :: 0 <= j < |xs| ==> (j < k <==> xs[j].t < xs[|xs| - 1].t - width)
    ensures exists ps: seq<real> :: |ps| == |xs| - k && HistoryMedian(xs, width) == Median(ps)
              && forall j :: 0 <= j < |ps| ==> ps[j] == if xs[k + j].Power() > 0.0 then xs[k + j].Power() else 0.0
  {
    hide Median;
    var since := xs[|xs| - 1].t - width;
    SinceIsSuffix(Points(xs), since, k);
    var ps := Since(Points(xs), since);
    assert HistoryMedian(xs, width) == Median(ps);
  }

  lemma {:induction false} SinceIsSuffix(s: seq<Pt>, since: real, k: nat)
    requires k <= |s| && forall j :: 0 <= j < |s| ==> (j < k <==> s[j].t < since)
    ensures |Since(s, since)| == |s| - k
    ensures forall j :: 0 <= j < |s| - k ==> Since(s, since)[j] == s[k + j].p
  {
    if s != [] {
      assert forall j :: 0 <= j < |s[1..]| ==> s[1..][j] == s[j + 1];
      SinceIsSuffix(s[1..], since, if k > 0 then k - 1 else 0);
    }
  }
}
