/** What the end detector guarantees over whole runs. */
module DetectorTheorems {
  import opened Common
  import opened Medians
  import opened Detection

  // ----- the trimmed window agrees with the full history -----

  function Points(xs: seq<Sample>): (r: seq<Pt>)
    ensures |r| == |xs|
    ensures forall k :: 0 <= k < |xs| ==> r[k] == Pt(xs[k].t, Power(xs[k].v, xs[k].i))
  {
    seq(|xs|, k requires 0 <= k < |xs| => Pt(xs[k].t, Power(xs[k].v, xs[k].i)))
  }

  ghost predicate TimeOrdered(xs: seq<Sample>) {
    forall i, j :: 0 <= i <= j < |xs| ==> xs[i].t <= xs[j].t
  }

  /** Trimming, appending and trimming again later is one trim of the whole. */
  lemma {:induction false} TrimTwice(h: seq<Pt>, x: Pt, c1: real, c2: real)
    requires c1 <= c2
    ensures Trim(Trim(h, c1) + [x], c2) == Trim(h + [x], c2)
  {
    if h != [] && h[0].t < c1 {
      TrimTwice(h[1..], x, c1, c2);
      assert (h + [x])[1..] == h[1..] + [x];
    }
  }

  /** Points trimmed away are older than anything the medians look at. */
  lemma {:induction false} SinceIgnoresTrimmed(h: seq<Pt>, cutoff: real, since: real)
    requires cutoff <= since
    ensures Since(Trim(h, cutoff), since) == Since(h, since)
  {
    if h != [] && h[0].t < cutoff {
      SinceIgnoresTrimmed(h[1..], cutoff, since);
    }
  }

  /** On ordered points, Trim drops exactly the prefix older than the cutoff. */
  lemma {:induction false} TrimIsSuffix(h: seq<Pt>, cutoff: real) returns (k: nat)
    requires forall i, j :: 0 <= i <= j < |h| ==> h[i].t <= h[j].t
    ensures k <= |h| && Trim(h, cutoff) == h[k..]
    ensures forall j :: 0 <= j < |h| ==> (j < k <==> h[j].t < cutoff)
  {
    if h != [] && h[0].t < cutoff {
      k := TrimIsSuffix(h[1..], cutoff);
      k := k + 1;
      assert h[1..][k - 1..] == h[k..];
      forall j | 0 <= j < |h| ensures j < k <==> h[j].t < cutoff {
        if j > 0 { assert h[1..][j - 1] == h[j]; }
      }
    } else {
      k := 0;
    }
  }

  lemma {:induction false} WindowIsTrimmedHistory(xs: seq<Sample>)
    requires TimeOrdered(xs) && xs != []
    ensures var d := FeedAll(RESET, xs);
            && d.samples == Trim(Points(xs), xs[|xs| - 1].t - 300.0)
            && d.lastT == Some(xs[|xs| - 1].t)
  {
    hide PFast;
    var n := |xs| - 1;
    var p := Pt(xs[n].t, Power(xs[n].v, xs[n].i));
    assert Points(xs) == Points(xs[..n]) + [p];
    if n > 0 {
      WindowIsTrimmedHistory(xs[..n]);
      TrimTwice(Points(xs[..n]), p, xs[n - 1].t - 300.0, xs[n].t - 300.0);
    }
  }

  /** The median of the last `width` seconds of everything fed since the reset. */
  function HistoryMedian(xs: seq<Sample>, width: real): real
    requires xs != []
  {
    MedianSince(Points(xs), xs[|xs| - 1].t - width)
  }

  /** `window` is the history from point k on, and k is the first point of the last 300 s. */
  ghost predicate RecentSuffix(xs: seq<Sample>, window: seq<Pt>, k: int)
    requires xs != []
  {
    && 0 <= k <= |xs| && window == Points(xs)[k..]
    && forall j :: 0 <= j < |xs| ==> (j < k <==> xs[j].t < xs[|xs| - 1].t - 300.0)
  }

  /** The window is exactly the recent suffix of the history, so both medians
      are medians over the full history. */
  lemma {:induction false} WindowAgreesWithHistory(xs: seq<Sample>)
    requires TimeOrdered(xs) && xs != []
    ensures var d := FeedAll(RESET, xs);
            && d.lastT == Some(xs[|xs| - 1].t)
            && (exists k :: RecentSuffix(xs, d.samples, k))
            && PFast(d) == HistoryMedian(xs, 20.0)
            && PSlow(d) == HistoryMedian(xs, 180.0)
  {
    hide Median, Since, FeedAll, Trim;
    var h, cutoff := Points(xs), xs[|xs| - 1].t - 300.0;
    WindowIsTrimmedHistory(xs);
    var k := TrimIsSuffix(h, cutoff);
    assert RecentSuffix(xs, FeedAll(RESET, xs).samples, k);
    SinceIgnoresTrimmed(h, cutoff, xs[|xs| - 1].t - 20.0);
    SinceIgnoresTrimmed(h, cutoff, xs[|xs| - 1].t - 180.0);
  }

  lemma FeedRaisesPeak(d: Det, x: Sample)
    ensures var f := Feed(d, x.t, x.v, x.i); f.peak == Max(d.peak, PFast(f))
  {
    hide MedianSince;
  }

  lemma {:induction false} PeakStep(xs: seq<Sample>)
    requires TimeOrdered(xs) && xs != []
    ensures FeedAll(RESET, xs).peak
         == Max(FeedAll(RESET, xs[..|xs| - 1]).peak, HistoryMedian(xs, 20.0))
  {
    hide HistoryMedian, MedianSince;
    WindowAgreesWithHistory(xs);
    var x := xs[|xs| - 1];
    FeedRaisesPeak(FeedAll(RESET, xs[..|xs| - 1]), x);
  }

  /** The peak is the largest 20 s median any prefix of the run ever had (0 before any). */
  lemma {:induction false} PeakIsLargestFastMedian(xs: seq<Sample>)
    requires TimeOrdered(xs)
    ensures var peak := FeedAll(RESET, xs).peak;
            && peak >= 0.0
            && (forall k :: 1 <= k <= |xs| ==> HistoryMedian(xs[..k], 20.0) <= peak)
            && (peak == 0.0 || exists k :: 1 <= k <= |xs| && HistoryMedian(xs[..k], 20.0) == peak)
  {
    hide HistoryMedian, Feed;
    if xs != [] {
      var n := |xs| - 1;
      var init := xs[..n];
      PeakIsLargestFastMedian(init);
      PeakStep(xs);
      assert xs[..|xs|] == xs;
      assert forall k :: 1 <= k <= n ==> init[..k] == xs[..k];
      var before := FeedAll(RESET, init).peak;
      if before != 0.0 {
        var k :| 1 <= k <= n && HistoryMedian(init[..k], 20.0) == before;
        assert HistoryMedian(xs[..k], 20.0) == before;
      }
    }
  }

  // ----- the one-pass recovery scan finds the longest recovery -----

  /** Points a..b are all inside the recent window and above the recovery limit. */
  ghost predicate Block(s: seq<Pt>, a: int, b: int, cutoff: real, limit: real) {
    && 0 <= a <= b < |s|
    && forall k :: a <= k <= b ==> s[k].t >= cutoff && s[k].p > limit
  }

  /** From the point just before the block (its own first point if there is none) to its end. */
  ghost function BlockSec(s: seq<Pt>, a: int, b: int): real
    requires 0 <= a <= b < |s|
  {
    s[b].t - (if a > 0 then s[a - 1].t else s[a].t)
  }

  ghost predicate PointsOrdered(s: seq<Pt>) {
    forall i, j :: 0 <= i <= j < |s| ==> s[i].t <= s[j].t
  }

  lemma LastTwoOrdered(s: seq<Pt>)
    requires PointsOrdered(s) && |s| > 1
    ensures s[|s| - 2].t <= s[|s| - 1].t
  {}

  lemma {:induction false} RunStep(s: seq<Pt>, cutoff: real, limit: real)
    requires PointsOrdered(s) && |s| > 1
    requires ScanAll(s[..|s| - 1], cutoff, limit).prev == Some(s[|s| - 2].t)
    ensures var n, r := |s| - 1, ScanAll(s, cutoff, limit);
            var before := ScanAll(s[..n], cutoff, limit).run;
            && r.prev == Some(s[n].t)
            && r.run == if Block(s, n, n, cutoff, limit) then before + (s[n].t - s[n - 1].t)
                        else if s[n].t < cutoff then before else 0.0
  {}

  /** `run` is the length of the longest block ending at the last point (0 if none ends there). */
  lemma {:induction false} RunIsCurrentBlock(s: seq<Pt>, cutoff: real, limit: real) returns (a: int)
    requires PointsOrdered(s) && s != []
    ensures var r := ScanAll(s, cutoff, limit);
            var n := |s| - 1;
            && r.prev == Some(s[n].t)
            && (if Block(s, n, n, cutoff, limit)
                then Block(s, a, n, cutoff, limit) && r.run == BlockSec(s, a, n)
                     && forall b :: Block(s, b, n, cutoff, limit) ==> BlockSec(s, b, n) <= r.run
                else r.run == 0.0)
  {
    var n := |s| - 1;
    a := n;
    if n > 0 {
      var t := s[..n];
      var a' := RunIsCurrentBlock(t, cutoff, limit);
      RunStep(s, cutoff, limit);
      hide ScanAll, PointsOrdered;
      assert s[n - 1].t <= s[n].t by { LastTwoOrdered(s); }
      if Block(s, n, n, cutoff, limit) && Block(t, n - 1, n - 1, cutoff, limit) {
        a := a';
        assert BlockSec(s, a, n) == BlockSec(t, a, n - 1) + (s[n].t - s[n - 1].t);
        forall b | Block(s, b, n, cutoff, limit) ensures BlockSec(s, b, n) <= BlockSec(s, a, n) {
          if b < n { assert Block(t, b, n - 1, cutoff, limit); }
        }
      } else if Block(s, n, n, cutoff, limit) {
        forall b | Block(s, b, n, cutoff, limit) ensures b == n {
          if b < n { assert false; }
        }
      }
    }
  }

  lemma {:induction false} LongestStep(s: seq<Pt>, cutoff: real, limit: real)
    requires s != []
    ensures var n, r := |s| - 1, ScanAll(s, cutoff, limit);
            var before := ScanAll(s[..n], cutoff, limit);
            r.longest == if Block(s, n, n, cutoff, limit) then Max(before.longest, r.run) else before.longest
  {}

  /** The single pass returns the maximum length over all blocks, and 0 when there is none. */
  lemma {:induction false} RecoveryScanIsLongestBlock(s: seq<Pt>, cutoff: real, limit: real)
    requires PointsOrdered(s)
    ensures var r := ScanAll(s, cutoff, limit).longest;
            && r >= 0.0
            && (forall a, b :: Block(s, a, b, cutoff, limit) ==> BlockSec(s, a, b) <= r)
            && (r == 0.0 || exists a, b :: Block(s, a, b, cutoff, limit) && BlockSec(s, a, b) == r)
  {
    if s != [] {
      var n := |s| - 1;
      var t := s[..n];
      RecoveryScanIsLongestBlock(t, cutoff, limit);
      var c := RunIsCurrentBlock(s, cutoff, limit);
      LongestStep(s, cutoff, limit);
      hide ScanAll;
      var before, after := ScanAll(t, cutoff, limit).longest, ScanAll(s, cutoff, limit).longest;
      forall a, b | Block(s, a, b, cutoff, limit) ensures BlockSec(s, a, b) <= after {
        if b < n {
          assert Block(t, a, b, cutoff, limit) && BlockSec(t, a, b) == BlockSec(s, a, b);
        } else {
          assert Block(s, n, n, cutoff, limit);
        }
      }
      if after != 0.0 {
        if after == before {
          var a, b :| Block(t, a, b, cutoff, limit) && BlockSec(t, a, b) == before;
          assert Block(s, a, b, cutoff, limit) && BlockSec(s, a, b) == after;
        } else {
          assert Block(s, c, n, cutoff, limit) && BlockSec(s, c, n) == after;
        }
      }
    }
  }

  lemma {:induction false} WindowIsOrdered(xs: seq<Sample>)
    requires TimeOrdered(xs) && xs != []
    ensures PointsOrdered(FeedAll(RESET, xs).samples)
    ensures LastT(FeedAll(RESET, xs)) == xs[|xs| - 1].t
  {
    hide FeedAll, PFast, PSlow, HistoryMedian, TimeOrdered, PointsOrdered;
    WindowAgreesWithHistory(xs);
    var k :| RecentSuffix(xs, FeedAll(RESET, xs).samples, k);
    SuffixIsOrdered(xs, FeedAll(RESET, xs).samples, k);
  }

  lemma {:induction false} SuffixIsOrdered(xs: seq<Sample>, window: seq<Pt>, k: nat)
    requires TimeOrdered(xs) && k <= |xs| && window == Points(xs)[k..]
    ensures PointsOrdered(window)
  {
    hide Power;
    assert forall i :: 0 <= i < |window| ==> window[i] == Points(xs)[k + i];
  }

  /** Stated for the detector: with readings in time order, `RecoverySec` is the longest
      contiguous stretch above the recovery threshold in the last 90 s. */
  lemma {:induction false} RecoverySecIsLongestRecovery(xs: seq<Sample>)
    requires TimeOrdered(xs) && xs != []
    ensures var d := FeedAll(RESET, xs);
            var cutoff, limit := xs[|xs| - 1].t - 90.0, RecoverThreshold(d);
            && (forall a, b :: Block(d.samples, a, b, cutoff, limit)
                  ==> BlockSec(d.samples, a, b) <= RecoverySec(d))
            && (RecoverySec(d) == 0.0 || exists a, b :: Block(d.samples, a, b, cutoff, limit)
                                            && BlockSec(d.samples, a, b) == RecoverySec(d))
  {
    hide FeedAll, RecoverThreshold, ScanAll, LastT, Block, BlockSec, PointsOrdered;
    var d := FeedAll(RESET, xs);
    WindowIsOrdered(xs);
    RecoveryScanIsLongestBlock(d.samples, xs[|xs| - 1].t - 90.0, RecoverThreshold(d));
  }

  // ----- runs of readings and evaluations -----

  datatype Eval = Eval(wh: real, start: Option<real>)

  /** A reading is always fed; it is evaluated only when the port carries load. */
  datatype Tick = Tick(x: Sample, ev: Option<Eval>)

  function Fed(d: Det, k: Tick): Det {
    Feed(d, k.x.t, k.x.v, k.x.i)
  }

  function TickStep(d: Det, k: Tick): (Det, bool) {
    if k.ev.None? then (Fed(d, k), false)
    else ShouldEnd(Fed(d, k), k.x.t, k.ev.value.wh, k.ev.value.start)
  }

  function TickRun(d: Det, ks: seq<Tick>): Det {
    if ks == [] then d else TickStep(TickRun(d, ks[..|ks| - 1]), ks[|ks| - 1]).0
  }

  /** The verdict given at tick n of a run from d. */
  function Verdict(d: Det, ks: seq<Tick>, n: nat): bool
    requires n < |ks|
  {
    TickStep(TickRun(d, ks[..n]), ks[n]).1
  }

  function Samples(ks: seq<Tick>): (r: seq<Sample>)
    ensures |r| == |ks| && forall k :: 0 <= k < |ks| ==> r[k] == ks[k].x
  {
    seq(|ks|, k requires 0 <= k < |ks| => ks[k].x)
  }

  ghost predicate TicksOrdered(ks: seq<Tick>) {
    forall i, j :: 0 <= i <= j < |ks| ==> ks[i].x.t <= ks[j].x.t
  }

  // ----- a session must end -----

  /** Every window point from time s on is at or below `low`, which the threshold still covers. */
  ghost predicate LowSince(d: Det, s: real, low: real) {
    && 0.05 <= low <= Threshold(d)
    && forall k :: 0 <= k < |d.samples| && d.samples[k].t >= s ==> d.samples[k].p <= low
  }

  lemma {:induction false} TrimKeepsMembers(h: seq<Pt>, cutoff: real)
    ensures forall x :: x in Trim(h, cutoff) ==> x in h
  {
    if h != [] && h[0].t < cutoff {
      TrimKeepsMembers(h[1..], cutoff);
    }
  }

  lemma FeedKeepsLow(d: Det, s: real, low: real, x: Sample)
    requires LowSince(d, s, low) && x.v * x.i <= low
    ensures LowSince(Feed(d, x.t, x.v, x.i), s, low)
  {
    var d' := Feed(d, x.t, x.v, x.i);
    var h := d.samples + [Pt(x.t, Power(x.v, x.i))];
    TrimKeepsMembers(h, x.t - 300.0);
    TailThresholdMonotone(d.peak, d'.peak);
    forall k | 0 <= k < |d'.samples| && d'.samples[k].t >= s ensures d'.samples[k].p <= low {
      assert d'.samples[k] in h;
    }
  }

  lemma {:induction false} SinceLow(s: seq<Pt>, since: real, low: real)
    requires forall k :: 0 <= k < |s| && s[k].t >= since ==> s[k].p <= low
    ensures forall k :: 0 <= k < |Since(s, since)| ==> Since(s, since)[k] <= low
  {
    if s != [] {
      assert forall k :: 0 <= k < |s[1..]| ==> s[1..][k] == s[k + 1];
      SinceLow(s[1..], since, low);
    }
  }

  /** Every window point and the peak are at or below c. */
  ghost predicate Bounded(d: Det, c: real) {
    && d.peak <= c
    && forall k :: 0 <= k < |d.samples| ==> d.samples[k].p <= c
  }

  lemma FeedBounded(d: Det, x: Sample, c: real)
    requires Bounded(d, c) && c >= 0.0 && x.Power() <= c
    ensures Bounded(Feed(d, x.t, x.v, x.i), c)
  {
    hide Median, Threshold;
    var h := d.samples + [Pt(x.t, Power(x.v, x.i))];
    TrimKeepsMembers(h, x.t - 300.0);
    var f := Feed(d, x.t, x.v, x.i);
    forall k | 0 <= k < |f.samples| ensures f.samples[k].p <= c {
      assert f.samples[k] in h;
    }
    SinceLow(f.samples, LastT(f) - 20.0, c);
    MedianBounded(Since(f.samples, LastT(f) - 20.0), c);
    FeedRaisesPeak(d, x);
  }

  lemma {:induction false} NoRecoveryWhenLow(s: seq<Pt>, cutoff: real, limit: real)
    requires forall k :: 0 <= k < |s| && s[k].t >= cutoff ==> s[k].p <= limit
    ensures ScanAll(s, cutoff, limit).run == 0.0 == ScanAll(s, cutoff, limit).longest
  {
    if s != [] {
      NoRecoveryWhenLow(s[..|s| - 1], cutoff, limit);
    }
  }

  /** 180 s into a low stretch the detector is converged and sees no recovery at all. */
  lemma LowIsConverged(d: Det, s: real, low: real)
    requires LowSince(d, s, low)
    requires d.lastT.Some? && d.lastT.value >= s + 180.0
    requires d.lastV.Some? && d.lastV.value >= 4.0
    ensures Converged(d) && RecoverySec(d) == 0.0
  {
    TailThresholdMonotone(d.peak, d.peak);
    assert LastT(d) == d.lastT.value;
    SinceLow(d.samples, LastT(d) - 20.0, low);
    MedianBounded(Since(d.samples, LastT(d) - 20.0), low);
    SinceLow(d.samples, LastT(d) - 180.0, low);
    MedianBounded(Since(d.samples, LastT(d) - 180.0), low);
    NoRecoveryWhenLow(d.samples, LastT(d) - 90.0, RecoverThreshold(d));
  }

  /** The time of the last evaluation plays no part in the detector's statistics. */
  lemma EvalTimeIrrelevant(d: Det, t: real)
    ensures RecoverySec(d.(lastEval := Some(t))) == RecoverySec(d)
    ensures Converged(d.(lastEval := Some(t))) == Converged(d)
  {}

  /** A tick drops the hold, keeps it, or opens one at its own time. */
  lemma TickHoldTime(d: Det, k: Tick)
    ensures var h := TickStep(d, k).0.holdSince; h.None? || h == d.holdSince || h == Some(k.x.t)
  {
    hide RecoverySec, Converged, PFast;
  }

  /** One evaluated tick well inside a low stretch: the hold survives, and the verdict
      is exactly "held for 600 s". */
  lemma LowTickHolds(d: Det, k: Tick, s: real, low: real)
    requires LowSince(d, s, low) && k.x.v * k.x.i <= low && k.x.v >= 4.0
    requires k.x.t >= s + 180.0
    requires k.ev.Some? && PassesGates(k.x.t, k.ev.value.wh, k.ev.value.start)
    ensures LowSince(TickStep(d, k).0, s, low)
    ensures TickStep(d, k).0.holdSince
         == if d.holdSince.Some? then d.holdSince else Some(k.x.t)
    ensures TickStep(d, k).1 <==> k.x.t - TickStep(d, k).0.holdSince.value >= 600.0
  {
    FeedKeepsLow(d, s, low, k.x);
    var f := Fed(d, k);
    LowIsConverged(f, s, low);
    EvalTimeIrrelevant(f, k.x.t);
  }

  lemma TickKeepsLow(d: Det, k: Tick, s: real, low: real)
    requires LowSince(d, s, low) && k.x.v * k.x.i <= low
    ensures LowSince(TickStep(d, k).0, s, low)
  {
    FeedKeepsLow(d, s, low, k.x);
  }

  /** What holds from time s on: low power, a live voltage. */
  ghost predicate LowTicks(ks: seq<Tick>, s: real, low: real) {
    forall k :: 0 <= k < |ks| ==>
      s <= ks[k].x.t && ks[k].x.v * ks[k].x.i <= low && ks[k].x.v >= 4.0
  }

  /** Every evaluation of the run sees enough energy and the same session start. */
  ghost predicate EvaluatedWith(ks: seq<Tick>, start: Option<real>) {
    forall k :: 0 <= k < |ks| && ks[k].ev.Some? ==>
      ks[k].ev.value.wh >= 0.05 && ks[k].ev.value.start == start
  }

  lemma {:induction false} LowRun(d: Det, ks: seq<Tick>, s: real, low: real)
    requires LowSince(d, s, low) && LowTicks(ks, s, low)
    requires TicksOrdered(ks)
    requires d.holdSince.Some? ==> d.holdSince.value <= s
    ensures LowSince(TickRun(d, ks), s, low)
    ensures var h := TickRun(d, ks).holdSince;
            h.Some? ==> if ks == [] then h.value <= s else h.value <= ks[|ks| - 1].x.t
  {
    hide TickStep, LowSince;
    if ks != [] {
      LowRun(d, ks[..|ks| - 1], s, low);
      TickHoldTime(TickRun(d, ks[..|ks| - 1]), ks[|ks| - 1]);
      TickKeepsLow(TickRun(d, ks[..|ks| - 1]), ks[|ks| - 1], s, low);
    }
  }

  lemma UnevaluatedKeepsHold(d: Det, k: Tick)
    requires k.ev.None? && k.x.v >= 4.0
    ensures TickStep(d, k).0.holdSince == d.holdSince
  {
    hide PFast;
  }

  /** From the first evaluation e, 180 s past both s and the session start, the hold is on
      and never younger than that evaluation. */
  lemma {:induction false} LowRunHolds(d: Det, ks: seq<Tick>, s: real, start: Option<real>, e: nat)
    requires LowSince(d, s, Threshold(d)) && LowTicks(ks, s, Threshold(d))
    requires TicksOrdered(ks) && EvaluatedWith(ks, start)
    requires d.holdSince.Some? ==> d.holdSince.value <= s
    requires e < |ks| && ks[e].ev.Some? && ks[e].x.t >= s + 180.0
    requires start.Some? ==> ks[e].x.t >= start.value + 180.0
    ensures TickRun(d, ks).holdSince.Some? && TickRun(d, ks).holdSince.value <= ks[e].x.t
    decreases |ks|
  {
    hide TickStep, Threshold, LowSince;
    var low := Threshold(d);
    var n := |ks| - 1;
    var d' := TickRun(d, ks[..n]);
    LowRun(d, ks[..n], s, low);
    if e == n {
      LowTickHolds(d', ks[n], s, low);
    } else {
      LowRunHolds(d, ks[..n], s, start, e);
      if ks[n].ev.Some? {
        LowTickHolds(d', ks[n], s, low);
      } else {
        UnevaluatedKeepsHold(d', ks[n]);
      }
    }
  }

  /**
   * A session must end.  Let d be the detector at time s (its older points are arbitrary) and
   * let every reading from s on be at or below the threshold of that moment, with live voltage;
   * let every evaluation see at least 0.05 and the same session start.  If e is an evaluation
   * at least 180 s after both s and the start, then every evaluation at least 600 s after e
   * says "end".
   */
  lemma SessionMustEnd(d: Det, ks: seq<Tick>, s: real, start: Option<real>, e: nat, n: nat)
    requires forall k :: 0 <= k < |d.samples| ==> d.samples[k].t < s
    requires d.holdSince.Some? ==> d.holdSince.value <= s
    requires LowTicks(ks, s, Threshold(d)) && TicksOrdered(ks) && EvaluatedWith(ks, start)
    requires e < n < |ks| && ks[e].ev.Some? && ks[n].ev.Some?
    requires ks[e].x.t >= s + 180.0 && (start.Some? ==> ks[e].x.t >= start.value + 180.0)
    requires ks[n].x.t >= ks[e].x.t + 600.0
    ensures Verdict(d, ks, n)
  {
    hide TickStep, PFast;
    TailThresholdMonotone(d.peak, d.peak);
    var low := Threshold(d);
    LowRunHolds(d, ks[..n], s, start, e);
    LowRun(d, ks[..n], s, low);
    LowTickHolds(TickRun(d, ks[..n]), ks[n], s, low);
  }

  // ----- a session may end only when justified -----

  /** The detector as evaluation k of a run from the reset sees it. */
  ghost function FedAt(ks: seq<Tick>, k: nat): Det
    requires k < |ks|
  {
    Fed(TickRun(RESET, ks[..k]), ks[k])
  }

  /** Time of the last evaluated tick. */
  ghost function LastEvalTime(ks: seq<Tick>): Option<real> {
    if ks == [] then None
    else if ks[|ks| - 1].ev.Some? then Some(ks[|ks| - 1].x.t)
    else LastEvalTime(ks[..|ks| - 1])
  }

  /** Seconds between consecutive evaluations after tick j that ended in an evaluation which
      was converged (`conv`) respectively not converged (`!conv`). */
  ghost function EvaluatedSec(ks: seq<Tick>, j: nat, conv: bool): real {
    if |ks| <= j + 1 then 0.0
    else
      var n := |ks| - 1;
      var before := LastEvalTime(ks[..n]);
      EvaluatedSec(ks[..n], j, conv)
      + if ks[n].ev.Some? && Converged(FedAt(ks, n)) == conv && before.Some?
        then Max(0.0, ks[n].x.t - before.value) else 0.0
  }

  /** An evaluation with at least 0.05 Wh, at least 180 s after the session's start if there is one
      (the time 0.0 counts as none). */
  predicate GatesPassed(k: Tick)
    requires k.ev.Some?
  {
    && k.ev.value.wh >= 0.05
    && (k.ev.value.start.Some? && k.ev.value.start.value != 0.0 ==> k.x.t - k.ev.value.start.value >= 180.0)
  }

  /** Tick j opened a hold that nothing since has broken. */
  ghost predicate Held(ks: seq<Tick>, j: nat) {
    && j < |ks| && ks[j].ev.Some? && Converged(FedAt(ks, j))
    && (forall k :: j <= k < |ks| ==> ks[k].x.v >= 4.0)
    && (forall k :: j <= k < |ks| && ks[k].ev.Some? ==>
          && GatesPassed(ks[k])
          && RecoverySec(FedAt(ks, k)) < 45.0)
    && EvaluatedSec(ks, j, false) <= 120.0
  }

  lemma ConvergedHasVoltage(d: Det, k: Tick)
    ensures Converged(Fed(d, k)) ==> k.x.v >= 4.0
  {
    hide PFast, PSlow;
  }

  lemma {:induction false} HeldBasics(ks: seq<Tick>, j: nat)
    requires Held(ks, j)
    ensures j < |ks| && EvaluatedSec(ks, j, false) <= 120.0 && ks[j].ev.Some?
    ensures GatesPassed(ks[j])
  {}

  /** One more tick that breaks nothing extends a hold. */
  lemma {:induction false} HeldExtends(ks: seq<Tick>, j: nat)
    requires ks != [] && Held(ks[..|ks| - 1], j)
    requires var k := ks[|ks| - 1];
             && k.x.v >= 4.0
             && (k.ev.Some? ==>
                   && GatesPassed(k)
                   && RecoverySec(FedAt(ks, |ks| - 1)) < 45.0)
    requires EvaluatedSec(ks, j, false) <= 120.0
    ensures Held(ks, j)
  {
    hide PFast, RecoverySec, Converged, TickStep, Fed;
    var init := ks[..|ks| - 1];
    forall k | 0 <= k < |init| ensures FedAt(init, k) == FedAt(ks, k) {
      assert init[..k] == ks[..k];
    }
  }

  /** The hold timer always points at a tick that opened an unbroken hold, and the grace
      counter is exactly the non-converged time since. */
  lemma {:induction false} HoldIsWitnessed(ks: seq<Tick>) returns (j: nat)
    requires TickRun(RESET, ks).holdSince.Some?
    ensures Held(ks, j) && TickRun(RESET, ks).holdSince == Some(ks[j].x.t)
    ensures TickRun(RESET, ks).grace == EvaluatedSec(ks, j, false)
    ensures TickRun(RESET, ks).lastEval == LastEvalTime(ks) && LastEvalTime(ks).Some?
  {
    hide PFast, RecoverySec, Converged, Held, Threshold, Trim;
    var n := |ks| - 1;
    var d := TickRun(RESET, ks[..n]);
    var f := FedAt(ks, n);
    EvalTimeIrrelevant(f, ks[n].x.t);
    if f.holdSince.Some? {
      j := HoldIsWitnessed(ks[..n]);
      HeldBasics(ks[..n], j);
      HeldExtends(ks, j);
    } else {
      j := n;
      ConvergedHasVoltage(d, ks[n]);
      OpensHold(ks);
    }
  }

  lemma OpensHold(ks: seq<Tick>)
    requires ks != []
    requires var k := ks[|ks| - 1];
             && k.ev.Some? && k.x.v >= 4.0
             && GatesPassed(k)
             && Converged(FedAt(ks, |ks| - 1)) && RecoverySec(FedAt(ks, |ks| - 1)) < 45.0
    ensures Held(ks, |ks| - 1)
  {
    hide RecoverySec, Converged, FedAt;
  }

  /** With ordered times, converged plus non-converged time is the whole hold. */
  lemma {:induction false} HoldTimeSplits(ks: seq<Tick>, j: nat)
    requires TicksOrdered(ks) && j < |ks| && ks[j].ev.Some?
    ensures LastEvalTime(ks).Some? && LastEvalTime(ks).value <= ks[|ks| - 1].x.t
    ensures EvaluatedSec(ks, j, true) + EvaluatedSec(ks, j, false) == LastEvalTime(ks).value - ks[j].x.t
  {
    if |ks| > j + 1 {
      HoldTimeSplits(ks[..|ks| - 1], j);
    }
  }

  /** Evaluation j opened the hold on which the final verdict rests. */
  ghost predicate Justifies(ks: seq<Tick>, j: nat) {
    && Held(ks, j)
    && ks[|ks| - 1].ev.Some? && ks[|ks| - 1].x.t - ks[j].x.t >= 600.0
    && (TicksOrdered(ks) ==> EvaluatedSec(ks, j, true) >= 480.0)
    && (ks[j].ev.value.start.Some? && ks[j].ev.value.start.value != 0.0 ==>
          ks[|ks| - 1].x.t >= ks[j].ev.value.start.value + 780.0)
  }

  /**
   * A session may end only when justified.  Whenever the last evaluation of a run from the reset
   * says "end", some evaluation j opened a hold that spans at least 600 s, has at most 120 s of
   * non-converged time (so at least 480 s converged when times are ordered), contains no reading
   * below 4 V and no evaluation that saw a recovery of 45 s; and with a fixed non-zero session
   * start the moment is at least 780 s after that start.
   */
  lemma SessionEndsOnlyWhenJustified(ks: seq<Tick>)
    requires ks != [] && Verdict(RESET, ks, |ks| - 1)
    ensures exists j: nat :: Justifies(ks, j)
  {
    hide PFast, RecoverySec, Converged, Held;
    var j := HoldIsWitnessed(ks);
    HeldBasics(ks, j);
    if TicksOrdered(ks) {
      HoldTimeSplits(ks, j);
    }
    assert Justifies(ks, j);
  }

  // ----- and once it is justified it must -----

  /** An evaluation that may open a hold: gates passed, no recovery, converged. */
  ghost predicate MayOpen(ks: seq<Tick>, k: nat)
    requires k < |ks|
  {
    && ks[k].ev.Some? && GatesPassed(ks[k]) && RecoverySec(FedAt(ks, k)) < 45.0 && Converged(FedAt(ks, k))
  }

  /** Tick j is the first that may open a hold, and that hold has not been broken since. */
  ghost predicate FirstHold(ks: seq<Tick>, j: nat) {
    && Held(ks, j)
    && forall k :: 0 <= k < j ==> !MayOpen(ks, k)
  }

  lemma {:induction false} SameInit(ks: seq<Tick>, k: nat)
    requires k + 1 < |ks|
    ensures FedAt(ks[..|ks| - 1], k) == FedAt(ks, k) && ks[..|ks| - 1][k] == ks[k]
  {
    assert ks[..|ks| - 1][..k] == ks[..k];
  }

  lemma {:induction false} MayOpenInit(ks: seq<Tick>, k: nat)
    requires k + 1 < |ks|
    ensures MayOpen(ks[..|ks| - 1], k) == MayOpen(ks, k)
  {
    hide RecoverySec, Converged, FedAt, GatesPassed;
    SameInit(ks, k);
  }

  /** Before the first tick that may open one there is no hold. */
  lemma {:induction false} NoHoldBefore(ks: seq<Tick>)
    requires forall k :: 0 <= k < |ks| ==> !MayOpen(ks, k)
    ensures TickRun(RESET, ks).holdSince.None?
  {
    hide PFast, RecoverySec, Converged, Threshold, Trim;
    if ks != [] {
      var n := |ks| - 1;
      forall k | 0 <= k < n ensures !MayOpen(ks[..n], k) { MayOpenInit(ks, k); }
      NoHoldBefore(ks[..n]);
      assert !MayOpen(ks, n);
      EvalTimeIrrelevant(FedAt(ks, n), ks[n].x.t);
    }
  }

  lemma {:induction false} HeldInit(ks: seq<Tick>, j: nat)
    requires Held(ks, j) && j + 1 < |ks|
    ensures Held(ks[..|ks| - 1], j)
  {
    hide PFast, RecoverySec, Converged, TickStep, Fed, FedAt;
    var n := |ks| - 1;
    forall k | 0 <= k < n ensures FedAt(ks[..n], k) == FedAt(ks, k) && ks[..n][k] == ks[k] { SameInit(ks, k); }
    EvaluatedSecGrows(ks, j);
  }

  lemma {:induction false} EvaluatedSecGrows(ks: seq<Tick>, j: nat)
    requires j + 1 < |ks|
    ensures EvaluatedSec(ks[..|ks| - 1], j, false) <= EvaluatedSec(ks, j, false)
  {
    hide Converged, FedAt;
  }

  /** The first hold runs from its opening on, its grace counting the non-converged time. */
  lemma {:induction false} FirstHoldRuns(ks: seq<Tick>, j: nat)
    requires FirstHold(ks, j)
    ensures var d := TickRun(RESET, ks);
            d.holdSince == Some(ks[j].x.t) && d.grace == EvaluatedSec(ks, j, false) && d.lastEval == LastEvalTime(ks)
    decreases |ks|
  {
    hide PFast, RecoverySec, Converged, Threshold, Trim, Held;
    var n := |ks| - 1;
    HeldBasics(ks, j);
    HeldAt(ks, j, n);
    EvalTimeIrrelevant(FedAt(ks, n), ks[n].x.t);
    if j < n {
      HeldInit(ks, j);
      forall k | 0 <= k < j ensures !MayOpen(ks[..n], k) { MayOpenInit(ks, k); }
      FirstHoldRuns(ks[..n], j);
      assert ks[..n][j] == ks[j];
    } else {
      forall k | 0 <= k < n ensures !MayOpen(ks[..n], k) { MayOpenInit(ks, k); }
      NoHoldBefore(ks[..n]);
      HeldOpens(ks, j);
    }
  }

  lemma {:induction false} HeldOpens(ks: seq<Tick>, j: nat)
    requires Held(ks, j)
    ensures Converged(FedAt(ks, j))
  {}

  lemma {:induction false} HeldAt(ks: seq<Tick>, j: nat, k: nat)
    requires Held(ks, j) && j <= k < |ks|
    ensures ks[k].x.v >= 4.0 && (ks[k].ev.Some? ==> GatesPassed(ks[k]) && RecoverySec(FedAt(ks, k)) < 45.0)
  {}

  /**
   * A session must end once it is justified.  Let j be the first evaluation of a run from the reset that
   * finds the charge converged with its gates passed and no recovery of 45 s.  If nothing has broken that
   * hold (no reading below 4 V, no evaluation with closed gates or such a recovery, at most 120 s of
   * non-converged time), an evaluation 600 s or more after j says "end".
   */
  lemma {:induction false} FirstHoldEnds(ks: seq<Tick>, j: nat)
    requires FirstHold(ks, j)
    requires ks[|ks| - 1].ev.Some? && ks[|ks| - 1].x.t - ks[j].x.t >= 600.0
    ensures Verdict(RESET, ks, |ks| - 1)
  {
    hide PFast, RecoverySec, Converged, Threshold, Trim, Held, LastEvalTime, EvaluatedSec;
    var n := |ks| - 1;
    HeldBasics(ks, j);
    HeldAt(ks, j, n);
    EvalTimeIrrelevant(FedAt(ks, n), ks[n].x.t);
    FirstHoldRuns(ks, j);
    VerdictOfHold(TickRun(RESET, ks[..n]), ks[n]);
  }

  /** An evaluation that leaves a hold running answers by its length. */
  lemma VerdictOfHold(d: Det, k: Tick)
    requires k.ev.Some? && TickStep(d, k).0.holdSince.Some? && GatesPassed(k) && RecoverySec(Fed(d, k)) < 45.0
    ensures TickStep(d, k).1 <==> k.x.t - TickStep(d, k).0.holdSince.value >= 600.0
  {
    EvalTimeIrrelevant(Fed(d, k), k.x.t);
    hide RecoverySec, Converged, Fed;
  }
}
