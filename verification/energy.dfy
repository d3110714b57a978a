/** Energy accumulation: the trapezoid integrator and the per-port energy record. */
module Energy {
  import opened Common

  const MAX_GAP_SEC := 30.0

  datatype EState = EState(
    total: real, session: real, daily: real,
    charging: bool, start: Option<real>,
    lastPower: real, lastTime: Option<real>,
    maxPower: real, maxCurrent: real,
    lastEnd: real)

  const FRESH := EState(0.0, 0.0, 0.0, false, None, 0.0, None, 0.0, 0.0, 0.0)

  /** Energy in Wh of one trapezoid between two readings. */
  function Trapezoid(p0: real, p1: real, dt: real): real {
    (p0 + p1) / 2.0 * (dt / 3600.0)
  }

  /** Only gaps in (0, 30] s are integrated; the rest is a pause, a lost link or a clock jump. */
  predicate RegularGap(dt: real) {
    0.0 < dt <= MAX_GAP_SEC
  }

  function Integrate(es: EState, x: Sample): EState {
    var p := x.Power();
    var moved := es.(lastTime := Some(x.t), lastPower := p);
    if es.lastTime.None? || !RegularGap(x.t - es.lastTime.value) then moved
    else
      var wh := Trapezoid(es.lastPower, p, x.t - es.lastTime.value);
      moved.(total := es.total + wh, session := es.session + wh, daily := es.daily + wh,
             maxPower := Max(es.maxPower, p), maxCurrent := Max(es.maxCurrent, x.i))
  }

  function IntegrateAll(es: EState, xs: seq<Sample>): EState {
    if xs == [] then es
    else Integrate(IntegrateAll(es, xs[..|xs| - 1]), xs[|xs| - 1])
  }

  /** The reference: the trapezoid sum over a sequence of readings, in Wh for volts, amperes and
      seconds, skipping gaps that are not in (0, 30] s. */
  function Gap(a: Sample, b: Sample): real {
    if 0.0 < b.t - a.t <= 30.0 then (a.v * a.i + b.v * b.i) / 2.0 * ((b.t - a.t) / 3600.0) else 0.0
  }

  function TrapezoidSum(xs: seq<Sample>): real {
    if |xs| < 2 then 0.0
    else TrapezoidSum(xs[..|xs| - 1]) + Gap(xs[|xs| - 2], xs[|xs| - 1])
  }

  lemma IntegrateAddsGap(es: EState, a: Sample, x: Sample)
    requires es.lastTime == Some(a.t) && es.lastPower == a.Power()
    ensures var r, wh := Integrate(es, x), Gap(a, x);
            && r.total == es.total + wh && r.session == es.session + wh && r.daily == es.daily + wh
            && r.lastTime == Some(x.t) && r.lastPower == x.Power()
            && r.charging == es.charging && r.start == es.start && r.lastEnd == es.lastEnd
            && r.maxPower >= es.maxPower
  {}

  /** The integrator's running totals grow by exactly the trapezoid sum of what it is fed,
      starting from the reading it was last positioned at. */
  lemma {:induction false} IntegrateAllIsTrapezoidSum(es: EState, first: Sample, xs: seq<Sample>)
    requires es.lastTime == Some(first.t) && es.lastPower == first.Power()
    ensures var r := IntegrateAll(es, xs);
            var wh := TrapezoidSum([first] + xs);
            var last := ([first] + xs)[|xs|];
            && r.total == es.total + wh && r.session == es.session + wh && r.daily == es.daily + wh
            && r.lastTime == Some(last.t) && r.lastPower == last.Power()
            && r.charging == es.charging && r.start == es.start && r.lastEnd == es.lastEnd
            && r.maxPower >= es.maxPower
  {
    hide Gap, Integrate;
    if xs != [] {
      var init := xs[..|xs| - 1];
      IntegrateAllIsTrapezoidSum(es, first, init);
      IntegrateAddsGap(IntegrateAll(es, init), ([first] + init)[|init|], xs[|xs| - 1]);
      assert ([first] + xs)[..|xs|] == [first] + init;
    }
  }

  /** The mutable per-port record. */
  class PortEnergyState {
    var total: real
    var session: real
    var daily: real
    var charging: bool
    var start: Option<real>
    var lastPower: real
    var lastTime: Option<real>
    var maxPower: real
    var maxCurrent: real
    var lastEnd: real

    function Value(): EState
      reads this
    {
      EState(total, session, daily, charging, start, lastPower, lastTime, maxPower, maxCurrent, lastEnd)
    }

    constructor ()
      ensures Value() == FRESH
    {
      total, session, daily, charging, start := 0.0, 0.0, 0.0, false, None;
      lastPower, lastTime, maxPower, maxCurrent, lastEnd := 0.0, None, 0.0, 0.0, 0.0;
    }
  }

  class AdaptiveEnergyIntegrator {
    constructor () {}

    method Update(state: PortEnergyState, voltage: real, current: real, timestamp: real)
      returns (totalWh: real)
      modifies state
      ensures state.Value() == Integrate(old(state.Value()), Sample(timestamp, voltage, current))
      ensures totalWh == state.total
    {
      var power := voltage * current;
      if state.lastTime.None? {
        state.lastTime := Some(timestamp);
        state.lastPower := power;
        return state.total;
      }
      var dt := timestamp - state.lastTime.value;
      if dt <= 0.0 || dt > MAX_GAP_SEC {
        state.lastTime := Some(timestamp);
        state.lastPower := power;
        return state.total;
      }
      var dtHours := dt / 3600.0;
      var energy := (state.lastPower + power) / 2.0 * dtHours;
      state.total := state.total + energy;
      state.session := state.session + energy;
      state.daily := state.daily + energy;
      state.lastPower := power;
      state.lastTime := Some(timestamp);
      if power > state.maxPower {
        state.maxPower := power;
      }
      if current > state.maxCurrent {
        state.maxCurrent := current;
      }
      return state.total;
    }
  }
}
