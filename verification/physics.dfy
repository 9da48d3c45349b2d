/** The stateless physics kernel (src/simulator/physics.rs). Every `f64` is a
    `real`; the random draw of `add_noise` is an explicit argument. */
module Physics {

  /** `gen_range(-p..p)` draws from the half-open interval [-p, p). The
      interval is empty when `p <= 0`, where the source panics; no `u` then
      satisfies this predicate, so that case is excluded by the precondition. */
  predicate NoiseIn(u: real, percent: real)
  {
    -percent <= u < percent
  }

  /** Scales `value` by `1 + u/100` for a noise draw `u` in [-percent, percent). */
  function AddNoise(value: real, percent: real, u: real): (r: real)
    requires NoiseIn(u, percent)
    ensures u == 0.0 ==> r == value
    ensures value >= 0.0 && percent <= 100.0 ==> r >= 0.0
    ensures value >= 0.0 ==>
              value * (1.0 - percent / 100.0) <= r <= value * (1.0 + percent / 100.0)
    ensures value <= 0.0 ==>
              value * (1.0 + percent / 100.0) <= r <= value * (1.0 - percent / 100.0)
  {
    if value >= 0.0 then
      ScaleBand(value, 1.0 - percent / 100.0, 1.0 + u / 100.0, 1.0 + percent / 100.0);
      ScaleKeepsSign(value, 1.0 - percent / 100.0);
      value * (1.0 + u / 100.0)
    else
      ScaleBandNegative(value, 1.0 - percent / 100.0, 1.0 + u / 100.0, 1.0 + percent / 100.0);
      value * (1.0 + u / 100.0)
  }

  /** A non-negative scale keeps a factor between its bounds. */
  lemma ScaleBand(a: real, lo: real, f: real, hi: real)
    requires a >= 0.0 && lo <= f <= hi
    ensures a * lo <= a * f <= a * hi
  {
    ScaleMonotone(a, lo, f);
    ScaleMonotone(a, f, hi);
  }

  /** A non-negative value times a non-negative factor is non-negative. */
  lemma ScaleKeepsSign(a: real, f: real)
    requires a >= 0.0
    ensures f >= 0.0 ==> a * f >= 0.0
  {
    if f >= 0.0 { ScaleMonotone(a, 0.0, f); }
  }

  /** A negative scale reverses the bounds. */
  lemma ScaleBandNegative(a: real, lo: real, f: real, hi: real)
    requires a <= 0.0 && lo <= f <= hi
    ensures a * hi <= a * f <= a * lo
  {
    ScaleMonotone(-a, lo, f);
    ScaleMonotone(-a, f, hi);
  }

  /** Multiplying by a non-negative factor preserves order. */
  lemma ScaleMonotone(a: real, x: real, y: real)
    requires a >= 0.0 && x <= y
    ensures a * x <= a * y
  {
  }

  /** Linear approximation: 0 degrees is 0 bar, 100 degrees is 5 bar. */
  function TemperatureToPressure(temperature: real): (r: real)
    ensures temperature == 0.0 ==> r == 0.0
    ensures temperature == 100.0 ==> r == 5.0
    ensures temperature >= 0.0 ==> r >= 0.0
    ensures r * 20.0 == temperature
  {
    (temperature / 100.0) * 5.0
  }

  lemma TemperatureToPressureMonotone(t1: real, t2: real)
    requires t1 <= t2
    ensures TemperatureToPressure(t1) <= TemperatureToPressure(t2)
  {
  }

  /** Flow is proportional to the upstream pressure and the valve opening. */
  function CalculateFlowRate(upstreamPressure: real, valvePosition: real): (r: real)
    ensures valvePosition == 0.0 ==> r == 0.0
    ensures upstreamPressure == 0.0 ==> r == 0.0
    ensures upstreamPressure >= 0.0 && valvePosition >= 0.0 ==> r >= 0.0
  {
    upstreamPressure * valvePosition * 10.0
  }

  /** Opening the valve further never lowers the flow under non-negative pressure. */
  lemma CalculateFlowRateMonotone(pressure: real, pos1: real, pos2: real)
    requires pressure >= 0.0 && pos1 <= pos2
    ensures CalculateFlowRate(pressure, pos1) <= CalculateFlowRate(pressure, pos2)
  {
  }

  /** Upstream pressure less a loss proportional to flow and pipe length,
      floored at zero. */
  function PressureDecay(upstreamPressure: real, flowRate: real, pipeLength: real): (r: real)
    ensures r >= 0.0
    ensures r >= upstreamPressure - flowRate * pipeLength * 0.01
    ensures r > 0.0 ==> r == upstreamPressure - flowRate * pipeLength * 0.01
    ensures upstreamPressure >= 0.0 && flowRate >= 0.0 && pipeLength >= 0.0 ==>
              r <= upstreamPressure
  {
    var loss := flowRate * pipeLength * 0.01;
    Max(upstreamPressure - loss, 0.0)
  }

  /** `f64::max` without the NaN case. */
  function Max(a: real, b: real): real
  {
    if a < b then b else a
  }

  /** `f64::min` without the NaN case. */
  function Min(a: real, b: real): real
  {
    if a < b then a else b
  }

  function Abs(x: real): real
  {
    if x < 0.0 then -x else x
  }

  /** `f64::signum`: 1 for zero and positive values (`+0.0` included), -1 below zero. */
  function Signum(x: real): real
  {
    if x < 0.0 then -1.0 else 1.0
  }

  /** `f64::clamp` with `lo <= hi` (the source panics otherwise). */
  function Clamp(x: real, lo: real, hi: real): (r: real)
    requires lo <= hi
    ensures lo <= r <= hi
    ensures lo <= x <= hi ==> r == x
    ensures x < lo ==> r == lo
    ensures hi < x ==> r == hi
  {
    if x < lo then lo else if x > hi then hi else x
  }

  /** Distance between two points of the real line. */
  function Distance(a: real, b: real): real
  {
    Abs(a - b)
  }

  /** The clamped value is the point of [lo, hi] nearest to `x`. */
  lemma ClampIsNearest(x: real, lo: real, hi: real)
    requires lo <= hi
    ensures forall y :: lo <= y <= hi ==> Distance(Clamp(x, lo, hi), x) <= Distance(y, x)
  {
    var r := Clamp(x, lo, hi);
    forall y | lo <= y <= hi
      ensures Distance(r, x) <= Distance(y, x)
    {
      if x < lo {
        assert r - x == lo - x <= y - x;
      } else if hi < x {
        assert x - r == x - hi <= x - y;
      }
    }
  }
}
