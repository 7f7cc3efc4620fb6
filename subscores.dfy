/**
 * The per-category rules of `_autoScore`: each reading is mapped to a
 * bounded number of points. Twelve categories use the same inverted,
 * clamped linear rule (`InvLinear`); VOC is an 11-step staircase; temperature,
 * pressure and humidity score their deviation from an ideal.
 */
module SubScores {

  /** An inverted linear rule: `max` points at or below `lo`, none at or above `hi`. */
  datatype Band = Band(lo: real, hi: real, max: real)

  predicate ValidBand(b: Band)
  {
    b.lo < b.hi && 0.0 <= b.max
  }

  /** The interpolation between the thresholds, `((hi - v) / (hi - lo)) * max`. */
  function Interpolate(b: Band, v: real): real
    requires ValidBand(b)
  {
    (b.hi - v) / (b.hi - b.lo) * b.max
  }

  /** The interpolation meets the saturated values at both thresholds. */
  lemma InterpolateAtThresholds(b: Band)
    requires ValidBand(b)
    ensures Interpolate(b, b.lo) == b.max
    ensures Interpolate(b, b.hi) == 0.0
  {
  }

  /** Between the thresholds the interpolation lies in [0, max] and does not increase. */
  lemma InterpolateBounds(b: Band, v: real, w: real)
    requires ValidBand(b)
    requires b.lo <= v <= w <= b.hi
    ensures 0.0 <= Interpolate(b, w) <= Interpolate(b, v) <= b.max
  {
    var d := b.hi - b.lo;
    assert (b.hi - v) / d <= 1.0;
    assert 0.0 <= (b.hi - w) / d <= (b.hi - v) / d;
    assert (b.hi - v) / d * b.max <= 1.0 * b.max;
    assert (b.hi - w) / d * b.max <= (b.hi - v) / d * b.max;
  }

  /** The generic inverted, clamped linear rule. */
  function InvLinear(b: Band, v: real): (r: real)
    requires ValidBand(b)
    ensures 0.0 <= r <= b.max
    ensures v <= b.lo ==> r == b.max
    ensures v >= b.hi ==> r == 0.0
  {
    if v >= b.hi then 0.0
    else if v <= b.lo then b.max
    else
      InterpolateBounds(b, v, v);
      Interpolate(b, v)
  }

  /** The reading moved onto [lo, hi]. */
  function Clip(b: Band, v: real): (c: real)
    requires ValidBand(b)
    ensures b.lo <= c <= b.hi
  {
    if v < b.lo then b.lo else if v > b.hi then b.hi else v
  }

  /** The clamped rule is the interpolation at the clipped reading. */
  lemma InvLinearIsClipped(b: Band, v: real)
    requires ValidBand(b)
    ensures InvLinear(b, v) == Interpolate(b, Clip(b, v))
  {
    InterpolateAtThresholds(b);
  }

  /** A higher reading never earns more points. */
  lemma InvLinearMonotone(b: Band, v: real, w: real)
    requires ValidBand(b)
    requires v <= w
    ensures InvLinear(b, w) <= InvLinear(b, v)
  {
    InvLinearIsClipped(b, v);
    InvLinearIsClipped(b, w);
    InterpolateBounds(b, Clip(b, v), Clip(b, w));
  }

  /** The interpolation loses `max / (hi - lo)` points per unit of the reading. */
  lemma InterpolateDifference(b: Band, v: real, w: real)
    requires ValidBand(b)
    ensures Interpolate(b, v) - Interpolate(b, w) == (w - v) / (b.hi - b.lo) * b.max
  {
    var d := b.hi - b.lo;
    assert (b.hi - v) / d - (b.hi - w) / d == (w - v) / d;
  }

  /** Scaling by a non-negative factor preserves order. */
  lemma ScaleMonotone(x: real, y: real, d: real, m: real)
    requires 0.0 <= x <= y && 0.0 < d && 0.0 <= m
    ensures x / d * m <= y / d * m
  {
    assert (y - x) / d >= 0.0;
    assert y / d - x / d == (y - x) / d;
  }

  /**
   * The rule is continuous: the points change by at most `max / (hi - lo)`
   * per unit of the reading, across both thresholds.
   */
  lemma InvLinearLipschitz(b: Band, v: real, w: real)
    requires ValidBand(b)
    requires v <= w
    ensures InvLinear(b, v) - InvLinear(b, w) <= (w - v) / (b.hi - b.lo) * b.max
  {
    var v', w' := Clip(b, v), Clip(b, w);
    InvLinearIsClipped(b, v);
    InvLinearIsClipped(b, w);
    InterpolateDifference(b, v', w');
    ScaleMonotone(w' - v', w - v, b.hi - b.lo, b.max);
  }

  const Co2Band: Band := Band(800.0, 2000.0, 20.0)
  const Pm25Band: Band := Band(5.0, 75.0, 18.0)
  const AmmoniaBand: Band := Band(1.0, 50.0, 3.0)
  const CarbonMonoxideBand: Band := Band(1.0, 10.0, 15.0)
  const EthanolBand: Band := Band(1.0, 100.0, 1.0)
  const HydrogenBand: Band := Band(1.0, 10.0, 1.0)
  const MethaneBand: Band := Band(1.0, 1000.0, 2.0)
  const No2Band: Band := Band(0.1, 1.0, 5.0)
  const Pm10Band: Band := Band(10.0, 50.0, 5.0)
  const Pm1Band: Band := Band(1.0, 10.0, 6.0)
  const Pm4Band: Band := Band(5.0, 25.0, 6.0)
  const NoxBand: Band := Band(1.0, 50.0, 10.0)

  /** CO2, adjusted to 800-2000 ppm, 20 points. */
  function Co2Score(co2: real): (r: real)
    ensures ValidBand(Co2Band) && r == InvLinear(Co2Band, co2)
  {
    if co2 >= 2000.0 then 0.0
    else if co2 <= 800.0 then 20.0
    else (2000.0 - co2) / (2000.0 - 800.0) * 20.0
  }

  /** The CO2 rule at its thresholds and its midpoint. */
  lemma Co2Examples()
    ensures Co2Score(800.0) == 20.0
    ensures Co2Score(1400.0) == 10.0
    ensures Co2Score(2000.0) == 0.0
  {
  }

  /** PM2.5, adjusted to 5-75, 18 points. */
  function Pm25Score(pm25: real): (r: real)
    ensures ValidBand(Pm25Band) && r == InvLinear(Pm25Band, pm25)
  {
    if pm25 >= 75.0 then 0.0
    else if pm25 <= 5.0 then 18.0
    else (75.0 - pm25) / (75.0 - 5.0) * 18.0
  }

  /** Ammonia, 1-50, 3 points. */
  function AmmoniaScore(nh3: real): (r: real)
    ensures ValidBand(AmmoniaBand) && r == InvLinear(AmmoniaBand, nh3)
  {
    if nh3 >= 50.0 then 0.0
    else if nh3 <= 1.0 then 3.0
    else (50.0 - nh3) / (50.0 - 1.0) * 3.0
  }

  /** Carbon monoxide, 1-10, 15 points. */
  function CarbonMonoxideScore(co: real): (r: real)
    ensures ValidBand(CarbonMonoxideBand) && r == InvLinear(CarbonMonoxideBand, co)
  {
    if co >= 10.0 then 0.0
    else if co <= 1.0 then 15.0
    else (10.0 - co) / (10.0 - 1.0) * 15.0
  }

  /** Ethanol, 1-100, 1 point. */
  function EthanolScore(ethanol: real): (r: real)
    ensures ValidBand(EthanolBand) && r == InvLinear(EthanolBand, ethanol)
  {
    if ethanol >= 100.0 then 0.0
    else if ethanol <= 1.0 then 1.0
    else (100.0 - ethanol) / (100.0 - 1.0) * 1.0
  }

  /** Hydrogen, 1-10, 1 point. */
  function HydrogenScore(h2: real): (r: real)
    ensures ValidBand(HydrogenBand) && r == InvLinear(HydrogenBand, h2)
  {
    if h2 >= 10.0 then 0.0
    else if h2 <= 1.0 then 1.0
    else (10.0 - h2) / (10.0 - 1.0) * 1.0
  }

  /** Methane, 1-1000, 2 points. */
  function MethaneScore(ch4: real): (r: real)
    ensures ValidBand(MethaneBand) && r == InvLinear(MethaneBand, ch4)
  {
    if ch4 >= 1000.0 then 0.0
    else if ch4 <= 1.0 then 2.0
    else (1000.0 - ch4) / (1000.0 - 1.0) * 2.0
  }

  /** Nitrogen dioxide, 0.1-1, 5 points. */
  function No2Score(no2: real): (r: real)
    ensures ValidBand(No2Band) && r == InvLinear(No2Band, no2)
  {
    if no2 >= 1.0 then 0.0
    else if no2 <= 0.1 then 5.0
    else (1.0 - no2) / (1.0 - 0.1) * 5.0
  }

  /** PM10, 10-50, 5 points. */
  function Pm10Score(pm10: real): (r: real)
    ensures ValidBand(Pm10Band) && r == InvLinear(Pm10Band, pm10)
  {
    if pm10 >= 50.0 then 0.0
    else if pm10 <= 10.0 then 5.0
    else (50.0 - pm10) / (50.0 - 10.0) * 5.0
  }

  /** PM1, 1-10, 6 points. */
  function Pm1Score(pm1: real): (r: real)
    ensures ValidBand(Pm1Band) && r == InvLinear(Pm1Band, pm1)
  {
    if pm1 >= 10.0 then 0.0
    else if pm1 <= 1.0 then 6.0
    else (10.0 - pm1) / (10.0 - 1.0) * 6.0
  }

  /** PM4, 5-25, 6 points. */
  function Pm4Score(pm4: real): (r: real)
    ensures ValidBand(Pm4Band) && r == InvLinear(Pm4Band, pm4)
  {
    if pm4 >= 25.0 then 0.0
    else if pm4 <= 5.0 then 6.0
    else (25.0 - pm4) / (25.0 - 5.0) * 6.0
  }

  /** The SEN55 NOx index, 1-50, 10 points; the clean test `<= 1` comes first. */
  function NoxScore(nox: real): (r: real)
    ensures ValidBand(NoxBand) && r == InvLinear(NoxBand, nox)
  {
    if nox <= 1.0 then 10.0
    else if nox >= 50.0 then 0.0
    else (50.0 - nox) / (50.0 - 1.0) * 10.0
  }

  /** The smallest integer not below `x`. */
  function Ceiling(x: real): (c: int)
    ensures x <= c as real < x + 1.0
  {
    -((-x).Floor)
  }

  /** VOC, in 10-unit steps: 10 points at or below 10, none at or above 100. */
  function VocScore(voc: real): (r: real)
    ensures 0.0 <= r <= 10.0
  {
    if voc >= 100.0 then 0.0
    else if voc <= 10.0 then 10.0
    else if voc <= 20.0 then 9.0
    else if voc <= 30.0 then 8.0
    else if voc <= 40.0 then 7.0
    else if voc <= 50.0 then 6.0
    else if voc <= 60.0 then 5.0
    else if voc <= 70.0 then 4.0
    else if voc <= 80.0 then 3.0
    else if voc <= 90.0 then 2.0
    else 1.0
  }

  /**
   * The staircase in closed form: between 10 and 100 a reading in the band
   * (10k, 10k + 10] earns 10 - k points.
   */
  lemma VocStaircase(voc: real)
    ensures voc >= 100.0 ==> VocScore(voc) == 0.0
    ensures voc <= 10.0 ==> VocScore(voc) == 10.0
    ensures 10.0 < voc < 100.0 ==> VocScore(voc) == (11 - Ceiling(voc / 10.0)) as real
  {
    if 10.0 < voc < 100.0 {
      var c := Ceiling(voc / 10.0);
      assert voc <= 10.0 * c as real < voc + 10.0;
      assert 2 <= c <= 10;
    }
  }

  /** For readings below 90, ten more units cost exactly one point. */
  lemma VocStep(voc: real)
    requires 0.0 < voc < 90.0
    ensures VocScore(voc + 10.0) == VocScore(voc) - 1.0
  {
  }

  /** A higher VOC reading never earns more points. */
  lemma VocMonotone(v: real, w: real)
    requires v <= w
    ensures VocScore(w) <= VocScore(v)
  {
  }

  /** VOC examples: 15 earns 9, 95 earns 1, 100 and above earn 0, 10 and below earn 10. */
  lemma VocExamples()
    ensures VocScore(15.0) == 9.0 && VocScore(95.0) == 1.0
    ensures VocScore(100.0) == 0.0 && VocScore(0.0) == 10.0
  {
  }

  /** `Math.abs(x - ideal)`. */
  function Deviation(x: real, ideal: real): (d: real)
    ensures 0.0 <= d && (d == x - ideal || d == ideal - x)
  {
    if x >= ideal then x - ideal else ideal - x
  }

  /**
   * Temperature, ideal 23 degrees Celsius, 7 points: 0.7 points lost per
   * degree of deviation, nothing once the deviation reaches 10.
   */
  function TemperatureScore(tempC: real): (r: real)
    ensures 0.0 <= r <= 7.0
    ensures r > 0.0 <==> 13.0 < tempC < 33.0
    ensures r == 7.0 <==> tempC == 23.0
  {
    var tdev := Deviation(tempC, 23.0);
    if tdev >= 10.0 then 0.0 else 7.0 - tdev * 0.7
  }

  /** The temperature rule is symmetric around 23 degrees. */
  lemma TemperatureSymmetric(d: real)
    ensures TemperatureScore(23.0 + d) == TemperatureScore(23.0 - d)
  {
  }

  /** A temperature closer to 23 degrees never scores less. */
  lemma TemperatureDeviationMonotone(s: real, t: real)
    requires Deviation(s, 23.0) <= Deviation(t, 23.0)
    ensures TemperatureScore(t) <= TemperatureScore(s)
  {
  }

  /** Below a deviation of 10, every degree further from 23 costs exactly 0.7 points. */
  lemma TemperaturePerDegree(s: real, t: real)
    requires Deviation(s, 23.0) <= Deviation(t, 23.0) < 10.0
    ensures TemperatureScore(s) - TemperatureScore(t) == 0.7 * (Deviation(t, 23.0) - Deviation(s, 23.0))
  {
  }

  /** Pressure, ideal 1013 hPa, 1 point: a tenth lost per hPa of deviation, nothing from 10 on. */
  function PressureScore(press: real): (r: real)
    ensures 0.0 <= r <= 1.0
    ensures r > 0.0 <==> 1003.0 < press < 1023.0
    ensures r == 1.0 <==> press == 1013.0
  {
    var pdev := Deviation(press, 1013.0);
    if pdev >= 10.0 then 0.0 else (1.0 - pdev / 10.0) * 1.0
  }

  /** A pressure closer to 1013 hPa never scores less. */
  lemma PressureDeviationMonotone(p: real, q: real)
    requires Deviation(p, 1013.0) <= Deviation(q, 1013.0)
    ensures PressureScore(q) <= PressureScore(p)
  {
  }

  /** Below a deviation of 10, every hPa further from 1013 costs exactly 0.1 points. */
  lemma PressurePerHpa(p: real, q: real)
    requires Deviation(p, 1013.0) <= Deviation(q, 1013.0) < 10.0
    ensures PressureScore(p) - PressureScore(q) == 0.1 * (Deviation(q, 1013.0) - Deviation(p, 1013.0))
  {
  }

  /**
   * Humidity, ideal 30-60 %, 8 points: linear towards 0 % and towards 100 %.
   * The rule is not clamped: outside [0, 100] it goes negative.
   */
  function HumidityScore(hum: real): (r: real)
    ensures r <= 8.0
    ensures r == 8.0 <==> 30.0 <= hum <= 60.0
    ensures 0.0 <= hum <= 100.0 ==> 0.0 <= r
    ensures hum < 0.0 || hum > 100.0 ==> r < 0.0
  {
    if hum < 30.0 then hum / 30.0 * 8.0
    else if hum > 60.0 then (100.0 - hum) / 40.0 * 8.0
    else 8.0
  }

  /** The humidity rule is continuous: it changes by at most 8/30 of a point per percent. */
  lemma HumidityLipschitz(h: real, k: real)
    requires h <= k
    ensures -(k - h) * 8.0 / 30.0 <= HumidityScore(k) - HumidityScore(h) <= (k - h) * 8.0 / 30.0
  {
  }

  /** A humidity closer to the ideal band [30, 60] never scores less. */
  lemma HumidityTowardIdeal(h: real, k: real)
    requires h <= k <= 30.0 || 60.0 <= k <= h
    ensures HumidityScore(h) <= HumidityScore(k)
  {
  }
}
