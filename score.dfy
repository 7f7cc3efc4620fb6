/**
 * The score engine (`_autoScore`): fourteen readings with their defaults,
 * sixteen sub-scores, their sum with the PM10/PM1/PM4 group averaged, the
 * normalisation against the fixed `max_score`, rounding to two decimals and
 * the final clamp to [0, 100].
 */
module Score {
  import opened Wrappers
  import opened Config
  import opened Environment
  import opened SubScores

  /** The fourteen readings `_autoScore` reads for a slug. */
  datatype Readings = Readings(
    co2: real, pm25: real, voc: real, nh3: real, co: real, pressure: real, ethanol: real,
    h2: real, ch4: real, no2: real, pm10: real, pm1: real, pm4: real, nox: real)

  /** The reading used for each sensor that does not report a number. */
  const DefaultReadings: Readings := Readings(
    4500.0, 225.4, 500.0, 50.0, 10.0, 1013.0, 100.0, 10.0, 1000.0, 1.0, 50.0, 10.0, 25.0, 1.0)

  /** A reading `_autoScore` takes: the sensor's number, or `default` when it reports none. */
  function Read(lookup: Lookup, slug: string, suffix: string, default: real): (v: real)
    ensures lookup(SensorId(slug, suffix)).Some? ==> v == lookup(SensorId(slug, suffix)).value
    ensures lookup(SensorId(slug, suffix)).None? ==> v == default
  {
    lookup(SensorId(slug, suffix)).GetOr(default)
  }

  /** The fourteen readings: each sensor `sensor.<slug>_<suffix>`, or its default. */
  function ReadReadings(slug: string, lookup: Lookup): (rd: Readings)
    ensures rd.co2 == Read(lookup, slug, "co2", 4500.0)
    ensures rd.pm25 == Read(lookup, slug, "pm_2_5_m_weight_concentration", 225.4)
    ensures rd.voc == Read(lookup, slug, "sen55_voc", 500.0)
    ensures rd.nh3 == Read(lookup, slug, "ammonia", 50.0)
    ensures rd.co == Read(lookup, slug, "carbon_monoxide", 10.0)
    ensures rd.pressure == Read(lookup, slug, "dps310_pressure", 1013.0)
    ensures rd.ethanol == Read(lookup, slug, "ethanol", 100.0)
    ensures rd.h2 == Read(lookup, slug, "hydrogen", 10.0)
    ensures rd.ch4 == Read(lookup, slug, "methane", 1000.0)
    ensures rd.no2 == Read(lookup, slug, "nitrogen_dioxide", 1.0)
    ensures rd.pm10 == Read(lookup, slug, "pm_10_m_weight_concentration", 50.0)
    ensures rd.pm1 == Read(lookup, slug, "pm_1_m_weight_concentration", 10.0)
    ensures rd.pm4 == Read(lookup, slug, "pm_4_m_weight_concentration", 25.0)
    ensures rd.nox == Read(lookup, slug, "sen55_nox", 1.0)
  {
    var d := DefaultReadings;
    Readings(
      Read(lookup, slug, "co2", d.co2),
      Read(lookup, slug, "pm_2_5_m_weight_concentration", d.pm25),
      Read(lookup, slug, "sen55_voc", d.voc),
      Read(lookup, slug, "ammonia", d.nh3),
      Read(lookup, slug, "carbon_monoxide", d.co),
      Read(lookup, slug, "dps310_pressure", d.pressure),
      Read(lookup, slug, "ethanol", d.ethanol),
      Read(lookup, slug, "hydrogen", d.h2),
      Read(lookup, slug, "methane", d.ch4),
      Read(lookup, slug, "nitrogen_dioxide", d.no2),
      Read(lookup, slug, "pm_10_m_weight_concentration", d.pm10),
      Read(lookup, slug, "pm_1_m_weight_concentration", d.pm1),
      Read(lookup, slug, "pm_4_m_weight_concentration", d.pm4),
      Read(lookup, slug, "sen55_nox", d.nox))
  }

  /** With no sensor reporting, every reading takes its default. */
  lemma ReadDefaults(slug: string, lookup: Lookup)
    requires forall id :: lookup(id).None?
    ensures ReadReadings(slug, lookup) == DefaultReadings
  {
  }

  /** The sixteen sub-scores. */
  datatype Breakdown = Breakdown(
    co2: real, pm25: real, voc: real, nh3: real, co: real, pressure: real, ethanol: real,
    h2: real, ch4: real, no2: real, pm10: real, pm1: real, pm4: real, nox: real,
    temp: real, hum: real)

  /** Every category at its maximum number of points. */
  const BestPoints: Breakdown := Breakdown(
    20.0, 18.0, 10.0, 3.0, 15.0, 1.0, 1.0, 1.0, 2.0, 5.0, 5.0, 6.0, 6.0, 10.0, 7.0, 8.0)

  /**
   * Each sub-score lies between 0 and its category's maximum; humidity,
   * which is not clamped, is only bounded above.
   */
  predicate WithinMaxima(b: Breakdown)
  {
    var m := BestPoints;
    0.0 <= b.co2 <= m.co2 && 0.0 <= b.pm25 <= m.pm25 && 0.0 <= b.voc <= m.voc &&
    0.0 <= b.nh3 <= m.nh3 && 0.0 <= b.co <= m.co && 0.0 <= b.pressure <= m.pressure &&
    0.0 <= b.ethanol <= m.ethanol && 0.0 <= b.h2 <= m.h2 && 0.0 <= b.ch4 <= m.ch4 &&
    0.0 <= b.no2 <= m.no2 && 0.0 <= b.pm10 <= m.pm10 && 0.0 <= b.pm1 <= m.pm1 &&
    0.0 <= b.pm4 <= m.pm4 && 0.0 <= b.nox <= m.nox && 0.0 <= b.temp <= m.temp &&
    b.hum <= m.hum
  }

  /** The sub-scores of a set of readings in a resolved environment. */
  function Points(rd: Readings, env: Env): (b: Breakdown)
    ensures WithinMaxima(b)
    ensures 0.0 <= env.hum <= 100.0 ==> 0.0 <= b.hum
  {
    Breakdown(
      Co2Score(rd.co2), Pm25Score(rd.pm25), VocScore(rd.voc), AmmoniaScore(rd.nh3),
      CarbonMonoxideScore(rd.co), PressureScore(rd.pressure), EthanolScore(rd.ethanol),
      HydrogenScore(rd.h2), MethaneScore(rd.ch4), No2Score(rd.no2), Pm10Score(rd.pm10),
      Pm1Score(rd.pm1), Pm4Score(rd.pm4), NoxScore(rd.nox),
      TemperatureScore(env.tempC), HumidityScore(env.hum))
  }

  /** The PM10/PM1/PM4 group contributes the mean of its three sub-scores. */
  function PmGroup(b: Breakdown): (g: real)
    ensures g <= b.pm10 || g <= b.pm1 || g <= b.pm4
    ensures g >= b.pm10 || g >= b.pm1 || g >= b.pm4
    ensures WithinMaxima(b) ==> 0.0 <= g <= 17.0 / 3.0
  {
    (b.pm10 + b.pm1 + b.pm4) / 3.0
  }

  /** The raw sum `final_score_raw`. */
  function RawSum(b: Breakdown): (raw: real)
    ensures WithinMaxima(b) ==> raw <= 320.0 / 3.0
    ensures WithinMaxima(b) && 0.0 <= b.hum ==> 0.0 <= raw
  {
    b.co2 + b.pm25 + b.voc + b.nh3 + b.co + b.pressure + b.ethanol + b.h2 + b.ch4 + b.no2 +
    PmGroup(b) + b.nox + b.temp + b.hum
  }

  /**
   * The best raw sum is 320/3, the PM group contributing at most 17/3, and a
   * breakdown with non-negative humidity points has a non-negative sum.
   */
  lemma RawSumBounds(b: Breakdown)
    requires WithinMaxima(b)
    ensures PmGroup(b) <= 17.0 / 3.0
    ensures RawSum(b) <= RawSum(BestPoints) == 320.0 / 3.0
    ensures 0.0 <= b.hum ==> 0.0 <= RawSum(b)
  {
  }

  /** With PM10 = 10, PM1 = 1 and PM4 = 5, all at their best, the group contributes exactly 17/3. */
  lemma PmGroupExample(rd: Readings, env: Env)
    requires rd.pm10 == 10.0 && rd.pm1 == 1.0 && rd.pm4 == 5.0
    ensures PmGroup(Points(rd, env)) == 17.0 / 3.0
  {
  }

  /**
   * `max_score`: the literal sum of the maxima, which counts the PM10, PM1
   * and PM4 maxima both one by one and averaged, so it exceeds the best
   * achievable raw sum by exactly 17.
   */
  function MaxScore(): (m: real)
    ensures m == 371.0 / 3.0
    ensures m == RawSum(BestPoints) + 17.0
  {
    20.0 + 18.0 + 10.0 + 7.0 + 8.0 + 3.0 + 15.0 + 1.0 + 1.0 + 1.0 + 2.0 + 5.0 + 5.0 + 6.0 + 6.0 +
    (5.0 + 6.0 + 6.0) / 3.0 + 10.0
  }

  /** The nearest integer to `y`, a tie going to the larger one. */
  function RoundHalfUp(y: real): (k: int)
    ensures y - 0.5 < k as real <= y + 0.5
  {
    (y + 0.5).Floor
  }

  lemma RoundHalfUpMonotone(y: real, z: real)
    requires y <= z
    ensures RoundHalfUp(y) <= RoundHalfUp(z)
  {
  }

  /** `r` has at most two decimals. */
  predicate OnHundredths(r: real)
  {
    (r * 100.0).Floor as real == r * 100.0
  }

  lemma HundredthsOnGrid(k: int)
    ensures OnHundredths(k as real / 100.0)
  {
    assert k as real / 100.0 * 100.0 == k as real;
  }

  /**
   * `Number(x.toFixed(2))` on exact reals: the magnitude is rounded to
   * hundredths with ties upwards, so a tie moves away from zero.
   */
  function Round2(x: real): (r: real)
    ensures OnHundredths(r)
    ensures x >= 0.0 ==> 0.0 <= r && x - 0.005 < r <= x + 0.005
    ensures x < 0.0 ==> r <= 0.0 && x - 0.005 <= r < x + 0.005
  {
    var k := if x >= 0.0 then RoundHalfUp(x * 100.0) else -RoundHalfUp(-x * 100.0);
    HundredthsOnGrid(k);
    k as real / 100.0
  }

  /** Rounding preserves order. */
  lemma Round2Monotone(x: real, y: real)
    requires x <= y
    ensures Round2(x) <= Round2(y)
  {
    if 0.0 <= x {
      RoundHalfUpMonotone(x * 100.0, y * 100.0);
    } else if y < 0.0 {
      RoundHalfUpMonotone(-y * 100.0, -x * 100.0);
    }
  }

  /** A value that already has two decimals is left unchanged, so rounding twice changes nothing. */
  lemma Round2Idempotent(x: real)
    ensures OnHundredths(x) ==> Round2(x) == x
    ensures Round2(Round2(x)) == Round2(x)
  {
    forall y | OnHundredths(y) ensures Round2(y) == y {
      var k := (y * 100.0).Floor;
      if y >= 0.0 {
        assert RoundHalfUp(y * 100.0) == k;
      } else {
        assert RoundHalfUp(-y * 100.0) == -k;
      }
    }
  }

  /** `Math.max(0, Math.min(100, v))`. */
  function Clamp(v: real): (r: real)
    ensures 0.0 <= r <= 100.0
    ensures 0.0 <= v <= 100.0 ==> r == v
    ensures v < 0.0 ==> r == 0.0
    ensures v > 100.0 ==> r == 100.0
  {
    var upper := if v < 100.0 then v else 100.0;
    if upper > 0.0 then upper else 0.0
  }

  /** The raw sum as a percentage of `max_score`. */
  function Normalize(raw: real): (pct: real)
    ensures raw == MaxScore() ==> pct == 100.0
    ensures raw <= 320.0 / 3.0 ==> pct <= 32000.0 / 371.0
    ensures 0.0 <= raw <==> 0.0 <= pct
  {
    raw / MaxScore() * 100.0
  }

  /** The returned score: normalised, rounded to two decimals, clamped to [0, 100]. */
  function FinalScore(raw: real): (r: real)
    ensures 0.0 <= r <= 100.0
    ensures OnHundredths(r)
  {
    Clamp(Round2(Normalize(raw)))
  }

  /** A larger raw sum never yields a smaller score. */
  lemma FinalScoreMonotone(raw: real, raw': real)
    requires raw <= raw'
    ensures FinalScore(raw) <= FinalScore(raw')
  {
    Round2Monotone(Normalize(raw), Normalize(raw'));
  }

  /**
   * Because `max_score` exceeds the best raw sum, no breakdown scores more
   * than round2(32000/371) = 86.25.
   */
  lemma ScoreCeiling(b: Breakdown)
    requires WithinMaxima(b)
    ensures FinalScore(RawSum(b)) <= 86.25
  {
    RawSumBounds(b);
    assert Normalize(RawSum(b)) <= 32000.0 / 371.0;
    Round2Monotone(Normalize(RawSum(b)), 32000.0 / 371.0);
    assert RoundHalfUp(3200000.0 / 371.0) == 8625;
  }

  /** The score of a set of readings in a resolved environment. */
  function ScoreOf(rd: Readings, env: Env): (r: real)
    ensures 0.0 <= r <= 86.25
    ensures OnHundredths(r)
  {
    ScoreCeiling(Points(rd, env));
    FinalScore(RawSum(Points(rd, env)))
  }

  /**
   * `_autoScore`: the readings of the slug's sensors scored in the
   * environment `_resolveEnv` resolves for the same slug.
   */
  function AutoScore(cfg: CardConfig, slug: string, lookup: Lookup): (r: real)
    ensures 0.0 <= r <= 100.0
    ensures r <= 86.25
    ensures OnHundredths(r)
  {
    ScoreOf(ReadReadings(slug, lookup), ResolveEnv(cfg, slug, lookup))
  }

  /** The ceiling is reached: ideal readings at 23 degrees and a humidity in [30, 60] % score exactly 86.25. */
  lemma IdealScore(rd: Readings, env: Env)
    requires rd.co2 <= 800.0 && rd.pm25 <= 5.0 && rd.voc <= 10.0 && rd.nh3 <= 1.0 && rd.co <= 1.0
    requires rd.pressure == 1013.0 && rd.ethanol <= 1.0 && rd.h2 <= 1.0 && rd.ch4 <= 1.0
    requires rd.no2 <= 0.1 && rd.pm10 <= 10.0 && rd.pm1 <= 1.0 && rd.pm4 <= 5.0 && rd.nox <= 1.0
    requires env.tempC == 23.0 && 30.0 <= env.hum <= 60.0
    ensures Points(rd, env) == BestPoints
    ensures ScoreOf(rd, env) == 86.25
  {
    assert RawSum(BestPoints) == 320.0 / 3.0;
    assert RoundHalfUp(3200000.0 / 371.0) == 8625;
  }

  /** `a` has no more of any pollutant than `b`, at the same pressure. */
  predicate NoMorePolluted(a: Readings, b: Readings)
  {
    a.co2 <= b.co2 && a.pm25 <= b.pm25 && a.voc <= b.voc && a.nh3 <= b.nh3 && a.co <= b.co &&
    a.pressure == b.pressure && a.ethanol <= b.ethanol && a.h2 <= b.h2 && a.ch4 <= b.ch4 &&
    a.no2 <= b.no2 && a.pm10 <= b.pm10 && a.pm1 <= b.pm1 && a.pm4 <= b.pm4 && a.nox <= b.nox
  }

  /** Lowering any pollutant reading, all else equal, never lowers the score. */
  lemma CleanerAirScoresAtLeast(a: Readings, b: Readings, env: Env)
    requires NoMorePolluted(a, b)
    ensures ScoreOf(b, env) <= ScoreOf(a, env)
  {
    InvLinearMonotone(Co2Band, a.co2, b.co2);
    InvLinearMonotone(Pm25Band, a.pm25, b.pm25);
    VocMonotone(a.voc, b.voc);
    InvLinearMonotone(AmmoniaBand, a.nh3, b.nh3);
    InvLinearMonotone(CarbonMonoxideBand, a.co, b.co);
    InvLinearMonotone(EthanolBand, a.ethanol, b.ethanol);
    InvLinearMonotone(HydrogenBand, a.h2, b.h2);
    InvLinearMonotone(MethaneBand, a.ch4, b.ch4);
    InvLinearMonotone(No2Band, a.no2, b.no2);
    InvLinearMonotone(Pm10Band, a.pm10, b.pm10);
    InvLinearMonotone(Pm1Band, a.pm1, b.pm1);
    InvLinearMonotone(Pm4Band, a.pm4, b.pm4);
    InvLinearMonotone(NoxBand, a.nox, b.nox);
    FinalScoreMonotone(RawSum(Points(b, env)), RawSum(Points(a, env)));
  }

  /**
   * All defaults: no sensor reports and no override yields a number, in
   * Celsius. Only pressure (1), NOx (10), temperature (21 degrees: 5.6) and
   * humidity (45 %: 8) score, the raw sum is 24.6 and the score is
   * round2(7380/371) = 19.89.
   */
  lemma AllDefaultsScore(cfg: CardConfig, slug: string, lookup: Lookup)
    requires forall id :: lookup(id).None?
    requires !cfg.useFahrenheit && !cfg.tempValue.Literal? && !cfg.humValue.Literal?
    ensures Points(ReadReadings(slug, lookup), ResolveEnv(cfg, slug, lookup)) ==
      Breakdown(0.0, 0.0, 0.0, 0.0, 0.0, 1.0, 0.0, 0.0, 0.0, 0.0, 0.0, 0.0, 0.0, 10.0, 5.6, 8.0)
    ensures RawSum(Points(ReadReadings(slug, lookup), ResolveEnv(cfg, slug, lookup))) == 24.6
    ensures AutoScore(cfg, slug, lookup) == 19.89
  {
    ReadDefaults(slug, lookup);
    ResolveDefaults(cfg, slug, lookup);
    assert Normalize(24.6) == 7380.0 / 371.0;
    assert RoundHalfUp(738000.0 / 371.0) == 1989;
  }
}
