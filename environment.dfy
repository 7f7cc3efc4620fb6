/**
 * The environment resolver (`_resolveEnv`): humidity and temperature, each
 * taken from the first tier that yields a number, in the order
 *   1. the `hum_value` / `temp_value` override,
 *   2. the slug sensor `sensor.<slug>_sen55_humidity` / `_sen55_temperature`,
 *   3. the default, 45 % and 21 degrees.
 * The temperature is read in the unit the user sees and returned in Celsius.
 */
module Environment {
  import opened Wrappers
  import opened Config

  /** The resolved environment: temperature in Celsius and relative humidity in percent. */
  datatype Env = Env(tempC: real, hum: real)

  const DefaultHumidity: real := 45.0
  const DefaultTemperature: real := 21.0
  const HumiditySuffix: string := "sen55_humidity"
  const TemperatureSuffix: string := "sen55_temperature"

  /**
   * What an override yields: an entity override is looked up, a numeric one
   * is used as it is, an absent or NaN one yields nothing.
   */
  function OverrideReading(o: Override, lookup: Lookup): (r: Option<real>)
    ensures o.Entity? ==> r == lookup(o.id)
    ensures o.Literal? ==> r == Some(o.value)
    ensures o.Absent? || o.NotANumber? ==> r.None?
  {
    match o
    case Absent => None
    case Entity(id) => lookup(id)
    case Literal(v) => Some(v)
    case NotANumber => None
  }

  /** What the slug sensor yields: it is only consulted when the slug is truthy. */
  function SlugReading(slug: string, suffix: string, lookup: Lookup): (r: Option<real>)
    ensures slug == "" ==> r.None?
    ensures slug != "" ==> r == lookup(SensorId(slug, suffix))
  {
    if slug != "" then lookup(SensorId(slug, suffix)) else None
  }

  /**
   * Reference definition of a priority chain: the value of the first tier
   * that has one, or `default` when none has.
   */
  function FirstResolved(tiers: seq<Option<real>>, default: real): (r: real)
    ensures r == default || Some(r) in tiers
  {
    if tiers == [] then default
    else if tiers[0].Some? then tiers[0].value
    else FirstResolved(tiers[1..], default)
  }

  /** The chain picks tier `i` when it is the first tier holding a value. */
  lemma {:induction false} FirstResolvedPicks(tiers: seq<Option<real>>, default: real, i: nat)
    requires i < |tiers| && tiers[i].Some?
    requires forall j :: 0 <= j < i ==> tiers[j].None?
    ensures FirstResolved(tiers, default) == tiers[i].value
  {
    if i > 0 {
      FirstResolvedPicks(tiers[1..], default, i - 1);
    }
  }

  /** The chain falls back to `default` when no tier holds a value. */
  lemma {:induction false} FirstResolvedDefault(tiers: seq<Option<real>>, default: real)
    requires forall j :: 0 <= j < |tiers| ==> tiers[j].None?
    ensures FirstResolved(tiers, default) == default
  {
    if tiers != [] {
      FirstResolvedDefault(tiers[1..], default);
    }
  }

  /**
   * One quantity as `_resolveEnv` resolves it: the override if it yields a
   * number, else the slug sensor if it yields one, else the default.
   */
  function ResolveReading(o: Override, slug: string, suffix: string, lookup: Lookup, default: real): (r: real)
    ensures r == FirstResolved([OverrideReading(o, lookup), SlugReading(slug, suffix, lookup)], default)
  {
    var fromOverride := OverrideReading(o, lookup);
    if fromOverride.Some? then fromOverride.value
    else
      var fromSlug := SlugReading(slug, suffix, lookup);
      if fromSlug.Some? then fromSlug.value else default
  }

  /** The priority chain of one quantity, tier by tier. */
  lemma ResolvePriority(o: Override, slug: string, suffix: string, lookup: Lookup, default: real)
    ensures OverrideReading(o, lookup).Some? ==>
      ResolveReading(o, slug, suffix, lookup, default) == OverrideReading(o, lookup).value
    ensures OverrideReading(o, lookup).None? && slug != "" && lookup(SensorId(slug, suffix)).Some? ==>
      ResolveReading(o, slug, suffix, lookup, default) == lookup(SensorId(slug, suffix)).value
    ensures OverrideReading(o, lookup).None? && (slug == "" || lookup(SensorId(slug, suffix)).None?) ==>
      ResolveReading(o, slug, suffix, lookup, default) == default
  {
    var tiers := [OverrideReading(o, lookup), SlugReading(slug, suffix, lookup)];
    if tiers[0].Some? {
      FirstResolvedPicks(tiers, default, 0);
    } else if tiers[1].Some? {
      FirstResolvedPicks(tiers, default, 1);
    } else {
      FirstResolvedDefault(tiers, default);
    }
  }

  /** Fahrenheit to Celsius, as `_resolveEnv` converts: `(t - 32) * 5 / 9`. */
  function ToCelsius(f: real): (c: real)
    ensures c * 9.0 / 5.0 + 32.0 == f
  {
    (f - 32.0) * 5.0 / 9.0
  }

  /** Celsius to Fahrenheit, as `render` converts for display: `t * 9 / 5 + 32`. */
  function ToFahrenheit(c: real): (f: real)
    ensures ToCelsius(f) == c
  {
    c * 9.0 / 5.0 + 32.0
  }

  /** The display conversion undoes the resolver's conversion exactly. */
  lemma FahrenheitRoundTrip(f: real)
    ensures ToFahrenheit(ToCelsius(f)) == f
  {
  }

  /** The humidity `_resolveEnv` settles on. */
  function Humidity(cfg: CardConfig, slug: string, lookup: Lookup): (h: real)
    ensures OverrideReading(cfg.humValue, lookup).Some? ==> Some(h) == OverrideReading(cfg.humValue, lookup)
    ensures h == DefaultHumidity || Some(h) == OverrideReading(cfg.humValue, lookup) ||
      Some(h) == SlugReading(slug, HumiditySuffix, lookup)
  {
    ResolveReading(cfg.humValue, slug, HumiditySuffix, lookup, DefaultHumidity)
  }

  /** The temperature `_resolveEnv` settles on, in the unit the user sees. */
  function RawTemperature(cfg: CardConfig, slug: string, lookup: Lookup): (t: real)
    ensures OverrideReading(cfg.tempValue, lookup).Some? ==> Some(t) == OverrideReading(cfg.tempValue, lookup)
    ensures t == DefaultTemperature || Some(t) == OverrideReading(cfg.tempValue, lookup) ||
      Some(t) == SlugReading(slug, TemperatureSuffix, lookup)
  {
    ResolveReading(cfg.tempValue, slug, TemperatureSuffix, lookup, DefaultTemperature)
  }

  /**
   * `_resolveEnv`: the winning humidity, and the winning temperature
   * converted to Celsius when the user works in Fahrenheit.
   */
  function ResolveEnv(cfg: CardConfig, slug: string, lookup: Lookup): (env: Env)
    ensures env.hum == Humidity(cfg, slug, lookup)
    ensures cfg.useFahrenheit ==> ToFahrenheit(env.tempC) == RawTemperature(cfg, slug, lookup)
    ensures !cfg.useFahrenheit ==> env.tempC == RawTemperature(cfg, slug, lookup)
  {
    var hum := Humidity(cfg, slug, lookup);
    var tempRaw := RawTemperature(cfg, slug, lookup);
    var tempC := if cfg.useFahrenheit then ToCelsius(tempRaw) else tempRaw;
    Env(tempC, hum)
  }

  /**
   * Humidity and temperature are resolved independently: the humidity does
   * not depend on the temperature override or the unit, and the temperature
   * does not depend on the humidity override.
   */
  lemma ResolvedIndependently(cfg: CardConfig, cfg': CardConfig, slug: string, lookup: Lookup)
    ensures cfg'.humValue == cfg.humValue ==>
      ResolveEnv(cfg', slug, lookup).hum == ResolveEnv(cfg, slug, lookup).hum
    ensures cfg'.tempValue == cfg.tempValue && cfg'.useFahrenheit == cfg.useFahrenheit ==>
      ResolveEnv(cfg', slug, lookup).tempC == ResolveEnv(cfg, slug, lookup).tempC
  {
  }

  /** The resolver never fails: with nothing to read it returns 45 % and 21 degrees (converted when in Fahrenheit). */
  lemma ResolveDefaults(cfg: CardConfig, slug: string, lookup: Lookup)
    requires forall id :: lookup(id).None?
    requires !cfg.humValue.Literal? && !cfg.tempValue.Literal?
    ensures ResolveEnv(cfg, slug, lookup).hum == 45.0
    ensures ResolveEnv(cfg, slug, lookup).tempC == if cfg.useFahrenheit then ToCelsius(21.0) else 21.0
  {
    ResolvePriority(cfg.humValue, slug, HumiditySuffix, lookup, DefaultHumidity);
    ResolvePriority(cfg.tempValue, slug, TemperatureSuffix, lookup, DefaultTemperature);
  }

  /** A numeric humidity override of 55 wins over whatever the slug sensor reports. */
  lemma NumericHumidityOverrideWins(cfg: CardConfig, slug: string, lookup: Lookup)
    requires cfg.humValue == Literal(55.0)
    ensures ResolveEnv(cfg, slug, lookup).hum == 55.0
  {
  }

  /** 73.4 degrees Fahrenheit, given as a number or through an entity, is resolved to 23 degrees Celsius. */
  lemma FahrenheitOverrideExample(cfg: CardConfig, slug: string, lookup: Lookup)
    requires cfg.useFahrenheit
    requires cfg.tempValue == Literal(73.4) || (cfg.tempValue.Entity? && lookup(cfg.tempValue.id) == Some(73.4))
    ensures ResolveEnv(cfg, slug, lookup).tempC == 23.0
  {
  }
}
