/**
 * The card's configuration and the one capability the scoring core needs
 * from Home Assistant: reading the numeric state of an entity.
 *
 * JavaScript strings that may be missing (`slug`, `pct_entity`) are
 * modelled as `string`, with "" standing for every falsy value
 * (undefined, null or the empty string), so that `if (slug)` is `slug != ""`.
 */
module Config {
  import opened Wrappers

  /**
   * The numeric state of an entity: `None` when the entity is unknown or
   * its state is not a number (`_n` returning undefined).
   */
  type Lookup = string -> Option<real>

  /** The slug-derived entity id `sensor.<slug>_<suffix>`. */
  function SensorId(slug: string, suffix: string): (id: string)
    ensures |id| == 8 + |slug| + |suffix|
    ensures id[..7] == "sensor." && id[7 + |slug|] == '_' && id[7..7 + |slug|] == slug
    ensures id[|id| - |suffix|..] == suffix
  {
    "sensor." + slug + "_" + suffix
  }

  /**
   * A `temp_value` / `hum_value` override. A string names an entity, a
   * number is used as it is; a non-string value whose `Number(...)` is NaN
   * is `NotANumber`.
   */
  datatype Override = Absent | Entity(id: string) | Literal(value: real) | NotANumber

  /** The configuration object handed to `setConfig`, before defaults. */
  datatype UserConfig = UserConfig(
    pctEntity: string,
    slug: string,
    showTemp: Option<bool>,
    showHum: Option<bool>,
    useFahrenheit: Option<bool>,
    tempValue: Override,
    humValue: Override)

  /** The configuration the card keeps after `setConfig` filled in its defaults. */
  datatype CardConfig = CardConfig(
    pctEntity: string,
    slug: string,
    showTemp: bool,
    showHum: bool,
    useFahrenheit: bool,
    tempValue: Override,
    humValue: Override)

  /** `setConfig`'s requirement: a percentage entity or a slug. */
  predicate HasSource(pctEntity: string, slug: string): (ok: bool)
    ensures ok <==> |pctEntity| > 0 || |slug| > 0
  {
    pctEntity != "" || slug != ""
  }

  /**
   * The defaults of `setConfig`: `show_temp` and `show_hum` are on unless
   * set to false, `use_fahrenheit` is off unless set to true; every key the
   * user gave is kept as given.
   */
  function WithDefaults(c: UserConfig): (r: CardConfig)
    ensures r.showTemp <==> c.showTemp != Some(false)
    ensures r.showHum <==> c.showHum != Some(false)
    ensures r.useFahrenheit <==> c.useFahrenheit == Some(true)
    ensures r.pctEntity == c.pctEntity && r.slug == c.slug
    ensures r.tempValue == c.tempValue && r.humValue == c.humValue
  {
    CardConfig(
      c.pctEntity,
      c.slug,
      c.showTemp.GetOr(true),
      c.showHum.GetOr(true),
      c.useFahrenheit.GetOr(false),
      c.tempValue,
      c.humValue)
  }
}
