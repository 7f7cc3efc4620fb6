/**
 * The card object: the only state the core keeps is the configuration
 * `setConfig` stores, and it refuses a configuration with neither a
 * percentage entity nor a slug.
 */
module Card {
  import opened Wrappers
  import opened Config
  import opened Score
  import opened Display

  /** Why `setConfig` throws. */
  datatype ConfigError = InvalidConfig | MissingPctEntityOrSlug

  class ApolloAirScoreCard {
    var config: CardConfig
    var configured: bool

    /** A stored configuration always names a percentage entity or a slug. */
    ghost predicate Valid()
      reads this
    {
      configured ==> HasSource(config.pctEntity, config.slug)
    }

    constructor ()
      ensures Valid() && !configured
    {
      config := CardConfig("", "", true, true, false, Absent, Absent);
      configured := false;
    }

    /**
     * `setConfig`: a missing configuration, or one with neither
     * `pct_entity` nor `slug`, is refused and nothing changes; otherwise
     * the configuration is stored with its defaults filled in.
     */
    method SetConfig(c: Option<UserConfig>) returns (err: Option<ConfigError>)
      requires Valid()
      modifies this
      ensures Valid()
      ensures c.None? ==> err == Some(InvalidConfig)
      ensures c.Some? && !HasSource(c.value.pctEntity, c.value.slug) ==> err == Some(MissingPctEntityOrSlug)
      ensures err.None? <==> c.Some? && HasSource(c.value.pctEntity, c.value.slug)
      ensures err.None? ==> configured && config == WithDefaults(c.value)
      ensures err.Some? ==> config == old(config) && configured == old(configured)
    {
      if c.None? {
        return Some(InvalidConfig);
      }
      if !HasSource(c.value.pctEntity, c.value.slug) {
        return Some(MissingPctEntityOrSlug);
      }
      config := WithDefaults(c.value);
      configured := true;
      err := None;
    }

    /**
     * The percentage `render` shows for the stored configuration; the
     * stored configuration always meets the percentage's requirement.
     */
    function Pct(lookup: Lookup): (pct: real)
      reads this
      requires Valid() && configured
      ensures pct == Percentage(config, lookup)
      ensures config.pctEntity == "" ==> pct == AutoScore(config, config.slug, lookup) && 0.0 <= pct <= 86.25
    {
      Percentage(config, lookup)
    }
  }
}
