/**
 * What `render` derives from the core: the percentage it shows (a
 * percentage entity, or the automatic score), the bar's width and colour,
 * and the temperature and humidity it annotates the bar with.
 */
module Display {
  import opened Wrappers
  import opened Config
  import opened Environment
  import opened Score

  /** The colour thresholds of `_barColor`, highest first. */
  const ColorTable: seq<(real, string)> :=
    [(80.0, "#9EDF9C"), (60.0, "#78B3CE"), (40.0, "#FBD288"), (20.0, "#FF9C73")]
  const FallbackColor: string := "#F95454"

  /** Reference definition: the colour of the first threshold `v` reaches, or `fallback`. */
  function TableColor(table: seq<(real, string)>, fallback: string, v: real): (c: string)
    ensures c == fallback || exists i :: 0 <= i < |table| && table[i].1 == c
  {
    if table == [] then fallback
    else if v >= table[0].0 then table[0].1
    else
      var c := TableColor(table[1..], fallback, v);
      assert c != fallback ==> exists i :: 0 <= i < |table| - 1 && table[1..][i].1 == c;
      c
  }

  /** The table picks entry `i` when `v` reaches its threshold and none before it. */
  lemma {:induction false} TableColorPicks(table: seq<(real, string)>, fallback: string, v: real, i: nat)
    requires i < |table| && table[i].0 <= v
    requires forall j :: 0 <= j < i ==> v < table[j].0
    ensures TableColor(table, fallback, v) == table[i].1
  {
    if i > 0 {
      TableColorPicks(table[1..], fallback, v, i - 1);
    }
  }

  /** The table falls back when `v` reaches no threshold. */
  lemma {:induction false} TableColorFallback(table: seq<(real, string)>, fallback: string, v: real)
    requires forall j :: 0 <= j < |table| ==> v < table[j].0
    ensures TableColor(table, fallback, v) == fallback
  {
    if table != [] {
      TableColorFallback(table[1..], fallback, v);
    }
  }

  /** `_barColor`: green from 80, blue from 60, yellow from 40, orange from 20, red below. */
  function BarColor(v: real): (c: string)
    ensures c in {"#9EDF9C", "#78B3CE", "#FBD288", "#FF9C73", "#F95454"}
    ensures c == "#9EDF9C" <==> v >= 80.0
    ensures c == "#F95454" <==> v < 20.0
  {
    if v >= 80.0 then "#9EDF9C"
    else if v >= 60.0 then "#78B3CE"
    else if v >= 40.0 then "#FBD288"
    else if v >= 20.0 then "#FF9C73"
    else "#F95454"
  }

  /** `_barColor` is the threshold table read from the top. */
  lemma BarColorIsTable(v: real)
    ensures BarColor(v) == TableColor(ColorTable, FallbackColor, v)
  {
    if v >= 80.0 {
      TableColorPicks(ColorTable, FallbackColor, v, 0);
    } else if v >= 60.0 {
      TableColorPicks(ColorTable, FallbackColor, v, 1);
    } else if v >= 40.0 {
      TableColorPicks(ColorTable, FallbackColor, v, 2);
    } else if v >= 20.0 {
      TableColorPicks(ColorTable, FallbackColor, v, 3);
    } else {
      TableColorFallback(ColorTable, FallbackColor, v);
    }
  }

  /** The bar's width: nothing for a percentage at or below 0, at most 100. */
  function BarWidth(pct: real): (w: real)
    ensures w == Clamp(pct)
  {
    if pct <= 0.0 then 0.0
    else if pct < 100.0 then pct else 100.0
  }

  /**
   * The percentage `render` shows: the state of `pct_entity` (0 when it is
   * not a number) when one is configured, the automatic score otherwise,
   * which already lies in [0, 100] and fills the bar exactly.
   */
  function Percentage(cfg: CardConfig, lookup: Lookup): (pct: real)
    requires HasSource(cfg.pctEntity, cfg.slug)
    ensures cfg.pctEntity != "" && lookup(cfg.pctEntity).None? ==> pct == 0.0
    ensures cfg.pctEntity != "" && lookup(cfg.pctEntity).Some? ==> pct == lookup(cfg.pctEntity).value
    ensures cfg.pctEntity == "" ==> pct == AutoScore(cfg, cfg.slug, lookup)
    ensures cfg.pctEntity == "" ==> 0.0 <= pct <= 86.25 && OnHundredths(pct) && BarWidth(pct) == pct
  {
    if cfg.pctEntity != "" then lookup(cfg.pctEntity).GetOr(0.0)
    else AutoScore(cfg, cfg.slug, lookup)
  }

  /**
   * The temperature shown beside the bar, when `show_temp` is on: in the
   * unit the user works in, it is exactly the temperature that won the
   * resolver's priority chain.
   */
  function TemperatureShown(cfg: CardConfig, lookup: Lookup): (shown: Option<real>)
    ensures shown.Some? <==> cfg.showTemp
    ensures shown.Some? ==> shown.value == RawTemperature(cfg, cfg.slug, lookup)
  {
    if cfg.showTemp then
      var env := ResolveEnv(cfg, cfg.slug, lookup);
      Some(if cfg.useFahrenheit then ToFahrenheit(env.tempC) else env.tempC)
    else None
  }

  /** The humidity shown beside the bar, when `show_hum` is on: the resolved humidity. */
  function HumidityShown(cfg: CardConfig, lookup: Lookup): (shown: Option<real>)
    ensures shown.Some? <==> cfg.showHum
    ensures shown.Some? ==> shown.value == Humidity(cfg, cfg.slug, lookup)
  {
    if cfg.showHum then Some(ResolveEnv(cfg, cfg.slug, lookup).hum) else None
  }
}
