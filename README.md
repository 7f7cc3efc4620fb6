# Apollo Air Score Card — scoring core in Dafny

A model of the air-quality scoring core of the Apollo Air Score Card, a
Home Assistant Lovelace card. The card shows one percentage bar: either
the state of a helper entity (`pct_entity`) or an automatic score that it
computes from the sensors of an Apollo AIR device identified by its `slug`.

The model covers:

- **Configuration** (`config.dfy`, `card.dfy`): the card object and
  `setConfig`. It refuses a missing configuration and one with neither
  `pct_entity` nor `slug`. Otherwise it stores the configuration with
  `show_temp`/`show_hum` on and `use_fahrenheit` off by default.
- **Environment resolver** (`environment.dfy`, `_resolveEnv`): humidity and
  temperature are resolved independently. Each takes the first of three
  tiers that yields a number: the `hum_value`/`temp_value` override (an
  entity id or a number), the slug sensor
  `sensor.<slug>_sen55_humidity`/`_sen55_temperature`, then the default of
  45 % or 21 degrees. With `use_fahrenheit` the winning temperature is
  converted to Celsius.
- **Sub-scores** (`subscores.dfy`): the sixteen per-category rules of
  `_autoScore`. Twelve are instances of one inverted, clamped linear rule
  `InvLinear`, and each is proved equal to it. VOC is an 11-step staircase.
  Temperature and pressure score their deviation from 23 degrees and
  1013 hPa. Humidity scores 8 on [30, 60] and is not clamped.
- **Score engine** (`score.dfy`): the fourteen readings with their defaults,
  the raw sum with the PM10/PM1/PM4 group averaged, normalisation against
  `max_score`, `toFixed(2)` rounding and the clamp to [0, 100].
- **Presentation helpers** (`display.dfy`): the bar colour thresholds, the
  bar width, the percentage source, and the temperature and humidity shown.

Home Assistant's state lookup (`_n`) is a parameter `Lookup = string ->
Option<real>`. `None` stands for an unknown entity or a non-numeric state.
All arithmetic is over exact reals. A JavaScript string that may be missing
(`slug`, `pct_entity`) is a `string`, with "" standing for every falsy value.

Notable facts proved about the code:

- `max_score` is 371/3. It counts the PM10, PM1 and PM4 maxima both one by
  one and averaged, so it is 17 more than the best raw sum of 320/3. Hence
  no input scores above round2(32000/371) = 86.25, and ideal readings score
  exactly 86.25 (`Score.MaxScore`, `Score.ScoreCeiling`, `Score.IdealScore`).
- With nothing resolving, in Celsius, the score is
  round2(24.6 / (371/3) * 100) = round2(7380/371) = 19.89
  (`Score.AllDefaultsScore`).
- The slug sensors for humidity and temperature are
  `sensor.<slug>_sen55_humidity` and `sensor.<slug>_sen55_temperature`.

## Model

| member | source | states |
|---|---|---|
| `Config.WithDefaults` | apollo-air-score-card.js:49-54 | `show_temp` and `show_hum` are on unless set to false; `use_fahrenheit` is on only when set to true; every other key is kept as given |
| `Config.SensorId` | apollo-air-score-card.js:124-137 | the slug-derived id starts with `sensor.`, then the slug, and ends with the sensor's suffix |
| `Config.HasSource` | apollo-air-score-card.js:45-47 | a configuration has a source exactly when `pct_entity` or `slug` is a non-empty string |
| `Card.ApolloAirScoreCard.SetConfig` | apollo-air-score-card.js:43-55 | a missing configuration, or one with neither `pct_entity` nor `slug`, is refused and the card is left unchanged; otherwise the configuration is stored with its defaults and the card keeps the invariant that a stored configuration has a source |
| `Card.ApolloAirScoreCard.Pct` | apollo-air-score-card.js:305-311 | a configured card's percentage is `Percentage` of its stored configuration, which always meets that function's requirement; without `pct_entity` it is the automatic score, in [0, 86.25] |
| `Environment.OverrideReading` | apollo-air-score-card.js:76-85 | an entity override yields the entity's reading; a numeric override yields its value; an absent or NaN override yields nothing |
| `Environment.SlugReading` | apollo-air-score-card.js:86-89 | the slug sensor is consulted only when the slug is truthy |
| `Environment.FirstResolved` | apollo-air-score-card.js:23-28 | reference priority chain: the result is the default or the value of one of the tiers |
| `Environment.FirstResolvedPicks` | apollo-air-score-card.js:23-28 | the chain returns the value of the first tier that has one |
| `Environment.FirstResolvedDefault` | apollo-air-score-card.js:28-28 | the chain returns the default when no tier has a value |
| `Environment.ResolveReading` | apollo-air-score-card.js:74-90 | resolving one quantity is the priority chain [override, slug sensor] with the default at its end |
| `Environment.Humidity` | apollo-air-score-card.js:74-90 | the humidity is a resolving override's value; otherwise it is the slug sensor's value or the default 45 |
| `Environment.RawTemperature` | apollo-air-score-card.js:92-107 | the raw temperature is a resolving override's value; otherwise it is the slug sensor's value or the default 21 |
| `Environment.ResolvePriority` | apollo-air-score-card.js:94-107 | tier by tier: a resolving override wins; otherwise a truthy slug's reporting sensor wins, even when a string override did not resolve; otherwise the default |
| `Environment.ToFahrenheit` | apollo-air-score-card.js:288-289 | the display conversion `t*9/5+32` is undone by the resolver's `(t-32)*5/9` |
| `Environment.ToCelsius` | apollo-air-score-card.js:113-113 | `(t-32)*5/9` is the Celsius value whose Fahrenheit conversion `c*9/5+32` is `t` |
| `Environment.FahrenheitRoundTrip` | apollo-air-score-card.js:109-116 | converting to Celsius and back for display recovers the raw temperature exactly |
| `Environment.ResolveEnv` | apollo-air-score-card.js:71-119 | the humidity is the resolved one; the temperature is the resolved one, and with `use_fahrenheit` it is the Celsius value whose Fahrenheit display equals the resolved one |
| `Environment.ResolvedIndependently` | apollo-air-score-card.js:74-107 | humidity does not depend on the temperature override or the unit; temperature does not depend on the humidity override |
| `Environment.ResolveDefaults` | apollo-air-score-card.js:86-107 | the resolver always returns a value: with nothing resolving it returns 45 % and 21 (converted when in Fahrenheit) |
| `Environment.NumericHumidityOverrideWins` | apollo-air-score-card.js:81-86 | a numeric humidity override of 55 wins over any slug sensor reading |
| `Environment.FahrenheitOverrideExample` | apollo-air-score-card.js:94-113 | in Fahrenheit, 73.4 given as a number or through an entity resolves to exactly 23 degrees Celsius |
| `SubScores.InterpolateAtThresholds` | apollo-air-score-card.js:143-146 | the interpolation equals `max` at `lo` and 0 at `hi`, so the rule is continuous at both thresholds |
| `SubScores.InterpolateBounds` | apollo-air-score-card.js:143-146 | between the thresholds the interpolation lies in [0, max] and does not increase |
| `SubScores.InvLinear` | apollo-air-score-card.js:143-146 | the inverted linear rule lies in [0, max], is `max` at or below `lo` and 0 at or above `hi` |
| `SubScores.InvLinearIsClipped` | apollo-air-score-card.js:143-146 | the clamped rule is the interpolation at the reading clipped to [lo, hi] |
| `SubScores.InvLinearMonotone` | apollo-air-score-card.js:143-240 | for every band, a higher reading never earns more points |
| `SubScores.InterpolateDifference` | apollo-air-score-card.js:146-146 | the interpolation loses `max/(hi-lo)` points per unit of the reading |
| `SubScores.InvLinearLipschitz` | apollo-air-score-card.js:143-240 | for every band, the points change by at most `max/(hi-lo)` per unit of the reading, across the thresholds |
| `SubScores.Co2Score` | apollo-air-score-card.js:142-146 | the CO2 rule is `InvLinear` on 800–2000 with 20 points |
| `SubScores.Co2Examples` | apollo-air-score-card.js:143-146 | CO2 800 scores 20, 1400 scores 10 and 2000 scores 0 |
| `SubScores.Pm25Score` | apollo-air-score-card.js:148-152 | the PM2.5 rule is `InvLinear` on 5–75 with 18 points |
| `SubScores.AmmoniaScore` | apollo-air-score-card.js:178-182 | the ammonia rule is `InvLinear` on 1–50 with 3 points |
| `SubScores.CarbonMonoxideScore` | apollo-air-score-card.js:184-188 | the carbon monoxide rule is `InvLinear` on 1–10 with 15 points |
| `SubScores.EthanolScore` | apollo-air-score-card.js:194-198 | the ethanol rule is `InvLinear` on 1–100 with 1 point |
| `SubScores.HydrogenScore` | apollo-air-score-card.js:200-204 | the hydrogen rule is `InvLinear` on 1–10 with 1 point |
| `SubScores.MethaneScore` | apollo-air-score-card.js:206-210 | the methane rule is `InvLinear` on 1–1000 with 2 points |
| `SubScores.No2Score` | apollo-air-score-card.js:212-216 | the NO2 rule is `InvLinear` on 0.1–1 with 5 points |
| `SubScores.Pm10Score` | apollo-air-score-card.js:218-222 | the PM10 rule is `InvLinear` on 10–50 with 5 points |
| `SubScores.Pm1Score` | apollo-air-score-card.js:224-228 | the PM1 rule is `InvLinear` on 1–10 with 6 points |
| `SubScores.Pm4Score` | apollo-air-score-card.js:230-234 | the PM4 rule is `InvLinear` on 5–25 with 6 points |
| `SubScores.NoxScore` | apollo-air-score-card.js:236-240 | the NOx rule, with its `<= 1` test first, is still `InvLinear` on 1–50 with 10 points |
| `SubScores.Ceiling` | apollo-air-score-card.js:154-166 | the least integer not below the argument (used to state the VOC bands) |
| `SubScores.VocScore` | apollo-air-score-card.js:154-166 | the VOC score lies in [0, 10] |
| `SubScores.VocStaircase` | apollo-air-score-card.js:154-166 | at or above 100 the score is 0, at or below 10 it is 10, and for 10 < voc < 100 a reading in (10k, 10k+10] scores 10 − k |
| `SubScores.VocStep` | apollo-air-score-card.js:157-166 | ten more units of VOC cost exactly one point, for readings in (0, 90) |
| `SubScores.VocMonotone` | apollo-air-score-card.js:154-166 | a higher VOC reading never earns more points |
| `SubScores.VocExamples` | apollo-air-score-card.js:154-166 | VOC 15 scores 9, 95 scores 1, 100 scores 0 and 0 scores 10 |
| `SubScores.TemperatureScore` | apollo-air-score-card.js:168-170 | the temperature score lies in [0, 7], is positive exactly on (13, 33) degrees Celsius and is 7 exactly at 23 |
| `SubScores.Deviation` | apollo-air-score-card.js:169-169 | `Math.abs(x - ideal)`: non-negative and equal to one of the two differences |
| `SubScores.TemperatureDeviationMonotone` | apollo-air-score-card.js:169-170 | a temperature closer to 23 degrees never scores less |
| `SubScores.TemperaturePerDegree` | apollo-air-score-card.js:169-170 | below a deviation of 10, each further degree from 23 costs exactly 0.7 points |
| `SubScores.TemperatureSymmetric` | apollo-air-score-card.js:169-170 | the temperature score is symmetric around 23 degrees |
| `SubScores.PressureScore` | apollo-air-score-card.js:190-192 | the pressure score lies in [0, 1], is positive exactly on (1003, 1023) and is 1 exactly at 1013 |
| `SubScores.PressureDeviationMonotone` | apollo-air-score-card.js:191-192 | a pressure closer to 1013 hPa never scores less |
| `SubScores.PressurePerHpa` | apollo-air-score-card.js:191-192 | below a deviation of 10, each further hPa from 1013 costs exactly 0.1 points |
| `SubScores.HumidityScore` | apollo-air-score-card.js:172-176 | the humidity score is at most 8, is 8 exactly on [30, 60], is non-negative on [0, 100] and negative outside [0, 100] |
| `SubScores.HumidityTowardIdeal` | apollo-air-score-card.js:173-176 | the humidity score does not decrease up to 30 and does not increase from 60, so a humidity closer to [30, 60] never scores less |
| `SubScores.HumidityLipschitz` | apollo-air-score-card.js:172-176 | the humidity score is continuous, changing by at most 8/30 of a point per percent |
| `Score.ReadDefaults` | apollo-air-score-card.js:124-137 | with no sensor reporting, every reading takes its default |
| `Score.Read` | apollo-air-score-card.js:124-137 | a reading is the sensor's number when it reports one, the default otherwise (`??`) |
| `Score.ReadReadings` | apollo-air-score-card.js:124-137 | each of the fourteen readings is read from its own sensor name with its own default, as listed in the code |
| `Score.Points` | apollo-air-score-card.js:142-240 | every sub-score lies between 0 and its category's maximum, humidity only bounded above, and non-negative when the humidity is in [0, 100] |
| `Score.PmGroup` | apollo-air-score-card.js:254-254 | the PM group's contribution, a mean, lies between the smallest and the largest of the three sub-scores, and in [0, 17/3] within the maxima |
| `Score.RawSum` | apollo-air-score-card.js:243-257 | within the maxima the raw sum is at most 320/3, and non-negative when the humidity points are |
| `Score.RawSumBounds` | apollo-air-score-card.js:243-257 | the PM group contributes at most 17/3; the raw sum is at most 320/3; it is non-negative when the humidity points are |
| `Score.PmGroupExample` | apollo-air-score-card.js:254-254 | PM10 = 10, PM1 = 1 and PM4 = 5 make the group contribute exactly 17/3 |
| `Score.MaxScore` | apollo-air-score-card.js:259-261 | `max_score` is 371/3, which is 17 more than the best achievable raw sum |
| `Score.RoundHalfUp` | apollo-air-score-card.js:265-265 | the result is the integer within half a unit of the argument, a tie going up |
| `Score.RoundHalfUpMonotone` | apollo-air-score-card.js:265-265 | rounding to an integer preserves order |
| `Score.HundredthsOnGrid` | apollo-air-score-card.js:265-265 | any integer number of hundredths has at most two decimals |
| `Score.Round2` | apollo-air-score-card.js:265-265 | `Number(x.toFixed(2))` has two decimals, keeps the sign and lies within 0.005 of `x`, a tie moving away from zero |
| `Score.Round2Monotone` | apollo-air-score-card.js:265-265 | rounding to two decimals preserves order |
| `Score.Round2Idempotent` | apollo-air-score-card.js:265-265 | a value with two decimals is unchanged, so rounding twice is rounding once |
| `Score.Clamp` | apollo-air-score-card.js:265-265 | the clamp lies in [0, 100], keeps values inside, and sends values below to 0 and above to 100 |
| `Score.Normalize` | apollo-air-score-card.js:263-263 | a raw sum equal to `max_score` maps to 100, the best raw sum 320/3 maps to at most 32000/371, and the sign is preserved |
| `Score.FinalScore` | apollo-air-score-card.js:263-265 | the returned score lies in [0, 100] and has two decimals |
| `Score.FinalScoreMonotone` | apollo-air-score-card.js:263-265 | a larger raw sum never yields a smaller score |
| `Score.ScoreCeiling` | apollo-air-score-card.js:243-265 | no breakdown within the maxima scores above 86.25 |
| `Score.ScoreOf` | apollo-air-score-card.js:142-265 | the score of any readings lies in [0, 86.25] and has two decimals |
| `Score.AutoScore` | apollo-air-score-card.js:122-266 | `_autoScore` returns a score in [0, 100], never above 86.25, with two decimals |
| `Score.IdealScore` | apollo-air-score-card.js:142-265 | readings at every category's best, at 23 degrees and humidity in [30, 60], earn every maximum and score exactly 86.25 |
| `Score.CleanerAirScoresAtLeast` | apollo-air-score-card.js:142-265 | lowering any pollutant reading, all else equal, never lowers the score |
| `Score.AllDefaultsScore` | apollo-air-score-card.js:122-265 | with nothing resolving, in Celsius: only pressure 1, NOx 10, temperature 5.6 and humidity 8 score; the raw sum is 24.6 and the score 19.89 |
| `Display.TableColor` | apollo-air-score-card.js:268-274 | reference threshold table: the result is the fallback or one of the table's colours |
| `Display.TableColorPicks` | apollo-air-score-card.js:268-274 | the table gives the colour of the first threshold the value reaches |
| `Display.TableColorFallback` | apollo-air-score-card.js:273-273 | the table gives the fallback colour when no threshold is reached |
| `Display.BarColor` | apollo-air-score-card.js:268-274 | the colour is one of the five; green exactly from 80 up, red exactly below 20 |
| `Display.BarColorIsTable` | apollo-air-score-card.js:268-274 | `_barColor` is the table 80/60/40/20 read from the top, red below 20 |
| `Display.BarWidth` | apollo-air-score-card.js:315-315 | the bar width is the percentage clamped to [0, 100], the same clamp as the score's |
| `Display.Percentage` | apollo-air-score-card.js:305-311 | with `pct_entity` the percentage is its state, or 0 when not a number; otherwise it equals `AutoScore` for the configured slug, in [0, 86.25] with two decimals, which fills the bar exactly |
| `Display.TemperatureShown` | apollo-air-score-card.js:283-294 | a temperature is shown exactly when `show_temp` is on, and it equals the resolved temperature in the user's unit |
| `Display.HumidityShown` | apollo-air-score-card.js:296-298 | a humidity is shown exactly when `show_hum` is on, and it equals the resolved humidity |

## Left out

- LitElement rendering, the HTML template, CSS, `customElements.define` and `getCardSize`: presentation and host registration.
- The title and icon defaults of `render` and the unit label (°C/°F): display text only.
- `_n`'s access to `hass.states` and its `Number(...)` parsing of state strings: the lookup is a parameter returning a number or nothing, so coercions such as `Number("")` being 0 are not modelled.
- `_fmt` and the `toFixed(1)`/`toFixed(0)` formatting of the displayed values: float-to-string conversion.
- IEEE-754 doubles: the model computes over exact reals, so binary rounding of `toFixed` at halves, the representation error of constants such as 225.4 or 0.7, infinities and NaN readings are not modelled.
- JavaScript dynamic typing of configuration values: overrides are a tagged variant, and the show/unit flags are optional booleans. Because `...config` comes after the computed defaults, a present key keeps its raw value, so a non-boolean such as `use_fahrenheit: "yes"` (Fahrenheit on) or `show_temp: 0` (temperature hidden) acts by its JavaScript truthiness; the model admits only booleans there. Quirks such as `Number(null)` being 0 for a `null` override, or a key explicitly set to `undefined` overriding a default through the object spread, are not modelled.
- The exception thrown by `setConfig` is modelled as a returned error, with the card left unchanged.
- `render`'s guards `tempC !== undefined` and `hum !== undefined` always hold, because the resolver always returns both values; they are not modelled separately.
