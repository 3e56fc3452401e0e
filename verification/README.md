# SMR site-evaluation engine, modelled in Dafny

This project models the site-evaluation engine of the Dawei power dashboard
(`src/data/smrData.ts`). The engine holds a fixed catalog of four candidate sites
for a 300 MW small modular reactor and seven grid load centres. It resolves the
Yangon load centre as the delivery hub. For a site it computes the distance to
the hub, the transmission efficiency under a linear loss of 3 points per 100 km,
the energy delivered from a day's 7200 MWh of generation, and how that energy
splits into what Yangon absorbs and any surplus. It also classifies a site's
seismic category and its cooling-water score for display.

Modules, leaf first:

- `JsMath` (`js_math.dfy`): `Math.round`, `Math.min` and `Math.max` over reals.
- `Lookup` (`lookup.dfy`): `Option` and the first-match search of `Array.prototype.find`.
- `Registry` (`registry.dfy`): constants, site and load-centre records, both catalogs, the Yangon hub.
- `Transmission` (`transmission.dfy`): the efficiency model.
- `Classification` (`classification.dfy`): the seismic colour switch and the water-level bands.
- `Evaluation` (`evaluation.dfy`): `calculateEffectivePower`.

The haversine distance is not computed. It is a caller-supplied function value
of type `Evaluation.Geodesy`, with the same four arguments as `calculateDistance`.
The only thing assumed about it is that it is non-negative for the site and hub
being evaluated. The source's haversine formula always guarantees this.

## Model

| member | source | states |
|---|---|---|
| JsMath.Round | src/data/smrData.ts:118-122 | `Math.round` gives the integer n with n − 0.5 ≤ x < n + 0.5, so halves round up |
| JsMath.Min | src/data/smrData.ts:114 | `Math.min` returns one of its two arguments, and that argument is no larger than the other |
| JsMath.Max | src/data/smrData.ts:98 | `Math.max` returns one of its two arguments, and that argument is no smaller than the other (also used at line 115) |
| JsMath.RoundMonotone | src/data/smrData.ts:118-122 | rounding preserves order between two values |
| Lookup.FirstIndex | src/data/smrData.ts:80 | the index found is the first one satisfying the predicate; nothing is found only when no element satisfies it |
| Lookup.Find | src/data/smrData.ts:80 | `find` returns an element that satisfies the predicate and has no earlier match; it returns nothing exactly when no element matches |
| Registry.YangonHub | src/data/smrData.ts:69-80 | the "yangon" lookup resolves to the first load centre, which has demand 49511 and priority 1 |
| Registry.CatalogConsistent | src/data/smrData.ts:2-77 | daily target = capacity × 24; 4 sites and 7 centres; site ids are distinct; centre ids are distinct; priorities are 1..7 in list order; water scores are in [1, 10]; demands are non-negative |
| Registry.HubDominatesDemand | src/data/smrData.ts:69-80 | no load centre has more demand than the hub, and hub demand exceeds a day's generation |
| Registry.HubLookupFailsWithoutYangon | src/data/smrData.ts:80 | if the first catalog entry is removed, the "yangon" lookup finds nothing |
| Transmission.Efficiency | src/data/smrData.ts:96-99 | efficiency is ≥ 0; it is ≤ 100 for non-negative distance; it is 0 exactly from 10000/3 km on; before that, efficiency plus 3 points per 100 km equals 100 |
| Transmission.FullEfficiencyAtSource | src/data/smrData.ts:96-99 | efficiency at 0 km is exactly 100 |
| Transmission.EfficiencyNonIncreasing | src/data/smrData.ts:96-99 | a longer distance never gives a higher efficiency |
| Transmission.EfficiencyStrictlyDecreasing | src/data/smrData.ts:96-99 | while efficiency is positive, a longer distance gives a strictly lower efficiency |
| Classification.ParseSeismic | src/data/smrData.ts:12 | a parsed category spells back to the same text; no category is returned exactly when the text is none of the four names |
| Classification.ParseSeismicName | src/data/smrData.ts:12 | each of the four category names parses back to its own category |
| Classification.SeismicColorOfText | src/data/smrData.ts:127-135 | the switch on category text returns the fallback class exactly when the text is not one of the four categories |
| Classification.SeismicColor | src/data/smrData.ts:127-135 | a well-formed category never reaches the `default` branch |
| Classification.SeismicColorInjective | src/data/smrData.ts:128-132 | two categories share a colour only if they are the same category |
| Classification.WaterBandOf | src/data/smrData.ts:138-143 | a score falls in the highest band whose closed-below threshold it meets (9, 7, 5, else none) |
| Classification.GetWaterLevel | src/data/smrData.ts:138-143 | "Excellent" iff w ≥ 9; "Good" iff 7 ≤ w < 9; "Moderate" iff 5 ≤ w < 7; "Limited" iff w < 5 |
| Classification.WaterBandMonotone | src/data/smrData.ts:139-142 | a higher score never lands in a worse band |
| Classification.CatalogWaterLevels | src/data/smrData.ts:18-57 | the catalog sites rate Excellent (Dawei), Good (Ye), Limited (Naypyidaw) and Good (Mawlamyine) |
| Evaluation.SplitPower | src/data/smrData.ts:110-115 | delivered energy is the daily target scaled by efficiency and lies in [0, 7200]; absorbed is at most both delivered and hub demand and equals one of them; surplus ≥ 0; absorbed + surplus = delivered; when delivered ≤ demand, everything is absorbed and surplus is 0 |
| Evaluation.RoundPower | src/data/smrData.ts:117-123 | each reported figure is the nearest whole number to its exact value (halves up); efficiency has one decimal place and is the nearest tenth |
| Evaluation.RoundingKeepsInvariants | src/data/smrData.ts:117-123 | after rounding: distance ≥ 0; efficiency in [0, 100]; delivered in [0, 7200]; absorbed ≤ delivered; absorbed ≥ 0 when demand ≥ 0; surplus ≥ 0 |
| Evaluation.EvaluateSite | src/data/smrData.ts:102-124 | for distance d from the geodesy: distance is d to the nearest km; efficiency is the nearest tenth to `Efficiency(d)`; delivered is 7200 × `Efficiency(d)` / 100, absorbed is min(delivered, hub demand) and surplus is max(0, delivered − hub demand), each to the nearest MWh. The bounds above hold for any hub, and a hub whose demand covers a day's generation absorbs everything with zero surplus |
| Evaluation.CalculateEffectivePower | src/data/smrData.ts:102-124 | the same figures, computed against Yangon's demand of 49511 MWh; everything delivered is absorbed and surplus is 0 |
| Evaluation.CatalogSitesLeaveNoSurplus | src/data/smrData.ts:113-115 | every catalog site gives zero surplus at Yangon, as the comment on line 113 claims |
| Evaluation.DaweiScenario | src/data/smrData.ts:102-124 | at a Dawei–Yangon distance in [351, 351.05] km, the result is 351 km, 89.5 %, 6442 MWh delivered and absorbed, and 0 surplus |

## Left out

- `calculateDistance` (haversine, `src/data/smrData.ts:83-93`) needs `sin`, `cos`, `atan2` and `sqrt`, which cannot be reasoned about here. Distance is a caller-supplied function value. The model assumes it is non-negative at the evaluated points. Its symmetry and zero-at-same-point properties are not modelled.
- IEEE-754 floating point: all arithmetic is over exact reals. Float rounding of `distanceKm / 100 * 3` and of `efficiency * 10` is not modelled. Neither are `Math.round` quirks near 2^52.
- Water scores are integers in the model. The source's `number` type would also accept fractional scores; the bands would treat them the same way, but they are not modelled.
- `isPreferred` and `partnership` are optional in the source. An absent `isPreferred` is modelled as `false`, and an absent `partnership` as `None`.
- The `yangonHub` non-null assertion (`!`) does not check anything at run time. If the hub were missing, JavaScript would fail later, when the evaluation reads `yangonHub.lat`. The model does not have a failing `yangonHub`. Instead, it proves that the lookup succeeds on the catalog and that it would find nothing without the Yangon entry.
- The React components, the Leaflet map, the Recharts charts, the `toFixed`/`toLocaleString` formatting, the cooling-source text in the sidebar and the deficit percentage in the analytics panel are presentation code outside the engine. The Tailwind configuration is styling.
