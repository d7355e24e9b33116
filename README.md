# Carbon-compensation calculator: distance, emission and price

This project is a Dafny model of the calculation core of a small web app.
The app estimates the CO2 emitted by a trip to the STL Festival in São Thomé
das Letras (MG) and the price in BRL of compensating it. The model covers:

- `calculationUtils.ts`:
  - the round-trip distance from an origin (city, state, custom-city flag), read from a two-level table of one-way distances with `DEFAULT` fallbacks;
  - the compensation price: 40 BRL per tonne, with a minimum of 9.84 BRL;
  - the `R$ 1234,56` currency text.
- `AppContext.tsx`:
  - the `Transport` and `Calculation` records;
  - `updateTransport`, which spreads a partial record over the current one, or over the defaults when there is none;
  - `calculateEmissionAndCompensation`: emission factor by vehicle and fuel, a 15% surcharge per passenger, and the inline copy of the price rule.
- `DistanceCalculator.tsx`: the automatic/manual toggle, the manual distance input, and the two effects. One keeps an automatic distance equal to the origin's round trip. The other recalculates the emission when the distance changes.

Modules:

- `CalculationUtils` (`calculation_utils.dfy`):
  - The distance table, one constant per state.
  - The resolver, stated over any well-formed table and then applied to the real one.
  - The compensation rule.
  - `toFixed(2)` followed by the first `.` → `,` replacement, on exact reals.
- `AppContext` (`app_context.dfy`):
  - The records and the spread merge.
  - The emission factors and the emission arithmetic.
  - A `Session` class holding the three pieces of state (`origin`, `transport`, `calculation`) that the provider keeps. Its methods are the provider's setters and operations.
- `DistanceCalculator` (`distance_calculator.dfy`):
  - Each handler or effect is a function on a transport record and the origin's round trip. Its properties are proved there.
  - Each is also a method on the `Session` that applies it through `UpdateTransport`. The method's contract ties the new state to that function.
- `Wrappers` (`wrappers.dfy`): `Option`, used for JavaScript's `null` and for fields that may be absent.

JavaScript's `a || b` takes `b` whenever `a` is missing, `0`, `NaN` or
`undefined`, and the model keeps that behaviour. A table entry of `0` counts as
missing: the festival town itself (`São Thomé das Letras`, one-way entry `0`)
gets the MG default of 300 km, so its round trip is 600 km and not 0. The same
rule applies to a `passengers` value of `0` or absent (no surcharge), an
emission factor of `0` (0.12), and a distance that does not parse or parses
as `0` (0).

## Model

| member | source | states |
|---|---|---|
| CalculationUtils.DistanceTableWellFormed | client/src/utils/calculationUtils.ts:8-220 | The one-way table has a `DEFAULT` state, and every state table has a positive `DEFAULT` city and no negative entry. |
| CalculationUtils.UnlistedStateEntries | client/src/utils/calculationUtils.ts:216-219 | The fallback state table holds exactly one entry: `DEFAULT` = 1500 km. |
| CalculationUtils.EntryOrDefault | client/src/utils/calculationUtils.ts:226 | The city lookup with the `DEFAULT` fallback (also taken for a 0 entry) always gives a positive distance on a well-formed table. |
| CalculationUtils.StateDistances | client/src/utils/calculationUtils.ts:223 | The state lookup with its `DEFAULT` fallback always yields a well-formed city table. |
| CalculationUtils.OneWayDistance | client/src/utils/calculationUtils.ts:222-231 | The one-way distance (state fallback, city fallback, custom-city override) is positive for every origin. |
| CalculationUtils.RoundTripDistance | client/src/utils/calculationUtils.ts:235 | The round trip is positive and even, and it is exactly twice the one-way distance. |
| CalculationUtils.CalculateRoundTripDistance | client/src/utils/calculationUtils.ts:6-236 | For every origin, including unknown states and cities, the result is a positive, even number of km. |
| CalculationUtils.ListedCityRoundTrip | client/src/utils/calculationUtils.ts:223-235 | A listed, non-custom city with a non-zero entry travels twice its own entry. |
| CalculationUtils.UnlistedStateRoundTrip | client/src/utils/calculationUtils.ts:223 | An unlisted state gives the same result as the `DEFAULT` state. |
| CalculationUtils.UnlistedCityRoundTrip | client/src/utils/calculationUtils.ts:226 | An unlisted city in a listed state travels twice the state's `DEFAULT`. |
| CalculationUtils.CustomCityRoundTrip | client/src/utils/calculationUtils.ts:229-231 | A custom city travels twice the state's `DEFAULT`, whatever its name, as if the city were `DEFAULT`. |
| CalculationUtils.ZeroEntryRoundTrip | client/src/utils/calculationUtils.ts:226 | A listed city whose entry is 0 falls back to twice the state's `DEFAULT`. |
| CalculationUtils.UnlistedStateIs3000 | client/src/utils/calculationUtils.ts:216-223 | Every origin in a state missing from the table gets 3000 km, whatever the city or flag. |
| CalculationUtils.SaoPauloEntry | client/src/utils/calculationUtils.ts:10 | The SP table lists São Paulo at 320 km. |
| CalculationUtils.SaoThomeEntry | client/src/utils/calculationUtils.ts:39-40 | The MG table lists São Thomé das Letras at 0 and the MG default at 300 km. |
| CalculationUtils.SaoPauloRoundTrip | client/src/utils/calculationUtils.ts:9-10 | São Paulo, SP gives 640 km. |
| CalculationUtils.SaoThomeRoundTrip | client/src/utils/calculationUtils.ts:39-40 | São Thomé das Letras, MG gives 600 km, because its 0 entry falls back to the MG default. |
| CalculationUtils.EntryIfPresent | client/src/utils/calculationUtils.ts:226 | The intended city lookup: 0 exactly for a listed 0 entry, otherwise the same distance as the lookup that falls back to `DEFAULT` on a falsy entry. |
| CalculationUtils.IntendedRoundTripDistance | client/src/utils/calculationUtils.ts:222-235 | The intended round trip is even and non-negative. It is 0 exactly for a listed, non-custom city whose entry is 0; every other origin gets the same distance as the code as written. |
| CalculationUtils.IntendedCalculateRoundTripDistance | client/src/utils/calculationUtils.ts:6-236 | On the real table the intended round trip is even and non-negative, and wherever it is non-zero it equals `calculateRoundTripDistance`. |
| CalculationUtils.ZeroEntryDiscrepancy | client/src/utils/calculationUtils.ts:226 | For a listed 0 entry the code as written gives twice the state's positive `DEFAULT`, and the intended lookup gives 0. |
| CalculationUtils.IntendedSaoThomeRoundTrip | client/src/utils/calculationUtils.ts:39 | With the intended lookup, São Thomé das Letras, MG, the festival's own town, is 0 km away. |
| CalculationUtils.CalculateCompensationValue | client/src/utils/calculationUtils.ts:252-265 | The price is never below 9.84. It equals 9.84 exactly when the emission is at most 246 kg; from 246 kg up it is 40 BRL per tonne. |
| CalculationUtils.CompensationMonotonic | client/src/utils/calculationUtils.ts:252-265 | More emission never costs less. |
| CalculationUtils.Max | client/src/utils/calculationUtils.ts:264 | `Math.max` returns one of its two arguments and is at least both. The price's floor and its exact cases are proved in `CalculationUtils.CalculateCompensationValue`. |
| CalculationUtils.NatToDigits | client/src/utils/calculationUtils.ts:244 | The integer part of `toFixed` is a non-empty digit string without a leading zero whose decimal value is the number. |
| CalculationUtils.RoundCents | client/src/utils/calculationUtils.ts:244 | `toFixed(2)` rounds to the nearest cent: the cents are within half a cent of the value. |
| CalculationUtils.ReplaceFirst | client/src/utils/calculationUtils.ts:244 | `String.replace` with a string pattern leaves a text without the pattern unchanged. |
| CalculationUtils.ReplaceFirstSplit | client/src/utils/calculationUtils.ts:244 | Only the first occurrence is replaced: the first `.` becomes `,`, and everything after it, later `.` included, is left as is. |
| CalculationUtils.ToFixed2 | client/src/utils/calculationUtils.ts:244 | `toFixed(2)` gives a `-` exactly for negative values, then digits, one `.` at the third place from the end, and no other `.`. With that `.` replaced by `,` and `R$ ` in front, it is the currency text of the value rounded to the cent. Its digits are stated through `CalculationUtils.FormatCurrency`. |
| CalculationUtils.FormatCurrency | client/src/utils/calculationUtils.ts:243-245 | The text is `R$ `, an optional `-` exactly for negative values, integer digits, `,`, and two digits. It contains no `.` and one `,`. The integer digits are non-empty and have no leading zero, and with the two decimals they spell the value rounded to the cent. |
| CalculationUtils.FormatMinimumCompensation | client/src/utils/calculationUtils.ts:243-245 | The minimum price is written `R$ 9,84`. |
| CalculationUtils.FormatTwenty | client/src/utils/calculationUtils.ts:243-245 | 20 is written `R$ 20,00`. |
| AppContext.MergeTransport | client/src/context/AppContext.tsx:58-60 | The spread takes every field the partial record gives and keeps every other field of the current record. |
| AppContext.MergeDetermined | client/src/context/AppContext.tsx:60 | Those two properties determine the merged record. |
| AppContext.MergeNoChange | client/src/context/AppContext.tsx:60 | Spreading `{}` changes nothing. |
| AppContext.MergeIdempotent | client/src/context/AppContext.tsx:60 | Applying the same partial record twice equals applying it once. |
| AppContext.CombinePatches | client/src/context/AppContext.tsx:60 | For every current record, merging the combined partial record gives the same record as merging the first and then the second. |
| AppContext.MergeTwice | client/src/context/AppContext.tsx:60 | Two updates in a row equal one update with the combined partial record. |
| AppContext.EmissionFactorsComplete | client/src/context/AppContext.tsx:103-136 | The factor table has exactly the four vehicles, each with exactly the six fuels, all with a positive factor. |
| AppContext.EmissionFactor | client/src/context/AppContext.tsx:139 | The factor looked up with the 0.12 fallback is always positive. |
| AppContext.DeclaredPairFactor | client/src/context/AppContext.tsx:139 | A declared vehicle and fuel get the table's cell. |
| AppContext.UndeclaredPairFactor | client/src/context/AppContext.tsx:139 | An unknown vehicle or fuel gets the 0.12 fallback. |
| AppContext.CarroGasolinaFactor | client/src/context/AppContext.tsx:112-113 | A gasoline car emits 0.12 kg/km. |
| AppContext.OnibusDieselFactor | client/src/context/AppContext.tsx:128-129 | A diesel bus emits 0.25 kg/km. |
| AppContext.PassengerFactor | client/src/context/AppContext.tsx:145 | n passengers multiply the emission by 1 + 0.15·n, and an absent count by 1. |
| AppContext.Emission | client/src/context/AppContext.tsx:142-148 | The emission is distance × factor × (1 + 0.15·n) for n passengers, an absent or 0 count counting as none. Its sign and monotonicity are proved in `AppContext.EmissionNonNegative`, `AppContext.EmissionMonotoneInDistance` and `AppContext.EmissionMonotoneInPassengers`. |
| AppContext.TotalEmission | client/src/context/AppContext.tsx:139-148 | At the looked-up factor, a non-negative distance and passenger count give a non-negative emission. Without passengers the emission is the distance times that factor. |
| AppContext.NoPassengersNoSurcharge | client/src/context/AppContext.tsx:142-148 | Without passengers the emission is distance × factor. |
| AppContext.EmissionNonNegative | client/src/context/AppContext.tsx:142-148 | A non-negative distance, factor and passenger count give a non-negative emission. |
| AppContext.EmissionMonotoneInDistance | client/src/context/AppContext.tsx:142-148 | A longer distance never emits less. |
| AppContext.EmissionMonotoneInPassengers | client/src/context/AppContext.tsx:145-148 | More passengers never emit less. |
| AppContext.CalculationFor | client/src/context/AppContext.tsx:139-168 | The stored factor is positive and the stored price is at least the 9.84 minimum. |
| AppContext.Session.constructor | client/src/context/AppContext.tsx:53-55 | The provider starts with no origin, transport or calculation. |
| AppContext.Session.SetOrigin | client/src/context/AppContext.tsx:53 | The origin becomes the one given; nothing else changes. |
| AppContext.Session.SetTransport | client/src/context/AppContext.tsx:54 | The transport becomes the one given; nothing else changes. |
| AppContext.Session.UpdateTransport | client/src/context/AppContext.tsx:58-72 | The transport becomes the merge of the partial record into the current transport, or into the defaults (Carro, Gasolina, 120 km, automatic, 0 passengers) when there is none. The origin is unchanged. |
| AppContext.Session.CalculateEmissionAndCompensation | client/src/context/AppContext.tsx:99-169 | Without a transport nothing changes. Otherwise the calculation becomes the factor, the emission and the price for the transport; the inline price rule agrees with `calculateCompensationValue`. |
| AppContext.SaoPauloByCar | client/src/context/AppContext.tsx:139-168 | A 640 km gasoline-car trip: factor 0.12, 76.8 kg, price 9.84. |
| AppContext.SaoPauloByCarWithFourPassengers | client/src/context/AppContext.tsx:145-148 | The same trip with four passengers: 122.88 kg, still the minimum price. |
| AppContext.DieselBusTrip | client/src/context/AppContext.tsx:128-168 | 2000 km by diesel bus: 500 kg, price 20, written `R$ 20,00`. |
| DistanceCalculator.RoundTripKm | client/src/components/calculator/DistanceCalculator.tsx:22 | The distance the component writes is the round trip from the origin, a positive number of km. |
| DistanceCalculator.Toggled | client/src/components/calculator/DistanceCalculator.tsx:18-31 | The toggle flips the mode and keeps vehicle, fuel and passengers. Switching off keeps the distance; afterwards an automatic distance equals the round trip. |
| DistanceCalculator.ManualDistance | client/src/components/calculator/DistanceCalculator.tsx:35 | A parsed input is kept and a failed parse gives 0. |
| DistanceCalculator.ManuallyEdited | client/src/components/calculator/DistanceCalculator.tsx:34-37 | An edit sets the distance to the input's value and changes nothing else. |
| DistanceCalculator.Synced | client/src/components/calculator/DistanceCalculator.tsx:40-46 | After the origin effect an automatic distance equals the round trip; a manual record is left as it is. |
| DistanceCalculator.SyncedIsIdle | client/src/components/calculator/DistanceCalculator.tsx:40-46 | On a record already in step with the round trip, the effect changes nothing. |
| DistanceCalculator.SyncedIdempotent | client/src/components/calculator/DistanceCalculator.tsx:40-46 | Running the effect twice equals running it once. |
| DistanceCalculator.ToggleTwice | client/src/components/calculator/DistanceCalculator.tsx:18-31 | For a record whose distance equals the round trip whenever it is automatic: toggling twice from automatic mode restores the record. From manual mode it leaves the round trip in place of the typed distance. The default record (120 km, automatic) is not in step with most origins, so it is outside this lemma until the origin effect has run. |
| DistanceCalculator.ToggleOnDiscardsEdit | client/src/components/calculator/DistanceCalculator.tsx:18-37 | In manual mode, switching on after any typed distance gives the same record as switching on without it: the typed value never reaches automatic mode. |
| DistanceCalculator.ToggleOnEmission | client/src/components/calculator/DistanceCalculator.tsx:19-26 | After switching to automatic mode, the emission is that of the round trip. |
| DistanceCalculator.ToggleOnByMerge | client/src/components/calculator/DistanceCalculator.tsx:23-26 | The switch-on patch, merged by `updateTransport`, gives the toggled record. |
| DistanceCalculator.ToggleOffByMerge | client/src/components/calculator/DistanceCalculator.tsx:29 | The switch-off patch, merged by `updateTransport`, gives the toggled record. |
| DistanceCalculator.EditByMerge | client/src/components/calculator/DistanceCalculator.tsx:36 | The input's patch, merged by `updateTransport`, gives the edited record. |
| DistanceCalculator.SyncByMerge | client/src/components/calculator/DistanceCalculator.tsx:44 | The effect's patch, merged into an automatic record, gives the synced record. |
| DistanceCalculator.ToggleAutomaticCalc | client/src/components/calculator/DistanceCalculator.tsx:18-31 | With origin and transport present, the transport becomes the toggled record for the origin's round trip. Otherwise nothing changes. |
| DistanceCalculator.HandleDistanceChange | client/src/components/calculator/DistanceCalculator.tsx:34-37 | With origin and transport present, the transport becomes the edited record. Otherwise nothing changes. |
| DistanceCalculator.SyncDistanceWithOrigin | client/src/components/calculator/DistanceCalculator.tsx:40-46 | With origin and transport present, the transport becomes the synced record for the origin's round trip. Otherwise nothing changes. |
| DistanceCalculator.ChangeOrigin | client/src/components/calculator/DistanceCalculator.tsx:40-46 | A new origin followed by its effect: an automatic distance becomes the new origin's round trip, and a manual record is untouched. |
| DistanceCalculator.RecalculateOnDistanceChange | client/src/components/calculator/DistanceCalculator.tsx:49-53 | With origin and transport present, the calculation becomes the one for the current transport. Otherwise nothing changes. |

## Left out

- Numbers are exact reals, not IEEE-754 doubles. Products such as 640 × 0.12 and the `toFixed` rounding of values that doubles cannot hold exactly may differ in the last place from the browser's.
- CalculationUtils.FormatCurrency: values of magnitude 1e21 or more, which `toFixed` writes in exponent form, are not modelled; nor are `NaN` and the infinities.
- CalculationUtils.RoundCents: rounds the exact decimal half up. `toFixed` rounds the binary double, so for example 1.005 gives `1.00` in the browser and `1,01` here.
- The resolver lemmas are stated over any well-formed two-level table. `DistanceTableWellFormed` proves the real table meets that requirement. `UnlistedStateIs3000`, `SaoPauloRoundTrip` and `SaoThomeRoundTrip` apply the lemmas to the real table.
- Object-prototype keys are not modelled: a state or city named like a JavaScript object property (`constructor`, `toString`) would find an inherited value in the browser.
- `parseFloat`: the manual input's text is given already parsed, as `None` when parsing fails. The prefix parsing of `parseFloat` itself is not modelled.
- React's scheduling is not modelled: the asynchronous state updates, the effects' dependency lists, and the stale closures of handlers. Each handler and effect runs as one atomic step on the current state. `ChangeOrigin` runs the origin effect right after `setOrigin`.
- `passengers` is an `Option<int>`. A fractional passenger count, which a JavaScript number allows, is not modelled.
- localStorage loading and saving (`AppContext.tsx`:74-96), the `user` and `currentStep` state, the pages, the routing and the markup are not part of this model.

## Findings

| source | as written | input that shows it | evidently intended | confidence | as-written member | corrected member |
|---|---|---|---|---|---|---|
| client/src/utils/calculationUtils.ts:226 | The city lookup falls back to the state's `DEFAULT` on any falsy entry, so it treats the festival town's `0` entry (line 39, commented as the same place) as missing. The town's round trip is therefore 600 km. | `Origin("São Thomé das Letras", "MG", false)` | A presence test, so that a listed `0` entry gives a 0 km round trip | not executed | CalculationUtils.SaoThomeRoundTrip | CalculationUtils.IntendedSaoThomeRoundTrip |

The rest of the model keeps the behaviour as written: `CalculateRoundTripDistance`,
and everything built on it, gives 600 km for the festival town.
`IntendedCalculateRoundTripDistance` and `ZeroEntryDiscrepancy` show that the
two lookups differ only on such a `0` entry.
