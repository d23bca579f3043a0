# Rainwater-harvesting estimation pipeline, in Dafny

This project models the estimation core of a browser-based rainwater-harvesting
feasibility calculator (`src/services/mockData.ts`) and proves properties of it.
The core has three stages:

- **Rainfall estimator** (`generateRainfallData`, module `Rainfall`). It picks the
  nearest of ten reference cities with an argmin loop over a coordinate table. It
  takes that city's twelve-month rainfall row and sums it into an annual total. It
  classifies a trend from the June–September mean. It then scales the total by a
  randomly drawn factor for the next year and draws a confidence.
- **Hydrogeology estimator** (`generateHydrogeologyData`, module `Hydrogeology`).
  Two bounding-box zones, coastal and hard rock, decide the aquifer name, the depth
  to water, the permeability, the suitability tier, the recharge methods, the
  warnings and the recommendations. Quality, aquifer subtype and the name outside
  both zones are random draws.
- **Harvesting calculator** (`calculateHarvestingResults`, module `Harvesting`). It
  derives a runoff coefficient, the harvest volume and an additive feasibility score
  capped at 95 with its status. It chooses a structure and sizes it. It computes
  cost, savings, payback and ROI, and the environmental figures.

`Pipeline.EstimateSite` chains the three stages the way the page does for one site.
`JsMath` gives JavaScript's `Math.round`, `Math.ceil`, `Math.min` and
`Math.ceil(Math.sqrt(x))` over exact reals. `Wrappers` holds `Option`.

Modelling choices:

- Every `Math.random()` draw is a parameter in [0, 1), which is `Math.random`'s range.
  The source's own formula is then applied to it. For example, the confidence is
  `Round(80 + u * 15)`, and the aquifer name is `AquiferTypes[floor(u * 5)]`.
- `Math.round(x)` is `(x + 0.5).Floor`, which rounds a tie up just as JavaScript does.
  `Math.ceil(x)` is `-((-x).Floor)`.
- `Math.ceil(Math.sqrt(area))` is the least natural `n` with `n * n >= area`.
- The nearest-city search compares squared distances. The square root is strictly
  increasing, so the strict `<` comparisons, and therefore the chosen city, are the
  same as in the source.
- The source's `getClosestCity` returns a name. Its rainfall lookup falls back to
  Mumbai's row for an unknown name. Every city of the coordinate table has a row,
  so the fallback never applies, and the model looks the row up directly.
- `minDistance` starts at `Infinity` in the source. The model represents that
  starting value as `None`, so the first entry is always taken.
- Structure types, statuses and tiers are datatypes. Roof type and soil type stay
  strings, as the form submits them.
- The calculator requires a roof area of at least 10 m² and a land area of at least
  50 m². These are the `min` attributes of the property form
  (`src/components/PropertyForm.tsx:101`, `:118`), which stop a smaller value from
  being submitted.
- The calculator also requires a non-negative annual rainfall. Its only producer
  sums non-negative monthly values.
- Where the source divides by zero, the model returns `None` instead of a number.
  `paybackPeriod` is `None` when the savings are 0 (JavaScript gives `Infinity`).
  The structure's `width` is `None` when the storage volume is 0 (JavaScript's
  `Math.ceil(0 / 0)` gives `NaN`).

Facts the proofs bring out:
- The hard-rock box (latitude 15–25, longitude 74–85) lies inside the coastal box
  (latitude 8–25, longitude 72–88). So every hard-rock location is coastal. The
  warning "Limited groundwater potential in hard rock areas" is therefore never
  given (`IsHardRock`, `GenerateHydrogeologyData`).
- Under hard rock the depth minimum is 15, so the `depth.min > 20` test never holds
  and the tier is never Fair. The estimator never yields Poor either. The tier is
  Good exactly on the coastal box and Excellent elsewhere (`SuitabilityNeverFair`).
- The score is at least 60, so the status is never poor. With the two tiers the
  estimator produces, the score is at least 70, so the status is good or excellent
  (`StatusNeverPoor`, `EstimatedTierGivesGoodOrBetter`).
- Every reference city gets 570 to 2543 mm a year. So with the form's minimum roof
  of 10 m², the pipeline always harvests at least 1140 liters. Neither division by
  zero can then happen (`TableRainfallAvoidsDegenerateCases`, `EstimateSite`).
- Lucknow's monsoon mean is exactly 200 mm. The comparison is strict, so its trend
  is stable (`LucknowIsStable`).

Details of the code the model keeps:
- The next-year factor is `0.95 + Math.random() * 0.1`, and `Math.random()` is
  below 1, so the factor lies in [0.95, 1.05) (`mockData.ts:66`).
- The confidence is passed through `Math.round` (`mockData.ts:68`).
- Outside both zones the aquifer name is one of the five names of
  `aquiferTypes` (`mockData.ts:76-79`).
- Zero savings make the payback `Infinity` (`mockData.ts:177`), and a zero
  storage volume makes the width `Math.ceil(0 / 0)`, which is `NaN`
  (`mockData.ts:192`). Both are modelled as `None`.

## Model

| member | source | states |
|---|---|---|
| `Rainfall.MonthlyRainfall` | src/services/mockData.ts:4-15 | every city's row has twelve non-negative monthly values |
| `Rainfall.NearestAmong` | src/services/mockData.ts:33-44 | the index the loop keeps after n entries is one of the first n |
| `Rainfall.NearestAmongIsFirstNearest` | src/services/mockData.ts:36-44 | the kept entry is no farther than any visited entry, and every earlier entry is strictly farther (ties go to the earliest) |
| `Rainfall.SqDistance` | src/services/mockData.ts:37-39 | the squared distance the comparison uses is non-negative |
| `Rainfall.ClosestIndex` | src/services/mockData.ts:19-46 | the index `getClosestCity` ends on is in the table, is no farther than any entry, and is strictly closer than every earlier entry (ties go to the earliest) |
| `Rainfall.GetClosestCity` | src/services/mockData.ts:19-46 | the loop returns the city of `ClosestIndex`, which is at minimal distance and strictly closer than every earlier entry |
| `Rainfall.ClosestAtCityCoordinates` | src/services/mockData.ts:20-31 | a query exactly at a table city's coordinates selects that city |
| `Rainfall.NearMumbaiSelectsMumbai` | src/services/mockData.ts:21 | the point (19.05, 72.85) selects Mumbai |
| `Rainfall.Sum` | src/services/mockData.ts:51 | the `reduce` total of a row; its properties are the three `Sum…` lemmas below |
| `Rainfall.SumAppend` | src/services/mockData.ts:51 | the sum of a concatenation is the sum of the sums |
| `Rainfall.SumOfTwelve` | src/services/mockData.ts:51 | the annual total of a twelve-month row is its twelve values added up |
| `Rainfall.SumOfFour` | src/services/mockData.ts:55-56 | the sum of the four monsoon months is their four values added up |
| `Rainfall.MonsoonTotal` | src/services/mockData.ts:55-56 | the June–September total equals the `Sum` of `slice(5, 9)` of the row |
| `Rainfall.TrendOf` | src/services/mockData.ts:53-60 | increasing iff June–September total above 800 mm (mean above 200), decreasing iff below 400 mm (mean below 100), stable iff in between inclusive |
| `Rainfall.TrendAtMean150` | src/services/mockData.ts:57-59 | a monsoon mean of exactly 150 mm is stable |
| `Rainfall.LucknowIsStable` | src/services/mockData.ts:14 | Lucknow's monsoon mean is exactly 200 mm, and the strict threshold makes it stable |
| `Rainfall.AnnualTotalRange` | src/services/mockData.ts:4-15 | every annual total lies in [570, 2543], with Jaipur the only minimum and Mumbai the only maximum |
| `Rainfall.NextYear` | src/services/mockData.ts:66 | the prediction lies between the rounded 95% and the rounded 105% of the annual total |
| `Rainfall.Confidence` | src/services/mockData.ts:68 | the confidence lies in [80, 95] |
| `Rainfall.GenerateRainfallData` | src/services/mockData.ts:17-73 | the region is the nearest city, the monthly data is exactly its 12-entry row, the annual total is the row's sum and lies in [570, 2543], the trend is `TrendOf` the row, and the prediction and confidence are in their bounds |
| `Hydrogeology.IsCoastal` | src/services/mockData.ts:80 | the coastal box: longitude strictly between 72 and 88, latitude strictly between 8 and 25 |
| `Hydrogeology.IsHardRock` | src/services/mockData.ts:80-81 | the hard-rock box lies inside the coastal box, so every hard-rock location is also coastal |
| `Hydrogeology.DepthToWater` | src/services/mockData.ts:87 | min ≤ max, the unit is meters, and the minimum is 15 exactly under hard rock |
| `Hydrogeology.SuitabilityTier` | src/services/mockData.ts:91-95 | the tier is never Poor, and it is Fair exactly for hard rock with a minimum depth above 20 m |
| `Hydrogeology.SuitabilityNeverFair` | src/services/mockData.ts:87-95 | with the zone depth the Fair branch is unreachable: the tier is Good iff coastal, else Excellent |
| `Hydrogeology.GenerateHydrogeologyData` | src/services/mockData.ts:75-124 | the hard-rock name wins over the coastal one; the depth is {15,45} under hard rock, else {5,25}; permeability is Medium iff hard rock; quality is Fair iff the draw exceeds 0.7; the tier is Good iff coastal, else Excellent; the recharge methods are the tier's fixed triple or pair; the coastal warning wins and the hard-rock warning is never given; the recommendations are the two fixed ones and a third that follows the tier |
| `JsMath.Round` | src/services/mockData.ts:143 | `Math.round`: the result is within half of x, with a tie going up |
| `JsMath.RoundMonotone` | src/services/mockData.ts:143 | rounding is monotone |
| `JsMath.Ceil` | src/services/mockData.ts:192 | `Math.ceil`: the least integer not below x |
| `JsMath.Min` | src/services/mockData.ts:165 | `Math.min`: the smaller of its arguments |
| `JsMath.CeilSqrt` | src/services/mockData.ts:191 | `Math.ceil(Math.sqrt(x))`: the least natural whose square is at least x |
| `JsMath.CeilSqrtFrom` | src/services/mockData.ts:191 | the upward search finds the least natural at or above k whose square is at least x |
| `Harvesting.RunoffCoefficient` | src/services/mockData.ts:132-140 | the table entry for a known roof type, 0.75 for any other, and always in [0.2, 0.9] |
| `Harvesting.AnnualHarvest` | src/services/mockData.ts:143-148 | the harvest is `round(annualRainfall * roofArea * coefficient)`: the mm-to-m and m³-to-liter conversions cancel |
| `Harvesting.AnnualHarvestMonotone` | src/services/mockData.ts:143-148 | the harvest never falls when rainfall, roof area or coefficient rise |
| `Harvesting.AnnualHarvestExample` | src/services/mockData.ts:143-148 | 1000 mm on 100 m² at coefficient 0.85 gives 85000 liters |
| `Harvesting.FeasibilityScore` | src/services/mockData.ts:151-165 | the score, 60 plus the rainfall bonus (`RainfallBonus`), the tier bonus (`SuitabilityBonus`) and the roof bonus (`RoofBonus`) capped at 95, lies in [60, 95] |
| `Harvesting.FeasibilityScoreMonotone` | src/services/mockData.ts:151-165 | the score is monotone non-decreasing in annual rainfall, suitability tier and roof area together |
| `Harvesting.FeasibilityScoreCapReached` | src/services/mockData.ts:165 | the cap of 95 is reached |
| `Harvesting.StatusOf` | src/services/mockData.ts:167-169 | excellent iff score ≥ 80, good iff 65 ≤ score < 80, fair iff 50 ≤ score < 65, poor iff < 50 |
| `Harvesting.StatusNeverPoor` | src/services/mockData.ts:151-169 | the status of any score is never poor |
| `Harvesting.EstimatedTierGivesGoodOrBetter` | src/services/mockData.ts:151-169 | with tier Excellent or Good the score is at least 70 and the status good or excellent |
| `Harvesting.PerPeriod` | src/services/mockData.ts:207-208 | `periods` times the average is within half a period of the total |
| `Harvesting.TotalCost` | src/services/mockData.ts:172-173 | the cost on a roof of at least 10 m² is at least 1800 |
| `Harvesting.AnnualSavings` | src/services/mockData.ts:175-176 | the savings are a non-negative amount no larger than the harvest |
| `Harvesting.PaybackPeriod` | src/services/mockData.ts:177 | absent exactly when the savings are 0; otherwise the one-decimal value at line 224 is within 0.05 of cost / savings |
| `Harvesting.Roi` | src/services/mockData.ts:225 | the ROI is non-negative, and at most 100 when savings do not exceed the cost |
| `Harvesting.StorageVolume` | src/services/mockData.ts:188 | the storage volume is between 0 and the harvest |
| `Harvesting.SizeStructure` | src/services/mockData.ts:188-192 | a zero volume gives length 0 and no width (NaN); a positive volume gives length and width at least 1 |
| `Harvesting.WidthCoversArea` | src/services/mockData.ts:192 | a width no less than area/length and less than one above it (what `Math.ceil` gives) makes length × width cover the area, and one less width would not |
| `Harvesting.AreaToVolume` | src/services/mockData.ts:190 | a floor area of at least, or below, volume/(depth·1000) holds at least, or below, the volume |
| `Harvesting.SizeStructureHoldsVolume` | src/services/mockData.ts:188-192 | for a positive volume, length·width·depth·1000 ≥ volume, while length−1 (as a square) or width−1 falls short |
| `Harvesting.FloodReduction` | src/services/mockData.ts:230 | the flood reduction lies in [0, 45], and is at most 30 when the roof is no larger than the land |
| `Harvesting.CarbonReduction` | src/services/mockData.ts:228 | the carbon reduction is between 0 and the harvest |
| `Harvesting.GroundwaterRecharge` | src/services/mockData.ts:229 | the recharge is between 0 and the harvest |
| `Harvesting.TableRainfallAvoidsDegenerateCases` | src/services/mockData.ts:143-192 | with any table city's rainfall and a roof of at least 10 m², the harvest is ≥ 1140 L, the savings ≥ 23 and the storage volume ≥ 114 L |
| `Harvesting.RegressionScenario` | src/services/mockData.ts:143-169 | 1200 mm on a 100 m² concrete roof harvests 102000 L; with tier Good the score is 80, which is excellent |
| `Harvesting.CalculateHarvestingResults` | src/services/mockData.ts:126-233 | the accumulated score equals `FeasibilityScore` and lies in [60, 95], and the status is never poor; Storage Tank iff tier Poor or clay soil, else Recharge Well iff land < 100 m², else Recharge Pit; depth 2 iff Storage Tank, else 3; the dimensions size the storage volume; payback is absent iff savings are 0; the ROI is `Roi` of the savings and cost; the carbon reduction, groundwater recharge and flood reduction are `CarbonReduction`, `GroundwaterRecharge` and `FloodReduction` of the harvest and areas, so the flood reduction is at most 45, and at most 30 when the roof is no larger than the land |
| `Pipeline.EstimateSite` | src/pages/Index.tsx:40-82 | over everything the estimators can produce, the score is ≥ 70 and the status is good or excellent, Storage Tank is chosen iff the soil is clay, the payback and width are defined, and the capacity is at least 114 L |

## Left out

- Randomness: `Math.random()` is replaced by draws passed in as parameters. Its distribution is not modelled.
- The `source` text of the rainfall profile. The model keeps the matched city as `region` instead.
- `lastUpdated` (`new Date().toLocaleDateString`), because it reads the clock.
- The feasibility `reasons` strings, because they are template-string formatting.
- IEEE-754 behaviour. All arithmetic is exact over reals, so floating-point rounding of products is not modelled. `Math.sqrt` precision, the `NaN` from a `NaN` coordinate, and `Infinity`/`NaN` payload values are not modelled either; the cases that divide by zero become `None`.
- `Harvesting.RunoffCoefficient`: does not model JavaScript's prototype lookup. With it, a roof type such as `"constructor"` would yield a function and the harvest would be `NaN`. The form only submits the five table keys.
- `Harvesting.CalculateHarvestingResults`: requires the form's minimum areas (roof ≥ 10 m², land ≥ 50 m²). A zero land area would divide by zero in the flood reduction, and a zero cost in the ROI.
- The geocoder stub in `src/components/LocationInput.tsx` is not part of this model, because it is a mock lookup plus the browser geolocation API.
- The React components, the page's `setTimeout` sequencing and toasts, and the PDF export in `src/services/pdfGenerator.ts` are not part of this model, because they are presentation only.
