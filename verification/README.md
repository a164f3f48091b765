# Crop advisory engine — a verified model

The application takes one farm's soil and weather readings (nitrogen,
phosphorus, potassium, pH, temperature, humidity, rainfall, plus a
location and a farm size) and renders three analyses of them:

- **Crop recommendations**: six crop rules (rice, wheat, maize, potato,
  sugarcane, cotton). Each rule has an eligibility gate, a base
  suitability and additive or subtractive adjustments. Each rule also
  collects reasons and warnings. The eligible crops are stably sorted by
  descending suitability and cut to four.
- **Soil health**: each of pH, N, P and K earns 25/20/15/10 points from
  the first of three nested bands containing it. The score is the rounded
  mean of the four. A status label, three lines of environmental
  commentary and a list of improvement suggestions go with it.
- **Fertilizer advice**: each nutrient is classified low/optimal/high
  against a fixed range. A low nutrient gets dosages proportional to its
  deficiency, and the pH gets a lime or sulfur dosage.

A small view-state machine (home, form, results) decides which screen is
shown.

The project has one module per file:

| file | module | models |
|---|---|---|
| `soil.dfy` | `Soil` | the readings record, `Option`, JavaScript's `Math.round` |
| `crops.dfy` | `Crops` | `analyzeCrops` and `getSuitabilityText` |
| `health.dfy` | `Health` | `calculateHealthScore`, `getHealthStatus`, `getEnvironmentalFactors`, the suggestion list |
| `fertilizer.dfy` | `Fertilizer` | `getNutrientStatus`, `getRecommendation`, the nutrient table, the pH dosage |
| `app.dfy` | `AppState` | the `currentView`/`soilData` state and its three handlers |

How the model represents the source:

- Readings are exact `real`s, and `Math.round(x)` is `(x + 0.5).Floor`,
  which rounds halves upwards.
- Where the source works step by step, the model is a method proved equal
  to a specification function:
  - `AnalyzeCrops` pushes into a local list.
  - `CalculateHealthScore` accumulates `score` and `factors`.
  - `GetEnvironmentalFactors` pushes three entries.
  - The application state is a class whose handlers update two fields.
  The properties are then proved as lemmas about the specification
  functions.
- In `AnalyzeCrops` each rule block is its own method, `PushRice` …
  `PushCotton`. Each keeps the block's local `suitability`, `reasons` and
  `warnings` updates and is proved to push exactly the rule's entry.
- `Array.prototype.sort` is a library call, so the model gives it as a
  pure stable insertion sort (`SortBySuitability`). It is proved to
  permute, to order and to keep rule order among ties.
- The soil-health score is on a 10–25 scale, while the status thresholds
  are 80/60/40. The model keeps this as the code has it, and proves the
  consequences: the status is always Poor, and the soil-testing tip is
  always shown.
- The input form's default readings give maize 100, rice 85, cotton 85
  and potato 80, with sugarcane (65) cut and wheat not eligible
  (`DefaultReadingsExample`).

## Model

| member | source | states |
|---|---|---|
| Soil.Round | src/components/SoilHealthAnalysis.tsx:62 | `Math.round`: the result is within half a unit of the argument, with halves rounded up |
| Crops.Score | src/components/CropRecommendations.tsx:25-172 | every suitability lies in [60, 100], and each crop's score is one of its four (sugarcane: two) possible values |
| Crops.Reasons | src/components/CropRecommendations.tsx:26-167 | reasons start with the crop's fixed base reasons, gain exactly one entry when the nutrient bonus applies, and are never empty |
| Crops.Gate | src/components/CropRecommendations.tsx:24 | the six eligibility tests (lines 24, 50, 80, 108, 136, 160); each one needs a temperature in [15, 35] |
| Crops.Warnings | src/components/CropRecommendations.tsx:27-172 | at most two warnings; a crop has none exactly when it earned its top scores: rice 85, wheat 95, maize 85 or 100, potato 85 or more, sugarcane 85; cotton never has any |
| Crops.Assess | src/components/CropRecommendations.tsx:37-45 | the entry of an eligible crop: its kind, a suitability in [60, 100], reasons starting with the base reasons, and warnings absent rather than empty (cotton's always absent) |
| Crops.CandidatesFromExact | src/components/CropRecommendations.tsx:21-183 | running any list of rules pushes exactly the assessments of the eligible crops among them and nothing else |
| Crops.CandidatesFromOrdered | src/components/CropRecommendations.tsx:21-183 | rules run in rule order push in rule order |
| Crops.CandidatesExact | src/components/CropRecommendations.tsx:21-183 | a crop is in the pushed list iff its gate holds, with the rule's assessment, in rule order |
| Crops.CandidatesFromCount | src/components/CropRecommendations.tsx:21-183 | one entry is pushed per eligible rule |
| Crops.CandidatesCount | src/components/CropRecommendations.tsx:21-183 | the pushed list has as many entries as there are eligible crops |
| Crops.CandidatesUnfold | src/components/CropRecommendations.tsx:21-183 | the pushed list is rice's slot, then wheat's, maize's, potato's, sugarcane's and cotton's |
| Crops.PushRice | src/components/CropRecommendations.tsx:24-47 | the rice block appends the rice assessment exactly when its gate holds |
| Crops.PushWheat | src/components/CropRecommendations.tsx:50-77 | the wheat block appends the wheat assessment exactly when its gate holds |
| Crops.PushMaize | src/components/CropRecommendations.tsx:80-105 | the maize block appends the maize assessment exactly when its gate holds |
| Crops.PushPotato | src/components/CropRecommendations.tsx:108-133 | the potato block appends the potato assessment exactly when its gate holds |
| Crops.PushSugarcane | src/components/CropRecommendations.tsx:136-157 | the sugarcane block appends the sugarcane assessment exactly when its gate holds |
| Crops.PushCotton | src/components/CropRecommendations.tsx:160-183 | the cotton block appends the cotton assessment exactly when its gate holds |
| Crops.AnalyzeCrops | src/components/CropRecommendations.tsx:20-186 | the imperative rule run, sort and slice return exactly the specified recommendation list |
| Crops.InsertPos | src/components/CropRecommendations.tsx:185 | a stable descending insertion goes after every higher-scoring entry and before the first entry that does not score higher |
| Crops.InsertPermutes | src/components/CropRecommendations.tsx:185 | insertion adds the new entry and keeps all the others |
| Crops.InsertSorted | src/components/CropRecommendations.tsx:185 | insertion keeps a non-increasing list non-increasing |
| Crops.InsertKeepsTies | src/components/CropRecommendations.tsx:185 | inserting an entry that precedes the others in rule order keeps ties in rule order |
| Crops.SortBySuitability | src/components/CropRecommendations.tsx:185 | the stable descending sort keeps the length; SortPermutes, SortOrders and SortKeepsRuleOrderOnTies prove it a permutation, ordered and stable |
| Crops.SortPermutes | src/components/CropRecommendations.tsx:185 | the sort is a permutation of its input |
| Crops.SortOrders | src/components/CropRecommendations.tsx:185 | the sort's output is non-increasing by suitability |
| Crops.SortKeepsRuleOrderOnTies | src/components/CropRecommendations.tsx:185 | the sort is stable: on input in rule order, equal scores keep rule order |
| Crops.Take | src/components/CropRecommendations.tsx:185 | `slice(0, n)` is the prefix of length min(n, length) |
| Crops.TakeKeepsHighest | src/components/CropRecommendations.tsx:185 | cutting a sorted list keeps entries scoring at least as much as every dropped one |
| Crops.Recommend | src/components/CropRecommendations.tsx:20-186 | the `analyzeCrops` result has at most four entries, never more than the crops pushed |
| Crops.RecommendEligible | src/components/CropRecommendations.tsx:24-185 | every returned crop's gate held, and the crop is that rule's assessment |
| Crops.RecommendLength | src/components/CropRecommendations.tsx:185 | the list has min(4, number of eligible crops) entries |
| Crops.RecommendOrdered | src/components/CropRecommendations.tsx:185 | the list is non-increasing by suitability, ties keep rule order, and no crop name appears twice |
| Crops.RecommendCutScoresLower | src/components/CropRecommendations.tsx:185 | every eligible crop that was cut scores no more than any crop that was kept |
| Crops.NameInjective | src/components/CropRecommendations.tsx:39-175 | distinct crops have distinct names (lines 39, 69, 97, 125, 149, 175) |
| Crops.NothingOutsideTemperatureRange | src/components/CropRecommendations.tsx:24-185 | a temperature outside [15, 35] fails every gate and the list is empty |
| Crops.SortTwoExample | src/components/CropRecommendations.tsx:185 | scores 65, 85 sort to 85, 65 |
| Crops.SortFourExample | src/components/CropRecommendations.tsx:185 | scores 100, 80, 65, 85 sort to 100, 85, 80, 65 |
| Crops.SortFiveExample | src/components/CropRecommendations.tsx:185 | scores 85, 100, 80, 65, 85 sort to 100, 85, 85, 80, 65, with the two 85s in input order |
| Crops.AllButWheatCandidates | src/components/CropRecommendations.tsx:21-183 | when every gate but wheat's holds, the pushed list is rice, maize, potato, sugarcane, cotton |
| Crops.DefaultReadingsScores | src/components/CropRecommendations.tsx:25-172 | the default readings score rice 85, maize 100, potato 80, sugarcane 65, cotton 85 |
| Crops.DefaultReadingsGates | src/components/CropRecommendations.tsx:24-160 | on the form's default readings every gate but wheat's holds |
| Crops.DefaultReadingsCandidates | src/components/CropRecommendations.tsx:24-183 | the default readings make every rule but wheat's fire: rice 85, maize 100, potato 80, sugarcane 65, cotton 85 |
| Crops.DefaultReadingsExample | src/components/CropRecommendations.tsx:20-185 | the default readings give maize, rice, cotton, potato, in that order |
| Crops.WarningsPresence | src/components/CropRecommendations.tsx:24-182 | warnings are absent exactly when the rule raised none: cotton never has any, sugarcane has them iff nitrogen < 50, and so on for each crop |
| Crops.GetSuitabilityText | src/components/CropRecommendations.tsx:196-200 | Excellent iff ≥ 80, Good iff in [60, 80), Fair iff < 60 |
| Crops.NeverFair | src/components/CropRecommendations.tsx:196-200 | no returned crop is ever labelled Fair |
| Health.BandPoints | src/components/SoilHealthAnalysis.tsx:15-23 | each reading earns 10, 15, 20 or 25; for nested bands, 25 iff in the top band, ≥ 20 iff in the middle band, ≥ 15 iff in the outer band |
| Health.TablesNested | src/components/SoilHealthAnalysis.tsx:15-59 | the four band tables are nested |
| Health.BandBoundaries | src/components/SoilHealthAnalysis.tsx:15-34 | band ends are inclusive: pH 6.0 and 7.5 give 25, pH 5.0 gives 15, pH 4.9 gives 10, nitrogen 30 and 60 give 25, nitrogen 14 gives 10 |
| Health.BandSum | src/components/SoilHealthAnalysis.tsx:15-59 | the four readings' points add up to between 40 and 100 |
| Health.HealthScore | src/components/SoilHealthAnalysis.tsx:10-63 | the score lies in [10, 25] |
| Health.HealthScoreExtremes | src/components/SoilHealthAnalysis.tsx:15-62 | the score is 25 iff all four readings are in their top bands, and 10 iff all four are outside every band |
| Health.CalculateHealthScore | src/components/SoilHealthAnalysis.tsx:10-63 | the step-by-step accumulation returns the specified score, which lies in [10, 25] |
| Health.MeanOfFactors | src/components/SoilHealthAnalysis.tsx:60-62 | with four factors counted, the rounded quotient is the specified score |
| Health.GetHealthStatus | src/components/SoilHealthAnalysis.tsx:65-70 | Excellent iff ≥ 80, Good iff in [60, 80), Fair iff in [40, 60), Poor iff < 40 |
| Health.AlwaysPoor | src/components/SoilHealthAnalysis.tsx:65-70 | given the score range, every sample is labelled Poor |
| Health.Suggestions | src/components/SoilHealthAnalysis.tsx:178-195 | the soil-testing tip is shown iff the score < 60, and the three fixed tips always close the list |
| Health.SoilTestingAlwaysSuggested | src/components/SoilHealthAnalysis.tsx:178-183 | given the score range, all four tips are always shown |
| Health.TemperatureFactor | src/components/SoilHealthAnalysis.tsx:76-82 | good iff the temperature is in [15, 35]; the low and high warnings are distinct |
| Health.HumidityFactor | src/components/SoilHealthAnalysis.tsx:85-91 | good iff the humidity is in [40, 80]; the low and high warnings are distinct |
| Health.RainfallFactor | src/components/SoilHealthAnalysis.tsx:94-100 | a warning iff rainfall < 50; good both above 200 and in [50, 200], with different messages |
| Health.GetEnvironmentalFactors | src/components/SoilHealthAnalysis.tsx:72-103 | always three entries (temperature, humidity, rainfall), with the kinds given by the readings |
| Fertilizer.GetNutrientStatus | src/components/FertilizerAdvice.tsx:10-14 | low iff below the range; high iff above it and not low; when lo ≤ hi, optimal iff within the range |
| Fertilizer.ProductsFor | src/components/FertilizerAdvice.tsx:42-64 | a deficient nutrient is offered one or two products |
| Fertilizer.GetRecommendation | src/components/FertilizerAdvice.tsx:38-73 | dosages iff a known nutrient is low, each round(deficiency × rate) for the nutrient's products; high gives the nutrient's reduce/avoid text and optimal its maintain text, whatever the reading; "" for an unknown nutrient |
| Fertilizer.Nutrients | src/components/FertilizerAdvice.tsx:75-79 | the fixed table: Nitrogen [30, 60], Phosphorus [15, 40], Potassium [25, 80], in that order |
| Fertilizer.Assess | src/components/FertilizerAdvice.tsx:89-113 | one card: low iff below the range, high iff above it, and the advice for that status, with dosages iff the reading is low |
| Fertilizer.Plan | src/components/FertilizerAdvice.tsx:89-118 | three cards in table order; a card is low iff its reading is below the range, high iff above it, optimal iff within it, and carries `GetRecommendation`'s advice for that status, so dosages iff low |
| Fertilizer.DoseNonIncreasing | src/components/FertilizerAdvice.tsx:39-64 | on a low reading every dosage is ≥ 0 and does not increase as the reading rises towards the range |
| Fertilizer.NitrogenTenExample | src/components/FertilizerAdvice.tsx:44-46 | nitrogen 10 gives 40 kg/ha of Urea or 30 kg/ha of DAP |
| Fertilizer.PhAdjustment | src/components/FertilizerAdvice.tsx:135-139 | exactly one branch applies: lime iff pH < 6.0, sulfur iff pH > 7.5, maintenance otherwise; each dosage is ≥ 0 and within half a unit of its exact amount |
| Fertilizer.PhFiveExample | src/components/FertilizerAdvice.tsx:135-136 | pH 5.0 gives 500 kg/ha of lime |
| Fertilizer.PhDoseMonotone | src/components/FertilizerAdvice.tsx:135-138 | as the pH moves further from the optimal range, the lime or sulfur dosage is never smaller (rounding can keep it equal) |
| AppState.Render | src/App.tsx:42-147 | the home page iff the view is home, the form iff form, and the results page for the held readings iff the view is results and readings are held |
| AppState.Step | src/App.tsx:24-36 | after any handler the state is consistent (results view ⇒ readings held); the view is results iff the readings were just submitted; readings are missing iff the user went home, or started an analysis holding none |
| AppState.InitialConsistent | src/App.tsx:21-22 | the initial state is consistent and renders the home page |
| AppState.StepPreservesConsistent | src/App.tsx:24-36 | every handler preserves consistency |
| AppState.RunConsistent | src/App.tsx:21-147 | after any sequence of events the state is consistent, something is rendered, and the results view renders the results for the held readings |
| AppState.HandlerEffects | src/App.tsx:24-36 | starting an analysis changes only the view; submitting records the readings and shows results; going home resets the state and is idempotent |
| AppState.ReadingsKeptUntilHome | src/App.tsx:24-36 | once readings are held, only going home removes them |
| AppState.App.constructor | src/App.tsx:21-22 | the initial state is the home view with no readings |
| AppState.App.HandleStartAnalysis | src/App.tsx:24-26 | the view becomes form and the readings are unchanged |
| AppState.App.HandleFormSubmit | src/App.tsx:28-31 | the readings become the submitted ones and the view becomes results |
| AppState.App.HandleBackToHome | src/App.tsx:33-36 | the view becomes home and the readings are cleared |
| AppState.App.Show | src/App.tsx:42-147 | the rendered screen for the current state; in a valid state something is always rendered, and the results view shows the readings held |

## Left out

- JSX markup, CSS classes, icons and colours: `getSuitabilityColor`,
  `getStatusIcon`, `getStatusColor`, and the `color`/`bgColor`/`icon`
  fields of `getHealthStatus`. They are presentation only, so the status
  is modelled as its label alone.
- The nutrient bar width. It is a floating-point display percentage.
- The input form, the hero and header components, and the results
  layout. Their widgets, browser-side parsing and HTML `min`/`max`
  limits are not part of this model. The results layout's two pH
  ternaries repeat the [6.0, 7.5] band that `PhAdjustment` models.
- The fixed display texts:
  - The yield, price and season texts are functions of the crop kind
    (`ExpectedYield`, `MarketPrice`, `Season`), not fields of `Crop`.
  - Reasons and warnings are `Note` values whose display text is `Text`.
  - The application schedule is not modelled.
- Number-to-text formatting of dosages. `GetRecommendation` returns the
  kg/ha amounts and products as data, not the sentence that embeds them.
- IEEE-754 binary rounding. Readings are exact reals, so for example
  (6.0 − 5.9) · 500 is exactly 50.
- React hooks and re-rendering. The state is a plain class whose handlers
  run one at a time.
- Crops.AnalyzeCrops: the `crops` list is a local `seq` value, not an
  array mutated in place. It is never shared, so no aliasing is lost.
- Fertilizer.GetRecommendation: the `status` argument is the
  three-valued status type. The source accepts any string, but always
  passes a value produced by `getNutrientStatus`.
