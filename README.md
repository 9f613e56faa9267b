# Crop-yield estimator model

This project models the rule-based yield estimator of the crop-yield app, found in
`src/utils/predictionModel.ts`. The estimator takes a form input. The input names the crop, the
soil type and the farming system. It also gives the area, the temperature, the humidity, the
rainfall, the nitrogen, phosphorus and potassium levels, and the soil pH. From these it returns
three things:

- a yield in tons per hectare, rounded to hundredths;
- an integer confidence score in [0, 98];
- a list of advice messages.

The modules follow the source:

- `Farm` (`farm.dfy`) holds the input and output records. `yield` is a Dafny keyword, so the
  output field is named `yieldValue`.
- `JsMath` (`js_math.dfy`) holds `Math.round`, `Math.max` and `Math.min`.
- `Tables` (`tables.dfy`) holds the reference tables. Each lookup falls back to a default row the
  way the source's `table[key] || default` does.
- `Factors` (`factors.dfy`) holds the temperature, water, nutrient and pH factors.
  `getWaterFactor` updates a local factor step by step, so it is a method (`WaterFactor`), proved
  equal to the function `WaterFactorOf`.
- `Confidence` (`confidence.dfy`) holds `calculateConfidence`. It is a method that lowers a
  running score rule by rule. It is proved equal to `ConfidenceOf`, which clamps 80 minus the
  penalties plus the noise.
- `Recommendations` (`recommendations.dfy`) holds `generateRecommendations`. It is a method that
  pushes messages group by group and then pads the list. It is proved equal to
  `RecommendationsOf`. The messages are first built as values of an `Advice` datatype, and
  `Text()` gives each one's exact wording.
- `Estimator` (`estimator.dfy`) holds `predictYield`. It gathers the seven multipliers: the
  baseline, the soil and system modifiers, and the four factors. It multiplies them in the
  source's order by the random variation, then rounds to hundredths. It then computes the
  confidence and the advice, and the advice sees the rounded yield.

`predictYield` and `calculateConfidence` each draw `Math.random()` once. The model passes both
draws in as parameters in [0, 1): `yieldDraw` and `confidenceDraw`. The variation is
`0.9 + 0.2 * yieldDraw`, and the noise is `Math.round(10 * confidenceDraw - 5)`. Lemmas show that
every variation in [0.9, 1.1) and every noise in [-5, 5] comes from some draw.

Facts about the code that a reader might not expect:

- The comment at `src/utils/predictionModel.ts:273` says the list ends with at least three
  entries. The code appends at most two fallback messages, so when no rule fires the list has
  exactly two entries (`OnlyTwoWhenNoRuleFires`, `RecommendationCount`).
- The yield can be negative. A temperature factor below zero is enough: rice at -10 °C has a
  factor of -0.75 (`ColdRiceYieldIsNegative`).
- Two negative factors can cancel. Rice at -10 °C with 20000 mm of rain has a temperature factor
  of -0.75 and a water factor of -61/30. The product is then positive and above 1.1 times the
  modified baseline (`ColdWetRiceYieldExceedsCap`). The yield lies in [0, 1.1 × modified
  baseline] only within the ranges `YieldWithinBounds` states.
- Wheat on loamy soil under conventional farming, at 17 °C and 600 mm of rain, with nutrients at
  50, pH 6.5 and the middle draw, comes to 3.5554…. `Math.round(x * 100) / 100` rounds that to
  3.56 (`WheatExample`).
- The upsell rule reads `baselineYields[cropType]` with no fallback. For an unlisted non-empty
  crop the threshold is `undefined * 0.8`, which is NaN, so the rule never fires. For the empty
  crop it uses the default row: 4.0 × 0.8 = 3.2 (`UpsellIff`).

## Model

| member | source | states |
|---|---|---|
| JsMath.Round | src/utils/predictionModel.ts:216 | `Math.round` gives the integer n with n - 0.5 <= x < n + 0.5, so halves round up |
| JsMath.Max | src/utils/predictionModel.ts:219 | `Math.max` gives an argument that is at least both arguments |
| JsMath.Min | src/utils/predictionModel.ts:219 | `Math.min` gives an argument that is at most both arguments |
| JsMath.RoundMonotone | src/utils/predictionModel.ts:94 | `Math.round` never reverses the order of its arguments |
| Tables.NumberOr | src/utils/predictionModel.ts:69-70 | a lookup that falls back on a missing or falsy entry: a present non-zero entry is returned, a missing or zero entry gives the fallback, and the result is 0 only when the fallback is |
| Tables.BaseYield | src/utils/predictionModel.ts:25-40 | a listed crop gets its own baseline, any other key gets the default 4.0; every result is in [2, 70] |
| Tables.SoilModifier | src/utils/predictionModel.ts:43-68 | a listed soil gets its modifier, any other key gets 1.0; every result is in [0.8, 1.2] |
| Tables.FarmingSystemModifier | src/utils/predictionModel.ts:56-69 | a listed system gets its modifier, any other key gets 1.0; every result is in [0.85, 1.4] |
| Tables.TemperatureBand | src/utils/predictionModel.ts:111-122 | a listed crop gets its band, any other key gets (20, 25); every band has 15 <= min < max <= 35 |
| Tables.OptimalRainfall | src/utils/predictionModel.ts:135-146 | a listed crop gets its optimum, any other key gets 700 mm; every result is in [500, 1500] |
| Tables.PHBand | src/utils/predictionModel.ts:177-188 | a listed crop gets its band, any other key gets (6.0, 7.0); every band has 5 <= min < max <= 8 |
| Factors.TemperatureFactor | src/utils/predictionModel.ts:122-130 | the factor is at most 1, and it is exactly 1 if and only if the temperature lies in the crop's band |
| Factors.TemperatureFactorSlopes | src/utils/predictionModel.ts:126-130 | below the band the factor falls 0.05 per degree, above it 0.04 per degree, strictly |
| Factors.TemperatureFactorNonNegative | src/utils/predictionModel.ts:122-130 | the factor is non-negative if and only if the temperature is between 20 below and 25 above the band |
| Factors.RainfallTerm | src/utils/predictionModel.ts:146-154 | the rainfall multiplier is at most 1; below the optimum it is in [0.7, 1); it is 1 if and only if rainfall is between the optimum and 1.5 times it |
| Factors.HumidityTerm | src/utils/predictionModel.ts:156-161 | the humidity multiplier is in [0.9, 1], and it is 1 if and only if humidity is in [40, 80] |
| Factors.WaterFactorOf | src/utils/predictionModel.ts:133-164 | the water factor is at most 1, and it is 1 if and only if both the rainfall and the humidity are in their flat bands |
| Factors.WaterFactor | src/utils/predictionModel.ts:146-163 | the step-by-step `factor *=` computation equals `WaterFactorOf` |
| Factors.ExcessRainfallDecreases | src/utils/predictionModel.ts:152-153 | above 1.5 times the optimum, the multiplier falls by 0.2 per optimum of extra rain, strictly |
| Factors.WaterFactorNonNegative | src/utils/predictionModel.ts:146-163 | for non-negative rainfall, the factor is non-negative if and only if rainfall is at most 6.5 times the optimum |
| Factors.NutrientFactor | src/utils/predictionModel.ts:166-173 | for levels in [0, 100] the factor is in [23/30, 1], and it is 1 if and only if all three levels are 100 |
| Factors.NutrientFactorIncreasing | src/utils/predictionModel.ts:168-172 | raising any nutrient never lowers the factor, and a strict rise in any one raises it strictly |
| Factors.PHFactor | src/utils/predictionModel.ts:188-196 | the factor is at most 1, and it is 1 if and only if the pH lies in the crop's band |
| Factors.PHFactorSlopes | src/utils/predictionModel.ts:192-196 | below the band the factor falls 0.1 per pH unit, above it 0.08, strictly |
| Factors.PHFactorNonNegative | src/utils/predictionModel.ts:188-196 | the factor is non-negative if and only if the pH is between 10 below and 12.5 above the band |
| Confidence.Penalty | src/utils/predictionModel.ts:203-213 | the penalties total at most 85, and at least 50 when crop, soil and system are all unselected |
| Confidence.Noise | src/utils/predictionModel.ts:216 | the noise lies in [-5, 5] |
| Confidence.NoiseCoversRange | src/utils/predictionModel.ts:216 | every integer in [-5, 5] is the noise of some draw in [0, 1) |
| Confidence.ConfidenceOf | src/utils/predictionModel.ts:203-219 | the score lies in [0, 98], and it is 80 minus the penalties plus the noise whenever that value is in range |
| Confidence.CalculateConfidence | src/utils/predictionModel.ts:199-220 | the rule-by-rule updates and the clamp give `ConfidenceOf` for the drawn noise, within [0, 98] |
| Confidence.ConfidenceWithoutNoise | src/utils/predictionModel.ts:203-219 | without noise the score is 80 minus the penalties, floored at 0, and never above 80 |
| Confidence.NoiseShiftsAtMost | src/utils/predictionModel.ts:216-219 | the noise moves the score by at most 5, and in the direction of its sign |
| Confidence.NothingSelected | src/utils/predictionModel.ts:211-213 | with no key selected and no extreme reading, the score is 30 before noise |
| Recommendations.Advice.Text | src/utils/predictionModel.ts:228-236 | the nitrogen, phosphorus and potassium messages each contain the selected crop's name |
| Recommendations.Naming | src/utils/predictionModel.ts:228-236 | a template message is the text before the crop, the crop name and the text after it, so it mentions the crop |
| Recommendations.Render | src/utils/predictionModel.ts:222-278 | the list holds one message per piece of advice |
| Recommendations.RenderAt | src/utils/predictionModel.ts:222-278 | the message at each position is the wording of the advice at that position |
| Recommendations.RenderPrefix | src/utils/predictionModel.ts:268-278 | padding only appends, so the messages of a list are a prefix of the messages of any list extending it |
| Recommendations.CropAdvice | src/utils/predictionModel.ts:225-238 | at most three messages, none with no crop selected, all naming the selected crop; each of the nitrogen, phosphorus and potassium messages appears if and only if a crop is selected and its level is below 50, 40 and 40 |
| Recommendations.PHAdvice | src/utils/predictionModel.ts:240-245 | the liming message if and only if pH < 5.5, the lowering message if and only if pH > 7.5, nothing if and only if pH is in [5.5, 7.5] |
| Recommendations.WaterAdvice | src/utils/predictionModel.ts:247-252 | the irrigation message if and only if rainfall < 500, the leaching message if and only if rainfall > 1500, nothing if and only if rainfall is in [500, 1500] |
| Recommendations.SoilAdvice | src/utils/predictionModel.ts:254-259 | the sandy-soil message if and only if the soil is `sandy`, the clay message if and only if it is `clay`, nothing otherwise |
| Recommendations.AboveUpsellThreshold | src/utils/predictionModel.ts:262 | for a listed crop, the yield is above 80% of its baseline; for the empty crop, above 3.2; for an unlisted non-empty crop, never |
| Recommendations.SystemAdvice | src/utils/predictionModel.ts:261-266 | the upsell if and only if the system is conventional and the yield is above the threshold; the rotation message if and only if the system is organic; nothing if and only if neither applies |
| Recommendations.Padded | src/utils/predictionModel.ts:268-276 | the padded list extends the rule messages with fallbacks only, has at least 2 entries, is unchanged for 3 or more rule messages and has at most 3 entries otherwise |
| Recommendations.RecommendationsOf | src/utils/predictionModel.ts:222-279 | the messages number between 2 and 7 and begin with the rule messages in group order |
| Recommendations.RenderAppend | src/utils/predictionModel.ts:223-278 | the messages of two advice lists, joined, are the two lists' messages joined |
| Recommendations.RuleAdvice | src/utils/predictionModel.ts:225-266 | at most 7 rule messages fire (at most 4 with no crop selected), and none of them is a fallback message |
| Recommendations.PaddedShape | src/utils/predictionModel.ts:268-276 | padding appends a prefix of [soil testing, record-keeping]: none for 3 or more rule messages, otherwise up to a length of 3, and 2 when no rule fires |
| Recommendations.PadWithFallbacks | src/utils/predictionModel.ts:268-276 | the two `length < 3` pushes give the padded list and its length formula |
| Recommendations.PushCropAdvice | src/utils/predictionModel.ts:225-238 | with a crop selected, the nitrogen, phosphorus and potassium messages are pushed in order onto the empty list |
| Recommendations.PushPHAdvice | src/utils/predictionModel.ts:240-245 | the list gains exactly the pH group's message, if any |
| Recommendations.PushWaterAdvice | src/utils/predictionModel.ts:247-252 | the list gains exactly the rainfall group's message, if any |
| Recommendations.PushSoilAdvice | src/utils/predictionModel.ts:254-259 | the list gains exactly the soil group's message, if any |
| Recommendations.PushSystemAdvice | src/utils/predictionModel.ts:261-266 | the list gains exactly the farming-system group's message, if any |
| Recommendations.GenerateRecommendations | src/utils/predictionModel.ts:222-279 | the pushes and the padding give the rule messages in group order, then the fallbacks; the list has between 2 and 7 entries |
| Recommendations.NitrogenAdviceIff | src/utils/predictionModel.ts:226-229 | the nitrogen message for a crop appears if and only if that crop is the selected, non-empty crop and nitrogen is below 50 |
| Recommendations.RuleAdviceMembers | src/utils/predictionModel.ts:225-266 | a message fires if and only if one of the five rule groups produces it |
| Recommendations.UpsellIff | src/utils/predictionModel.ts:262-263 | the upsell fires if and only if the system is conventional, the crop has a baseline row and the yield is above 80% of it; 3.2 for the empty crop; never for an unlisted crop |
| Recommendations.OrganicAdviceIff | src/utils/predictionModel.ts:264-265 | the rotation message appears if and only if the system is organic |
| Recommendations.OnlyTwoWhenNoRuleFires | src/utils/predictionModel.ts:268-276 | when no rule can fire, the list is exactly the two fallback messages |
| Recommendations.RecommendationCount | src/utils/predictionModel.ts:268-276 | the list always has at least 2 entries, and exactly 2 if and only if no rule fires |
| Estimator.Variation | src/utils/predictionModel.ts:90 | the random multiplier lies in [0.9, 1.1) |
| Estimator.VariationCoversRange | src/utils/predictionModel.ts:90 | every multiplier in [0.9, 1.1) is the variation of some draw in [0, 1) |
| Estimator.RoundToCents | src/utils/predictionModel.ts:94 | the result has whole hundredths and lies in (x - 0.005, x + 0.005] |
| Estimator.RoundToCentsMonotone | src/utils/predictionModel.ts:94 | rounding to hundredths never reverses the order of two yields |
| Estimator.RoundToCentsKeepsCents | src/utils/predictionModel.ts:94 | a value with whole hundredths is unchanged, so rounding twice is rounding once |
| Estimator.MultipliersOf | src/utils/predictionModel.ts:40-88 | baseline in [2, 70], soil in [0.8, 1.2], system in [0.85, 1.4], temperature, water and pH factors at most 1, nutrient in [23/30, 1] for levels in [0, 100] |
| Estimator.Scaled | src/utils/predictionModel.ts:68-90 | with the four factors at 1 the product is the modified baseline times the variation, and any factor at 0 makes it 0 |
| Estimator.RawYield | src/utils/predictionModel.ts:68-90 | a temperature, water, nutrient or pH factor of 0 makes the unrounded yield 0 |
| Estimator.OptimalConditionsYield | src/utils/predictionModel.ts:68-90 | with temperature and pH in the crop's bands, rainfall between the optimum and 1.5 times it, humidity in [40, 80] and every nutrient at 100, the yield is the modified baseline times the variation |
| Estimator.ApplyMultipliers | src/utils/predictionModel.ts:67-91 | the `yieldValue *=` steps give the product of all multipliers and the variation |
| Estimator.PredictYield | src/utils/predictionModel.ts:38-106 | the yield is the rounded product of the multipliers and the variation, with whole hundredths; the confidence is `ConfidenceOf` for the drawn noise, in [0, 98]; the advice is `RecommendationsOf` for the rounded yield, with 2 to 7 entries |
| Estimator.ScaledWithin | src/utils/predictionModel.ts:67-91 | with non-negative modifiers and factors in [0, 1], the product lies between 0 and 1.1 times the modified baseline |
| Estimator.YieldWithinBounds | src/utils/predictionModel.ts:38-94 | within the ranges where every factor is non-negative, the rounded yield lies between 0 and the rounded 1.1 times the modified baseline |
| Estimator.ScaledIncreasesWithNutrient | src/utils/predictionModel.ts:82-83 | with the other multipliers positive, a larger nutrient factor gives a strictly larger product |
| Estimator.YieldIncreasesWithNitrogen | src/utils/predictionModel.ts:82-83 | with positive temperature, water and pH factors, more nitrogen strictly raises the unrounded yield and never lowers the rounded one |
| Estimator.AdviceIgnoresArea | src/utils/predictionModel.ts:225-266 | the advice rules give the same messages whatever the area |
| Estimator.AreaIsNotRead | src/utils/predictionModel.ts:38-106 | inputs that differ only in area get the same yield, confidence and advice |
| Estimator.WheatExample | src/utils/predictionModel.ts:38-106 | the wheat example's product is 10.66625 / 3, which rounds to 3.56; its score is 80 before noise, and its advice is the upsell and the two fallbacks |
| Estimator.ColdRiceYieldIsNegative | src/utils/predictionModel.ts:126-127 | rice at -10 °C has a temperature factor of -0.75, and its rounded yield is negative for every draw |
| Estimator.ColdWetRiceYieldExceedsCap | src/utils/predictionModel.ts:126-153 | rice at -10 °C with 20000 mm of rain has factors -0.75 and -61/30, and its yield exceeds 1.1 times the modified baseline for every draw |

## Left out

- The React pages, the form, the chart and the browser storage are not part of this model; only
  the estimator in `src/utils/predictionModel.ts` is.
- `Math.random()` is not modelled as a generator. Its two draws are parameters in [0, 1), taken in
  the order the source draws them.
- Numbers are exact reals and integers, not IEEE-754 doubles. A product whose double value lies
  just beside a half hundredth can round differently in the source than in the model.
- Only numeric inputs are modelled. NaN, `undefined` and non-number fields are not, and neither
  are keys that name inherited object properties (such as `"constructor"`), which JavaScript
  would look up on the prototype.
- Estimator.YieldWithinBounds: the bounds hold only within the stated temperature, rainfall,
  nutrient and pH ranges. Outside them the source can return a negative yield, as
  `ColdRiceYieldIsNegative` shows, or one above the cap, as `ColdWetRiceYieldExceedsCap` shows.
