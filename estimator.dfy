/** `predictYield`: the multiplicative yield pipeline, with the confidence score and the advice list. */
module Estimator {
  import opened Farm
  import opened Tables
  import opened Factors
  import opened JsMath
  import opened Confidence
  import opened Recommendations

  /** The yield multiplier `0.9 + Math.random() * 0.2` for a draw of `Math.random()`. */
  function Variation(draw: real): (v: real)
    requires 0.0 <= draw < 1.0
    ensures 0.9 <= v < 1.1
  {
    0.9 + draw * 0.2
  }

  /** Every multiplier in [0.9, 1.1) comes from some draw. */
  lemma VariationCoversRange(v: real)
    requires 0.9 <= v < 1.1
    ensures exists draw: real :: 0.0 <= draw < 1.0 && Variation(draw) == v
  {
    var draw := (v - 0.9) * 5.0;
    assert Variation(draw) == v;
  }

  /** A value with a whole number of hundredths. */
  predicate IsCents(x: real)
  {
    (x * 100.0).Floor as real == x * 100.0
  }

  /** `Math.round(x * 100) / 100`: the nearest hundredth, halves rounded up. */
  function RoundToCents(x: real): (r: real)
    ensures IsCents(r)
    ensures -0.005 < r - x <= 0.005
  {
    Round(x * 100.0) as real / 100.0
  }

  /** Rounding to hundredths never reverses the order of its inputs. */
  lemma RoundToCentsMonotone(x: real, y: real)
    requires x <= y
    ensures RoundToCents(x) <= RoundToCents(y)
  {
    RoundMonotone(x * 100.0, y * 100.0);
  }

  /** A value that already has whole hundredths is left alone, so rounding twice is rounding once. */
  lemma RoundToCentsKeepsCents(x: real)
    requires IsCents(x)
    ensures RoundToCents(x) == x
    ensures RoundToCents(RoundToCents(x)) == RoundToCents(x)
  {
    RoundOfWhole((x * 100.0).Floor);
  }

  /** The seven multipliers `predictYield` applies to the yield, in the order it applies them. */
  datatype Multipliers = Multipliers(
    baseline: real, soil: real, system: real,
    temperature: real, water: real, nutrient: real, ph: real)

  /** The multipliers `predictYield` derives from an input: the three table lookups and the
      four factors. */
  function MultipliersOf(input: PredictionInput): (m: Multipliers)
    ensures 2.0 <= m.baseline <= 70.0 && 0.8 <= m.soil <= 1.2 && 0.85 <= m.system <= 1.4
    ensures m.temperature <= 1.0 && m.water <= 1.0 && m.ph <= 1.0
    ensures 0.0 <= input.nitrogen <= 100.0 && 0.0 <= input.phosphorus <= 100.0 && 0.0 <= input.potassium <= 100.0 ==>
      23.0 / 30.0 <= m.nutrient <= 1.0
  {
    Multipliers(
      BaseYield(input.cropType),
      SoilModifier(input.soilType),
      FarmingSystemModifier(input.farmingSystem),
      TemperatureFactor(input.cropType, input.temperature),
      WaterFactorOf(input.cropType, input.rainfall, input.humidity),
      NutrientFactor(input.nitrogen, input.phosphorus, input.potassium),
      PHFactor(input.cropType, input.ph))
  }

  /** The baseline yield after the soil and farming-system modifiers. */
  function ModifiedBaseline(m: Multipliers): real
  {
    m.baseline * m.soil * m.system
  }

  /** The yield before rounding: every multiplier and the random variation, multiplied in order. */
  function Scaled(m: Multipliers, variation: real): (r: real)
    ensures m.temperature == 1.0 && m.water == 1.0 && m.nutrient == 1.0 && m.ph == 1.0 ==>
      r == ModifiedBaseline(m) * variation
    ensures m.temperature == 0.0 || m.water == 0.0 || m.nutrient == 0.0 || m.ph == 0.0 ==> r == 0.0
  {
    m.baseline * m.soil * m.system * m.temperature * m.water * m.nutrient * m.ph * variation
  }

  /** The unrounded yield `predictYield` computes for an input and a variation. */
  function RawYield(input: PredictionInput, variation: real): (r: real)
    ensures var m := MultipliersOf(input);
      m.temperature == 0.0 || m.water == 0.0 || m.nutrient == 0.0 || m.ph == 0.0 ==> r == 0.0
  {
    Scaled(MultipliersOf(input), variation)
  }

  /** Under optimal conditions (temperature and pH in the crop's bands, rainfall between the
      optimum and 1.5 times it, humidity in [40, 80], every nutrient at 100) the four factors drop
      out and the yield is the modified baseline times the variation. */
  lemma OptimalConditionsYield(input: PredictionInput, variation: real)
    requires TemperatureBand(input.cropType).0 <= input.temperature <= TemperatureBand(input.cropType).1
    requires OptimalRainfall(input.cropType) <= input.rainfall <= OptimalRainfall(input.cropType) * 1.5
    requires 40.0 <= input.humidity <= 80.0
    requires input.nitrogen == 100.0 && input.phosphorus == 100.0 && input.potassium == 100.0
    requires PHBand(input.cropType).0 <= input.ph <= PHBand(input.cropType).1
    ensures RawYield(input, variation) == ModifiedBaseline(MultipliersOf(input)) * variation
  {
    OptimalFactors(input);
    ScaledAtOptimum(MultipliersOf(input), variation);
  }

  /** Under those conditions each of the four factors is 1. */
  lemma OptimalFactors(input: PredictionInput)
    requires TemperatureBand(input.cropType).0 <= input.temperature <= TemperatureBand(input.cropType).1
    requires OptimalRainfall(input.cropType) <= input.rainfall <= OptimalRainfall(input.cropType) * 1.5
    requires 40.0 <= input.humidity <= 80.0
    requires input.nitrogen == 100.0 && input.phosphorus == 100.0 && input.potassium == 100.0
    requires PHBand(input.cropType).0 <= input.ph <= PHBand(input.cropType).1
    ensures var m := MultipliersOf(input); m.temperature == 1.0 && m.water == 1.0 && m.nutrient == 1.0 && m.ph == 1.0
  {
  }

  /** With the four factors at 1 the product is the modified baseline times the variation. */
  lemma ScaledAtOptimum(m: Multipliers, variation: real)
    requires m.temperature == 1.0 && m.water == 1.0 && m.nutrient == 1.0 && m.ph == 1.0
    ensures Scaled(m, variation) == ModifiedBaseline(m) * variation
  {
  }

  /** The `yieldValue *= ...` steps of `predictYield`, in the source's order. */
  method ApplyMultipliers(m: Multipliers, variation: real) returns (yieldValue: real)
    ensures yieldValue == Scaled(m, variation)
  {
    yieldValue := m.baseline;
    yieldValue := yieldValue * m.soil;
    yieldValue := yieldValue * m.system;
    yieldValue := yieldValue * m.temperature;
    yieldValue := yieldValue * m.water;
    yieldValue := yieldValue * m.nutrient;
    yieldValue := yieldValue * m.ph;
    yieldValue := yieldValue * variation;
  }

  /** `predictYield`, with the two `Math.random()` results passed in as `yieldDraw` and
      `confidenceDraw`, in the order the source draws them. */
  method PredictYield(input: PredictionInput, yieldDraw: real, confidenceDraw: real) returns (output: PredictionOutput)
    requires 0.0 <= yieldDraw < 1.0 && 0.0 <= confidenceDraw < 1.0
    ensures output.yieldValue == RoundToCents(RawYield(input, Variation(yieldDraw)))
    ensures IsCents(output.yieldValue)
    ensures output.confidence == ConfidenceOf(input, Noise(confidenceDraw))
    ensures 0 <= output.confidence <= 98
    ensures output.recommendations == RecommendationsOf(input, output.yieldValue)
    ensures 2 <= |output.recommendations| <= 7
  {
    var baseYield := BaseYield(input.cropType);
    var soilModifier := SoilModifier(input.soilType);
    var systemModifier := FarmingSystemModifier(input.farmingSystem);
    var tempFactor := TemperatureFactor(input.cropType, input.temperature);
    var waterFactor := WaterFactor(input.cropType, input.rainfall, input.humidity);
    var nutrientFactor := NutrientFactor(input.nitrogen, input.phosphorus, input.potassium);
    var phFactor := PHFactor(input.cropType, input.ph);
    var multipliers := Multipliers(baseYield, soilModifier, systemModifier, tempFactor, waterFactor, nutrientFactor, phFactor);
    var randomVariation := Variation(yieldDraw);
    var yieldValue := ApplyMultipliers(multipliers, randomVariation);
    yieldValue := RoundToCents(yieldValue);
    var confidence := CalculateConfidence(input, confidenceDraw);
    var recommendations := GenerateRecommendations(input, yieldValue);
    output := PredictionOutput(yieldValue, confidence, recommendations);
  }

  /** Scaling an amount in [0, top] by a factor in [0, 1] keeps it in [0, top]. */
  lemma ScaleDown(amount: real, top: real, factor: real)
    requires 0.0 <= amount <= top && 0.0 <= factor <= 1.0
    ensures 0.0 <= amount * factor <= top
  {
  }

  /** Scaling an amount in [0, top] by a factor in [0, limit] keeps it in [0, top * limit]. */
  lemma ScaleWithin(amount: real, top: real, factor: real, limit: real)
    requires 0.0 <= amount <= top && 0.0 <= factor <= limit
    ensures 0.0 <= amount * factor <= top * limit
  {
    assert amount * factor <= top * factor;
  }

  /** With non-negative modifiers, factors in [0, 1] and a variation in [0.9, 1.1), the product
      lies between 0 and 1.1 times baseline times modifiers. */
  lemma ScaledWithin(m: Multipliers, variation: real)
    requires 0.0 <= m.baseline && 0.0 <= m.soil && 0.0 <= m.system
    requires 0.0 <= m.temperature <= 1.0 && 0.0 <= m.water <= 1.0 && 0.0 <= m.nutrient <= 1.0 && 0.0 <= m.ph <= 1.0
    requires 0.9 <= variation < 1.1
    ensures 0.0 <= Scaled(m, variation) <= ModifiedBaseline(m) * 1.1
  {
    ScaleWithin(m.baseline, m.baseline, m.soil, m.soil);
    ScaleWithin(m.baseline * m.soil, m.baseline * m.soil, m.system, m.system);
    var top := m.baseline * m.soil * m.system;
    ScaleDown(top, top, m.temperature);
    ScaleDown(top * m.temperature, top, m.water);
    ScaleDown(top * m.temperature * m.water, top, m.nutrient);
    ScaleDown(top * m.temperature * m.water * m.nutrient, top, m.ph);
    ScaleWithin(top * m.temperature * m.water * m.nutrient * m.ph, top, variation, 1.1);
  }

  /** Within 20 degrees below and 25 above the temperature band, up to 6.5 times the optimal
      rainfall, nutrients in [0, 100] and within 10 pH units below and 12.5 above the pH band,
      every factor is in [0, 1], so the yield lies between 0 and the rounded 1.1 times
      baseline times modifiers. Outside these ranges the source can return a negative yield. */
  lemma YieldWithinBounds(input: PredictionInput, draw: real)
    requires 0.0 <= draw < 1.0
    requires TemperatureBand(input.cropType).0 - 20.0 <= input.temperature <= TemperatureBand(input.cropType).1 + 25.0
    requires 0.0 <= input.rainfall <= OptimalRainfall(input.cropType) * 6.5
    requires 0.0 <= input.nitrogen <= 100.0 && 0.0 <= input.phosphorus <= 100.0 && 0.0 <= input.potassium <= 100.0
    requires PHBand(input.cropType).0 - 10.0 <= input.ph <= PHBand(input.cropType).1 + 12.5
    ensures 0.0 <= RoundToCents(RawYield(input, Variation(draw)))
    ensures RoundToCents(RawYield(input, Variation(draw))) <= RoundToCents(ModifiedBaseline(MultipliersOf(input)) * 1.1)
  {
    var m := MultipliersOf(input);
    TemperatureFactorNonNegative(input.cropType, input.temperature);
    WaterFactorNonNegative(input.cropType, input.rainfall, input.humidity);
    PHFactorNonNegative(input.cropType, input.ph);
    ScaledWithin(m, Variation(draw));
    RoundToCentsMonotone(0.0, RawYield(input, Variation(draw)));
    RoundToCentsMonotone(RawYield(input, Variation(draw)), ModifiedBaseline(m) * 1.1);
  }

  /** A larger nutrient factor, everything else fixed and positive, gives a larger product. */
  lemma ScaledIncreasesWithNutrient(m: Multipliers, nutrient: real, variation: real)
    requires m.nutrient < nutrient
    requires 0.0 < m.baseline && 0.0 < m.soil && 0.0 < m.system
    requires 0.0 < m.temperature && 0.0 < m.water && 0.0 < m.ph && 0.0 < variation
    ensures Scaled(m, variation) < Scaled(m.(nutrient := nutrient), variation)
  {
    var before := m.baseline * m.soil * m.system * m.temperature * m.water;
    assert before > 0.0;
    assert before * m.nutrient < before * nutrient;
    assert before * m.nutrient * m.ph < before * nutrient * m.ph;
    assert before * m.nutrient * m.ph * variation < before * nutrient * m.ph * variation;
  }

  /** Raising nitrogen, all else fixed, strictly raises the unrounded yield whenever the other
      factors are positive, and never lowers the rounded yield. */
  lemma YieldIncreasesWithNitrogen(input: PredictionInput, nitrogen: real, draw: real)
    requires 0.0 <= draw < 1.0
    requires input.nitrogen < nitrogen
    requires TemperatureFactor(input.cropType, input.temperature) > 0.0
    requires WaterFactorOf(input.cropType, input.rainfall, input.humidity) > 0.0
    requires PHFactor(input.cropType, input.ph) > 0.0
    ensures RawYield(input, Variation(draw)) < RawYield(input.(nitrogen := nitrogen), Variation(draw))
    ensures RoundToCents(RawYield(input, Variation(draw))) <= RoundToCents(RawYield(input.(nitrogen := nitrogen), Variation(draw)))
  {
    var more := input.(nitrogen := nitrogen);
    NutrientFactorIncreasing(input.nitrogen, input.phosphorus, input.potassium, nitrogen, input.phosphorus, input.potassium);
    assert MultipliersOf(more) == MultipliersOf(input).(nutrient := MultipliersOf(more).nutrient);
    ScaledIncreasesWithNutrient(MultipliersOf(input), MultipliersOf(more).nutrient, Variation(draw));
    RoundToCentsMonotone(RawYield(input, Variation(draw)), RawYield(more, Variation(draw)));
  }

  /** The advice rules never read `area`. */
  lemma AdviceIgnoresArea(input: PredictionInput, area: real, yieldValue: real)
    ensures RuleAdvice(input.(area := area), yieldValue) == RuleAdvice(input, yieldValue)
  {
    var other := input.(area := area);
    assert CropAdvice(other) == CropAdvice(input);
    assert SystemAdvice(other, yieldValue) == SystemAdvice(input, yieldValue);
  }

  /** `area` is never read: two inputs that differ only in area get the same estimate. */
  lemma AreaIsNotRead(input: PredictionInput, area: real, variation: real, noise: int, yieldValue: real)
    ensures RawYield(input.(area := area), variation) == RawYield(input, variation)
    ensures ConfidenceOf(input.(area := area), noise) == ConfidenceOf(input, noise)
    ensures RecommendationsOf(input.(area := area), yieldValue) == RecommendationsOf(input, yieldValue)
  {
    var other := input.(area := area);
    assert MultipliersOf(other) == MultipliersOf(input);
    assert Penalty(other) == Penalty(input);
    AdviceIgnoresArea(input, area, yieldValue);
  }

  /** Wheat on loamy soil under conventional farming at 17 degrees, 60% humidity, 600 mm of rain,
      nutrients at 50 and pH 6.5, with the middle draw: 3.5 * 1.15 * (0.85 + 0.9 + 0.9) / 3 is
      3.5554..., which rounds to 3.56; the score is 80 before noise and, 3.56 being above
      80% of the wheat baseline, the advice is the precision upsell then the two fallbacks. */
  lemma WheatExample()
    ensures var input := PredictionInput("wheat", "loamy", "conventional", 1.0, 17.0, 60.0, 600.0, 50.0, 50.0, 50.0, 6.5);
      RawYield(input, Variation(0.5)) == 10.66625 / 3.0 &&
      RoundToCents(RawYield(input, Variation(0.5))) == 3.56 &&
      ConfidenceOf(input, 0) == 80 &&
      Padded(RuleAdvice(input, 3.56)) == [PrecisionUpsell, SoilTesting, RecordKeeping]
  {
    var input := PredictionInput("wheat", "loamy", "conventional", 1.0, 17.0, 60.0, 600.0, 50.0, 50.0, 50.0, 6.5);
    assert BaseYield("wheat") == 3.5 && SoilModifier("loamy") == 1.15 && FarmingSystemModifier("conventional") == 1.0;
    assert TemperatureFactor("wheat", 17.0) == 1.0 && PHFactor("wheat", 6.5) == 1.0;
    assert WaterFactorOf("wheat", 600.0, 60.0) == 1.0;
    assert NutrientFactor(50.0, 50.0, 50.0) == 2.65 / 3.0;
    assert RawYield(input, 1.0) == 10.66625 / 3.0;
    assert Round(10.66625 / 3.0 * 100.0) == 356;
    assert CropAdvice(input) == [] && PHAdvice(6.5) == [] && WaterAdvice(600.0) == [] && SoilAdvice("loamy") == [];
    assert SystemAdvice(input, 3.56) == [PrecisionUpsell];
  }

  /** Rice at -10 degrees, a temperature the form accepts, has a temperature factor of -0.75;
      with every other factor at 1 the yield is negative for every draw. */
  lemma ColdRiceYieldIsNegative(draw: real)
    requires 0.0 <= draw < 1.0
    ensures var input := PredictionInput("rice", "loamy", "conventional", 1.0, -10.0, 60.0, 1200.0, 100.0, 100.0, 100.0, 6.0);
      TemperatureFactor("rice", -10.0) == -0.75 &&
      RoundToCents(RawYield(input, Variation(draw))) < 0.0
  {
    var input := PredictionInput("rice", "loamy", "conventional", 1.0, -10.0, 60.0, 1200.0, 100.0, 100.0, 100.0, 6.0);
    assert BaseYield("rice") == 4.5 && SoilModifier("loamy") == 1.15 && FarmingSystemModifier("conventional") == 1.0;
    assert WaterFactorOf("rice", 1200.0, 60.0) == 1.0 && NutrientFactor(100.0, 100.0, 100.0) == 1.0;
    assert PHFactor("rice", 6.0) == 1.0;
    assert RawYield(input, Variation(draw)) == -3.88125 * Variation(draw);
  }

  /** Outside the ranges of `YieldWithinBounds` two negative factors can cancel: rice at -10
      degrees with 20000 mm of rain has a temperature factor of -0.75 and a water factor of
      -61/30, so the yield is positive and above 1.1 times the modified baseline for every draw. */
  lemma ColdWetRiceYieldExceedsCap(draw: real)
    requires 0.0 <= draw < 1.0
    ensures var input := PredictionInput("rice", "loamy", "conventional", 1.0, -10.0, 60.0, 20000.0, 100.0, 100.0, 100.0, 6.0);
      TemperatureFactor("rice", -10.0) == -0.75 &&
      WaterFactorOf("rice", 20000.0, 60.0) == -61.0 / 30.0 &&
      RawYield(input, Variation(draw)) > ModifiedBaseline(MultipliersOf(input)) * 1.1
  {
    var input := PredictionInput("rice", "loamy", "conventional", 1.0, -10.0, 60.0, 20000.0, 100.0, 100.0, 100.0, 6.0);
    assert BaseYield("rice") == 4.5 && SoilModifier("loamy") == 1.15 && FarmingSystemModifier("conventional") == 1.0;
    assert TemperatureFactor("rice", -10.0) == -0.75;
    assert WaterFactorOf("rice", 20000.0, 60.0) == -61.0 / 30.0;
    assert NutrientFactor(100.0, 100.0, 100.0) == 1.0 && PHFactor("rice", 6.0) == 1.0;
    assert ModifiedBaseline(MultipliersOf(input)) == 5.175;
    assert RawYield(input, Variation(draw)) == 7.891875 * Variation(draw);
  }
}
