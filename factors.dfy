/** The four multiplicative factors: temperature, water, nutrients and soil pH. */
module Factors {
  import opened Tables

  /** 1 inside the crop's inclusive temperature band, falling linearly outside it:
      0.05 per degree below the band, 0.04 per degree above it. */
  function TemperatureFactor(crop: string, temperature: real): (f: real)
    ensures f <= 1.0
    ensures f == 1.0 <==> TemperatureBand(crop).0 <= temperature <= TemperatureBand(crop).1
  {
    var (min, max) := TemperatureBand(crop);
    if min <= temperature <= max then 1.0
    else if temperature < min then 1.0 - (min - temperature) * 0.05
    else 1.0 - (temperature - max) * 0.04
  }

  /** Moving further below the band costs 0.05 per degree, further above it 0.04 per degree;
      so the factor strictly decreases as the temperature moves away from the band. */
  lemma TemperatureFactorSlopes(crop: string, t1: real, t2: real)
    requires t1 < t2
    ensures t2 <= TemperatureBand(crop).0 ==>
      TemperatureFactor(crop, t2) - TemperatureFactor(crop, t1) == (t2 - t1) * 0.05 &&
      TemperatureFactor(crop, t1) < TemperatureFactor(crop, t2)
    ensures TemperatureBand(crop).1 <= t1 ==>
      TemperatureFactor(crop, t1) - TemperatureFactor(crop, t2) == (t2 - t1) * 0.04 &&
      TemperatureFactor(crop, t2) < TemperatureFactor(crop, t1)
  {
  }

  /** The factor stays non-negative exactly within 20 degrees below and 25 degrees above the band. */
  lemma TemperatureFactorNonNegative(crop: string, temperature: real)
    ensures TemperatureFactor(crop, temperature) >= 0.0 <==>
      TemperatureBand(crop).0 - 20.0 <= temperature <= TemperatureBand(crop).1 + 25.0
  {
  }

  /** The rainfall part of the water factor. */
  function RainfallTerm(crop: string, rainfall: real): (t: real)
    ensures t <= 1.0
    ensures 0.0 <= rainfall < OptimalRainfall(crop) ==> 0.7 <= t < 1.0
    ensures t == 1.0 <==> OptimalRainfall(crop) <= rainfall <= OptimalRainfall(crop) * 1.5
  {
    var optimal := OptimalRainfall(crop);
    if rainfall < optimal then 0.7 + (rainfall / optimal) * 0.3
    else if rainfall > optimal * 1.5 then 1.0 - ((rainfall - optimal * 1.5) / optimal) * 0.2
    else 1.0
  }

  /** The humidity part of the water factor. */
  function HumidityTerm(humidity: real): (t: real)
    ensures 0.9 <= t <= 1.0
    ensures t == 1.0 <==> 40.0 <= humidity <= 80.0
  {
    if humidity < 40.0 then 0.9
    else if humidity > 80.0 then 0.95
    else 1.0
  }

  /** The water factor: the rainfall and humidity adjustments compose by multiplication. */
  function WaterFactorOf(crop: string, rainfall: real, humidity: real): (f: real)
    ensures f <= 1.0
    ensures f == 1.0 <==>
      OptimalRainfall(crop) <= rainfall <= OptimalRainfall(crop) * 1.5 && 40.0 <= humidity <= 80.0
  {
    RainfallTerm(crop, rainfall) * HumidityTerm(humidity)
  }

  /** `getWaterFactor`: starts from 1 and scales a running factor, first for rainfall, then for humidity. */
  method WaterFactor(crop: string, rainfall: real, humidity: real) returns (factor: real)
    ensures factor == WaterFactorOf(crop, rainfall, humidity)
  {
    var optimal := OptimalRainfall(crop);
    factor := 1.0;
    if rainfall < optimal {
      factor := factor * (0.7 + (rainfall / optimal) * 0.3);
    } else if rainfall > optimal * 1.5 {
      factor := factor * (1.0 - ((rainfall - optimal * 1.5) / optimal) * 0.2);
    }
    if humidity < 40.0 {
      factor := factor * 0.9;
    } else if humidity > 80.0 {
      factor := factor * 0.95;
    }
  }

  /** Above one and a half times the optimum every further millimetre costs 0.2 / optimum,
      so the rainfall term strictly decreases there. */
  lemma ExcessRainfallDecreases(crop: string, r1: real, r2: real)
    requires OptimalRainfall(crop) * 1.5 <= r1 < r2
    ensures RainfallTerm(crop, r1) - RainfallTerm(crop, r2) == (r2 - r1) / OptimalRainfall(crop) * 0.2
    ensures RainfallTerm(crop, r2) < RainfallTerm(crop, r1)
  {
  }

  /** For non-negative rainfall the water factor is non-negative exactly up to 6.5 times the optimum. */
  lemma WaterFactorNonNegative(crop: string, rainfall: real, humidity: real)
    requires 0.0 <= rainfall
    ensures WaterFactorOf(crop, rainfall, humidity) >= 0.0 <==> rainfall <= OptimalRainfall(crop) * 6.5
  {
  }

  /** Mean of three linear terms: nitrogen moves 0.7..1, phosphorus and potassium 0.8..1 over 0..100. */
  function NutrientFactor(nitrogen: real, phosphorus: real, potassium: real): (f: real)
    ensures 0.0 <= nitrogen <= 100.0 && 0.0 <= phosphorus <= 100.0 && 0.0 <= potassium <= 100.0 ==>
      23.0 / 30.0 <= f <= 1.0 &&
      (f == 1.0 <==> nitrogen == 100.0 && phosphorus == 100.0 && potassium == 100.0)
  {
    var nFactor := 0.7 + (nitrogen / 100.0) * 0.3;
    var pFactor := 0.8 + (phosphorus / 100.0) * 0.2;
    var kFactor := 0.8 + (potassium / 100.0) * 0.2;
    (nFactor + pFactor + kFactor) / 3.0
  }

  /** More of any nutrient, the others held, never lowers the factor, and strictly more of one raises it. */
  lemma NutrientFactorIncreasing(n1: real, p1: real, k1: real, n2: real, p2: real, k2: real)
    requires n1 <= n2 && p1 <= p2 && k1 <= k2
    ensures NutrientFactor(n1, p1, k1) <= NutrientFactor(n2, p2, k2)
    ensures n1 < n2 || p1 < p2 || k1 < k2 ==> NutrientFactor(n1, p1, k1) < NutrientFactor(n2, p2, k2)
  {
  }

  /** 1 inside the crop's inclusive pH band, falling by 0.1 per unit below it and 0.08 per unit above it. */
  function PHFactor(crop: string, ph: real): (f: real)
    ensures f <= 1.0
    ensures f == 1.0 <==> PHBand(crop).0 <= ph <= PHBand(crop).1
  {
    var (min, max) := PHBand(crop);
    if min <= ph <= max then 1.0
    else if ph < min then 1.0 - (min - ph) * 0.1
    else 1.0 - (ph - max) * 0.08
  }

  lemma PHFactorSlopes(crop: string, ph1: real, ph2: real)
    requires ph1 < ph2
    ensures ph2 <= PHBand(crop).0 ==>
      PHFactor(crop, ph2) - PHFactor(crop, ph1) == (ph2 - ph1) * 0.1 &&
      PHFactor(crop, ph1) < PHFactor(crop, ph2)
    ensures PHBand(crop).1 <= ph1 ==>
      PHFactor(crop, ph1) - PHFactor(crop, ph2) == (ph2 - ph1) * 0.08 &&
      PHFactor(crop, ph2) < PHFactor(crop, ph1)
  {
  }

  /** The pH factor stays non-negative exactly within 10 units below and 12.5 units above the band. */
  lemma PHFactorNonNegative(crop: string, ph: real)
    ensures PHFactor(crop, ph) >= 0.0 <==> PHBand(crop).0 - 10.0 <= ph <= PHBand(crop).1 + 12.5
  {
  }
}
