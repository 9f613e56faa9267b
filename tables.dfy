/** The estimator's fixed reference tables and the lookups that fall back to a default row. */
module Tables {
  /** Crop keys with a row of their own in every crop table. */
  const Crops: set<string> :=
    {"rice", "wheat", "maize", "soybean", "potato", "tomato", "cotton", "sugarcane"}

  /** Soil keys with a modifier of their own. */
  const Soils: set<string> :=
    {"loamy", "clay", "sandy", "silt", "peaty", "chalky", "black", "red"}

  /** Farming-system keys with a modifier of their own. */
  const FarmingSystems: set<string> :=
    {"conventional", "organic", "conservation", "precision", "integrated", "hydroponics", "agroforestry"}

  /** Tons per hectare before any modifier; the empty key is the default row. */
  const BaselineYields: map<string, real> := map[
    "rice" := 4.5, "wheat" := 3.5, "maize" := 5.5, "soybean" := 2.8,
    "potato" := 25.0, "tomato" := 35.0, "cotton" := 2.0, "sugarcane" := 70.0,
    "" := 4.0]

  const SoilModifiers: map<string, real> := map[
    "loamy" := 1.15, "clay" := 0.9, "sandy" := 0.8, "silt" := 1.1,
    "peaty" := 1.05, "chalky" := 0.85, "black" := 1.2, "red" := 1.0,
    "" := 1.0]

  const FarmingSystemModifiers: map<string, real> := map[
    "conventional" := 1.0, "organic" := 0.85, "conservation" := 1.05, "precision" := 1.25,
    "integrated" := 1.15, "hydroponics" := 1.4, "agroforestry" := 0.95,
    "" := 1.0]

  /** Optimal temperature band (min, max) in degrees Celsius; no default row. */
  const OptimalTemperatures: map<string, (real, real)> := map[
    "rice" := (25.0, 30.0), "wheat" := (15.0, 20.0), "maize" := (20.0, 25.0),
    "soybean" := (20.0, 30.0), "potato" := (15.0, 20.0), "tomato" := (20.0, 25.0),
    "cotton" := (25.0, 30.0), "sugarcane" := (25.0, 35.0)]

  /** Optimal rainfall in millimetres; no default row. */
  const OptimalRainfalls: map<string, real> := map[
    "rice" := 1200.0, "wheat" := 600.0, "maize" := 700.0, "soybean" := 600.0,
    "potato" := 500.0, "tomato" := 600.0, "cotton" := 800.0, "sugarcane" := 1500.0]

  /** Optimal soil pH band (min, max); no default row. */
  const OptimalPHs: map<string, (real, real)> := map[
    "rice" := (5.5, 6.5), "wheat" := (6.0, 7.0), "maize" := (5.8, 7.0),
    "soybean" := (6.0, 6.8), "potato" := (5.0, 6.0), "tomato" := (6.0, 6.8),
    "cotton" := (5.8, 8.0), "sugarcane" := (6.0, 7.5)]

  /** JavaScript's `table[key] || fallback` on a table of numbers: a missing key, or an
      entry that is zero (falsy), gives the fallback. */
  function NumberOr(table: map<string, real>, key: string, fallback: real): (r: real)
    ensures key in table && table[key] != 0.0 ==> r == table[key]
    ensures key !in table || table[key] == 0.0 ==> r == fallback
    ensures r == 0.0 ==> fallback == 0.0
  {
    if key in table && table[key] != 0.0 then table[key] else fallback
  }

  /** The baseline yield the estimate starts from. */
  function BaseYield(crop: string): (r: real)
    ensures crop in Crops ==> r == BaselineYields[crop]
    ensures crop !in Crops ==> r == 4.0
    ensures 2.0 <= r <= 70.0
  {
    NumberOr(BaselineYields, crop, BaselineYields[""])
  }

  function SoilModifier(soil: string): (r: real)
    ensures soil in Soils ==> r == SoilModifiers[soil]
    ensures soil !in Soils ==> r == 1.0
    ensures 0.8 <= r <= 1.2
  {
    NumberOr(SoilModifiers, soil, 1.0)
  }

  function FarmingSystemModifier(system: string): (r: real)
    ensures system in FarmingSystems ==> r == FarmingSystemModifiers[system]
    ensures system !in FarmingSystems ==> r == 1.0
    ensures 0.85 <= r <= 1.4
  {
    NumberOr(FarmingSystemModifiers, system, 1.0)
  }

  /** `optimalTemps[cropType] || [20, 25]`: a band is never falsy, so only a missing key falls back. */
  function TemperatureBand(crop: string): (band: (real, real))
    ensures crop in Crops ==> band == OptimalTemperatures[crop]
    ensures crop !in Crops ==> band == (20.0, 25.0)
    ensures 15.0 <= band.0 < band.1 <= 35.0
  {
    if crop in OptimalTemperatures then OptimalTemperatures[crop] else (20.0, 25.0)
  }

  function OptimalRainfall(crop: string): (r: real)
    ensures crop in Crops ==> r == OptimalRainfalls[crop]
    ensures crop !in Crops ==> r == 700.0
    ensures 500.0 <= r <= 1500.0
  {
    NumberOr(OptimalRainfalls, crop, 700.0)
  }

  function PHBand(crop: string): (band: (real, real))
    ensures crop in Crops ==> band == OptimalPHs[crop]
    ensures crop !in Crops ==> band == (6.0, 7.0)
    ensures 5.0 <= band.0 < band.1 <= 8.0
  {
    if crop in OptimalPHs then OptimalPHs[crop] else (6.0, 7.0)
  }
}
