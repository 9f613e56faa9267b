/** The integer confidence score: penalties from 80, a noise term, then a clamp to [0, 98]. */
module Confidence {
  import opened Farm
  import opened JsMath

  /** The sum of the penalties for extreme readings and for unselected keys. */
  function Penalty(input: PredictionInput): (p: nat)
    ensures p <= 85
    ensures input.cropType == "" && input.soilType == "" && input.farmingSystem == "" ==> p >= 50
  {
    (if input.temperature < 5.0 || input.temperature > 40.0 then 10 else 0)
    + (if input.rainfall < 200.0 || input.rainfall > 3000.0 then 15 else 0)
    + (if input.ph < 4.0 || input.ph > 9.0 then 10 else 0)
    + (if input.cropType == "" then 25 else 0)
    + (if input.soilType == "" then 15 else 0)
    + (if input.farmingSystem == "" then 10 else 0)
  }

  /** The noise `Math.round(Math.random() * 10 - 5)` for a draw of `Math.random()`. */
  function Noise(draw: real): (n: int)
    requires 0.0 <= draw < 1.0
    ensures -5 <= n <= 5
  {
    Round(draw * 10.0 - 5.0)
  }

  /** Every integer noise in [-5, 5] comes from some draw. */
  lemma NoiseCoversRange(n: int)
    requires -5 <= n <= 5
    ensures exists draw: real :: 0.0 <= draw < 1.0 && Noise(draw) == n
  {
    var draw := if n == -5 then 0.0 else (n as real + 4.5) / 10.0;
    assert Noise(draw) == n;
  }

  /** The score for a given noise value. */
  function ConfidenceOf(input: PredictionInput, noise: int): (c: int)
    ensures 0 <= c <= 98
    ensures 0 <= 80 - Penalty(input) + noise <= 98 ==> c == 80 - Penalty(input) + noise
  {
    Max(0, Min(98, 80 - Penalty(input) + noise))
  }

  /** `calculateConfidence`: a running score lowered rule by rule, then noised and clamped. */
  method CalculateConfidence(input: PredictionInput, draw: real) returns (confidence: int)
    requires 0.0 <= draw < 1.0
    ensures confidence == ConfidenceOf(input, Noise(draw))
    ensures 0 <= confidence <= 98
  {
    confidence := 80;
    if input.temperature < 5.0 || input.temperature > 40.0 {
      confidence := confidence - 10;
    }
    if input.rainfall < 200.0 || input.rainfall > 3000.0 {
      confidence := confidence - 15;
    }
    if input.ph < 4.0 || input.ph > 9.0 {
      confidence := confidence - 10;
    }
    if input.cropType == "" {
      confidence := confidence - 25;
    }
    if input.soilType == "" {
      confidence := confidence - 15;
    }
    if input.farmingSystem == "" {
      confidence := confidence - 10;
    }
    confidence := confidence + Round(draw * 10.0 - 5.0);
    confidence := Max(0, Min(98, confidence));
  }

  /** Without noise the score is 80 less the penalties, floored at 0 (all six penalties together
      come to 85); it never exceeds 80. */
  lemma ConfidenceWithoutNoise(input: PredictionInput)
    ensures ConfidenceOf(input, 0) == if Penalty(input) <= 80 then 80 - Penalty(input) else 0
    ensures ConfidenceOf(input, 0) <= 80
  {
  }

  /** The noise moves the score by at most its own size. */
  lemma NoiseShiftsAtMost(input: PredictionInput, noise: int)
    ensures -5 <= noise <= 5 ==> -5 <= ConfidenceOf(input, noise) - ConfidenceOf(input, 0) <= 5
    ensures noise >= 0 ==> ConfidenceOf(input, 0) <= ConfidenceOf(input, noise)
    ensures noise <= 0 ==> ConfidenceOf(input, noise) <= ConfidenceOf(input, 0)
  {
  }

  /** With no key selected and no extreme reading, the score is 30 before noise. */
  lemma NothingSelected(input: PredictionInput)
    requires input.cropType == "" && input.soilType == "" && input.farmingSystem == ""
    requires 5.0 <= input.temperature <= 40.0 && 200.0 <= input.rainfall <= 3000.0 && 4.0 <= input.ph <= 9.0
    ensures ConfidenceOf(input, 0) == 30
  {
  }
}
