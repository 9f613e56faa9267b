/** The rule-based advice list: rule messages in a fixed order, then up to two fallback messages. */
module Recommendations {
  import opened Farm
  import Tables

  /** One piece of advice; the crop-specific ones name the crop. */
  datatype Advice =
    | MoreNitrogen(crop: string)
    | MorePhosphorus(crop: string)
    | MorePotassium(crop: string)
    | RaisePH
    | LowerPH
    | Irrigate
    | SplitFertilizer
    | SandyRetention
    | ClayDrainage
    | PrecisionUpsell
    | OrganicRotation
    | SoilTesting
    | RecordKeeping
  {
    predicate IsFallback()
    {
      this == SoilTesting || this == RecordKeeping
    }

    /** The message shown to the user; a crop-specific message contains the crop's name. */
    function Text(): (message: string)
      ensures MoreNitrogen? || MorePhosphorus? || MorePotassium? ==> Mentions(message, crop)
    {
      if MoreNitrogen? then
        Naming("Consider increasing nitrogen fertilization for better ", crop, " growth and yield potential.")
      else if MorePhosphorus? then
        Naming("Your soil appears low in phosphorus. Adding phosphate fertilizers could improve ", crop, " root development.")
      else if MorePotassium? then
        Naming("Increasing potassium levels may improve crop resilience and quality for your ", crop, ".")
      else FixedText()
    }

    /** The messages that do not depend on the input. */
    function FixedText(): string
      requires !MoreNitrogen? && !MorePhosphorus? && !MorePotassium?
    {
      match this
      case RaisePH =>
        "Your soil is acidic. Consider applying lime to raise the pH for better nutrient availability."
      case LowerPH =>
        "Your soil is alkaline. Adding organic matter or specific amendments could help lower the pH."
      case Irrigate =>
        "Your area has low rainfall. Consider implementing irrigation systems or water conservation practices."
      case SplitFertilizer =>
        "High rainfall in your area may lead to nutrient leaching. Consider split fertilizer applications."
      case SandyRetention =>
        "Sandy soils have poor water retention. Adding organic matter can improve water holding capacity."
      case ClayDrainage =>
        "Clay soils can have drainage issues. Consider raised beds or adding organic matter to improve structure."
      case PrecisionUpsell =>
        "Your conventional farming is performing well. Consider precision agriculture techniques to further optimize inputs."
      case OrganicRotation =>
        "In organic systems, crop rotation and cover crops are crucial for maintaining soil fertility and pest management."
      case SoilTesting =>
        "Regular soil testing is recommended to monitor nutrient levels and adjust your management practices accordingly."
      case RecordKeeping =>
        "Maintaining good record-keeping of yields, inputs, and weather conditions can help identify patterns for future improvement."
    }
  }

  /** `word` occurs somewhere in `message`. */
  predicate Mentions(message: string, word: string)
  {
    exists i :: 0 <= i <= |message| - |word| && word <= message[i..]
  }

  /** A template message with the crop name filled in between its two fixed parts. */
  function Naming(before: string, crop: string, after: string): (message: string)
    ensures |message| == |before| + |crop| + |after|
    ensures message[..|before|] == before && message[|before| + |crop|..] == after
    ensures Mentions(message, crop)
  {
    var message := before + crop + after;
    assert crop <= message[|before|..];
    message
  }

  /** The messages of a list of advice, in the same order. */
  function Render(advice: seq<Advice>): (texts: seq<string>)
    ensures |texts| == |advice|
  {
    if advice == [] then [] else [advice[0].Text()] + Render(advice[1..])
  }

  lemma {:induction false} RenderAppend(a: seq<Advice>, b: seq<Advice>)
    ensures Render(a + b) == Render(a) + Render(b)
  {
    if a == [] {
      assert a + b == b;
    } else {
      assert (a + b)[1..] == a[1..] + b;
      RenderAppend(a[1..], b);
    }
  }

  /** Rendering keeps a prefix a prefix. */
  lemma RenderPrefix(a: seq<Advice>, b: seq<Advice>)
    requires a <= b
    ensures Render(a) <= Render(b)
  {
    assert b == a + b[|a|..];
    RenderAppend(a, b[|a|..]);
  }

  /** Each message is the text of the advice at the same position. */
  lemma {:induction false} RenderAt(advice: seq<Advice>, i: int)
    requires 0 <= i < |advice|
    ensures Render(advice)[i] == advice[i].Text()
  {
    if i > 0 {
      RenderAt(advice[1..], i - 1);
    }
  }

  /** Nutrient rules; they apply only when a crop is selected. */
  function CropAdvice(input: PredictionInput): (advice: seq<Advice>)
    ensures |advice| <= 3
    ensures input.cropType == "" ==> advice == []
    ensures forall a :: a in advice ==> (a.MoreNitrogen? || a.MorePhosphorus? || a.MorePotassium?) && a.crop == input.cropType
    ensures MoreNitrogen(input.cropType) in advice <==> input.cropType != "" && input.nitrogen < 50.0
    ensures MorePhosphorus(input.cropType) in advice <==> input.cropType != "" && input.phosphorus < 40.0
    ensures MorePotassium(input.cropType) in advice <==> input.cropType != "" && input.potassium < 40.0
  {
    if input.cropType == "" then []
    else
      (if input.nitrogen < 50.0 then [MoreNitrogen(input.cropType)] else [])
      + (if input.phosphorus < 40.0 then [MorePhosphorus(input.cropType)] else [])
      + (if input.potassium < 40.0 then [MorePotassium(input.cropType)] else [])
  }

  /** The pH rule: lime below 5.5, amendments above 7.5, nothing in between. */
  function PHAdvice(ph: real): (advice: seq<Advice>)
    ensures advice == [RaisePH] <==> ph < 5.5
    ensures advice == [LowerPH] <==> ph > 7.5
    ensures advice == [] <==> 5.5 <= ph <= 7.5
  {
    if ph < 5.5 then [RaisePH] else if ph > 7.5 then [LowerPH] else []
  }

  /** The rainfall rule: irrigation below 500 mm, split fertilizer above 1500 mm, nothing in between. */
  function WaterAdvice(rainfall: real): (advice: seq<Advice>)
    ensures advice == [Irrigate] <==> rainfall < 500.0
    ensures advice == [SplitFertilizer] <==> rainfall > 1500.0
    ensures advice == [] <==> 500.0 <= rainfall <= 1500.0
  {
    if rainfall < 500.0 then [Irrigate] else if rainfall > 1500.0 then [SplitFertilizer] else []
  }

  /** The soil rule: only sandy and clay soils get a message. */
  function SoilAdvice(soil: string): (advice: seq<Advice>)
    ensures advice == [SandyRetention] <==> soil == "sandy"
    ensures advice == [ClayDrainage] <==> soil == "clay"
    ensures advice == [] <==> soil != "sandy" && soil != "clay"
  {
    if soil == "sandy" then [SandyRetention] else if soil == "clay" then [ClayDrainage] else []
  }

  /** Whether the upsell's yield test passes. It reads the baseline table with no fallback:
      for a crop key outside the table the threshold is undefined (NaN in the source) and the
      comparison is false; the empty key has the row 4.0. */
  function AboveUpsellThreshold(crop: string, yieldValue: real): (above: bool)
    ensures crop in Tables.Crops ==> (above <==> yieldValue > Tables.BaseYield(crop) * 0.8)
    ensures crop == "" ==> (above <==> yieldValue > 3.2)
    ensures crop != "" && crop !in Tables.Crops ==> !above
  {
    crop in Tables.BaselineYields && yieldValue > Tables.BaselineYields[crop] * 0.8
  }

  /** The farming-system rule: the upsell for conventional farming above the threshold, else the
      rotation message for organic farming. */
  function SystemAdvice(input: PredictionInput, yieldValue: real): (advice: seq<Advice>)
    ensures advice == [PrecisionUpsell] <==>
      input.farmingSystem == "conventional" && AboveUpsellThreshold(input.cropType, yieldValue)
    ensures advice == [OrganicRotation] <==> input.farmingSystem == "organic"
    ensures advice == [] <==>
      input.farmingSystem != "organic" && !(input.farmingSystem == "conventional" && AboveUpsellThreshold(input.cropType, yieldValue))
  {
    if input.farmingSystem == "conventional" && AboveUpsellThreshold(input.cropType, yieldValue) then [PrecisionUpsell]
    else if input.farmingSystem == "organic" then [OrganicRotation]
    else []
  }

  /** The advice of the rules that fire, in firing order. */
  function RuleAdvice(input: PredictionInput, yieldValue: real): (fired: seq<Advice>)
    ensures |fired| <= 7
    ensures input.cropType == "" ==> |fired| <= 4
    ensures forall a :: a in fired ==> !a.IsFallback()
  {
    CropAdvice(input) + PHAdvice(input.ph) + WaterAdvice(input.rainfall)
    + SoilAdvice(input.soilType) + SystemAdvice(input, yieldValue)
  }

  /** The two padding steps: soil testing if fewer than three, then record-keeping if still fewer than three. */
  function Padded(fired: seq<Advice>): (advice: seq<Advice>)
    ensures fired <= advice && |advice| >= 2
    ensures |fired| >= 3 ==> advice == fired
    ensures |fired| < 3 ==> |advice| <= 3
    ensures forall i :: |fired| <= i < |advice| ==> advice[i].IsFallback()
  {
    var once := if |fired| < 3 then fired + [SoilTesting] else fired;
    if |once| < 3 then once + [RecordKeeping] else once
  }

  /** The padded list is the rule advice followed by a prefix of [soil testing, record-keeping];
      its length is k for k >= 3 rule messages and min(k + 2, 3) otherwise, so with no rule it is 2. */
  lemma PaddedShape(fired: seq<Advice>)
    ensures var k := |fired|;
      var pad := if k >= 3 then 0 else if k + 2 < 3 then 2 else 3 - k;
      Padded(fired) == fired + [SoilTesting, RecordKeeping][..pad]
    ensures var k := |fired|; |Padded(fired)| == if k >= 3 then k else if k + 2 < 3 then k + 2 else 3
  {
  }

  /** The messages the generator returns for an input and the already rounded yield. */
  function RecommendationsOf(input: PredictionInput, yieldValue: real): (texts: seq<string>)
    ensures 2 <= |texts| <= 7
    ensures Render(RuleAdvice(input, yieldValue)) <= texts
  {
    var fired := RuleAdvice(input, yieldValue);
    RenderPrefix(fired, Padded(fired));
    Render(Padded(fired))
  }

  /** `generateRecommendations`: the rule groups push their messages in the source's order, then
      the fallback pass pads the list. The list is built as advice and turned into its texts on return. */
  method GenerateRecommendations(input: PredictionInput, yieldValue: real) returns (recommendations: seq<string>)
    ensures recommendations == RecommendationsOf(input, yieldValue)
    ensures 2 <= |recommendations| <= 7
  {
    var advice := PushCropAdvice(input);
    advice := PushPHAdvice(advice, input.ph);
    advice := PushWaterAdvice(advice, input.rainfall);
    advice := PushSoilAdvice(advice, input.soilType);
    advice := PushSystemAdvice(advice, input, yieldValue);
    advice := PadWithFallbacks(advice);
    recommendations := Render(advice);
  }

  /** The fallback pass: soil testing if fewer than three messages, then record-keeping if still
      fewer than three. */
  method PadWithFallbacks(fired: seq<Advice>) returns (advice: seq<Advice>)
    ensures advice == Padded(fired)
    ensures |advice| == if |fired| >= 3 then |fired| else if |fired| + 2 < 3 then |fired| + 2 else 3
  {
    advice := fired;
    if |advice| < 3 {
      advice := advice + [SoilTesting];
    }
    if |advice| < 3 {
      advice := advice + [RecordKeeping];
    }
    PaddedShape(fired);
  }

  /** The nutrient rules, checked only when a crop is selected; they push onto the empty list. */
  method PushCropAdvice(input: PredictionInput) returns (advice: seq<Advice>)
    ensures advice == CropAdvice(input)
  {
    advice := [];
    if input.cropType != "" {
      if input.nitrogen < 50.0 {
        advice := advice + [MoreNitrogen(input.cropType)];
      }
      if input.phosphorus < 40.0 {
        advice := advice + [MorePhosphorus(input.cropType)];
      }
      if input.potassium < 40.0 {
        advice := advice + [MorePotassium(input.cropType)];
      }
    }
  }

  method PushPHAdvice(advice: seq<Advice>, ph: real) returns (advice': seq<Advice>)
    ensures advice' == advice + PHAdvice(ph)
  {
    advice' := advice;
    if ph < 5.5 {
      advice' := advice' + [RaisePH];
    } else if ph > 7.5 {
      advice' := advice' + [LowerPH];
    }
  }

  method PushWaterAdvice(advice: seq<Advice>, rainfall: real) returns (advice': seq<Advice>)
    ensures advice' == advice + WaterAdvice(rainfall)
  {
    advice' := advice;
    if rainfall < 500.0 {
      advice' := advice' + [Irrigate];
    } else if rainfall > 1500.0 {
      advice' := advice' + [SplitFertilizer];
    }
  }

  method PushSoilAdvice(advice: seq<Advice>, soil: string) returns (advice': seq<Advice>)
    ensures advice' == advice + SoilAdvice(soil)
  {
    advice' := advice;
    if soil == "sandy" {
      advice' := advice' + [SandyRetention];
    } else if soil == "clay" {
      advice' := advice' + [ClayDrainage];
    }
  }

  method PushSystemAdvice(advice: seq<Advice>, input: PredictionInput, yieldValue: real) returns (advice': seq<Advice>)
    ensures advice' == advice + SystemAdvice(input, yieldValue)
  {
    advice' := advice;
    if input.farmingSystem == "conventional" && AboveUpsellThreshold(input.cropType, yieldValue) {
      advice' := advice' + [PrecisionUpsell];
    } else if input.farmingSystem == "organic" {
      advice' := advice' + [OrganicRotation];
    }
  }

  /** The nitrogen message names the selected crop and appears exactly when a crop is selected
      and nitrogen is below 50. */
  lemma NitrogenAdviceIff(input: PredictionInput, yieldValue: real, crop: string)
    ensures MoreNitrogen(crop) in RuleAdvice(input, yieldValue) <==>
      input.cropType != "" && crop == input.cropType && input.nitrogen < 50.0
  {
    var a := MoreNitrogen(crop);
    RuleAdviceMembers(input, yieldValue, a);
    assert a !in PHAdvice(input.ph) && a !in WaterAdvice(input.rainfall);
    assert a !in SoilAdvice(input.soilType) && a !in SystemAdvice(input, yieldValue);
  }

  /** A rule message is in the list exactly when one of the five rule groups produced it. */
  lemma RuleAdviceMembers(input: PredictionInput, yieldValue: real, a: Advice)
    ensures a in RuleAdvice(input, yieldValue) <==>
      a in CropAdvice(input) || a in PHAdvice(input.ph) || a in WaterAdvice(input.rainfall) ||
      a in SoilAdvice(input.soilType) || a in SystemAdvice(input, yieldValue)
  {
  }

  /** The upsell appears exactly for conventional farming with a crop row in the baseline table
      and a yield above 80% of it; for an unlisted non-empty crop it never appears. */
  lemma UpsellIff(input: PredictionInput, yieldValue: real)
    ensures PrecisionUpsell in RuleAdvice(input, yieldValue) <==>
      input.farmingSystem == "conventional" && input.cropType in Tables.BaselineYields &&
      yieldValue > Tables.BaselineYields[input.cropType] * 0.8
    ensures input.cropType == "" ==>
      (PrecisionUpsell in RuleAdvice(input, yieldValue) <==> input.farmingSystem == "conventional" && yieldValue > 3.2)
    ensures input.cropType != "" && input.cropType !in Tables.Crops ==> PrecisionUpsell !in RuleAdvice(input, yieldValue)
  {
    RuleAdviceMembers(input, yieldValue, PrecisionUpsell);
    assert PrecisionUpsell !in CropAdvice(input) && PrecisionUpsell !in PHAdvice(input.ph);
    assert PrecisionUpsell !in WaterAdvice(input.rainfall) && PrecisionUpsell !in SoilAdvice(input.soilType);
    assert PrecisionUpsell in SystemAdvice(input, yieldValue) <==>
      input.farmingSystem == "conventional" && AboveUpsellThreshold(input.cropType, yieldValue);
  }

  /** The crop-rotation message appears exactly for organic farming. */
  lemma OrganicAdviceIff(input: PredictionInput, yieldValue: real)
    ensures OrganicRotation in RuleAdvice(input, yieldValue) <==> input.farmingSystem == "organic"
  {
    RuleAdviceMembers(input, yieldValue, OrganicRotation);
    assert OrganicRotation !in CropAdvice(input) && OrganicRotation !in PHAdvice(input.ph);
    assert OrganicRotation !in WaterAdvice(input.rainfall) && OrganicRotation !in SoilAdvice(input.soilType);
    assert OrganicRotation in SystemAdvice(input, yieldValue) <==> input.farmingSystem == "organic";
  }

  /** With no crop selected, a pH in [5.5, 7.5], rainfall in [500, 1500], a soil other than sandy
      or clay and a system other than conventional or organic, no rule fires and the list has only
      the two fallback entries, although three are the stated minimum. */
  lemma OnlyTwoWhenNoRuleFires(input: PredictionInput, yieldValue: real)
    requires input.cropType == "" && 5.5 <= input.ph <= 7.5 && 500.0 <= input.rainfall <= 1500.0
    requires input.soilType != "sandy" && input.soilType != "clay"
    requires input.farmingSystem != "conventional" && input.farmingSystem != "organic"
    ensures RecommendationsOf(input, yieldValue) == Render([SoilTesting, RecordKeeping])
  {
    assert CropAdvice(input) == [] && PHAdvice(input.ph) == [] && WaterAdvice(input.rainfall) == [];
    assert SoilAdvice(input.soilType) == [] && SystemAdvice(input, yieldValue) == [];
    assert RuleAdvice(input, yieldValue) == [];
    assert Padded([]) == [SoilTesting, RecordKeeping];
  }

  /** Two entries exactly when no rule fires; otherwise at least three. */
  lemma RecommendationCount(input: PredictionInput, yieldValue: real)
    ensures |RecommendationsOf(input, yieldValue)| >= 2
    ensures |RecommendationsOf(input, yieldValue)| == 2 <==> RuleAdvice(input, yieldValue) == []
  {
    PaddedShape(RuleAdvice(input, yieldValue));
  }
}
