/**
 * The smart pre-fill engine (components/SmartAnalyzer.tsx): a heuristic
 * reading of the prompt, estimates of every protocol input derived from it,
 * quick DLA/PRICE/VECTOR previews, and the mapping of the estimates onto a
 * valuation request. The regular-expression tests are inputs here.
 */
module SmartAnalyzer {
  import opened Wrappers
  import opened Numerics
  import opened Types
  import opened Calculators

  datatype Complexity = Simple | Moderate | Complex

  datatype OutputLength = Short | Medium | Long

  datatype TaskType = Creative | Analytical | Technical | Conversational

  /** What the regular expressions find in the prompt text. */
  datatype PromptFeatures = PromptFeatures(
    charCount: nat,
    wordCount: nat,
    hardConstraintMatches: nat,
    softConstraintCue: bool,
    outputFormatCue: bool,
    exampleCue: bool,
    contextCue: bool,
    briefCue: bool,
    detailedCue: bool,
    creativeCue: bool,
    technicalCue: bool,
    conversationalCue: bool,
    repeatCue: bool)

  /**
   * The structural reading of a prompt, from the heuristic below or from the
   * external model (whose counts the engine does not check).
   */
  datatype PromptAnalysis = PromptAnalysis(
    charCount: int,
    wordCount: int,
    hasHardConstraints: bool,
    hardConstraintCount: int,
    hasSoftConstraints: bool,
    hasOutputFormat: bool,
    hasExamples: bool,
    hasContext: bool,
    complexityLevel: Complexity,
    estimatedOutputLength: OutputLength,
    taskType: TaskType,
    isRepeatable: bool)

  datatype EstimatedValues = EstimatedValues(
    hourlyWage: real,
    typingWPM: real,
    estimatedOutputChars: real,
    estimatedLatency: real,
    estimatedReviewTime: real,
    estimatedFixTime: real,
    apiCostPer1k: real,
    actualEditTime: real,
    yearlyVolume: real,
    reliabilityScore: real,
    valuedParameter: string,
    parameterWeight: real,
    constraintScore: real,
    contextScore: real,
    feasibilityScore: real,
    safetyFactor: real)

  // ---------------------------------------------------------------- heuristic reading

  function ComplexityOf(words: int, constraints: int): Complexity {
    if words > 100 || constraints > 3 then Complex
    else if words > 30 || constraints > 1 then Moderate
    else Simple
  }

  function OutputLengthOf(f: PromptFeatures): OutputLength {
    if f.briefCue then Short else if f.detailedCue then Long else Medium
  }

  function TaskTypeOf(f: PromptFeatures): TaskType {
    if f.creativeCue then Creative
    else if f.technicalCue then Technical
    else if f.conversationalCue then Conversational
    else Analytical
  }

  /** The heuristic reading as one expression. */
  function HeuristicAnalysis(f: PromptFeatures): PromptAnalysis {
    var task := TaskTypeOf(f);
    PromptAnalysis(
      f.charCount, f.wordCount, f.hardConstraintMatches > 0, f.hardConstraintMatches,
      f.softConstraintCue, f.outputFormatCue, f.exampleCue, f.contextCue || f.wordCount > 50,
      ComplexityOf(f.wordCount, f.hardConstraintMatches), OutputLengthOf(f), task,
      f.repeatCue || task == Technical || task == Conversational)
  }

  /** The heuristic reading, settling complexity, length and task type by successive reassignment. */
  method AnalyzePromptHeuristic(f: PromptFeatures) returns (a: PromptAnalysis)
    ensures a == HeuristicAnalysis(f)
  {
    var complexityLevel := Simple;
    if f.wordCount > 100 || f.hardConstraintMatches > 3 {
      complexityLevel := Complex;
    } else if f.wordCount > 30 || f.hardConstraintMatches > 1 {
      complexityLevel := Moderate;
    }
    var estimatedOutputLength := Medium;
    if f.briefCue {
      estimatedOutputLength := Short;
    } else if f.detailedCue {
      estimatedOutputLength := Long;
    }
    var taskType := Analytical;
    if f.creativeCue {
      taskType := Creative;
    } else if f.technicalCue {
      taskType := Technical;
    } else if f.conversationalCue {
      taskType := Conversational;
    }
    var isRepeatable := f.repeatCue || taskType == Technical || taskType == Conversational;
    var hasContext := f.contextCue || f.wordCount > 50;
    a := PromptAnalysis(
      f.charCount, f.wordCount, f.hardConstraintMatches > 0, f.hardConstraintMatches,
      f.softConstraintCue, f.outputFormatCue, f.exampleCue, hasContext,
      complexityLevel, estimatedOutputLength, taskType, isRepeatable);
  }

  // ---------------------------------------------------------------- estimates

  function OutputChars(l: OutputLength): real {
    match l
    case Short => 500.0
    case Medium => 1500.0
    case Long => 4000.0
  }

  function WageByTask(t: TaskType): real {
    match t
    case Creative => 75.0
    case Analytical => 85.0
    case Technical => 120.0
    case Conversational => 50.0
  }

  function LatencyByComplexity(c: Complexity): real {
    match c
    case Simple => 3.0
    case Moderate => 8.0
    case Complex => 15.0
  }

  function ReviewByOutput(l: OutputLength): real {
    match l
    case Short => 1.0
    case Medium => 3.0
    case Long => 8.0
  }

  function ValuedParameterOf(t: TaskType): string {
    match t
    case Creative => "Content Synthesis"
    case Analytical => "Strategic Analysis"
    case Technical => "Code Accuracy"
    case Conversational => "Customer Intent"
  }

  function FeasibilityOf(c: Complexity): real {
    match c
    case Simple => 0.9
    case Moderate => 0.75
    case Complex => 0.6
  }

  function BaseFixTime(a: PromptAnalysis): real {
    if a.hasHardConstraints then 2.0 else 5.0
  }

  function FixTimeReduction(a: PromptAnalysis): real {
    Min(a.hardConstraintCount as real * 0.5, 3.0)
  }

  function VolumeOf(a: PromptAnalysis): real {
    if !a.isRepeatable then 50.0
    else if a.taskType == Conversational then 5000.0
    else if a.taskType == Technical then 500.0
    else 200.0
  }

  function Bonus(cue: bool, amount: real): real {
    if cue then amount else 0.0
  }

  /** 0.6 plus a bonus per quality cue, capped at 0.98. */
  function ReliabilityOf(a: PromptAnalysis): real {
    Min(0.6 + Bonus(a.hasHardConstraints, 0.15) + Bonus(a.hasOutputFormat, 0.1)
            + Bonus(a.hasExamples, 0.1) + Bonus(a.hasContext, 0.05), 0.98)
  }

  /** Every protocol input estimated from the reading, as one expression. */
  function Estimates(a: PromptAnalysis): EstimatedValues {
    var base := BaseFixTime(a);
    var reduction := FixTimeReduction(a);
    EstimatedValues(
      WageByTask(a.taskType), 45.0, OutputChars(a.estimatedOutputLength),
      LatencyByComplexity(a.complexityLevel), ReviewByOutput(a.estimatedOutputLength),
      Max(base - reduction, 1.0), 0.02, Max(base - reduction + 1.0, 2.0),
      VolumeOf(a), ReliabilityOf(a), ValuedParameterOf(a.taskType),
      if a.complexityLevel == Complex then 1.5 else 1.0,
      Min(0.3 + a.hardConstraintCount as real * 0.15, 1.0),
      if a.hasContext then 0.85 else 0.5, FeasibilityOf(a.complexityLevel), 0.95)
  }

  /** The estimator, accumulating the volume and the reliability step by step. */
  method GenerateEstimates(a: PromptAnalysis) returns (e: EstimatedValues)
    ensures e == Estimates(a)
  {
    var baseFixTime := if a.hasHardConstraints then 2.0 else 5.0;
    var fixTimeReduction := Min(a.hardConstraintCount as real * 0.5, 3.0);
    var yearlyVolume := 50.0;
    if a.isRepeatable {
      if a.taskType == Conversational {
        yearlyVolume := 5000.0;
      } else if a.taskType == Technical {
        yearlyVolume := 500.0;
      } else {
        yearlyVolume := 200.0;
      }
    }
    var reliabilityScore := 0.6;
    if a.hasHardConstraints {
      reliabilityScore := reliabilityScore + 0.15;
    }
    if a.hasOutputFormat {
      reliabilityScore := reliabilityScore + 0.1;
    }
    if a.hasExamples {
      reliabilityScore := reliabilityScore + 0.1;
    }
    if a.hasContext {
      reliabilityScore := reliabilityScore + 0.05;
    }
    reliabilityScore := Min(reliabilityScore, 0.98);
    e := EstimatedValues(
      WageByTask(a.taskType), 45.0, OutputChars(a.estimatedOutputLength),
      LatencyByComplexity(a.complexityLevel), ReviewByOutput(a.estimatedOutputLength),
      Max(baseFixTime - fixTimeReduction, 1.0), 0.02, Max(baseFixTime - fixTimeReduction + 1.0, 2.0),
      yearlyVolume, reliabilityScore, ValuedParameterOf(a.taskType),
      if a.complexityLevel == Complex then 1.5 else 1.0,
      Min(0.3 + a.hardConstraintCount as real * 0.15, 1.0),
      if a.hasContext then 0.85 else 0.5, FeasibilityOf(a.complexityLevel), 0.95);
  }

  datatype EngineMode = Heuristic | Neural

  /**
   * A run: nothing for a blank prompt; otherwise the reading (the external
   * model's in neural mode, the heuristic's otherwise) and its estimates.
   */
  method RunSmartAnalysis(promptIsBlank: bool, mode: EngineMode, neural: PromptAnalysis, f: PromptFeatures)
    returns (r: Option<(PromptAnalysis, EstimatedValues)>)
    ensures r.None? <==> promptIsBlank
    ensures r.Some? ==> r.value.1 == Estimates(r.value.0)
    ensures r.Some? && mode == Heuristic ==> r.value.0 == HeuristicAnalysis(f)
    ensures r.Some? && mode == Neural ==> r.value.0 == neural
  {
    if promptIsBlank {
      return None;
    }
    var promptAnalysis: PromptAnalysis;
    if mode == Neural {
      promptAnalysis := neural;
    } else {
      promptAnalysis := AnalyzePromptHeuristic(f);
    }
    var estimatedValues := GenerateEstimates(promptAnalysis);
    return Some((promptAnalysis, estimatedValues));
  }

  /**
   * The reading the neural analyser returns when the external reply does not
   * parse: the prompt's length, its whitespace-separated word count (given,
   * since the regular-expression split is not modelled) and no cues at all.
   */
  function NeuralFallback(prompt: string, words: int): PromptAnalysis {
    PromptAnalysis(|prompt|, words, false, 0, false, false, false, false,
                   Simple, Medium, Analytical, false)
  }

  /**
   * A fallback reading is valued as a one-off analytical task of medium
   * length: the analytical wage, 1500 characters, the full five-minute fix
   * time, 50 runs a year, the bare 0.6 reliability and the lowest
   * constraint and context scores.
   */
  lemma FallbackEstimates(prompt: string, words: int)
    ensures var e := Estimates(NeuralFallback(prompt, words));
      e.hourlyWage == 85.0 && e.estimatedOutputChars == 1500.0 &&
      e.estimatedFixTime == 5.0 && e.actualEditTime == 6.0 &&
      e.yearlyVolume == 50.0 && e.reliabilityScore == 0.6 &&
      e.parameterWeight == 1.0 && e.constraintScore == 0.3 &&
      e.contextScore == 0.5 && e.feasibilityScore == 0.9
  {
    var a := NeuralFallback(prompt, words);
    ReliabilityBounds(a);
    VolumeCases(a);
  }

  // ---------------------------------------------------------------- previews

  datatype DLAPreview = DLAPreview(manualCost: real, aiCost: real, netSavings: real, isProfitable: bool)

  datatype PRICEPreview = PRICEPreview(tav: real, freelancePrice: real, marketplacePrice: real)

  datatype Verdict = ProductionReady | NeedsReview | Scrap

  datatype VECTORPreview = VECTORPreview(qScore: real, isViable: bool, verdict: Verdict)

  function ManualMinutes(e: EstimatedValues): real
    requires e.typingWPM != 0.0
  {
    e.estimatedOutputChars / 5.0 / e.typingWPM
  }

  function ManualCost(e: EstimatedValues): real
    requires e.typingWPM != 0.0
  {
    (ManualMinutes(e) / 60.0) * e.hourlyWage
  }

  function AICost(e: EstimatedValues): real {
    var aiTime := (e.estimatedLatency / 60.0) + e.estimatedReviewTime + e.estimatedFixTime;
    (aiTime / 60.0) * e.hourlyWage + (e.estimatedOutputChars / 1000.0) * e.apiCostPer1k
  }

  /** Manual typing cost against model cost, each shown to the cent. */
  function CalculateDLA(e: Option<EstimatedValues>): (r: Option<DLAPreview>)
    requires e.Some? ==> e.value.typingWPM != 0.0
    ensures r.Some? <==> e.Some?
    ensures r.Some? ==> r.value.manualCost == ToFixed(ManualCost(e.value), 2) &&
                        r.value.aiCost == ToFixed(AICost(e.value), 2) &&
                        r.value.netSavings == ToFixed(ManualCost(e.value) - AICost(e.value), 2)
    ensures r.Some? ==> (r.value.isProfitable <==> ManualCost(e.value) > AICost(e.value))
    ensures r.Some? && r.value.isProfitable ==> r.value.netSavings >= 0.0
    ensures r.Some? && !r.value.isProfitable ==> r.value.netSavings <= 0.0
  {
    match e
    case None => None
    case Some(est) =>
      var manual := ManualCost(est);
      var ai := AICost(est);
      Some(DLAPreview(ToFixed(manual, 2), ToFixed(ai, 2), ToFixed(manual - ai, 2), manual > ai))
  }

  /** A net saving per run scaled by volume, reliability and parameter weight. */
  function AssetValue(net: real, e: EstimatedValues): real {
    net * e.yearlyVolume * e.reliabilityScore * e.parameterWeight
  }

  /** The rounded net saving per run, scaled by volume, reliability and parameter weight. */
  function CalculatePRICE(e: Option<EstimatedValues>): (r: Option<PRICEPreview>)
    requires e.Some? ==> e.value.typingWPM != 0.0
    ensures r.Some? <==> e.Some?
    ensures r.Some? ==>
      var tav := AssetValue(CalculateDLA(e).value.netSavings, e.value);
      r.value.tav == ToFixed(tav, 0) && r.value.freelancePrice == ToFixed(tav * 0.15, 0) &&
      r.value.marketplacePrice == ToFixed(tav * 0.02, 0)
  {
    match CalculateDLA(e)
    case None => None
    case Some(dla) =>
      var tav := AssetValue(dla.netSavings, e.value);
      Some(PRICEPreview(ToFixed(tav, 0), ToFixed(tav * 0.15, 0), ToFixed(tav * 0.02, 0)))
  }

  function VerdictOf(q: real): Verdict {
    if q >= 0.7 then ProductionReady else if q >= 0.5 then NeedsReview else Scrap
  }

  /** The product of the three quality fractions whose cube root is taken. */
  function ScoreProduct(e: EstimatedValues): real {
    e.constraintScore * e.contextScore * e.feasibilityScore
  }

  function PreviewQuality(e: EstimatedValues, t: Transcendental): real {
    Cbrt(t, ScoreProduct(e)) * e.safetyFactor
  }

  /** The geometric-mean quality with its verdict. */
  function CalculateVECTOR(e: Option<EstimatedValues>, t: Transcendental): (r: Option<VECTORPreview>)
    ensures r.Some? <==> e.Some?
    ensures r.Some? ==> (r.value.isViable <==> r.value.verdict != Scrap)
    ensures r.Some? ==>
      var q := PreviewQuality(e.value, t);
      r.value.qScore == ToFixed(q, 2) && (r.value.isViable <==> q >= 0.5) &&
      (r.value.verdict == ProductionReady <==> q >= 0.7) && (r.value.verdict == Scrap <==> q < 0.5)
  {
    match e
    case None => None
    case Some(est) =>
      var q := PreviewQuality(est, t);
      Some(VECTORPreview(ToFixed(q, 2), q >= 0.5, VerdictOf(q)))
  }

  // ---------------------------------------------------------------- applying the estimates

  function ApiCost(e: EstimatedValues): real {
    (e.estimatedOutputChars / 1000.0) * e.apiCostPer1k
  }

  /** The request the estimates pre-fill; fields it does not set stay absent. */
  function ApplyValues(prompt: string, e: EstimatedValues): (d: ValuationRequest)
    requires e.typingWPM != 0.0
    ensures DLAInputOf(d).apiCostUsd == PRICEInputOf(d).tokenCost == VECTORInputOf(d).api_cost_per_run
              == e.estimatedOutputChars / 1000.0 * e.apiCostPer1k
    ensures VECTORInputOf(d).time_saved_minutes == 0.8 * PRICEInputOf(d).humanTimeMinutes
  {
    ValuationRequest(
      prompt, None,
      Some(e.estimatedOutputChars), Some(e.estimatedLatency), Some(e.estimatedFixTime * 60.0),
      Some(ApiCost(e)), Some(e.typingWPM), None, Some(e.hourlyWage),
      Some(e.estimatedOutputChars), Some(e.typingWPM), Some(e.estimatedFixTime), Some(0.0),
      Some(e.hourlyWage),
      Some(ManualMinutes(e)), Some(e.hourlyWage), Some(e.estimatedReviewTime), Some(ApiCost(e)),
      Some(e.reliabilityScore), Some(e.yearlyVolume), None, Some(e.valuedParameter),
      Some(e.parameterWeight),
      Some(Round(e.constraintScore * 5.0) as real), Some(Round(e.contextScore * 5.0) as real),
      Some(Round(e.feasibilityScore * 5.0) as real), Some(Round((1.0 - e.safetyFactor) * 5.0) as real),
      Some(e.hourlyWage), Some(ManualMinutes(e) * 0.8), Some(e.yearlyVolume), Some(ApiCost(e)))
  }

  // ---------------------------------------------------------------- properties

  /** Complex above 100 words or 3 hard constraints; moderate above 30 or 1; simple otherwise. */
  lemma ComplexityClassification(words: int, constraints: int)
    ensures ComplexityOf(words, constraints) == Complex <==> words > 100 || constraints > 3
    ensures ComplexityOf(words, constraints) == Moderate <==>
              !(words > 100 || constraints > 3) && (words > 30 || constraints > 1)
    ensures ComplexityOf(words, constraints) == Simple <==> words <= 30 && constraints <= 1
  {
  }

  function ComplexityRank(c: Complexity): nat {
    match c
    case Simple => 0
    case Moderate => 1
    case Complex => 2
  }

  /** More words or more hard constraints never make a prompt simpler. */
  lemma ComplexityMonotone(w1: int, c1: int, w2: int, c2: int)
    requires w1 <= w2 && c1 <= c2
    ensures ComplexityRank(ComplexityOf(w1, c1)) <= ComplexityRank(ComplexityOf(w2, c2))
  {
  }

  /**
   * Task cues are tried in the order creative, technical, conversational;
   * technical and conversational tasks always count as repeatable.
   */
  lemma TaskPrecedence(f: PromptFeatures)
    ensures f.creativeCue ==> HeuristicAnalysis(f).taskType == Creative
    ensures HeuristicAnalysis(f).taskType == Technical <==> !f.creativeCue && f.technicalCue
    ensures HeuristicAnalysis(f).taskType == Conversational <==>
              !f.creativeCue && !f.technicalCue && f.conversationalCue
    ensures HeuristicAnalysis(f).taskType == Analytical <==>
              !f.creativeCue && !f.technicalCue && !f.conversationalCue
    ensures HeuristicAnalysis(f).taskType in {Technical, Conversational} ==> HeuristicAnalysis(f).isRepeatable
  {
  }

  /** The heuristic's counts are consistent: constraints flagged iff counted, context above 50 words. */
  lemma HeuristicConsistent(f: PromptFeatures)
    ensures HeuristicAnalysis(f).hasHardConstraints <==> HeuristicAnalysis(f).hardConstraintCount > 0
    ensures HeuristicAnalysis(f).hardConstraintCount >= 0
    ensures f.wordCount > 50 ==> HeuristicAnalysis(f).hasContext
  {
  }

  /**
   * The fix time is at least one minute, and at most five for a non-negative
   * constraint count; the edit time is always one minute more, so at least two.
   */
  lemma FixAndEditTimes(a: PromptAnalysis)
    ensures 1.0 <= Estimates(a).estimatedFixTime
    ensures a.hardConstraintCount >= 0 ==> Estimates(a).estimatedFixTime <= 5.0
    ensures Estimates(a).actualEditTime == Estimates(a).estimatedFixTime + 1.0
    ensures Estimates(a).actualEditTime >= 2.0
  {
  }

  /** Reliability starts at 0.6, only grows with each cue, and is capped at 0.98. */
  lemma ReliabilityBounds(a: PromptAnalysis)
    ensures 0.6 <= ReliabilityOf(a) <= 0.98
    ensures !a.hasHardConstraints && !a.hasOutputFormat && !a.hasExamples && !a.hasContext ==>
              ReliabilityOf(a) == 0.6
  {
  }

  /** Adding a quality cue never lowers the reliability. */
  lemma ReliabilityMonotone(a: PromptAnalysis, b: PromptAnalysis)
    requires a.hasHardConstraints ==> b.hasHardConstraints
    requires a.hasOutputFormat ==> b.hasOutputFormat
    requires a.hasExamples ==> b.hasExamples
    requires a.hasContext ==> b.hasContext
    ensures ReliabilityOf(a) <= ReliabilityOf(b)
  {
  }

  /** The yearly volume is one of four figures, and 50 exactly for a one-off task. */
  lemma VolumeCases(a: PromptAnalysis)
    ensures VolumeOf(a) in {50.0, 200.0, 500.0, 5000.0}
    ensures VolumeOf(a) == 50.0 <==> !a.isRepeatable
    ensures a.isRepeatable && a.taskType == Conversational ==> VolumeOf(a) == 5000.0
    ensures a.isRepeatable && a.taskType == Technical ==> VolumeOf(a) == 500.0
  {
  }

  /** The constraint score is a fraction from 0.3 up; the weight is 1.5 exactly for complex prompts. */
  lemma VectorEstimates(a: PromptAnalysis)
    ensures a.hardConstraintCount >= 0 ==> 0.3 <= Estimates(a).constraintScore <= 1.0
    ensures Estimates(a).parameterWeight == 1.5 <==> a.complexityLevel == Complex
    ensures Estimates(a).parameterWeight == 1.0 <==> a.complexityLevel != Complex
    ensures Estimates(a).contextScore in {0.5, 0.85} && Estimates(a).feasibilityScore in {0.6, 0.75, 0.9}
  {
  }

  /** The unrounded asset value the PRICE preview rounds. */
  function PreviewValue(e: EstimatedValues): real
    requires e.typingWPM != 0.0
  {
    AssetValue(CalculateDLA(Some(e)).value.netSavings, e)
  }

  /**
   * The preview shows the asset value, the 15% freelance price and the 2%
   * marketplace price, each to the nearest unit; a profitable run with
   * non-negative volume, reliability and weight never prices below zero, and
   * a zero in any of the three prices everything at zero.
   */
  lemma PricePreviewSign(e: EstimatedValues)
    requires e.typingWPM != 0.0
    requires e.yearlyVolume >= 0.0 && e.reliabilityScore >= 0.0 && e.parameterWeight >= 0.0
    ensures var r := CalculatePRICE(Some(e)).value;
      PreviewValue(e) - 0.5 <= r.tav <= PreviewValue(e) + 0.5 &&
      PreviewValue(e) * 0.15 - 0.5 <= r.freelancePrice <= PreviewValue(e) * 0.15 + 0.5 &&
      PreviewValue(e) * 0.02 - 0.5 <= r.marketplacePrice <= PreviewValue(e) * 0.02 + 0.5
    ensures var r := CalculatePRICE(Some(e)).value;
      CalculateDLA(Some(e)).value.isProfitable ==>
        r.tav >= 0.0 && r.freelancePrice >= 0.0 && r.marketplacePrice >= 0.0
    ensures var r := CalculatePRICE(Some(e)).value;
      e.yearlyVolume == 0.0 || e.reliabilityScore == 0.0 || e.parameterWeight == 0.0 ==>
        r.tav == 0.0 && r.freelancePrice == 0.0 && r.marketplacePrice == 0.0
  {
    PreviewValueSign(e);
    PreviewPrices(e);
    RoundedPrices(PreviewValue(e));
  }

  /** The unrounded value keeps the sign of a profitable run and is zero when a factor is. */
  lemma PreviewValueSign(e: EstimatedValues)
    requires e.typingWPM != 0.0
    requires e.yearlyVolume >= 0.0 && e.reliabilityScore >= 0.0 && e.parameterWeight >= 0.0
    ensures CalculateDLA(Some(e)).value.isProfitable ==> PreviewValue(e) >= 0.0
    ensures e.yearlyVolume == 0.0 || e.reliabilityScore == 0.0 || e.parameterWeight == 0.0 ==>
              PreviewValue(e) == 0.0
  {
    var net := CalculateDLA(Some(e)).value.netSavings;
    FourProductSign(net, e.yearlyVolume, e.reliabilityScore, e.parameterWeight);
    assert PreviewValue(e) == AssetValue(net, e);
  }

  /** The preview's three prices are the rounded value and its two fee shares. */
  lemma PreviewPrices(e: EstimatedValues)
    requires e.typingWPM != 0.0
    ensures var v := PreviewValue(e);
      CalculatePRICE(Some(e)).value == PRICEPreview(ToFixed(v, 0), ToFixed(v * 0.15, 0), ToFixed(v * 0.02, 0))
  {
  }

  /** The three rounded prices of a value: within a half of their shares, non-negative or zero with it. */
  lemma RoundedPrices(v: real)
    ensures v - 0.5 <= ToFixed(v, 0) <= v + 0.5
    ensures v * 0.15 - 0.5 <= ToFixed(v * 0.15, 0) <= v * 0.15 + 0.5
    ensures v * 0.02 - 0.5 <= ToFixed(v * 0.02, 0) <= v * 0.02 + 0.5
    ensures v >= 0.0 ==> ToFixed(v, 0) >= 0.0 && ToFixed(v * 0.15, 0) >= 0.0 && ToFixed(v * 0.02, 0) >= 0.0
    ensures v == 0.0 ==> ToFixed(v, 0) == 0.0 && ToFixed(v * 0.15, 0) == 0.0 && ToFixed(v * 0.02, 0) == 0.0
  {
    RoundedToUnit(v);
    RoundedToUnit(v * 0.15);
    RoundedToUnit(v * 0.02);
  }

  /** Rounding to a whole number moves a value by at most a half and keeps a zero or a sign. */
  lemma RoundedToUnit(x: real)
    ensures x - 0.5 <= ToFixed(x, 0) <= x + 0.5
    ensures x >= 0.0 ==> ToFixed(x, 0) >= 0.0
    ensures x == 0.0 ==> ToFixed(x, 0) == 0.0
  {
    assert Pow10(0) == 1.0;
  }

  /** A product of a value and three non-negative factors keeps the value's sign, and a zero factor zeroes it. */
  lemma FourProductSign(a: real, b: real, c: real, d: real)
    requires b >= 0.0 && c >= 0.0 && d >= 0.0
    ensures a >= 0.0 ==> a * b * c * d >= 0.0
    ensures b == 0.0 || c == 0.0 || d == 0.0 ==> a * b * c * d == 0.0
  {
    if a >= 0.0 {
      MulNonNegative(a, b);
      MulNonNegative(a * b, c);
      MulNonNegative(a * b * c, d);
    }
  }

  /** The preview verdict: production ready from 0.7, needs review from 0.5, scrap below; viable iff not scrap. */
  lemma VerdictThresholds(q: real)
    ensures VerdictOf(q) == ProductionReady <==> q >= 0.7
    ensures VerdictOf(q) == NeedsReview <==> 0.5 <= q < 0.7
    ensures VerdictOf(q) == Scrap <==> q < 0.5
  {
  }

  /** For generated estimates the preview quality is between 0 and the 0.95 safety factor. */
  lemma GeneratedQualityBounded(a: PromptAnalysis, t: Transcendental)
    requires Sound(t) && a.hardConstraintCount >= 0
    ensures 0.0 <= PreviewQuality(Estimates(a), t) <= 0.95
  {
    var e := Estimates(a);
    ProductInUnit(e.constraintScore, e.contextScore, e.feasibilityScore);
    var g := Cbrt(t, ScoreProduct(e));
    assert 0.0 <= g <= 1.0;
    MulFraction(g, 0.95);
  }

  /** `Math.round(x * 5)` of a fraction is a score on the 0..5 scale. */
  lemma RoundedScore(x: real)
    requires 0.0 <= x <= 1.0
    ensures 0 <= Round(x * 5.0) <= 5
  {
  }

  /**
   * The pre-filled request feeds the engine the estimates themselves: the
   * fix time as edit seconds and EAVP edit minutes, one API cost for all
   * three protocols, 80% of the typing time as VECTOR's time saved, no
   * regenerations, and VECTOR scores on the 0..5 scale whenever the
   * estimated fractions are fractions.
   */
  lemma ApplyFeedsEngine(prompt: string, e: EstimatedValues)
    requires e.typingWPM != 0.0
    ensures DLAInputOf(ApplyValues(prompt, e)).editSessionSeconds == 60.0 * e.estimatedFixTime
    ensures EAVPInputOf(ApplyValues(prompt, e)).editTime == e.estimatedFixTime
    ensures EAVPInputOf(ApplyValues(prompt, e)).regenerations == 0.0
    ensures DLAInputOf(ApplyValues(prompt, e)).humanReadingWpm == 250.0
    ensures 0.0 <= e.constraintScore <= 1.0 && 0.0 <= e.contextScore <= 1.0 &&
            0.0 <= e.feasibilityScore <= 1.0 && 0.0 <= e.safetyFactor <= 1.0 ==>
              ScoresInRange(VECTORInputOf(ApplyValues(prompt, e)))
  {
    if 0.0 <= e.constraintScore <= 1.0 && 0.0 <= e.contextScore <= 1.0 &&
       0.0 <= e.feasibilityScore <= 1.0 && 0.0 <= e.safetyFactor <= 1.0 {
      RoundedScore(e.constraintScore);
      RoundedScore(e.contextScore);
      RoundedScore(e.feasibilityScore);
      RoundedScore(1.0 - e.safetyFactor);
    }
  }

  /** Generated estimates give VECTOR scores 2..5 for constraints, 3 or 4 for context, 3..5 for feasibility, and 0 for safety. */
  lemma GeneratedScores(a: PromptAnalysis)
    requires a.hardConstraintCount >= 0
    ensures var v := VECTORInputOf(ApplyValues("", Estimates(a)));
      2.0 <= v.score_constraints <= 5.0 && v.score_context in {3.0, 4.0} &&
      3.0 <= v.score_feasibility <= 5.0 && v.score_safety == 0.0
  {
    var e := Estimates(a);
    assert 1.5 <= e.constraintScore * 5.0 <= 5.0;
  }
}
